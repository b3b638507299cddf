// The in-memory cache of entity names used by the breadcrumb bar
// (frontend/src/lib/breadcrumbCache.ts).
module BreadcrumbCache {
  import opened Wrappers

  /** The cache key: entity type and id joined by a colon. */
  function Key(entityType: string, entityId: string): (k: string)
    ensures |k| == |entityType| + 1 + |entityId|
    ensures k[..|entityType|] == entityType && k[|entityType|] == ':' && k[|entityType| + 1..] == entityId
  {
    entityType + ":" + entityId
  }

  /** The key is plain concatenation, so two different pairs can share an
      entry: ("a:b", "c") and ("a", "b:c"). */
  lemma KeysCollide()
    ensures ("a:b", "c") != ("a", "b:c") && Key("a:b", "c") == Key("a", "b:c")
  {
  }

  class Cache {
    var cache: map<string, string>

    constructor()
      ensures cache == map[]
    {
      cache := map[];
    }

    /** `get`: the cached name, if any. */
    function Get(entityType: string, entityId: string): (r: Option<string>)
      reads this
      ensures r.Some? <==> Key(entityType, entityId) in cache
      ensures r.Some? ==> r.value == cache[Key(entityType, entityId)]
    {
      var key := Key(entityType, entityId);
      if key in cache then Some(cache[key]) else None
    }

    /** `has`: a pair is present exactly when `get` finds a name for it. */
    predicate Has(entityType: string, entityId: string)
      reads this
      ensures Has(entityType, entityId) <==> Get(entityType, entityId).Some?
    {
      Key(entityType, entityId) in cache
    }

    /** `size` */
    function Size(): (n: nat)
      reads this
      ensures n == 0 <==> cache == map[]
    {
      |cache|
    }

    /** `set`: afterwards the pair reads back the name, no other key changes,
        and the size grows by one exactly when the key was new. */
    method Set(entityType: string, entityId: string, name: string)
      modifies this
      ensures Get(entityType, entityId) == Some(name)
      ensures forall k :: k != Key(entityType, entityId) ==> (k in cache <==> k in old(cache)) && (k in cache ==> cache[k] == old(cache)[k])
      ensures Size() == old(Size()) + (if old(Has(entityType, entityId)) then 0 else 1)
    {
      var key := Key(entityType, entityId);
      if key !in cache {
        assert (cache[key := name]).Keys == cache.Keys + {key};
      } else {
        assert (cache[key := name]).Keys == cache.Keys;
      }
      cache := cache[key := name];
    }

    /** `remove`: afterwards the pair is absent and no other key changes. */
    method Remove(entityType: string, entityId: string)
      modifies this
      ensures !Has(entityType, entityId) && Get(entityType, entityId) == None
      ensures forall k :: k != Key(entityType, entityId) ==> (k in cache <==> k in old(cache)) && (k in cache ==> cache[k] == old(cache)[k])
      ensures Size() == old(Size()) - (if old(Has(entityType, entityId)) then 1 else 0)
    {
      var key := Key(entityType, entityId);
      cache := cache - {key};
    }

    /** `clear` */
    method Clear()
      modifies this
      ensures Size() == 0
    {
      cache := map[];
    }
  }

  /** Through a shared key, setting one pair overwrites the other: after
      `set("a", "b:c", n)`, `get("a:b", "c")` gives `n`. */
  method CollidingSet(c: Cache, name: string)
    modifies c
    ensures c.Get("a:b", "c") == Some(name)
  {
    c.Set("a", "b:c", name);
    KeysCollide();
  }
}
