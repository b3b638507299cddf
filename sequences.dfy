/** Generic facts about sequences: filtering, which several source files do
    with `Array.prototype.filter`, and concatenation. */
module Sequences {
  import opened Wrappers

  lemma AppendAssoc<T>(a: seq<T>, b: seq<T>, c: seq<T>)
    ensures a + (b + c) == (a + b) + c
  {
  }

  /** The elements of xs that satisfy p, in order. */
  function Filter<T>(xs: seq<T>, p: T -> bool): (r: seq<T>)
    ensures |r| <= |xs|
  {
    if xs == [] then [] else Filter(xs[..|xs| - 1], p) + (if p(xs[|xs| - 1]) then [xs[|xs| - 1]] else [])
  }

  /** The filtered elements are the elements that satisfy p. */
  lemma {:induction false} FilterMember<T>(xs: seq<T>, p: T -> bool, x: T)
    ensures x in Filter(xs, p) <==> x in xs && p(x)
  {
    if xs != [] {
      var init, last := xs[..|xs| - 1], xs[|xs| - 1];
      assert xs == init + [last];
      FilterMember(init, p, x);
    }
  }

  /** Every filtered element satisfies p. */
  lemma {:induction false} FilterSatisfies<T>(xs: seq<T>, p: T -> bool)
    ensures forall k :: 0 <= k < |Filter(xs, p)| ==> p(Filter(xs, p)[k])
  {
    if xs != [] {
      var init := xs[..|xs| - 1];
      FilterSatisfies(init, p);
      var r, prev := Filter(xs, p), Filter(init, p);
      forall k | 0 <= k < |r| ensures p(r[k]) {
        if k < |prev| {
          assert r[k] == prev[k];
        }
      }
    }
  }

  lemma {:induction false} FilterAppend<T>(xs: seq<T>, ys: seq<T>, p: T -> bool)
    ensures Filter(xs + ys, p) == Filter(xs, p) + Filter(ys, p)
  {
    if ys != [] {
      var init, last := ys[..|ys| - 1], ys[|ys| - 1];
      FilterAppend(xs, init, p);
      assert (xs + ys)[..|xs + ys| - 1] == xs + init;
    } else {
      assert xs + ys == xs;
    }
  }

  lemma {:induction false} FilterAll<T>(xs: seq<T>, p: T -> bool)
    requires forall k :: 0 <= k < |xs| ==> p(xs[k])
    ensures Filter(xs, p) == xs
  {
    if xs != [] {
      FilterAll(xs[..|xs| - 1], p);
    }
  }

  lemma {:induction false} FilterNone<T>(xs: seq<T>, p: T -> bool)
    requires forall k :: 0 <= k < |xs| ==> !p(xs[k])
    ensures Filter(xs, p) == []
  {
    if xs != [] {
      FilterNone(xs[..|xs| - 1], p);
    }
  }

  /** Filtering by p, then by a q that implies p, is filtering by q. */
  lemma {:induction false} FilterNarrower<T>(xs: seq<T>, p: T -> bool, q: T -> bool)
    requires forall k :: 0 <= k < |xs| && q(xs[k]) ==> p(xs[k])
    ensures Filter(Filter(xs, p), q) == Filter(xs, q)
  {
    if xs != [] {
      var init, last := xs[..|xs| - 1], xs[|xs| - 1];
      FilterNarrower(init, p, q);
      FilterAppend(Filter(init, p), if p(last) then [last] else [], q);
    }
  }

  /** The first element of xs that satisfies p, as `rows[0]` of a query
      result or `Array.prototype.find`. */
  function Find<T>(xs: seq<T>, p: T -> bool): (r: Option<T>)
    ensures r.Some? ==> r.value in xs && p(r.value)
    ensures r.None? <==> forall k :: 0 <= k < |xs| ==> !p(xs[k])
  {
    if xs == [] then None
    else if p(xs[0]) then Some(xs[0])
    else
      var rest := Find(xs[1..], p);
      assert forall k :: 1 <= k < |xs| ==> xs[k] == xs[1..][k - 1];
      rest
  }

  /** Appending keeps an earlier match, and an element that matches is found
      at the latest at its own position. */
  lemma {:induction false} FindAppend<T>(xs: seq<T>, y: T, p: T -> bool)
    ensures Find(xs + [y], p) == if Find(xs, p).Some? then Find(xs, p) else if p(y) then Some(y) else None
  {
    if xs != [] {
      assert (xs + [y])[1..] == xs[1..] + [y];
      FindAppend(xs[1..], y, p);
    } else {
      assert ([] + [y])[1..] == [];
    }
  }

  /** The last element of xs that satisfies p: the first row of a query
      ordered newest first over a table kept in creation order. */
  function FindLast<T>(xs: seq<T>, p: T -> bool): (r: Option<T>)
    ensures r.Some? ==> r.value in xs && p(r.value)
    ensures r.None? <==> forall k :: 0 <= k < |xs| ==> !p(xs[k])
  {
    if xs == [] then None
    else if p(xs[|xs| - 1]) then Some(xs[|xs| - 1])
    else FindLast(xs[..|xs| - 1], p)
  }

  /** Appending an element that matches makes it the last match. */
  lemma FindLastAppend<T>(xs: seq<T>, y: T, p: T -> bool)
    ensures FindLast(xs + [y], p) == if p(y) then Some(y) else FindLast(xs, p)
  {
    assert (xs + [y])[..|xs|] == xs;
  }

}
