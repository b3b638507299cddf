// The payment-webhook guards (backend/src/middleware/webhook.middleware.ts):
// the signature-header check and the fixed-window per-address rate limiter
// with its periodic cleanup. The clock is the `now` parameter, in
// milliseconds.
module WebhookLimiter {
  import opened Wrappers

  const WindowMs: int := 60000
  const MaxRequests: nat := 100

  datatype Decision = Next | Reject(status: nat, error: string)

  /** JavaScript truthiness of an optional string. */
  predicate Truthy(v: Option<string>) {
    v.Some? && v.value != ""
  }

  /** `requireWebhookSignature`: a missing or empty signature header is refused. */
  function RequireWebhookSignature(signature: Option<string>): (d: Decision)
    ensures d == Next <==> Truthy(signature)
    ensures d != Next ==> d == Reject(401, "Missing webhook signature")
  {
    if !Truthy(signature) then Reject(401, "Missing webhook signature") else Next
  }

  /** The key a request is counted under: `req.ip`, else the socket's remote
      address, else the shared key "unknown". */
  function ClientKey(ip: Option<string>, remoteAddress: Option<string>): (k: string)
    ensures !Truthy(ip) && !Truthy(remoteAddress) ==> k == "unknown"
    ensures Truthy(ip) ==> k == ip.value
  {
    if Truthy(ip) then ip.value else if Truthy(remoteAddress) then remoteAddress.value else "unknown"
  }

  datatype Record = Record(count: int, resetTime: int)

  /** Every record holds between 1 and 100 counted requests. */
  predicate Bounded(records: map<string, Record>) {
    forall k :: k in records ==> 1 <= records[k].count <= MaxRequests
  }

  /** One request under `key` at `now`: a new key or an expired window starts
      a new window with count 1; a full window refuses with 429 and changes
      nothing; otherwise the count goes up by one. */
  function Limit(records: map<string, Record>, key: string, now: int): (r: (Decision, map<string, Record>))
    ensures r.0 == Next || r.0 == Reject(429, "Too many requests")
    ensures r.0 != Next ==> r.1 == records
    ensures forall k :: k != key ==> (k in r.1 <==> k in records) && (k in r.1 ==> r.1[k] == records[k])
    ensures key in r.1
    ensures Bounded(records) ==> Bounded(r.1)
  {
    if key !in records || now > records[key].resetTime then
      (Next, records[key := Record(1, now + WindowMs)])
    else if records[key].count >= MaxRequests as int then
      (Reject(429, "Too many requests"), records)
    else
      (Next, records[key := records[key].(count := records[key].count + 1)])
  }

  /** Within an open window the count is the number of requests let through
      since the window started: an allowed request adds exactly one. */
  lemma LimitCounts(records: map<string, Record>, key: string, now: int)
    requires key in records && now <= records[key].resetTime
    ensures var (d, after) := Limit(records, key, now);
      && after[key].resetTime == records[key].resetTime
      && (d == Next <==> records[key].count < MaxRequests as int)
      && after[key].count == records[key].count + (if d == Next then 1 else 0)
  {
  }

  /** The requests let through for one key over a run of request times. */
  function AllowedCount(records: map<string, Record>, key: string, times: seq<int>): nat
    decreases |times|
  {
    if times == [] then 0
    else
      var (d, after) := Limit(records, key, times[0]);
      (if d == Next then 1 else 0) + AllowedCount(after, key, times[1..])
  }

  /** While a window is open, at most 100 minus its count more requests get
      through. */
  lemma {:induction false} OpenWindowBound(records: map<string, Record>, key: string, times: seq<int>)
    requires key in records && records[key].count <= MaxRequests as int
    requires forall j :: 0 <= j < |times| ==> times[j] <= records[key].resetTime
    ensures AllowedCount(records, key, times) <= MaxRequests as int - records[key].count
    decreases |times|
  {
    if times != [] {
      LimitCounts(records, key, times[0]);
      var (d, after) := Limit(records, key, times[0]);
      OpenWindowBound(after, key, times[1..]);
    }
  }

  /** At most 100 requests per key get through in one window: after a
      request opens a window, the requests up to its reset time add at most
      99 more. */
  lemma WindowBound(records: map<string, Record>, key: string, times: seq<int>)
    requires times != [] && (key !in records || times[0] > records[key].resetTime)
    requires forall j :: 0 <= j < |times| ==> times[j] <= times[0] + WindowMs
    ensures AllowedCount(records, key, times) <= MaxRequests as int
  {
    var after := Limit(records, key, times[0]).1;
    assert after[key] == Record(1, times[0] + WindowMs);
    OpenWindowBound(after, key, times[1..]);
  }

  /** The records left by the cleanup pass: exactly those whose window has
      not expired. */
  function Unexpired(records: map<string, Record>, now: int): (r: map<string, Record>)
    ensures forall k :: k in r <==> k in records && now <= records[k].resetTime
    ensures forall k :: k in r ==> r[k] == records[k]
  {
    map k | k in records && now <= records[k].resetTime :: records[k]
  }

  class RateLimiter {
    var records: map<string, Record>

    ghost predicate Valid()
      reads this
    {
      Bounded(records)
    }

    constructor()
      ensures Valid() && records == map[]
    {
      records := map[];
    }

    /** `webhookRateLimiter` */
    method Admit(ip: Option<string>, remoteAddress: Option<string>, now: int) returns (d: Decision)
      requires Valid()
      modifies this
      ensures Valid()
      ensures (d, records) == Limit(old(records), ClientKey(ip, remoteAddress), now)
    {
      var key := ClientKey(ip, remoteAddress);
      if key !in records || now > records[key].resetTime {
        records := records[key := Record(1, now + WindowMs)];
        return Next;
      }
      var record := records[key];
      if record.count >= MaxRequests as int {
        return Reject(429, "Too many requests");
      }
      records := records[key := record.(count := record.count + 1)];
      return Next;
    }

    /** The periodic cleanup pass, run at `now`. */
    method Cleanup(now: int)
      requires Valid()
      modifies this
      ensures Valid()
      ensures records == Unexpired(old(records), now)
    {
      var pending := records.Keys;
      ghost var start := records;
      while pending != {}
        invariant pending <= start.Keys
        invariant forall k :: k in records <==> k in start && (k in pending || now <= start[k].resetTime)
        invariant forall k :: k in records ==> records[k] == start[k]
        decreases pending
      {
        var key :| key in pending;
        if now > records[key].resetTime {
          records := records - {key};
        }
        pending := pending - {key};
      }
      assert records == Unexpired(start, now);
    }
  }
}
