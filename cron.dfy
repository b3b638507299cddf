// The gate in front of the scheduled-job endpoints
// (backend/src/middleware/cron.middleware.ts).
module Cron {
  import opened Wrappers

  datatype CronDecision = Allow | Reject(status: nat, error: string)

  /** JavaScript truthiness of an optional string. */
  predicate Truthy(v: Option<string>) {
    v.Some? && v.value != ""
  }

  /** The supplied secret: the `x-cron-secret` header when it is truthy, else
      the `secret` query parameter. */
  function SuppliedSecret(header: Option<string>, query: Option<string>): (r: Option<string>)
    ensures Truthy(header) ==> r == header
    ensures !Truthy(header) ==> r == query
  {
    if Truthy(header) then header else query
  }

  /** `verifyCronSecret`, with the environment (`NODE_ENV`, `CRON_SECRET`)
      passed in. */
  function VerifyCronSecret(nodeEnv: Option<string>, cronSecret: Option<string>,
                            header: Option<string>, query: Option<string>): (r: CronDecision)
    ensures nodeEnv != Some("production") && !Truthy(cronSecret) ==> r == Allow
    ensures nodeEnv == Some("production") && !Truthy(cronSecret) ==> r == Reject(500, "Server misconfiguration")
    ensures Truthy(cronSecret) ==> (r == Allow <==> SuppliedSecret(header, query) == cronSecret)
    ensures Truthy(cronSecret) && r != Allow ==> r == Reject(401, "Unauthorized")
  {
    var secret := SuppliedSecret(header, query);
    if nodeEnv != Some("production") && !Truthy(cronSecret) then Allow
    else if !Truthy(cronSecret) then Reject(500, "Server misconfiguration")
    else if secret != cronSecret then Reject(401, "Unauthorized")
    else Allow
  }

  /** Once a secret is configured, only a request that carries it, by header
      or by query, gets through, whatever the environment. */
  lemma ConfiguredSecretDecides(nodeEnv: Option<string>, secret: string, header: Option<string>, query: Option<string>)
    requires secret != ""
    ensures VerifyCronSecret(nodeEnv, Some(secret), header, query) == Allow
      <==> header == Some(secret) || (!Truthy(header) && query == Some(secret))
  {
  }
}
