/** Retry backoff with deterministic jitter (internal/retry/backoff.go).  The first sixteen bits of
    the SHA-256 digest are a parameter. */
module Backoff {
  import opened Wrappers

  const SECOND := 1_000_000_000

  datatype BackoffError = NoJob | BadAttempt

  /** 2, 4, 8 and 16 seconds; later attempts stay at the last cap. */
  function Cap(failedAttempt: int): (cap: int)
    requires failedAttempt >= 1
    ensures 2 * SECOND <= cap <= 16 * SECOND
  {
    if failedAttempt == 1 then 2 * SECOND
    else if failedAttempt == 2 then 4 * SECOND
    else if failedAttempt == 3 then 8 * SECOND
    else 16 * SECOND
  }

  /** Four fifths of the cap, the shortest delay. */
  function Shortest(failedAttempt: int): (d: int)
    requires failedAttempt >= 1
    ensures d > 0
  {
    Cap(failedAttempt) / 10 * 8
  }

  function Delay(job: string, failedAttempt: int, digest: bv16): (r: Result<int, BackoffError>)
    ensures r.Err? <==> job == "" || failedAttempt < 1
    ensures r.Ok? ==> Shortest(failedAttempt) <= r.value <= Cap(failedAttempt)
  {
    if job == "" then Err(NoJob)
    else if failedAttempt < 1 then Err(BadAttempt)
    else
      var basisPoints := 8_000 + (digest as int) % 2_001;
      Ok(Cap(failedAttempt) * basisPoints / 10_000)
  }

  function ReleaseAt(now: int, job: string, failedAttempt: int, digest: bv16): (r: Result<int, BackoffError>)
    ensures r.Err? <==> job == "" || failedAttempt < 1
    ensures r.Ok? ==> now + Shortest(failedAttempt) <= r.value <= now + Cap(failedAttempt)
  {
    var delay :- Delay(job, failedAttempt, digest);
    Ok(now + delay)
  }
}
