/** Renewal times and retry backoff. Durations and instants are nanoseconds, as in `time.Duration`. */
module Scheduler {

  const SECOND: int := 1_000_000_000
  const HOUR: int := 3600 * SECOND
  const INT64_LIMIT: int := 0x8000_0000_0000_0000

  /** `digest` stands for the first eight bytes of SHA-256 over the address and the expiry. */
  datatype Policy = Policy(renewBefore: int, retryMin: int, retryMax: int, jitterMax: int,
                           digest: (string, int) -> nat) {

    predicate Validate() {
      && 48 * HOUR <= renewBefore <= 96 * HOUR
      && 0 < retryMin <= retryMax
      && 0 <= jitterMax
    }

    /** Every duration fits `time.Duration`. */
    predicate InRange() {
      retryMax < INT64_LIMIT && jitterMax < INT64_LIMIT
    }

    function Jitter(ip: string, expiresAt: int): int {
      if jitterMax <= 0 then 0 else digest(ip, expiresAt) % jitterMax
    }

    function NextRenewal(ip: string, expiresAt: int): int {
      expiresAt - renewBefore + Jitter(ip, expiresAt)
    }

    /** The delay that `RetryDelay` computes: the doubling series cut at `retryMax`, except that a
        value one short of the cut is rounded up to it (the loop compares with `retryMax / 2`). */
    function Delay(attempt: int): int {
      var doubled := Doubled(attempt);
      if attempt > 0 && doubled == retryMax - 1 then retryMax else Min(retryMax, doubled)
    }

    function Doubled(attempt: int): int {
      retryMin * Pow2(if attempt < 0 then 0 else attempt)
    }
  }

  predicate Due(now: int, nextRenewal: int) {
    now >= nextRenewal
  }

  /** `Time.Unix()` and `time.Unix(s, 0)`. */
  function Unix(instant: int): int { instant / SECOND }
  function FromUnix(seconds: int): int { seconds * SECOND }

  /** The `next_renewal_at` column for a certificate that expires at `expiresAt` seconds. */
  function StoredRenewal(p: Policy, ip: string, expiresAt: int): int {
    Unix(p.NextRenewal(ip, FromUnix(expiresAt)))
  }

  /** The `next_retry_at` column for the attempt number `attempt` that failed at `failedAt`. */
  function StoredRetry(p: Policy, attempt: int, failedAt: int): int {
    Unix(failedAt + p.Delay(attempt))
  }

  function Min(a: int, b: int): int { if a <= b then a else b }

  function Pow2(n: nat): (r: nat)
    ensures r >= 1
  {
    if n == 0 then 1 else 2 * Pow2(n - 1)
  }

  lemma {:induction false} Pow2Grows(m: nat, n: nat)
    requires m <= n
    ensures Pow2(m) <= Pow2(n)
  {
    if m < n {
      Pow2Grows(m, n - 1);
    }
  }

  lemma DoubledGrows(p: Policy, a: int, b: int)
    requires p.Validate() && a <= b
    ensures p.Doubled(a) <= p.Doubled(b)
  {
    var m: nat := if a < 0 then 0 else a;
    var n: nat := if b < 0 then 0 else b;
    Pow2Grows(m, n);
    assert p.retryMin * Pow2(m) <= p.retryMin * Pow2(n);
  }

  /** The loop of the source: the doubling never leaves int64 and the result is `Delay`. */
  method RetryDelay(p: Policy, attempt: int) returns (delay: int)
    requires p.Validate() && p.InRange()
    ensures delay == p.Delay(attempt)
    ensures p.retryMin <= delay <= p.retryMax
  {
    var n := if attempt < 0 then 0 else attempt;
    delay := p.retryMin;
    DoubledGrows(p, 0, n);
    for i := 0 to n
      invariant delay == p.Doubled(i) <= p.retryMax
      invariant p.retryMin <= delay
      invariant i > 0 ==> delay <= p.retryMax - 2
    {
      DoubledGrows(p, i + 1, n);
      assert p.Doubled(i + 1) == 2 * delay;
      if delay >= p.retryMax / 2 {
        return p.retryMax;
      }
      assert 2 * delay < INT64_LIMIT;
      delay := 2 * delay;
    }
    if delay > p.retryMax {
      return p.retryMax;
    }
  }

  /** The backoff never shrinks as failures accumulate and stays between its two bounds. */
  lemma DelayIsMonotone(p: Policy, a: int, b: int)
    requires p.Validate() && a <= b
    ensures p.retryMin <= p.Delay(a) <= p.Delay(b) <= p.retryMax
  {
    DoubledGrows(p, a, b);
    DoubledGrows(p, Min(a, 0), a);
  }

  /** The closed form min(retryMax, retryMin * 2^attempt) holds exactly when the doubled value is
      not one nanosecond short of the cap, and misses it by one nanosecond otherwise. */
  lemma ClosedFormExactness(p: Policy, attempt: int)
    requires p.Validate()
    ensures p.Delay(attempt) == Min(p.retryMax, p.Doubled(attempt))
            <==> !(attempt > 0 && p.Doubled(attempt) == p.retryMax - 1)
    ensures 0 <= p.Delay(attempt) - Min(p.retryMax, p.Doubled(attempt)) <= 1
    ensures p.retryMax % 2 == 0 ==> p.Delay(attempt) == Min(p.retryMax, p.Doubled(attempt))
  {
    if attempt > 0 {
      assert p.Doubled(attempt) == 2 * (p.retryMin * Pow2(attempt - 1));
    }
  }

  /** The jitter is what remains of the digest after as many whole windows as fit, and nothing without a window. */
  lemma JitterIsRemainder(p: Policy, ip: string, expiresAt: int) returns (windows: nat)
    requires p.Validate()
    ensures p.NextRenewal(ip, expiresAt) == expiresAt - p.renewBefore + p.Jitter(ip, expiresAt)
    ensures p.jitterMax == 0 ==> p.Jitter(ip, expiresAt) == 0
    ensures p.jitterMax > 0 ==> && 0 <= p.Jitter(ip, expiresAt) < p.jitterMax
                                && p.digest(ip, expiresAt) == windows * p.jitterMax + p.Jitter(ip, expiresAt)
  {
    windows := if p.jitterMax > 0 then p.digest(ip, expiresAt) / p.jitterMax else 0;
  }

  /** The renewal instant lies in the jitter window that starts `renewBefore` ahead of the expiry. */
  lemma RenewalWindow(p: Policy, ip: string, expiresAt: int)
    requires p.Validate()
    ensures expiresAt - p.renewBefore <= p.NextRenewal(ip, expiresAt)
    ensures p.jitterMax == 0 ==> p.NextRenewal(ip, expiresAt) == expiresAt - p.renewBefore
    ensures p.jitterMax > 0 ==> p.NextRenewal(ip, expiresAt) < expiresAt - p.renewBefore + p.jitterMax
  {
  }

  /** Run times in order, no two consecutive ones further apart than `period`. */
  ghost predicate Periodic(runs: seq<int>, period: int) {
    forall i :: 0 <= i < |runs| - 1 ==> runs[i] <= runs[i + 1] <= runs[i] + period
  }

  /** The runs start no later than the stored renewal time and go on until it has passed. */
  ghost predicate Spans(runs: seq<int>, stored: int) {
    |runs| > 0 && runs[0] <= FromUnix(stored) <= runs[|runs| - 1]
  }

  ghost predicate RenewedInTime(runs: seq<int>, stored: int, expiry: int) {
    exists i :: 0 <= i < |runs| && FromUnix(stored) <= runs[i] < expiry
  }

  ghost predicate AlwaysInTime(stored: int, period: int, expiry: int) {
    forall runs: seq<int> :: Periodic(runs, period) && Spans(runs, stored) ==> RenewedInTime(runs, stored, expiry)
  }

  lemma {:induction false} FirstDueRun(runs: seq<int>, stored: int, period: int, expiry: int)
    requires Periodic(runs, period) && Spans(runs, stored) && period >= 1
    requires FromUnix(stored) + period <= expiry
    ensures RenewedInTime(runs, stored, expiry)
    decreases |runs|
  {
    if Due(runs[0], FromUnix(stored)) {
      assert runs[0] < expiry;
    } else {
      var rest := runs[1..];
      if Due(rest[0], FromUnix(stored)) {
        assert runs[1] <= runs[0] + period < expiry;
      } else {
        assert rest[|rest| - 1] == runs[|runs| - 1];
        assert Periodic(rest, period) by {
          forall i | 0 <= i < |rest| - 1 ensures rest[i] <= rest[i + 1] <= rest[i] + period {
            assert rest[i] == runs[i + 1] && rest[i + 1] == runs[i + 2];
          }
        }
        FirstDueRun(rest, stored, period, expiry);
        var i :| 0 <= i < |rest| && Due(rest[i], FromUnix(stored)) && rest[i] < expiry;
        assert runs[i + 1] == rest[i];
      }
    }
  }

  /** Every schedule with gaps of at most `period` renews before the expiry exactly when the stored
      time leaves one whole period. */
  lemma InTimeExactly(stored: int, period: int, expiry: int)
    requires period >= 1
    ensures AlwaysInTime(stored, period, expiry) <==> FromUnix(stored) + period <= expiry
  {
    if FromUnix(stored) + period <= expiry {
      forall runs: seq<int> | Periodic(runs, period) && Spans(runs, stored)
        ensures RenewedInTime(runs, stored, expiry)
      {
        FirstDueRun(runs, stored, period, expiry);
      }
    } else {
      var late := [FromUnix(stored) - 1, FromUnix(stored) - 1 + period];
      assert Periodic(late, period) && Spans(late, stored);
      assert !RenewedInTime(late, stored, expiry);
    }
  }

  /** A jitter and a run period that fit into `renewBefore` guarantee renewal before expiry,
      the truncation of the stored time to seconds included. */
  lemma RenewalBeforeExpiry(p: Policy, ip: string, expiresAt: int, period: int)
    requires p.Validate() && period >= 1 && p.jitterMax + period <= p.renewBefore
    ensures AlwaysInTime(StoredRenewal(p, ip, expiresAt), period, FromUnix(expiresAt))
  {
    RenewalWindow(p, ip, FromUnix(expiresAt));
    InTimeExactly(StoredRenewal(p, ip, expiresAt), period, FromUnix(expiresAt));
  }

  ghost predicate RenewsInTime(p: Policy, ip: string, expiresAt: int, period: int)
  {
    AlwaysInTime(StoredRenewal(p, ip, expiresAt), period, FromUnix(expiresAt))
  }

  /** The same policy with another digest. */
  function WithDigest(p: Policy, digest: (string, int) -> nat): Policy
  {
    p.(digest := digest)
  }

  /** The latest stored renewal time that the jitter allows, relative to the expiry: whole seconds, rounded down. */
  function LatestRenewal(p: Policy): int
  {
    FromUnix(Unix((if p.jitterMax <= 0 then 0 else p.jitterMax - 1) - p.renewBefore))
  }

  lemma StoredBeforeLatest(p: Policy, ip: string, expiresAt: int)
    requires p.Validate()
    ensures FromUnix(StoredRenewal(p, ip, expiresAt)) <= FromUnix(expiresAt) + LatestRenewal(p)
    ensures p.jitterMax <= 0 || p.digest(ip, FromUnix(expiresAt)) == p.jitterMax - 1 ==>
              FromUnix(StoredRenewal(p, ip, expiresAt)) == FromUnix(expiresAt) + LatestRenewal(p)
  {
    var window := (if p.jitterMax <= 0 then 0 else p.jitterMax - 1) - p.renewBefore;
    var jitter := p.Jitter(ip, FromUnix(expiresAt)) - p.renewBefore;
    assert Unix(FromUnix(expiresAt) + jitter) == expiresAt + Unix(jitter);
    assert Unix(FromUnix(expiresAt) + window) == expiresAt + Unix(window);
    assert jitter <= window;
  }

  /** `Validate` does not bound the jitter by `renewBefore`. Every address and every expiry is renewed in time, whatever
      the digest, exactly when the latest renewal the parameters allow leaves one whole period. */
  lemma WindowFitsExactly(p: Policy, period: int)
    requires p.Validate() && period >= 1
    ensures (forall digest: (string, int) -> nat, ip: string, expiresAt: int ::
               RenewsInTime(WithDigest(p, digest), ip, expiresAt, period))
            <==> LatestRenewal(p) + period <= 0
  {
    if LatestRenewal(p) + period <= 0 {
      forall digest: (string, int) -> nat, ip: string, expiresAt: int
        ensures RenewsInTime(WithDigest(p, digest), ip, expiresAt, period)
      {
        StoredBeforeLatest(WithDigest(p, digest), ip, expiresAt);
        InTimeExactly(StoredRenewal(WithDigest(p, digest), ip, expiresAt), period, FromUnix(expiresAt));
      }
    } else {
      var most: nat := if p.jitterMax <= 0 then 0 else p.jitterMax - 1;
      var digest: (string, int) -> nat := (ip: string, expiresAt: int) => most;
      StoredBeforeLatest(WithDigest(p, digest), "", 0);
      InTimeExactly(StoredRenewal(WithDigest(p, digest), "", 0), period, FromUnix(0));
      assert !RenewsInTime(WithDigest(p, digest), "", 0, period);
    }
  }

  /** A validated policy that fails it: with this digest every due run comes after the expiry. */
  lemma ValidatedPolicyCanMissExpiry() returns (p: Policy, ip: string, expiresAt: int)
    ensures p.Validate() && p.InRange()
    ensures p.NextRenewal(ip, FromUnix(expiresAt)) > FromUnix(expiresAt)
    ensures forall period :: period >= 1 ==> !AlwaysInTime(StoredRenewal(p, ip, expiresAt), period, FromUnix(expiresAt))
  {
    p := Policy(72 * HOUR, 900 * SECOND, 6 * HOUR, 100 * HOUR, (a: string, t: int) => 99 * HOUR);
    ip, expiresAt := "8.8.8.8", 1_800_000_000;
    assert StoredRenewal(p, ip, expiresAt) == expiresAt + 27 * 3600;
    forall period | period >= 1
      ensures !AlwaysInTime(StoredRenewal(p, ip, expiresAt), period, FromUnix(expiresAt))
    {
      InTimeExactly(StoredRenewal(p, ip, expiresAt), period, FromUnix(expiresAt));
    }
  }
}
