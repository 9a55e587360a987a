/**
 * An abstract model of a `rate-limiter-flexible` limiter backed by a shared
 * counter store: per-key consumed-point counters and a `points` budget.
 * Expiry, blocking timers and the store's wire protocol are not modelled; the
 * store's reachability and its reported wait (`msBeforeNext`) are inputs.
 */
module RateLimiting {

  /** The library's `RateLimiterRes`. */
  datatype RateLimiterRes = RateLimiterRes(consumedPoints: nat, remainingPoints: nat, msBeforeNext: nat)

  /**
   * What the store does on one call: it answers, reporting the wait until the key's
   * window resets, or it fails; `applied` says whether the increment had already
   * taken effect in the store when the failure was reported (a lost reply, a timeout).
   */
  datatype StoreCondition = Reachable(msBeforeNext: nat) | Unreachable(reason: string, applied: bool)

  /** Why a consume promise rejects: the budget is spent (a `RateLimiterRes`) or the store failed (an `Error`). */
  datatype Rejection = LimitReached(res: RateLimiterRes) | StoreFailure(reason: string)

  /** How a consume promise settles. */
  datatype ConsumeOutcome = Resolved(res: RateLimiterRes) | Rejected(rejection: Rejection)

  /** The points consumed so far under `key`; an absent key has consumed none. */
  function Count(counters: map<string, nat>, key: string): (n: nat)
  {
    if key in counters then counters[key] else 0
  }

  /**
   * `consume(key)` with one point: when the store answers, the key's counter grows
   * by one and the promise resolves exactly when the new count is within the budget;
   * when it fails, the promise rejects with the store's error, and the key has
   * gained its point only if the increment was applied before the failure.
   */
  function ConsumeStep(counters: map<string, nat>, points: nat, key: string, store: StoreCondition)
    : (r: (map<string, nat>, ConsumeOutcome))
    ensures store.Unreachable? ==> r.1 == Rejected(StoreFailure(store.reason))
    ensures store.Unreachable? && !store.applied ==> r.0 == counters
    ensures store.Reachable? || store.applied ==> Count(r.0, key) == Count(counters, key) + 1
    ensures forall k :: k != key ==> Count(r.0, k) == Count(counters, k)
    ensures store.Reachable? ==> (r.1.Resolved? <==> Count(r.0, key) <= points)
    ensures store.Reachable? && r.1.Resolved? ==> r.1.res.consumedPoints == Count(r.0, key)
    ensures store.Reachable? && r.1.Rejected? ==>
      r.1.rejection.LimitReached? && r.1.rejection.res.consumedPoints == Count(r.0, key)
  {
    match store
    case Unreachable(reason, applied) =>
      (if applied then counters[key := Count(counters, key) + 1] else counters, Rejected(StoreFailure(reason)))
    case Reachable(ms) =>
      var consumed := Count(counters, key) + 1;
      var res := RateLimiterRes(consumed, if consumed <= points then points - consumed else 0, ms);
      (counters[key := consumed], if consumed <= points then Resolved(res) else Rejected(LimitReached(res)))
  }

  /** `n` consumes in a row on one key while the store answers. */
  function ConsumeRepeatedly(counters: map<string, nat>, points: nat, key: string, ms: nat, n: nat)
    : (r: (map<string, nat>, seq<ConsumeOutcome>))
    ensures |r.1| == n
    decreases n
  {
    if n == 0 then (counters, [])
    else
      var (next, outcome) := ConsumeStep(counters, points, key, Reachable(ms));
      var (last, outcomes) := ConsumeRepeatedly(next, points, key, ms, n - 1);
      (last, [outcome] + outcomes)
  }

  /**
   * The budget: of `n` consumes in a row, the `i`-th (from 0) resolves exactly when
   * the key had consumed fewer than `points - i` before; the key ends `n` points higher.
   * From a fresh key, the first `points` consumes resolve and every later one rejects.
   */
  lemma {:induction false} ConsumeRepeatedlyBudget(counters: map<string, nat>, points: nat, key: string, ms: nat, n: nat)
    ensures var r := ConsumeRepeatedly(counters, points, key, ms, n);
      && Count(r.0, key) == Count(counters, key) + n
      && forall i :: 0 <= i < n ==> (r.1[i].Resolved? <==> Count(counters, key) + i + 1 <= points)
    decreases n
  {
    if n > 0 {
      var (next, outcome) := ConsumeStep(counters, points, key, Reachable(ms));
      ConsumeRepeatedlyBudget(next, points, key, ms, n - 1);
      var r := ConsumeRepeatedly(counters, points, key, ms, n);
      var rest := ConsumeRepeatedly(next, points, key, ms, n - 1);
      assert r.1 == [outcome] + rest.1;
      forall i | 0 <= i < n
        ensures r.1[i].Resolved? <==> Count(counters, key) + i + 1 <= points
      {
        if i > 0 {
          assert r.1[i] == rest.1[i - 1];
        }
      }
    }
  }

  /** One limiter instance (`RateLimiterRedis`): its budget and the counters it keeps in the store. */
  class RateLimiter {
    const points: nat
    var counters: map<string, nat>

    constructor (points: nat)
      ensures this.points == points && counters == map[]
    {
      this.points := points;
      counters := map[];
    }

    /** `consume(key)`: settles as `ConsumeStep` says and leaves the counters it leaves. */
    method Consume(key: string, store: StoreCondition) returns (outcome: ConsumeOutcome)
      modifies this
      ensures (counters, outcome) == ConsumeStep(old(counters), points, key, store)
    {
      var step := ConsumeStep(counters, points, key, store);
      counters := step.0;
      outcome := step.1;
    }

    /** `delete(key)`: the key's counter is removed; other keys keep theirs. */
    method Delete(key: string)
      modifies this
      ensures counters == old(counters) - {key}
      ensures Count(counters, key) == 0
    {
      counters := counters - {key};
    }
  }
}
