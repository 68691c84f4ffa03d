/** The hole-punching loop of `validateCandidates` in internal/manager/manager.go for one
    candidate. Times are in milliseconds since the deadline was computed. */
module ProbeLoop {

  const RETRY_INTERVAL: nat := 200
  const TOTAL_TIMEOUT: nat := 30000
  const MAX_ATTEMPTS: nat := 150

  /** What the outside world does in one round: the context, the direct-path flag, how long the
      probe takes and whether it succeeds, by how much the sleep overruns, and whether the
      context is cancelled during the sleep. */
  datatype Round = Round(cancelled: bool, direct: bool, probeTime: nat, success: bool, overrun: nat,
                         cancelledAsleep: bool)

  datatype Outcome =
    | Cancelled
    | CutShort                // a direct path exists already
    | Cooldown                // the address is recorded as failed
    | Validated               // a result is appended to `validated`
    | NilResult               // no probe was made: a nil result is appended and dereferenced

  /** The time at which round `i` starts when the loop was first tested at time `delay`. */
  function StartOf(rounds: nat -> Round, delay: nat, i: nat): nat
  {
    if i == 0 then delay
    else
      var r := rounds(i - 1);
      StartOf(rounds, delay, i - 1) + r.probeTime + RETRY_INTERVAL + r.overrun
  }

  lemma {:induction false} RoundsTakeTime(rounds: nat -> Round, delay: nat, i: nat)
    ensures StartOf(rounds, delay, i) >= delay + RETRY_INTERVAL * i
  {
    if i == 0 {
    } else {
      RoundsTakeTime(rounds, delay, i - 1);
    }
  }

  /** Round `i` runs to a failed probe and an uninterrupted sleep. */
  predicate Fails(r: Round) { !r.cancelled && !r.direct && !r.success && !r.cancelledAsleep }

  /** For every pattern of probe durations: at most 150 attempts; the outcome is decided by the
      first round that does not fail, or by the clock; and the loop falls through to a nil result
      exactly when the clock had run out before the first round. */
  method Probe(rounds: nat -> Round, delay: nat) returns (attempts: nat, o: Outcome)
    ensures attempts <= MAX_ATTEMPTS
    ensures o.NilResult? <==> delay >= TOTAL_TIMEOUT
    ensures o.Cooldown? ==>
              && attempts > 0 && StartOf(rounds, delay, attempts) >= TOTAL_TIMEOUT
              && StartOf(rounds, delay, attempts - 1) < TOTAL_TIMEOUT
              && forall i :: 0 <= i < attempts ==> Fails(rounds(i))
    ensures o.Validated? ==>
              && attempts > 0 && StartOf(rounds, delay, attempts - 1) < TOTAL_TIMEOUT
              && (forall i :: 0 <= i < attempts - 1 ==> Fails(rounds(i)))
              && var r := rounds(attempts - 1); !r.cancelled && !r.direct && r.success
    ensures o.CutShort? ==>
              && StartOf(rounds, delay, attempts) < TOTAL_TIMEOUT
              && (forall i :: 0 <= i < attempts ==> Fails(rounds(i)))
              && !rounds(attempts).cancelled && rounds(attempts).direct
    ensures o.Cancelled? ==>
              || (&& StartOf(rounds, delay, attempts) < TOTAL_TIMEOUT
                  && (forall i :: 0 <= i < attempts ==> Fails(rounds(i)))
                  && rounds(attempts).cancelled)
              || (&& attempts > 0 && StartOf(rounds, delay, attempts - 1) < TOTAL_TIMEOUT
                  && (forall i :: 0 <= i < attempts - 1 ==> Fails(rounds(i)))
                  && var r := rounds(attempts - 1); !r.cancelled && !r.direct && !r.success && r.cancelledAsleep)
  {
    attempts := 0;
    var now := delay;
    var failed := false;
    while now < TOTAL_TIMEOUT
      invariant now == StartOf(rounds, delay, attempts)
      invariant forall i :: 0 <= i < attempts ==> Fails(rounds(i))
      invariant failed == (attempts > 0)
      invariant attempts <= MAX_ATTEMPTS && (attempts > 0 ==> delay < TOTAL_TIMEOUT)
      invariant attempts > 0 ==> StartOf(rounds, delay, attempts - 1) < TOTAL_TIMEOUT
      decreases TOTAL_TIMEOUT - now
    {
      RoundsTakeTime(rounds, delay, attempts);
      var r := rounds(attempts);
      if r.cancelled {
        return attempts, Cancelled;
      }
      if r.direct {
        return attempts, CutShort;
      }
      attempts := attempts + 1;
      if r.success {
        return attempts, Validated;
      }
      failed := true;
      if r.cancelledAsleep {
        return attempts, Cancelled;
      }
      now := now + r.probeTime + RETRY_INTERVAL + r.overrun;
    }
    o := if failed then Cooldown else NilResult;
  }

  /** Probes that fail at once: one every 200 ms for 30 s, which is exactly 150, and then the address is
      on record as failed. */
  method ProbeInVain(rounds: nat -> Round) returns (attempts: nat, o: Outcome)
    requires forall i: nat :: Fails(rounds(i)) && rounds(i).probeTime == 0 && rounds(i).overrun == 0
    ensures attempts == 150 && o == Cooldown
  {
    attempts, o := Probe(rounds, 0);
    InstantRounds(rounds, attempts);
    if attempts > 0 { InstantRounds(rounds, attempts - 1); }
  }

  lemma {:induction false} InstantRounds(rounds: nat -> Round, i: nat)
    requires forall j: nat :: rounds(j).probeTime == 0 && rounds(j).overrun == 0
    ensures StartOf(rounds, 0, i) == 200 * i
  {
    if i == 0 {
    } else {
      InstantRounds(rounds, i - 1);
    }
  }
}
