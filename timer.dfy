/**
 * The firmware's `Timer`: runs its callback when polled with the clock behind the
 * last run, or past the last run plus `interval` milliseconds, that sum taken in
 * wrapping `unsigned long` arithmetic. The clock and the callback are parameters of
 * the model: every poll is given the `millis()` value, and the callback is counted.
 * `Due` is the test with the sum replaced by the elapsed time, which the timer
 * evidently intends and which agrees with the written test while the sum does not wrap.
 */
module Timers {
  import opened Arduino

  /** The test `update` writes: the clock is behind the last run, or past the last
      run plus the interval, that sum being taken in wrapping `unsigned long`
      arithmetic. */
  predicate DueAsWritten(lastInvokeAt: ULong, interval: ULong, m: ULong)
  {
    lastInvokeAt > m || m > WrapAdd(lastInvokeAt, interval)
  }

  /** The test with the sum replaced by the elapsed time, which cannot wrap once the
      clock is known to be at or past the last run. */
  predicate Due(lastInvokeAt: ULong, interval: ULong, m: ULong)
  {
    lastInvokeAt > m || m - lastInvokeAt > interval
  }

  /** The written test misfires: 100 ms after a run at 2^32 - 500 with the default
      1000 ms interval, the sum has wrapped to 500 and the timer fires early. */
  lemma AsWrittenFiresEarly()
    ensures DueAsWritten(ULongModulus - 500, 1000, ULongModulus - 400)
    ensures !Due(ULongModulus - 500, 1000, ULongModulus - 400)
  {
  }

  /** Away from the wrap the two tests agree. */
  lemma AsWrittenAgreesWithoutOverflow(lastInvokeAt: ULong, interval: ULong, m: ULong)
    requires lastInvokeAt + interval < ULongModulus
    ensures DueAsWritten(lastInvokeAt, interval, m) <==> Due(lastInvokeAt, interval, m)
  {
  }

  /** After a run at m, no poll up to `interval` ms later is due, wrap or not. */
  lemma NotDueWithinInterval(m: ULong, interval: ULong, later: ULong)
    requires m <= later <= m + interval
    ensures !Due(m, interval, later)
  {
  }

  /** Once the sum wraps, the written test holds at every reading from the last run up
      to the clock's own wrap: the timer fires on every poll in that stretch. */
  lemma AsWrittenDueAfterWrappedRun(lastInvokeAt: ULong, interval: ULong, m: ULong)
    requires lastInvokeAt + interval >= ULongModulus && lastInvokeAt <= m
    ensures DueAsWritten(lastInvokeAt, interval, m)
  {
    assert WrapAdd(lastInvokeAt, interval) == lastInvokeAt + interval - ULongModulus;
  }

  /** A clock reading below the last run (the clock wrapped) is always due, and so is
      any reading more than `interval` ms after it. */
  lemma DueOnWrapOrElapsed(lastInvokeAt: ULong, interval: ULong, m: ULong)
    ensures m < lastInvokeAt ==> Due(lastInvokeAt, interval, m)
    ensures m >= lastInvokeAt + interval + 1 ==> Due(lastInvokeAt, interval, m)
  {
  }

  class Timer {
    var interval: ULong
    var lastInvokeAt: ULong
    /** How many times the callback has run. */
    var invocations: nat

    /** The defaults: a 1000 ms interval, last run at 0. */
    constructor()
      ensures interval == 1000 && lastInvokeAt == 0 && invocations == 0
    {
      interval := 1000;
      lastInvokeAt := 0;
      invocations := 0;
    }

    /** `fire(m)`: records m as the time of the last run and runs the callback once. */
    method Fire(m: ULong)
      modifies this`lastInvokeAt, this`invocations
      ensures lastInvokeAt == m
      ensures invocations == old(invocations) + 1
    {
      lastInvokeAt := m;
      invocations := invocations + 1;
    }

    /** `update()` with `millis()` = m: fires when the written test holds; otherwise
        changes nothing. */
    method Update(m: ULong)
      modifies this`lastInvokeAt, this`invocations
      ensures old(DueAsWritten(lastInvokeAt, interval, m)) ==>
                lastInvokeAt == m && invocations == old(invocations) + 1
      ensures !old(DueAsWritten(lastInvokeAt, interval, m)) ==>
                lastInvokeAt == old(lastInvokeAt) && invocations == old(invocations)
    {
      if lastInvokeAt > m || m > WrapAdd(lastInvokeAt, interval) {
        Fire(m);
      }
    }
  }

  /** Firing then polling within the interval runs the callback exactly once, provided
      the run plus the interval does not wrap. */
  method FireThenPoll(t: Timer, m: ULong, later: ULong)
    requires m <= later <= m + t.interval < ULongModulus
    modifies t`lastInvokeAt, t`invocations
    ensures t.invocations == old(t.invocations) + 1 && t.lastInvokeAt == m
  {
    t.Fire(m);
    NotDueWithinInterval(m, t.interval, later);
    AsWrittenAgreesWithoutOverflow(m, t.interval, later);
    t.Update(later);
  }

  /** When the run plus the interval wraps, a poll at any later reading before the
      clock's own wrap runs the callback a second time. */
  method FireThenPollWrapped(t: Timer, m: ULong, later: ULong)
    requires m <= later && m + t.interval >= ULongModulus
    modifies t`lastInvokeAt, t`invocations
    ensures t.invocations == old(t.invocations) + 2 && t.lastInvokeAt == later
  {
    t.Fire(m);
    AsWrittenDueAfterWrappedRun(m, t.interval, later);
    t.Update(later);
  }
}
