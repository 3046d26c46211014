/**
 * The firmware's `PiezoBuzzer`: `beep` switches an active buzzer on and records when;
 * `update`, polled from the main loop, switches it off once the clock is behind the
 * start or past the start plus the beep length, that sum taken in wrapping `unsigned
 * long` arithmetic. The clock is a parameter of every call; the pin is modelled by the
 * list of levels written to it. `Expired` is the test with the sum replaced by the
 * elapsed time, which the buzzer evidently intends.
 */
module Buzzer {
  import opened Arduino

  /** The test `update` writes: the clock is behind the start, or past the start plus
      the length, that sum being taken in wrapping `unsigned long` arithmetic. */
  predicate ExpiredAsWritten(start: ULong, length: int, m: ULong)
  {
    start > m || m > WrapAdd(start, length)
  }

  /** The test with the sum replaced by the elapsed time since the start. */
  predicate Expired(start: ULong, length: int, m: ULong)
  {
    start > m || m - start > length
  }

  /** The written test cuts a beep short: a 75 ms beep started 50 ms before the clock
      wraps is switched off 10 ms in, because the sum has wrapped to 25. */
  lemma AsWrittenCutsBeepShort()
    ensures ExpiredAsWritten(ULongModulus - 50, 75, ULongModulus - 40)
    ensures !Expired(ULongModulus - 50, 75, ULongModulus - 40)
  {
  }

  /** For a length that neither wraps nor is negative the two tests agree. */
  lemma AsWrittenAgreesWithoutOverflow(start: ULong, length: int, m: ULong)
    requires 0 <= length && start + length < ULongModulus
    ensures ExpiredAsWritten(start, length, m) <==> Expired(start, length, m)
  {
  }

  /** A beep started at `start` is not expired at any time up to `length` ms later. */
  lemma NotExpiredWithinLength(start: ULong, length: int, m: ULong)
    requires start <= m <= start + length
    ensures !Expired(start, length, m)
  {
  }

  /** Once the start plus a non-negative length wraps, the written test holds at every
      reading from the start up to the clock's own wrap. */
  lemma AsWrittenExpiredAfterWrappedStart(start: ULong, length: int, m: ULong)
    requires 0 <= length < ULongModulus && start + length >= ULongModulus && start <= m
    ensures ExpiredAsWritten(start, length, m)
  {
    assert WrapAdd(start, length) == start + length - ULongModulus;
  }

  class PiezoBuzzer {
    const pin: int
    var beepStart: ULong
    /** `_beepLengthActual`, a `long` the constructor leaves unset. */
    var beepLengthActual: int
    var beepOn: bool
    var mute: bool
    var beepLength: Int16
    /** The levels written to the pin, oldest first. */
    var pinWrites: seq<Level>

    /** The defaults: not beeping, not muted, a 75 ms default length; the actual length
        is whatever the object's storage held. */
    constructor(pin: int)
      ensures this.pin == pin
      ensures beepStart == 0 && !beepOn
      ensures !mute && beepLength == 75 && pinWrites == []
    {
      this.pin := pin;
      beepStart := 0;
      beepOn := false;
      mute := false;
      beepLength := 75;
      pinWrites := [];
    }

    /** `isBeeping()`. */
    function IsBeeping(): (on: bool)
      reads this
      ensures on <==> beepOn
    {
      beepOn
    }

    /** `update()` with `millis()` = m: when the written test holds, clears the flag and
        writes LOW, even when muted or idle; otherwise changes nothing. */
    method Update(m: ULong)
      modifies this`beepOn, this`pinWrites
      ensures old(ExpiredAsWritten(beepStart, beepLengthActual, m)) ==>
                !beepOn && pinWrites == old(pinWrites) + [Low]
      ensures !old(ExpiredAsWritten(beepStart, beepLengthActual, m)) ==>
                beepOn == old(beepOn) && pinWrites == old(pinWrites)
    {
      if beepStart > m || m > WrapAdd(beepStart, beepLengthActual) {
        beepOn := false;
        pinWrites := pinWrites + [Low];
      }
    }

    /** `beep(length)` with `millis()` = m: records the length; a running beep is not
        restarted, only updated; otherwise the beep starts at m and the pin goes HIGH
        unless muted. */
    method Beep(length: Int16, m: ULong)
      modifies this`beepLengthActual, this`beepOn, this`beepStart, this`pinWrites
      ensures beepLengthActual == length
      ensures old(beepOn) ==> beepStart == old(beepStart)
      ensures old(beepOn) && ExpiredAsWritten(old(beepStart), length, m) ==>
                !beepOn && pinWrites == old(pinWrites) + [Low]
      ensures old(beepOn) && !ExpiredAsWritten(old(beepStart), length, m) ==>
                beepOn && pinWrites == old(pinWrites)
      ensures !old(beepOn) ==>
                beepOn && beepStart == m
                && pinWrites == old(pinWrites) + (if mute then [] else [High])
    {
      beepLengthActual := length;
      if beepOn {
        Update(m);
      } else {
        beepOn := true;
        beepStart := m;
        if !mute {
          pinWrites := pinWrites + [High];
        }
      }
    }

    /** `beep()`: a beep of the default length. */
    method BeepDefault(m: ULong)
      modifies this`beepLengthActual, this`beepOn, this`beepStart, this`pinWrites
      ensures beepLengthActual == beepLength
      ensures old(beepOn) ==> beepStart == old(beepStart)
      ensures old(beepOn) && ExpiredAsWritten(old(beepStart), beepLength, m) ==>
                !beepOn && pinWrites == old(pinWrites) + [Low]
      ensures old(beepOn) && !ExpiredAsWritten(old(beepStart), beepLength, m) ==>
                beepOn && pinWrites == old(pinWrites)
      ensures !old(beepOn) ==>
                beepOn && beepStart == m
                && pinWrites == old(pinWrites) + (if mute then [] else [High])
    {
      Beep(beepLength, m);
    }
  }

  /** A beep started from idle is still on when polled within its length, provided the
      start plus the length does not wrap. */
  method BeepThenPoll(b: PiezoBuzzer, length: Int16, m: ULong, later: ULong)
    requires !b.beepOn && 0 <= length && m <= later <= m + length < ULongModulus
    modifies b`beepLengthActual, b`beepOn, b`beepStart, b`pinWrites
    ensures b.beepOn && b.beepStart == m
    ensures b.pinWrites == old(b.pinWrites) + (if b.mute then [] else [High])
  {
    b.Beep(length, m);
    NotExpiredWithinLength(m, length, later);
    AsWrittenAgreesWithoutOverflow(m, length, later);
    b.Update(later);
  }

  /** When the start plus the length wraps, the first poll after the start switches
      the beep off. */
  method BeepThenPollWrapped(b: PiezoBuzzer, length: Int16, m: ULong, later: ULong)
    requires !b.beepOn && 0 <= length && m <= later && m + length >= ULongModulus
    modifies b`beepLengthActual, b`beepOn, b`beepStart, b`pinWrites
    ensures !b.beepOn && b.beepStart == m
    ensures b.pinWrites == old(b.pinWrites) + (if b.mute then [] else [High]) + [Low]
  {
    b.Beep(length, m);
    AsWrittenExpiredAfterWrappedStart(m, length, later);
    b.Update(later);
  }
}
