/**
 * The firmware's `AtxVoltmeter`: averages ADC samples of each rail, maps them through
 * the rail's calibration curve, clamps negative voltages to 0, and derives the
 * presence and power states of the supply. The ADC samples, the supply voltage read
 * by `readVcc` and the digital pin levels are parameters of the model.
 */
module Voltmeter {
  import opened Arduino
  import opened Calibration

  /** The five calibration values of one rail: x^4 .. x^1 coefficients and offset. */
  datatype Coefficients = Coefficients(x4: real, x3: real, x2: real, x1: real, sigma: real)

  /** Averages at or below this ADC value read as 0. */
  const TrimLevel: int := 341

  /** The largest value `analogRead` returns (10-bit ADC). */
  const AdcMax: int := 1023

  /** Every sample is a 10-bit ADC reading. */
  predicate AdcSamples(samples: seq<int>)
  {
    forall j :: 0 <= j < |samples| ==> 0 <= samples[j] <= AdcMax
  }

  function IntSum(s: seq<int>): int
  {
    if |s| == 0 then 0 else IntSum(s[..|s| - 1]) + s[|s| - 1]
  }

  /** The number of samples `avgAnalogRead` takes for a given averaging count. */
  function SampleCount(count: int): nat
  {
    if count > 0 then count else 0
  }

  /** What `avgAnalogRead` returns for these samples: the raw sum for a count of at most
      one; otherwise the integer average, trimmed to 0 at or below `TrimLevel`
      (the sum is never negative, so C's truncating division is Dafny's). */
  function Averaged(samples: seq<int>, count: int): int
    requires count >= 2 ==> IntSum(samples) >= 0
  {
    if count <= 1 then IntSum(samples)
    else if IntSum(samples) / count <= TrimLevel then 0
    else IntSum(samples) / count
  }

  lemma {:induction false} IntSumBounds(s: seq<int>, lo: int, hi: int)
    requires forall j :: 0 <= j < |s| ==> lo <= s[j] <= hi
    ensures |s| * lo <= IntSum(s) <= |s| * hi
  {
    if |s| > 0 {
      var init := s[..|s| - 1];
      assert forall j :: 0 <= j < |init| ==> init[j] == s[j];
      IntSumBounds(init, lo, hi);
    }
  }

  /** Integer division by a positive count keeps an upper bound shared by all the
      summands. */
  lemma DivBound(sum: int, count: int, hi: int)
    requires count >= 1 && 0 <= sum <= count * hi
    ensures sum / count <= hi
  {
    var q := sum / count;
    assert q * count <= sum;
  }

  /** An averaged reading is an ADC value: with two or more samples it is 0 or lies
      between the trim level and the largest sample, and never exceeds 1023. */
  lemma AveragedRange(samples: seq<int>, count: int, hi: int)
    requires |samples| == SampleCount(count) && AdcSamples(samples)
    requires forall j :: 0 <= j < |samples| ==> samples[j] <= hi
    requires count >= 2 ==> IntSum(samples) >= 0
    ensures 0 <= Averaged(samples, count) <= AdcMax
    ensures count >= 2 ==>
              Averaged(samples, count) == 0 || TrimLevel < Averaged(samples, count) <= hi
  {
    IntSumBounds(samples, 0, AdcMax);
    if count <= 1 {
      if |samples| == 1 {
        assert samples[..0] == [];
      }
    } else {
      IntSumBounds(samples, 0, hi);
      DivBound(IntSum(samples), count, hi);
      DivBound(IntSum(samples), count, AdcMax);
    }
  }

  /** `senseV*` clamps a calibrated value below 0 to 0. */
  function ClampNonNegative(v: real): (r: real)
    ensures r >= 0.0 && (v >= 0.0 ==> r == v)
  {
    if v < 0.0 then 0.0 else v
  }

  /** `(float)ival * vcc / 1023.0f`: an ADC reading in volts for supply voltage vcc. */
  function AdcVolts(ival: int, vcc: real): real
  {
    (ival as real * vcc) / 1023.0
  }

  /** A calibration curve evaluated at the reading x. */
  function Curve(c: Coefficients, x: real): real
  {
    CalCurve4(c.x4, c.x3, c.x2, c.x1, c.sigma, x)
  }

  /** A trimmed reading gives 0 V on every rail, whatever its curve: the curves are 0
      below 0.5. */
  lemma TrimmedReadsZero(c: Coefficients, vcc: real)
    ensures ClampNonNegative(Curve(c, 0 as real)) == 0.0
    ensures ClampNonNegative(Curve(c, AdcVolts(0, vcc))) == 0.0
  {
  }

  class AtxVoltmeter {
    const v12Pin: int
    const v5Pin: int
    const v5sbPin: int
    const v3_3Pin: int
    const psOnPin: int
    const psOnTriggerPin: int
    const pgGoodPin: int
    var sampleAvgCount: Int16
    var sampleTrimming: bool
    var v12Coefficients: Coefficients
    var v5Coefficients: Coefficients
    var v5sbCoefficients: Coefficients
    var v3_3Coefficients: Coefficients
    var v12: real
    var v5: real
    var v5sb: real
    var v3_3: real
    var vcc: real
    var psOn: int
    var pgGood: int
    /** Never written by the firmware. */
    var psOnTrigger: int
    /** The levels written to the PS_ON trigger pin, oldest first. */
    var triggerWrites: seq<Level>

    /** Records the pins; averages three samples with trimming on. The coefficients and
        readings are left unset. */
    constructor(v12Pin: int, v5Pin: int, v5sbPin: int, v3_3Pin: int,
                psOnPin: int, psOnTriggerPin: int, pgGoodPin: int)
      ensures this.v12Pin == v12Pin && this.v5Pin == v5Pin && this.v5sbPin == v5sbPin
      ensures this.v3_3Pin == v3_3Pin && this.psOnPin == psOnPin
      ensures this.psOnTriggerPin == psOnTriggerPin && this.pgGoodPin == pgGoodPin
      ensures sampleAvgCount == 3 && sampleTrimming
      ensures triggerWrites == []
    {
      this.v12Pin := v12Pin;
      this.v5Pin := v5Pin;
      this.v5sbPin := v5sbPin;
      this.v3_3Pin := v3_3Pin;
      this.pgGoodPin := pgGoodPin;
      this.psOnPin := psOnPin;
      this.psOnTriggerPin := psOnTriggerPin;
      sampleAvgCount := 3;
      sampleTrimming := true;
      triggerWrites := [];
    }

    /** `avgAnalogRead` over the samples `analogRead` returns, one per iteration.
        The trimming applies whatever `sampleTrimming` says. */
    method AvgAnalogRead(samples: seq<int>) returns (r: int)
      requires |samples| == SampleCount(sampleAvgCount) && AdcSamples(samples)
      ensures IntSum(samples) >= 0
      ensures r == Averaged(samples, sampleAvgCount)
    {
      var val := 0;
      var i := 0;
      while i < sampleAvgCount
        invariant 0 <= i <= SampleCount(sampleAvgCount)
        invariant val == IntSum(samples[..i]) && val >= 0
      {
        assert samples[..i + 1][..i] == samples[..i];
        val := val + samples[i];
        i := i + 1;
      }
      assert samples[..i] == samples;
      if sampleAvgCount <= 1 {
        return val;
      }
      val := val / sampleAvgCount;
      if val <= TrimLevel {
        return 0;
      }
      return val;
    }

    /** `senseV12`: the averaged reading through the V12 curve, clamped at 0. */
    method SenseV12(samples: seq<int>) returns (v: real)
      requires |samples| == SampleCount(sampleAvgCount) && AdcSamples(samples)
      ensures IntSum(samples) >= 0
      ensures v == ClampNonNegative(Curve(v12Coefficients, Averaged(samples, sampleAvgCount) as real))
    {
      var ival := AvgAnalogRead(samples);
      var fval := Curve(v12Coefficients, ival as real);
      if fval < 0.0 {
        return 0.0;
      }
      return fval;
    }

    /** `senseV5`: the averaged reading scaled by vcc / 1023 into volts first. */
    method SenseV5(samples: seq<int>) returns (v: real)
      requires |samples| == SampleCount(sampleAvgCount) && AdcSamples(samples)
      ensures IntSum(samples) >= 0
      ensures v == ClampNonNegative(Curve(v5Coefficients, AdcVolts(Averaged(samples, sampleAvgCount), vcc)))
    {
      var ival := AvgAnalogRead(samples);
      var fval := AdcVolts(ival, vcc);
      fval := Curve(v5Coefficients, fval);
      if fval < 0.0 {
        return 0.0;
      }
      return fval;
    }

    /** `senseV5sb`: the averaged reading through the V5SB curve, clamped at 0. */
    method SenseV5sb(samples: seq<int>) returns (v: real)
      requires |samples| == SampleCount(sampleAvgCount) && AdcSamples(samples)
      ensures IntSum(samples) >= 0
      ensures v == ClampNonNegative(Curve(v5sbCoefficients, Averaged(samples, sampleAvgCount) as real))
    {
      var ival := AvgAnalogRead(samples);
      var fval := Curve(v5sbCoefficients, ival as real);
      if fval < 0.0 {
        return 0.0;
      }
      return fval;
    }

    /** `senseV3_3`: the averaged reading through the V3_3 curve, clamped at 0. */
    method SenseV3_3(samples: seq<int>) returns (v: real)
      requires |samples| == SampleCount(sampleAvgCount) && AdcSamples(samples)
      ensures IntSum(samples) >= 0
      ensures v == ClampNonNegative(Curve(v3_3Coefficients, Averaged(samples, sampleAvgCount) as real))
    {
      var ival := AvgAnalogRead(samples);
      var fval := Curve(v3_3Coefficients, ival as real);
      if fval < 0.0 {
        return 0.0;
      }
      return fval;
    }

    /** `update()`: stores vcc (from `readVcc`, in millivolts), the four sensed rails and
        the PS_ON and PG_GOOD pin levels. */
    method Update(vccMillivolts: int, s12: seq<int>, s5: seq<int>, s5sb: seq<int>, s3_3: seq<int>,
                  psOnLevel: Level, pgGoodLevel: Level)
      requires |s12| == |s5| == |s5sb| == |s3_3| == SampleCount(sampleAvgCount)
      requires AdcSamples(s12) && AdcSamples(s5) && AdcSamples(s5sb) && AdcSamples(s3_3)
      modifies this`vcc, this`v12, this`v5, this`v5sb, this`v3_3, this`psOn, this`pgGood
      ensures vcc == vccMillivolts as real / 1000.0
      ensures IntSum(s12) >= 0 && IntSum(s5) >= 0 && IntSum(s5sb) >= 0 && IntSum(s3_3) >= 0
      ensures v12 == ClampNonNegative(Curve(v12Coefficients, Averaged(s12, sampleAvgCount) as real))
      ensures v5 == ClampNonNegative(Curve(v5Coefficients, AdcVolts(Averaged(s5, sampleAvgCount), vcc)))
      ensures v5sb == ClampNonNegative(Curve(v5sbCoefficients, Averaged(s5sb, sampleAvgCount) as real))
      ensures v3_3 == ClampNonNegative(Curve(v3_3Coefficients, Averaged(s3_3, sampleAvgCount) as real))
      ensures psOn == LevelValue(psOnLevel) && pgGood == LevelValue(pgGoodLevel)
      ensures V12() >= 0.0 && V5() >= 0.0 && V5SB() >= 0.0 && V3_3() >= 0.0
      ensures IsPsOnPresent() <==> psOnLevel == High
      ensures IsPgGoodPresent() <==> pgGoodLevel == High
      ensures IsPsuPresent() <==> psOnLevel == High || V5SB() > 1.0
      ensures IsOn() <==> psOnLevel == Low && V5SB() > 1.0
    {
      vcc := vccMillivolts as real / 1000.0;
      v12 := SenseV12(s12);
      v5 := SenseV5(s5);
      v5sb := SenseV5sb(s5sb);
      v3_3 := SenseV3_3(s3_3);
      psOn := LevelValue(psOnLevel);
      pgGood := LevelValue(pgGoodLevel);
    }

    function V12(): real reads this { v12 }
    function V5(): real reads this { v5 }
    function V5SB(): real reads this { v5sb }
    function V3_3(): real reads this { v3_3 }

    predicate IsPgGoodPresent() reads this { pgGood > 0 }
    predicate IsV5sbPresent() reads this { v5sb > 1.0 }
    predicate IsPsOnPresent() reads this { psOn > 0 }
    predicate IsTriggered() reads this { psOnTrigger > 0 }

    /** `isPsuPresent`: standby voltage or a PS_ON signal. */
    predicate IsPsuPresent()
      reads this
    {
      IsV5sbPresent() || IsPsOnPresent()
    }

    /** `isOn`: standby voltage present and PS_ON pulled low. */
    predicate IsOn()
      reads this
    {
      !IsPsOnPresent() && IsV5sbPresent()
    }

    function GetSamplingAvgCount(): Int16 reads this { sampleAvgCount }

    method SetSamplingAvgCount(value: Int16)
      modifies this`sampleAvgCount
      ensures GetSamplingAvgCount() == value
    {
      sampleAvgCount := value;
    }

    function GetSamplingCurveTrimming(): bool reads this { sampleTrimming }

    method SetSamplingCurveTrimming(value: bool)
      modifies this`sampleTrimming
      ensures GetSamplingCurveTrimming() == value
    {
      sampleTrimming := value;
    }

    method SetV12Coefficients(x4: real, x3: real, x2: real, x1: real, sigma: real)
      modifies this`v12Coefficients
      ensures v12Coefficients == Coefficients(x4, x3, x2, x1, sigma)
    {
      v12Coefficients := Coefficients(x4, x3, x2, x1, sigma);
    }

    method SetV5Coefficients(x4: real, x3: real, x2: real, x1: real, sigma: real)
      modifies this`v5Coefficients
      ensures v5Coefficients == Coefficients(x4, x3, x2, x1, sigma)
    {
      v5Coefficients := Coefficients(x4, x3, x2, x1, sigma);
    }

    method SetV5sbCoefficients(x4: real, x3: real, x2: real, x1: real, sigma: real)
      modifies this`v5sbCoefficients
      ensures v5sbCoefficients == Coefficients(x4, x3, x2, x1, sigma)
    {
      v5sbCoefficients := Coefficients(x4, x3, x2, x1, sigma);
    }

    method SetV3_3Coefficients(x4: real, x3: real, x2: real, x1: real, sigma: real)
      modifies this`v3_3Coefficients
      ensures v3_3Coefficients == Coefficients(x4, x3, x2, x1, sigma)
    {
      v3_3Coefficients := Coefficients(x4, x3, x2, x1, sigma);
    }

    /** `turnOn`: drives the PS_ON trigger pin HIGH. */
    method TurnOn()
      modifies this`triggerWrites
      ensures triggerWrites == old(triggerWrites) + [High]
    {
      triggerWrites := triggerWrites + [High];
    }

    /** `turnOff`: drives the PS_ON trigger pin LOW. */
    method TurnOff()
      modifies this`triggerWrites
      ensures triggerWrites == old(triggerWrites) + [Low]
    {
      triggerWrites := triggerWrites + [Low];
    }
  }

  /** `digitalRead`: 1 for HIGH, 0 for LOW. */
  function LevelValue(l: Level): (v: int)
    ensures (v > 0) <==> l == High
  {
    if l == High then 1 else 0
  }

  /** The accessors read the stored state: the four rail voltages, the standby, PS_ON,
      PG_GOOD and trigger tests, and the two sampling settings. */
  lemma AccessorsReadState(vm: AtxVoltmeter)
    ensures vm.V12() == vm.v12 && vm.V5() == vm.v5 && vm.V5SB() == vm.v5sb && vm.V3_3() == vm.v3_3
    ensures vm.IsV5sbPresent() <==> vm.v5sb > 1.0
    ensures vm.IsPsOnPresent() <==> vm.psOn > 0
    ensures vm.IsPgGoodPresent() <==> vm.pgGood > 0
    ensures vm.IsTriggered() <==> vm.psOnTrigger > 0
    ensures vm.GetSamplingAvgCount() == vm.sampleAvgCount
    ensures vm.GetSamplingCurveTrimming() == vm.sampleTrimming
  {
  }

  /** A supply that is on is present, and a present supply shows standby voltage or
      PS_ON; PS_ON is what tells "on" from "present". */
  lemma PresenceRelations(vm: AtxVoltmeter)
    ensures vm.IsOn() ==> vm.IsPsuPresent()
    ensures vm.IsPsuPresent() <==> vm.v5sb > 1.0 || vm.psOn > 0
    ensures vm.IsOn() <==> vm.IsPsuPresent() && vm.psOn <= 0
  {
  }
}
