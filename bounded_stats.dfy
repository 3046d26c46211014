/**
 * The bounded incremental estimator shared by `AtxStaticAnalyzer.CalcMeanMinMax`
 * and `RunningAvg`: the k-th value (1-based) moves the estimate by
 * (v - estimate) / min(k, cap). Up to `cap` values this is the arithmetic mean;
 * after that it is an exponential moving average of weight 1/cap.
 */
module BoundedStats {
  import opened Common

  /** The cap `CalcMeanMinMax` uses (`Math.Min((float)i + 1, 1000.0f)`). */
  const MeanCap: int := 1000

  /** `float.MaxValue`, the initial minimum of `CalcMeanMinMax`. */
  const FloatMaxValue: real := 340282346638528859811704183484516925440.0

  /** The weight divisor applied to the k-th value (1-based). */
  function Divisor(k: nat, cap: int): real
  {
    RMin(k as real, cap as real)
  }

  /** One estimator update: move `m` towards `v` by 1/d of the gap. */
  function Update(m: real, v: real, d: real): real
    requires d != 0.0
  {
    m + (v - m) / d
  }

  /** The estimate after folding the update over all of `values`, starting from 0. */
  function BoundedMean(values: seq<real>, cap: int): real
    requires cap != 0
  {
    if |values| == 0 then 0.0
    else
      var m := BoundedMean(values[..|values| - 1], cap);
      Update(m, values[|values| - 1], Divisor(|values|, cap))
  }

  /** The minimum as the source tracks it: starts at `float.MaxValue`. */
  function RunningMin(values: seq<real>): (r: real)
    ensures r <= FloatMaxValue
  {
    if |values| == 0 then FloatMaxValue
    else
      var m := RunningMin(values[..|values| - 1]);
      if values[|values| - 1] < m then values[|values| - 1] else m
  }

  /** The reported minimum is below every value, and is one of them unless the series
      is empty or holds nothing below `float.MaxValue`. */
  lemma {:induction false} RunningMinIsMinimum(values: seq<real>)
    ensures forall j :: 0 <= j < |values| ==> RunningMin(values) <= values[j]
    ensures RunningMin(values) == FloatMaxValue || RunningMin(values) in values
  {
    if |values| > 0 {
      var init := values[..|values| - 1];
      RunningMinIsMinimum(init);
      assert forall j :: 0 <= j < |init| ==> init[j] == values[j];
      assert RunningMin(init) in init ==> RunningMin(init) in values;
    }
  }

  /** The maximum as the source tracks it: starts at 0, so it is never negative. */
  function RunningMax(values: seq<real>): (r: real)
    ensures r >= 0.0
  {
    if |values| == 0 then 0.0
    else
      var m := RunningMax(values[..|values| - 1]);
      if values[|values| - 1] > m then values[|values| - 1] else m
  }

  /** The reported maximum is above every value, and is one of them unless it is the
      initial 0. */
  lemma {:induction false} RunningMaxIsMaximum(values: seq<real>)
    ensures forall j :: 0 <= j < |values| ==> values[j] <= RunningMax(values)
    ensures RunningMax(values) == 0.0 || RunningMax(values) in values
  {
    if |values| > 0 {
      var init := values[..|values| - 1];
      RunningMaxIsMaximum(init);
      assert forall j :: 0 <= j < |init| ==> init[j] == values[j];
      assert RunningMax(init) in init ==> RunningMax(init) in values;
    }
  }

  /** |v - center| for every value, in order (the input of the deviation pass). */
  function AbsDeviations(values: seq<real>, center: real): (r: seq<real>)
    ensures |r| == |values|
  {
    seq(|values|, j requires 0 <= j < |values| => Abs(values[j] - center))
  }

  /** The j-th deviation is |values[j] - center|. */
  lemma AbsDeviationsAt(values: seq<real>, center: real)
    ensures forall j :: 0 <= j < |values| ==> AbsDeviations(values, center)[j] == Abs(values[j] - center)
  {
  }

  /** What `CalcMeanMinMax` reports for a series. */
  datatype Summary = Summary(mean: real, min: real, max: real, deviation: real)

  function Summarize(values: seq<real>): Summary
  {
    var mean := BoundedMean(values, MeanCap);
    Summary(mean, RunningMin(values), RunningMax(values),
            BoundedMean(AbsDeviations(values, mean), MeanCap))
  }

  /** Folding one more value: the update `CalcMeanMinMax` applies to the (i+1)-th value. */
  lemma MeanStep(values: seq<real>, i: nat, cap: int)
    requires i < |values| && cap != 0
    ensures RMin(i as real + 1.0, cap as real) != 0.0
    ensures BoundedMean(values[..i + 1], cap)
            == Update(BoundedMean(values[..i], cap), values[i], RMin(i as real + 1.0, cap as real))
  {
    assert values[..i + 1][..i] == values[..i];
  }

  /** Extending the running minimum and maximum by one value. */
  lemma MinMaxStep(values: seq<real>, i: nat)
    requires i < |values|
    ensures RunningMin(values[..i + 1])
            == if values[i] < RunningMin(values[..i]) then values[i] else RunningMin(values[..i])
    ensures RunningMax(values[..i + 1])
            == if values[i] > RunningMax(values[..i]) then values[i] else RunningMax(values[..i])
  {
    assert values[..i + 1][..i] == values[..i];
  }

  /** One update step with divisor d >= 1 stays between the old estimate and the new value. */
  lemma StepBetween(m: real, v: real, d: real)
    requires d >= 1.0
    ensures m <= v ==> m <= Update(m, v, d) <= v
    ensures v <= m ==> v <= Update(m, v, d) <= m
  {
    var t := (v - m) / d;
    assert t * d == v - m;
    if m <= v {
      assert t >= 0.0;
      assert t <= t * d;
    } else {
      assert t <= 0.0;
      assert t * d <= t;
    }
  }

  /** With a positive cap every estimate is a weighted average of the values seen:
      it lies within any bounds that hold of all of them. */
  lemma {:induction false} BoundedMeanWithin(values: seq<real>, cap: int, lo: real, hi: real)
    requires cap >= 1 && |values| >= 1
    requires forall j :: 0 <= j < |values| ==> lo <= values[j] <= hi
    ensures lo <= BoundedMean(values, cap) <= hi
  {
    var n := |values|;
    var v := values[n - 1];
    var prefix := values[..n - 1];
    if n == 1 {
      assert BoundedMean(prefix, cap) == 0.0;
      assert Divisor(1, cap) == 1.0;
    } else {
      forall j | 0 <= j < |prefix| ensures lo <= prefix[j] <= hi {
        assert prefix[j] == values[j];
      }
      BoundedMeanWithin(prefix, cap, lo, hi);
      var m := BoundedMean(prefix, cap);
      StepBetween(m, v, Divisor(n, cap));
    }
  }

  /** Up to `cap` values the estimator is exactly the arithmetic mean. */
  lemma {:induction false} BoundedMeanIsArithmeticMean(values: seq<real>, cap: int)
    requires 1 <= |values| <= cap
    ensures BoundedMean(values, cap) == Sum(values) / (|values| as real)
  {
    var n := |values|;
    var v := values[n - 1];
    var prefix := values[..n - 1];
    assert Divisor(n, cap) == n as real;
    if n == 1 {
      assert BoundedMean(prefix, cap) == 0.0;
      assert Sum(prefix) == 0.0;
    } else {
      BoundedMeanIsArithmeticMean(prefix, cap);
      var s := Sum(prefix);
      var k := (n - 1) as real;
      var m := s / k;
      assert BoundedMean(prefix, cap) == m;
      assert m * k == s;
      calc {
        Update(m, v, n as real);
        m + (v - m) / (n as real);
        (m * (n as real) + v - m) / (n as real);
        (m * k + v) / (n as real);
        (s + v) / (n as real);
      }
    }
  }

  /** An empty series reports mean 0, deviation 0, min `float.MaxValue` and max 0. */
  lemma SummarizeEmpty()
    ensures Summarize([]) == Summary(0.0, FloatMaxValue, 0.0, 0.0)
  {
    assert AbsDeviations([], 0.0) == [];
  }

  /** Known defect kept from the source: an all-negative series reports max 0. */
  lemma AllNegativeMaxIsZero(values: seq<real>)
    requires forall j :: 0 <= j < |values| ==> values[j] < 0.0
    ensures Summarize(values).max == 0.0
  {
    RunningMaxIsMaximum(values);
  }

  /** For a non-empty series the mean lies between the reported min and max,
      and the deviation is never negative. */
  lemma SummarizeOrdered(values: seq<real>)
    requires |values| >= 1
    ensures Summarize(values).min <= Summarize(values).mean <= Summarize(values).max
    ensures Summarize(values).deviation >= 0.0
  {
    var s := Summarize(values);
    RunningMinIsMinimum(values);
    RunningMaxIsMaximum(values);
    BoundedMeanWithin(values, MeanCap, s.min, s.max);
    var devs := AbsDeviations(values, s.mean);
    var top := RunningMax(devs);
    RunningMaxIsMaximum(devs);
    AbsDeviationsAt(values, s.mean);
    BoundedMeanWithin(devs, MeanCap, 0.0, top);
  }
}
