/**
 * The data dumper's `RunningAvg`: the bounded estimator of `BoundedStats` kept as an
 * object that is fed one value at a time. The values added since the last `Reset`
 * are kept as ghost state, so that the object can be tied to `BoundedMean`.
 */
module RunningAverage {
  import opened Common
  import opened BoundedStats

  class RunningAvg {
    var count: nat
    var mean: real
    var factor: int
    /** The values added since construction or the last `Reset`. */
    ghost var history: seq<real>

    /** The object holds the bounded mean of its history under the current factor. */
    ghost predicate Tracks()
      reads this
    {
      factor != 0 && count == |history| && mean == BoundedMean(history, factor)
    }

    /** The defaults: no values, mean 0, factor 1000. */
    constructor()
      ensures count == 0 && mean == 0.0 && factor == 1000 && history == []
      ensures Tracks()
    {
      count := 0;
      mean := 0.0;
      factor := 1000;
      history := [];
    }

    /** `Add(value)`: moves the mean by (value - mean) / min(count + 1, factor), then
        counts the value. */
    method Add(value: real)
      requires factor != 0
      modifies this`mean, this`count, this`history
      ensures count == old(count) + 1
      ensures mean == Update(old(mean), value, RMin(old(count) as real + 1.0, factor as real))
      ensures history == old(history) + [value]
      ensures old(Tracks()) ==> Tracks()
    {
      ghost var values := history + [value];
      assert values[..|values| - 1] == history;
      mean := Update(mean, value, RMin(count as real + 1.0, factor as real));
      count := count + 1;
      history := values;
    }

    /** `Reset()`: count and mean back to 0; the factor is kept. */
    method Reset()
      modifies this`mean, this`count, this`history
      ensures count == 0 && mean == 0.0 && history == []
      ensures factor != 0 ==> Tracks()
    {
      count := 0;
      mean := 0.0;
      history := [];
    }

    /** The `Factor` setter. */
    method SetFactor(value: int)
      modifies this`factor
      ensures factor == value
    {
      factor := value;
    }
  }

  /** The first value after a reset becomes the mean. */
  lemma FirstValueIsMean(v: real, cap: int)
    requires cap >= 1
    ensures BoundedMean([v], cap) == v
  {
    assert [v][..0] == [];
    assert Divisor(1, cap) == 1.0;
  }

  /** Once `cap` values have been seen, each new value moves the mean by 1/cap of the
      gap: an exponential moving average. */
  lemma SteadyStateStep(values: seq<real>, v: real, cap: int)
    requires cap >= 1 && |values| >= cap
    ensures BoundedMean(values + [v], cap) == Update(BoundedMean(values, cap), v, cap as real)
  {
    assert (values + [v])[..|values|] == values;
    assert Divisor(|values| + 1, cap) == cap as real;
  }

  /** While at most `factor` values have been added since the last reset, the mean is
      their arithmetic mean. */
  lemma MeanIsArithmeticMean(avg: RunningAvg)
    requires avg.Tracks() && 1 <= avg.count <= avg.factor
    ensures avg.mean == Sum(avg.history) / (avg.count as real)
  {
    BoundedMeanIsArithmeticMean(avg.history, avg.factor);
  }
}
