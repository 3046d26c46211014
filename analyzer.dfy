/**
 * `AtxStaticAnalyzer`: finds peaks, valleys and edges on each rail, summarises each
 * rail, and, when metadata markers are loaded, cuts every rail into stage segments.
 * Each method is proved against the specification functions of `PeakSearch`,
 * `BoundedStats` and `Segments`.
 */
module Analyzer {
  import opened Common
  import opened AnalyzerTypes
  import opened BoundedStats
  import opened PeakSearch
  import opened Segments
  import opened RailStatistics
  import opened AtxStatistics

  class AtxStaticAnalyzer {
    /** The four rail series, each null until set. */
    var v12Points: Option<seq<real>>
    var v5Points: Option<seq<real>>
    var v5sbPoints: Option<seq<real>>
    var v3_3Points: Option<seq<real>>
    /** Null until metadata is loaded. */
    var metadataMarkers: Option<seq<Marker>>
    /** Window size relative to the total point count. */
    var peakDetectionWindowSizePercent: real
    /** Minimum absolute difference that counts as an edge. */
    var edgeDetectionSensitivity: real

    constructor()
      ensures v12Points == None && v5Points == None && v5sbPoints == None && v3_3Points == None
      ensures metadataMarkers == None
      ensures peakDetectionWindowSizePercent == 0.05 && edgeDetectionSensitivity == 0.05
    {
      v12Points, v5Points, v5sbPoints, v3_3Points := None, None, None, None;
      metadataMarkers := None;
      peakDetectionWindowSizePercent := 0.05;
      edgeDetectionSensitivity := 0.05;
    }

    /** The window, in samples, for a series of n points. */
    function Window(n: nat): real
      reads this
    {
      WindowSize(peakDetectionWindowSizePercent, n)
    }

    /** Classifies every interior index of `points` in one pass: an index whose compared
        samples are all below (above) it is a peak (valley), and is also an edge; any other
        index is an edge when a seeded edge flag survives and some compared sample differs
        by more than the sensitivity. */
    method SearchPeaksEdges(points: seq<real>) returns (peaks: seq<int>, startingSign: int, edges: seq<int>)
      ensures peaks == Extrema(points, Window(|points|))
      ensures edges == Edges(points, Window(|points|), edgeDetectionSensitivity)
      ensures startingSign == StartingSign(points, Window(|points|))
    {
      var w := Window(|points|);
      var s := edgeDetectionSensitivity;
      peaks, edges := [], [];
      startingSign := Positive;
      var i := 1;
      while i < |points| - 1
        invariant 1 <= i && (i <= |points| - 1 || i == 1)
        invariant peaks == ExtremaBelow(points, w, i)
        invariant edges == EdgesBelow(points, w, s, i)
        invariant startingSign == SignBelow(points, w, i)
      {
        peaks, startingSign, edges := ReportIndex(points, w, s, i, peaks, startingSign, edges);
        i := i + 1;
      }
      ClassifyDone(points, w, s, i);
    }

    /** One pass of the classifier's loop: scans index i and appends it to the extrema
        and the edges it belongs to, fixing the starting sign at the first extremum. */
    static method ReportIndex(points: seq<real>, w: real, s: real, i: int,
                              peaks0: seq<int>, startingSign0: int, edges0: seq<int>)
      returns (peaks: seq<int>, startingSign: int, edges: seq<int>)
      requires Interior(points, i)
      requires peaks0 == ExtremaBelow(points, w, i)
      requires edges0 == EdgesBelow(points, w, s, i)
      requires startingSign0 == SignBelow(points, w, i)
      ensures peaks == ExtremaBelow(points, w, i + 1)
      ensures edges == EdgesBelow(points, w, s, i + 1)
      ensures startingSign == SignBelow(points, w, i + 1)
    {
      peaks, startingSign, edges := peaks0, startingSign0, edges0;
      var peak, valley, edgeRight, edgeLeft, different := ScanIndex(points, i, w, s);
      ClassifyStep(points, w, s, i);

      if peak || valley {
        if |peaks| < 1 {
          startingSign := if peak then Positive else Negative;
        }
        peaks := peaks + [i];
        edges := edges + [i];
      } else if (edgeRight || edgeLeft) && different {
        edges := edges + [i];
      }
    }

    /** The flags of interior index i after both scans (the body of the classifier's loop). */
    static method ScanIndex(points: seq<real>, i: int, w: real, s: real)
      returns (peak: bool, valley: bool, edgeRight: bool, edgeLeft: bool, different: bool)
      requires Interior(points, i)
      ensures peak == IsPeak(points, i, w)
      ensures (peak || valley) == IsExtremum(points, i, w)
      ensures (peak || valley || ((edgeRight || edgeLeft) && different)) == IsReportedEdge(points, i, w, s)
    {
      var right := RMin(i as real, w);
      var left := RMin((|points| - i - 1) as real, w);
      var val := points[i];

      peak, valley := true, true;
      edgeLeft, edgeRight, different := false, false, false;
      if i > 0 && Abs(points[i - 1] - val) > s {
        edgeLeft := true;
      }
      if i < |points| - 1 && Abs(points[i + 1] - val) > s {
        edgeRight := true;
      }

      peak, valley, edgeRight, different := ScanBackward(points, i, val, right, s, peak, valley, edgeRight, different);
      peak, valley, edgeLeft, different := ScanForward(points, i, val, left, s, peak, valley, edgeLeft, different);
      assert BackSpan(points, i, w) == ScanLength(right) && FwdSpan(points, i, w) == ScanLength(left);
      ClassifyFlags(points, i, w, s, peak, valley, edgeRight, edgeLeft, different);
    }

    /** The backward scan of index i: compares points[i - 1], points[i - 2], ... while the
        counter stays below `right`, clearing the peak / valley flags, setting `different`,
        and clearing `edgeRight` when the side of the compared sample changes. */
    static method ScanBackward(points: seq<real>, i: int, val: real, right: real, s: real,
                               peak0: bool, valley0: bool, edgeRight0: bool, different0: bool)
      returns (peak: bool, valley: bool, edgeRight: bool, different: bool)
      requires 1 <= i < |points| && right <= i as real && val == points[i]
      ensures ScanLength(right) <= i
      ensures peak == (peak0 && AllBelow(points, val, i - ScanLength(right), i))
      ensures valley == (valley0 && AllAbove(points, val, i - ScanLength(right), i))
      ensures different == (different0 || AnyFar(points, val, s, i - ScanLength(right), i))
      ensures edgeRight == (edgeRight0 && SameSide(points, val, i - ScanLength(right), i))
    {
      ghost var b := ScanLength(right);
      ScanLengthBound(right, i);
      peak, valley, edgeRight, different := peak0, valley0, edgeRight0, different0;
      var sign := 0;
      var r := 0;
      while r as real < right
        invariant 0 <= r <= b
        invariant peak == (peak0 && AllBelow(points, val, i - r, i))
        invariant valley == (valley0 && AllAbove(points, val, i - r, i))
        invariant different == (different0 || AnyFar(points, val, s, i - r, i))
        invariant edgeRight == (edgeRight0 && SameSide(points, val, i - r, i))
        invariant r == 0 ==> sign == 0
        invariant r > 0 ==> sign == if points[i - 1] > val then Positive else Negative
        decreases b - r
      {
        ScanLengthBound(right, r);
        GrowLow(points, val, s, i - r, i);
        var c := if points[i - r - 1] > val then Positive else Negative;
        if sign == 0 {
          sign := c;
        } else if sign != c {
          edgeRight := false;
        }
        if Abs(val - points[i - r - 1]) > s {
          different := true;
        }
        if points[i - r - 1] >= val {
          peak := false;
        }
        if points[i - r - 1] <= val {
          valley := false;
        }
        r := r + 1;
      }
      ScanLengthBound(right, r);
    }

    /** The forward scan of index i: compares points[i + 1], points[i + 2], ... while the
        counter stays below `left`, and clears `edgeLeft` when the side changes. */
    static method ScanForward(points: seq<real>, i: int, val: real, left: real, s: real,
                              peak0: bool, valley0: bool, edgeLeft0: bool, different0: bool)
      returns (peak: bool, valley: bool, edgeLeft: bool, different: bool)
      requires 0 <= i < |points| - 1 && left <= (|points| - i - 1) as real && val == points[i]
      ensures i + 1 + ScanLength(left) <= |points|
      ensures peak == (peak0 && AllBelow(points, val, i + 1, i + 1 + ScanLength(left)))
      ensures valley == (valley0 && AllAbove(points, val, i + 1, i + 1 + ScanLength(left)))
      ensures different == (different0 || AnyFar(points, val, s, i + 1, i + 1 + ScanLength(left)))
      ensures edgeLeft == (edgeLeft0 && SameSide(points, val, i + 1, i + 1 + ScanLength(left)))
    {
      ghost var f := ScanLength(left);
      ScanLengthBound(left, |points| - i - 1);
      peak, valley, edgeLeft, different := peak0, valley0, edgeLeft0, different0;
      var sign := 0;
      var l := 0;
      while l as real < left
        invariant 0 <= l <= f
        invariant peak == (peak0 && AllBelow(points, val, i + 1, i + 1 + l))
        invariant valley == (valley0 && AllAbove(points, val, i + 1, i + 1 + l))
        invariant different == (different0 || AnyFar(points, val, s, i + 1, i + 1 + l))
        invariant edgeLeft == (edgeLeft0 && SameSide(points, val, i + 1, i + 1 + l))
        invariant l == 0 ==> sign == 0
        invariant l > 0 ==> sign == if points[i + 1] > val then Positive else Negative
        decreases f - l
      {
        ScanLengthBound(left, l);
        GrowHigh(points, val, s, i + 1, i + 1 + l);
        var c := if points[i + l + 1] > val then Positive else Negative;
        if sign == 0 {
          sign := c;
        } else if sign != c {
          edgeLeft := false;
        }
        if Abs(val - points[i + l + 1]) > s {
          different := true;
        }
        if points[i + l + 1] >= val {
          peak := false;
        }
        if points[i + l + 1] <= val {
          valley := false;
        }
        l := l + 1;
      }
      ScanLengthBound(left, l);
    }

    /** Mean, minimum, maximum and mean absolute deviation of `points`, each accumulated in
        one pass with the bounded estimator. */
    static method CalcMeanMinMax(points: seq<real>) returns (mean: real, min: real, max: real, deviation: real)
      ensures Summary(mean, min, max, deviation) == Summarize(points)
    {
      min := FloatMaxValue;
      max := 0.0;
      mean := 0.0;
      deviation := 0.0;

      var i := 0;
      while i < |points|
        invariant 0 <= i <= |points|
        invariant mean == BoundedMean(points[..i], MeanCap)
        invariant min == RunningMin(points[..i])
        invariant max == RunningMax(points[..i])
      {
        var v := points[i];
        if v > max {
          max := v;
        }
        if v < min {
          min := v;
        }
        MeanStep(points, i, MeanCap);
        mean := Update(mean, v, RMin(i as real + 1.0, MeanCap as real));
        MinMaxStep(points, i);
        i := i + 1;
      }
      assert points[..i] == points;
      deviation := DeviationPass(points, mean);
    }

    /** The second pass of `CalcMeanMinMax`: the bounded mean of |p - mean| over the points. */
    static method DeviationPass(points: seq<real>, mean: real) returns (deviation: real)
      ensures deviation == BoundedMean(AbsDeviations(points, mean), MeanCap)
    {
      ghost var devs := AbsDeviations(points, mean);
      AbsDeviationsAt(points, mean);
      deviation := 0.0;
      var i := 0;
      while i < |points|
        invariant 0 <= i <= |points|
        invariant deviation == BoundedMean(devs[..i], MeanCap)
      {
        var v := points[i];
        v := Abs(v - mean);
        MeanStep(devs, i, MeanCap);
        deviation := Update(deviation, v, RMin(i as real + 1.0, MeanCap as real));
        i := i + 1;
      }
      assert devs[..i] == devs;
    }

    /** The metadata markers, empty when none are loaded. */
    function Markers(): seq<Marker>
      reads this
    {
      if metadataMarkers.Some? then metadataMarkers.value else []
    }

    /** The series of the k-th analysed rail: V12, V5, V5SB, V3_3. */
    function RailSeries(k: nat): Option<seq<real>>
      reads this
      requires k < 4
    {
      if k == 0 then v12Points else if k == 1 then v5Points else if k == 2 then v5sbPoints else v3_3Points
    }

    /** The samples of the k-th analysed rail, empty while it is unset. */
    function RailPoints(k: nat): seq<real>
      reads this
      requires k < 4
    {
      if RailSeries(k).Some? then RailSeries(k).value else []
    }

    /** Some rail series is still null, so the peak search of `Run` dereferences null. */
    predicate RailsUnset()
      reads this
    {
      exists k :: 0 <= k < 4 && RailSeries(k).None?
    }

    /** The figures the first half of `Run` gives the k-th rail. */
    ghost function Expected(k: nat): RailFigures
      reads this
      requires k < 4
    {
      ExpectedFigures(RailPoints(k), Window(|RailPoints(k)|), edgeDetectionSensitivity)
    }

    /** The metadata pass of the k-th rail: nothing to do without markers. */
    function RailOutcome(k: nat): Result<RailView, AnalyzerError>
      reads this
      requires k < 4
    {
      if |Markers()| == 0 then Ok(EmptyView)
      else RailPass(RailPoints(k), Markers(), NominalVoltages[k], VoltageTolerance)
    }

    /** The metadata pass of some rail slices past its data. */
    predicate SomeRailFails()
      reads this
    {
      exists k :: 0 <= k < 4 && RailOutcome(k).Err?
    }

    /** The metadata pass raises: a slice of some rail runs past its data, or there are
        more markers than stage names, so the last stage has no name. */
    predicate MetadataFails()
      reads this
    {
      SomeRailFails() || |Markers()| > |StageNames|
    }

    /** `Run` raises: some rail series is null, or the metadata pass raises. */
    predicate RunFails()
      reads this
    {
      RailsUnset() || MetadataFails()
    }

    /** `Run`: raises on the first rail series still null; otherwise the analysis of the
        four series. */
    method Run() returns (r: Result<AtxStats, AnalyzerError>)
      ensures r.Err? <==> RunFails()
      ensures r.Err? ==> r.error == if RailsUnset() then NullRail
                                    else if SomeRailFails() then SliceOutOfRange
                                    else StageIndexOutOfRange
      ensures r.Ok? ==> forall k :: 0 <= k < 4 ==> RailSeries(k).Some?
      ensures r.Ok? ==> fresh(r.value) && r.value.Valid()
      ensures r.Ok? ==> forall k :: 0 <= k < 4 ==>
                && r.value.Rails()[k].rail == AnalyzedRails[k]
                && r.value.Rails()[k].nominalVoltage == NominalVoltages[k]
                && r.value.Rails()[k].voltageTolerance == VoltageTolerance
      ensures r.Ok? ==> forall k :: 0 <= k < 4 ==> FiguresOf(r.value.Rails()[k]) == Expected(k)
      ensures r.Ok? ==> forall k :: 0 <= k < 4 ==> RailOutcome(k).Ok? && ViewOf(r.value.Rails()[k]) == RailOutcome(k).value
      ensures r.Ok? && |Markers()| == 0 ==>
                r.value.sourceMetadata == None && r.value.pgOkSignalTimeUs == 0 && r.value.lastStageRecorded == None
      ensures r.Ok? && |Markers()| > 0 ==>
                && r.value.sourceMetadata == Some(Markers())
                && r.value.pgOkSignalTimeUs == PgOkDuration(Markers())
                && |Markers()| <= |StageNames|
                && r.value.lastStageRecorded == Some(StageNames[|Markers()| - 1])
    {
      var unset := if v12Points.None? then 0 else if v5Points.None? then 1
                   else if v5sbPoints.None? then 2 else if v3_3Points.None? then 3 else 4;
      if unset < 4 {
        assert RailSeries(unset).None?;
        return Err(NullRail);
      }
      assert RailSeries(0).Some? && RailSeries(1).Some? && RailSeries(2).Some? && RailSeries(3).Some?;
      r := AnalyzeSeries();
    }

    /** The body of `Run` once every series is set: peaks and edges of the four rails,
        their full-rail summaries, and, when markers are loaded, the stage segments of
        every rail, the T1 to ON duration and the name of the last recorded stage. */
    method AnalyzeSeries() returns (r: Result<AtxStats, AnalyzerError>)
      ensures r.Err? <==> MetadataFails()
      ensures r.Err? ==> r.error == if SomeRailFails() then SliceOutOfRange
                                    else StageIndexOutOfRange
      ensures r.Ok? ==> fresh(r.value) && r.value.Valid()
      ensures r.Ok? ==> forall k :: 0 <= k < 4 ==>
                && r.value.Rails()[k].rail == AnalyzedRails[k]
                && r.value.Rails()[k].nominalVoltage == NominalVoltages[k]
                && r.value.Rails()[k].voltageTolerance == VoltageTolerance
      ensures r.Ok? ==> forall k :: 0 <= k < 4 ==> FiguresOf(r.value.Rails()[k]) == Expected(k)
      ensures r.Ok? ==> forall k :: 0 <= k < 4 ==> RailOutcome(k).Ok? && ViewOf(r.value.Rails()[k]) == RailOutcome(k).value
      ensures r.Ok? && |Markers()| == 0 ==>
                r.value.sourceMetadata == None && r.value.pgOkSignalTimeUs == 0 && r.value.lastStageRecorded == None
      ensures r.Ok? && |Markers()| > 0 ==>
                && r.value.sourceMetadata == Some(Markers())
                && r.value.pgOkSignalTimeUs == PgOkDuration(Markers())
                && |Markers()| <= |StageNames|
                && r.value.lastStageRecorded == Some(StageNames[|Markers()| - 1])
    {
      var stats := new AtxStats();
      assert stats.Rails()[0].nominalVoltage == 12.0 && stats.Rails()[1].nominalVoltage == 5.0;
      assert stats.Rails()[2].nominalVoltage == 5.0 && stats.Rails()[3].nominalVoltage == 3.3;
      assert ViewOf(stats.Rails()[0]) == EmptyView && ViewOf(stats.Rails()[1]) == EmptyView;
      assert ViewOf(stats.Rails()[2]) == EmptyView && ViewOf(stats.Rails()[3]) == EmptyView;
      AnalyzeFullRails(stats);
      var done := ProcessMetadata(stats);
      if done.Err? {
        return Err(done.error);
      }
      r := Ok(stats);
    }

    /** The second half of `Run`: with markers loaded, records them, runs the metadata
        pass over every rail, then stores the T1 to ON duration and the name of the last
        recorded stage; without markers, leaves everything as it is. */
    method ProcessMetadata(stats: AtxStats) returns (r: Result<(), AnalyzerError>)
      requires stats.Valid()
      requires stats.v12Stats.nominalVoltage == 12.0 && stats.v12Stats.voltageTolerance == VoltageTolerance
      requires ViewOf(stats.v12Stats) == EmptyView
      requires stats.v5Stats.nominalVoltage == 5.0 && stats.v5Stats.voltageTolerance == VoltageTolerance
      requires ViewOf(stats.v5Stats) == EmptyView
      requires stats.v5sbStats.nominalVoltage == 5.0 && stats.v5sbStats.voltageTolerance == VoltageTolerance
      requires ViewOf(stats.v5sbStats) == EmptyView
      requires stats.v3_3Stats.nominalVoltage == 3.3 && stats.v3_3Stats.voltageTolerance == VoltageTolerance
      requires ViewOf(stats.v3_3Stats) == EmptyView
      requires stats.sourceMetadata == None && stats.pgOkSignalTimeUs == 0 && stats.lastStageRecorded == None
      modifies stats`sourceMetadata, stats`pgOkSignalTimeUs, stats`lastStageRecorded
      modifies stats.v12Stats`segments, stats.v12Stats`onStageStats, stats.v12Stats`t2StageStats
      modifies stats.v5Stats`segments, stats.v5Stats`onStageStats, stats.v5Stats`t2StageStats
      modifies stats.v5sbStats`segments, stats.v5sbStats`onStageStats, stats.v5sbStats`t2StageStats
      modifies stats.v3_3Stats`segments, stats.v3_3Stats`onStageStats, stats.v3_3Stats`t2StageStats
      ensures r.Err? <==> MetadataFails()
      ensures r.Err? ==> r.error == if SomeRailFails() then SliceOutOfRange
                                    else StageIndexOutOfRange
      ensures r.Ok? ==> forall k :: 0 <= k < 4 ==> RailOutcome(k).Ok? && ViewOf(stats.Rails()[k]) == RailOutcome(k).value
      ensures r.Ok? && |Markers()| == 0 ==>
                stats.sourceMetadata == None && stats.pgOkSignalTimeUs == 0 && stats.lastStageRecorded == None
      ensures r.Ok? && |Markers()| > 0 ==>
                && stats.sourceMetadata == Some(Markers())
                && stats.pgOkSignalTimeUs == PgOkDuration(Markers())
                && |Markers()| <= |StageNames|
                && stats.lastStageRecorded == Some(StageNames[|Markers()| - 1])
    {
      r := Ok(());
      if metadataMarkers.Some? && |metadataMarkers.value| > 0 {
        stats.sourceMetadata := metadataMarkers;
        var onDuration := SegmentAllRails(stats);
        if onDuration.Err? {
          return Err(onDuration.error);
        }
        stats.pgOkSignalTimeUs := onDuration.value;
        if |metadataMarkers.value| > |StageNames| {
          return Err(StageIndexOutOfRange);
        }
        stats.lastStageRecorded := Some(StageNames[|metadataMarkers.value| - 1]);
      }
    }

    /** The first half of `Run`: the peak search on the four rails, then their full-rail
        summaries. */
    method AnalyzeFullRails(stats: AtxStats)
      requires stats.Valid()
      modifies stats.v12Stats`points, stats.v12Stats`peaks, stats.v12Stats`edges, stats.v12Stats`peakStartingSign
      modifies stats.v12Stats`meanVoltage, stats.v12Stats`minVoltage, stats.v12Stats`maxVoltage
      modifies stats.v5Stats`points, stats.v5Stats`peaks, stats.v5Stats`edges, stats.v5Stats`peakStartingSign
      modifies stats.v5Stats`meanVoltage, stats.v5Stats`minVoltage, stats.v5Stats`maxVoltage
      modifies stats.v5sbStats`points, stats.v5sbStats`peaks, stats.v5sbStats`edges, stats.v5sbStats`peakStartingSign
      modifies stats.v5sbStats`meanVoltage, stats.v5sbStats`minVoltage, stats.v5sbStats`maxVoltage
      modifies stats.v3_3Stats`points, stats.v3_3Stats`peaks, stats.v3_3Stats`edges, stats.v3_3Stats`peakStartingSign
      modifies stats.v3_3Stats`meanVoltage, stats.v3_3Stats`minVoltage, stats.v3_3Stats`maxVoltage
      ensures forall k {:trigger Expected(k)} :: 0 <= k < 4 ==> FiguresOf(stats.Rails()[k]) == Expected(k)
    {
      AnalyzeRail(stats.v12Stats, RailPoints(0));
      AnalyzeRail(stats.v5Stats, RailPoints(1));
      AnalyzeRail(stats.v5sbStats, RailPoints(2));
      AnalyzeRail(stats.v3_3Stats, RailPoints(3));
      assert FiguresOf(stats.v12Stats) == Expected(0) && FiguresOf(stats.v5Stats) == Expected(1);
      assert FiguresOf(stats.v5sbStats) == Expected(2) && FiguresOf(stats.v3_3Stats) == Expected(3);
    }

    /** One rail of the first half of `Run`: its samples, their peaks and edges, and their
        full-rail summary. */
    method AnalyzeRail(rs: RailStats, points: seq<real>)
      modifies rs`points, rs`peaks, rs`edges, rs`peakStartingSign, rs`meanVoltage, rs`minVoltage, rs`maxVoltage
      ensures FiguresOf(rs) == ExpectedFigures(points, Window(|points|), edgeDetectionSensitivity)
    {
      SearchRail(rs, points);
      CalcRailMeanMinMax(rs);
    }

    /** The rail loop of `Run`: the metadata pass over V12, V5, V5SB and V3_3 in turn,
        stopping at the first exception; returns the T1 to ON duration of the last rail. */
    method SegmentAllRails(stats: AtxStats) returns (r: Result<int, AnalyzerError>)
      requires metadataMarkers.Some? && |metadataMarkers.value| > 0
      requires stats.Valid()
      requires forall k :: 0 <= k < 4 ==>
                 stats.Rails()[k].nominalVoltage == NominalVoltages[k]
                 && stats.Rails()[k].voltageTolerance == VoltageTolerance
                 && ViewOf(stats.Rails()[k]) == EmptyView
      modifies stats.v12Stats`segments, stats.v12Stats`onStageStats, stats.v12Stats`t2StageStats
      modifies stats.v5Stats`segments, stats.v5Stats`onStageStats, stats.v5Stats`t2StageStats
      modifies stats.v5sbStats`segments, stats.v5sbStats`onStageStats, stats.v5sbStats`t2StageStats
      modifies stats.v3_3Stats`segments, stats.v3_3Stats`onStageStats, stats.v3_3Stats`t2StageStats
      ensures r.Err? <==> SomeRailFails()
      ensures r.Err? ==> r.error == SliceOutOfRange
      ensures r.Ok? ==> r.value == PgOkDuration(Markers())
      ensures r.Ok? ==> forall k :: 0 <= k < 4 ==> RailOutcome(k).Ok? && ViewOf(stats.Rails()[k]) == RailOutcome(k).value
    {
      r := Ok(0);
      var i := 0;
      while i < 4
        invariant 0 <= i <= 4 && r.Ok?
        invariant forall k :: 0 <= k < i ==> RailOutcome(k).Ok? && ViewOf(stats.Rails()[k]) == RailOutcome(k).value
        invariant forall k :: i <= k < 4 ==> ViewOf(stats.Rails()[k]) == EmptyView
        invariant i > 0 ==> r.value == PgOkDuration(Markers())
      {
        var railStats: RailStats;
        var railData: seq<real>;
        if i == 0 {
          railStats, railData := stats.v12Stats, RailPoints(0);
        } else if i == 1 {
          railStats, railData := stats.v5Stats, RailPoints(1);
        } else if i == 2 {
          railStats, railData := stats.v5sbStats, RailPoints(2);
        } else {
          railStats, railData := stats.v3_3Stats, RailPoints(3);
        }
        assert railStats == stats.Rails()[i] && railData == RailPoints(i);
        var onDuration := CalcRailSegments(railData, railStats);
        if onDuration.Err? {
          assert RailOutcome(i).Err?;
          return Err(onDuration.error);
        }
        r := Ok(onDuration.value);
        i := i + 1;
      }
    }

    /** Stores the peaks, the edges and the starting sign of `points` in a rail record. */
    method SearchRail(rs: RailStats, points: seq<real>)
      modifies rs`points, rs`peaks, rs`edges, rs`peakStartingSign
      ensures rs.points == points
      ensures rs.peaks == Extrema(points, Window(|points|))
      ensures rs.edges == Edges(points, Window(|points|), edgeDetectionSensitivity)
      ensures rs.peakStartingSign == StartingSign(points, Window(|points|))
    {
      var peaks, startingSign, edges := SearchPeaksEdges(points);
      rs.points := points;
      rs.peaks := peaks;
      rs.edges := edges;
      rs.peakStartingSign := startingSign;
    }

    /** The body of `Run`'s rail loop: the five consecutive stage segments, then T1 to ON,
        whose duration in microseconds is returned. */
    method CalcRailSegments(railData: seq<real>, railStats: RailStats) returns (r: Result<int, AnalyzerError>)
      requires metadataMarkers.Some?
      modifies railStats`segments, railStats`onStageStats, railStats`t2StageStats
      ensures var pass := SegmentsFrom(old(ViewOf(railStats)), railData, metadataMarkers.value, SegmentPairs,
                                       railStats.nominalVoltage, railStats.voltageTolerance);
              && (r.Ok? <==> pass.Ok?)
              && (r.Err? ==> r.error == SliceOutOfRange)
              && (r.Ok? ==> ViewOf(railStats) == pass.value && r.value == PgOkDuration(metadataMarkers.value))
    {
      ghost var v0 := ViewOf(railStats);
      ghost var m := metadataMarkers.value;
      ghost var nominal, tolerance := railStats.nominalVoltage, railStats.voltageTolerance;
      var x := 1;
      while x < |StageNames|
        invariant 1 <= x <= |StageNames|
        invariant ValidPairs(SegmentPairs[..x - 1])
        invariant SegmentsFrom(v0, railData, m, SegmentPairs[..x - 1], nominal, tolerance) == Ok(ViewOf(railStats))
      {
        PrefixStep(v0, railData, m, SegmentPairs, x - 1, nominal, tolerance);
        assert SegmentPairs[x - 1] == (x - 1, x);
        var segment := CalcSegmentStats(railData, x - 1, x, railStats);
        if segment.Err? {
          PrefixFails(v0, railData, m, SegmentPairs, x, nominal, tolerance);
          return Err(segment.error);
        }
        x := x + 1;
      }
      PrefixStep(v0, railData, m, SegmentPairs, 5, nominal, tolerance);
      var onstats := CalcSegmentStats(railData, 0, 3, railStats);
      assert SegmentPairs[..6] == SegmentPairs;
      if onstats.Err? {
        return Err(onstats.error);
      }
      r := Ok(onstats.value.durationUs);
    }

    /** The full-rail summary of a rail record's points; the deviation is discarded. */
    static method CalcRailMeanMinMax(rail: RailStats)
      modifies rail`meanVoltage, rail`minVoltage, rail`maxVoltage
      ensures rail.meanVoltage == Summarize(rail.points).mean
      ensures rail.minVoltage == Summarize(rail.points).min
      ensures rail.maxVoltage == Summarize(rail.points).max
    {
      var mean, min, max, deviation := CalcMeanMinMax(rail.points);
      rail.meanVoltage := mean;
      rail.minVoltage := min;
      rail.maxVoltage := max;
    }

    /** One `CalcSegmentStats` call: builds the record of the stages `start` and `end`,
        updates the ON or T2 record when the segment starts at that stage, and appends
        the record to the rail. A slice past the rail's data raises before anything is
        stored. */
    method CalcSegmentStats(railData: seq<real>, start: nat, end: nat, railStats: RailStats)
      returns (r: Result<RailSegmentStats, AnalyzerError>)
      requires metadataMarkers.Some? && start < |StageNames| && end < |StageNames|
      modifies railStats`segments, railStats`onStageStats, railStats`t2StageStats
      ensures r == SegmentOf(railData, metadataMarkers.value, start, end)
      ensures r.Ok? ==>
                ViewOf(railStats)
                == SegmentStep(old(ViewOf(railStats)), railData, metadataMarkers.value, start, end,
                               railStats.nominalVoltage, railStats.voltageTolerance).value
      ensures r.Err? ==> ViewOf(railStats) == old(ViewOf(railStats))
    {
      var markers := metadataMarkers.value;
      ghost var before := ViewOf(railStats);
      var from, to := StageNames[start], StageNames[end];
      var startFrame := if start < |markers| then markers[start].frame else 0;
      var endFrame := if end < |markers| then markers[end].frame else 0;
      if startFrame < 1 || endFrame < 1 || endFrame < startFrame {
        assert !Complete(markers, start, end);
        var segment := IncompleteSegment(from, to);
        var count := railStats.AppendSegment(segment);
        return Ok(segment);
      }

      assert Complete(markers, start, end);
      var sliced := ExtractPointSegmentsFromMetadata(railData, markers, start, end);
      if sliced.Err? {
        return Err(sliced.error);
      }
      var slice := sliced.value;
      var mean, min, max, deviation := CalcMeanMinMax(slice);
      var segment := RailSegmentStats(false, from, to, mean, deviation, max, min, Some(slice),
                                      endFrame - startFrame, markers[end].timeUs - markers[start].timeUs);
      assert SegmentOf(railData, markers, start, end) == Ok(segment);

      if EqualsIgnoreCase(from, "ON") {
        var onstats := OnStageStats(slice, mean, deviation, railStats.nominalVoltage, railStats.voltageTolerance);
        railStats.onStageStats := Some(onstats);
      }
      if EqualsIgnoreCase(from, "T2") {
        var t2stats := RampUpStats(slice);
        railStats.t2StageStats := Some(t2stats);
      }
      var count := railStats.AppendSegment(segment);
      r := Ok(segment);
      assert ViewOf(railStats) == SegmentStep(before, railData, markers, start, end,
                                              railStats.nominalVoltage, railStats.voltageTolerance).value;
    }

    /** The ON-stage block: counts the samples off regulation and divides by the sample
        count, which gives NaN for an empty segment. */
    static method OnStageStats(points: seq<real>, mean: real, deviation: real, nominal: real, tolerance: real)
      returns (onstats: OnStageRailStats)
      ensures onstats == OnStageOf(points, mean, deviation, nominal, tolerance)
    {
      var offPoints := 0;
      var y := 0;
      while y < |points|
        invariant 0 <= y <= |points|
        invariant offPoints == OffCount(points[..y], nominal, tolerance)
      {
        OffCountStep(points, y, nominal, tolerance);
        if Abs(points[y] - nominal) > nominal * tolerance {
          offPoints := offPoints + 1;
        }
        y := y + 1;
      }
      assert points[..y] == points;
      var off := if |points| == 0 then NotANumber else Value(offPoints as real / |points| as real);
      var inRegulation := if off.NotANumber? then NotANumber else Value(1.0 - off.r);
      onstats := OnStageRailStats(inRegulation, mean, deviation, off);
    }

    /** The T2 block: fills the time axis 0, 1, ... and the value array, then asks for the
        quadratic fit from three samples on and the line fit from two samples on. */
    static method RampUpStats(points: seq<real>) returns (t2stats: RampUpStageRailStats)
      ensures t2stats == RampUpOf(points)
    {
      var time := new real[|points|];
      var value := new real[|points|];
      var y := 0;
      while y < value.Length
        invariant 0 <= y <= value.Length
        invariant forall j :: 0 <= j < y ==> time[j] == j as real && value[j] == points[j]
      {
        time[y] := y as real;
        value[y] := points[y];
        y := y + 1;
      }
      assert value[..] == points;
      assert time[..] == seq(|points|, j requires 0 <= j < |points| => j as real);
      var curveFit := if value.Length < 3 then None else Some(FitRequest(time[..], value[..], 2));
      var lineFit := if value.Length < 2 then None else Some(FitRequest(time[..], value[..], 1));
      t2stats := RampUpStageRailStats(curveFit, time[..], lineFit);
    }
  }

  /** The part of a rail record that the metadata pass writes. */
  function ViewOf(rs: RailStats): RailView
    reads rs`segments, rs`onStageStats, rs`t2StageStats
  {
    RailView(rs.segments, rs.onStageStats, rs.t2StageStats)
  }

  /** The fields of a rail record that the first half of `Run` writes. */
  datatype RailFigures = RailFigures(
    points: seq<real>,
    peaks: seq<int>,
    edges: seq<int>,
    peakStartingSign: int,
    meanVoltage: real,
    minVoltage: real,
    maxVoltage: real)

  function FiguresOf(rs: RailStats): RailFigures
    reads rs`points, rs`peaks, rs`edges, rs`peakStartingSign, rs`meanVoltage, rs`minVoltage, rs`maxVoltage
  {
    RailFigures(rs.points, rs.peaks, rs.edges, rs.peakStartingSign, rs.meanVoltage, rs.minVoltage, rs.maxVoltage)
  }

  /** The figures of a rail with samples `points`, peak window `w` and edge sensitivity `s`. */
  ghost function ExpectedFigures(points: seq<real>, w: real, s: real): RailFigures
  {
    var sm := Summarize(points);
    RailFigures(points, Extrema(points, w), Edges(points, w, s), StartingSign(points, w),
                sm.mean, sm.min, sm.max)
  }
}
