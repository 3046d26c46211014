/**
 * What `CalcSegmentStats` computes for one pair of stage markers, and what the
 * six calls `Run` makes per rail add up to, as functions of the rail data and the
 * metadata markers.
 */
module Segments {
  import opened Common
  import opened AnalyzerTypes
  import opened BoundedStats

  /** The frame offset of stage k, or 0 when the metadata has no k-th record. */
  function FrameAt(markers: seq<Marker>, k: nat): int
  {
    if k < |markers| then markers[k].frame else 0
  }

  /** Both frames are at least 1 and the end does not precede the start. */
  predicate Complete(markers: seq<Marker>, start: nat, end: nat)
  {
    FrameAt(markers, start) >= 1 && FrameAt(markers, end) >= 1
    && FrameAt(markers, end) >= FrameAt(markers, start)
  }

  /** A complete pair names two records that exist. */
  lemma CompleteHasRecords(markers: seq<Marker>, start: nat, end: nat)
    requires Complete(markers, start, end)
    ensures start < |markers| && end < |markers|
    ensures 1 <= markers[start].frame <= markers[end].frame
  {
  }

  /** `ExtractPointSegments`: a new array of `to - from` samples copied from `from` on;
      the allocation or the copy fails unless 0 <= from <= to <= |points|. */
  function ExtractPointSegments(points: seq<real>, from: int, to: int): (r: Result<seq<real>, AnalyzerError>)
    ensures r.Ok? <==> 0 <= from <= to <= |points|
    ensures r.Ok? ==> |r.value| == to - from
    ensures r.Ok? ==> forall j :: 0 <= j < |r.value| ==> r.value[j] == points[from + j]
    ensures r.Err? ==> r.error == SliceOutOfRange
  {
    if 0 <= from <= to <= |points| then Ok(points[from..to]) else Err(SliceOutOfRange)
  }

  /** `ExtractPointSegmentsFromMetadata`: the samples between the frames of two records,
      read from the loaded markers. It is only reached for a complete pair, whose two
      records exist. */
  function ExtractPointSegmentsFromMetadata(points: seq<real>, markers: seq<Marker>, from: nat, to: nat)
    : (r: Result<seq<real>, AnalyzerError>)
    requires from < |markers| && to < |markers|
    ensures r.Ok? <==> 0 <= markers[from].frame <= markers[to].frame <= |points|
    ensures r.Ok? ==> r.value == points[markers[from].frame..markers[to].frame]
    ensures r.Err? ==> r.error == SliceOutOfRange
  {
    ExtractPointSegments(points, markers[from].frame, markers[to].frame)
  }

  /** A sample is off regulation when it is more than nominal * tolerance from nominal. */
  predicate OffRegulation(v: real, nominal: real, tolerance: real)
  {
    Abs(v - nominal) > nominal * tolerance
  }

  /** How many samples are off regulation. */
  function OffCount(points: seq<real>, nominal: real, tolerance: real): (n: nat)
    ensures n <= |points|
    ensures n == 0 <==> forall j :: 0 <= j < |points| ==> !OffRegulation(points[j], nominal, tolerance)
    ensures n == |points| <==> forall j :: 0 <= j < |points| ==> OffRegulation(points[j], nominal, tolerance)
  {
    if |points| == 0 then 0
    else
      var init := points[..|points| - 1];
      assert forall j :: 0 <= j < |init| ==> init[j] == points[j];
      OffCount(init, nominal, tolerance)
      + (if OffRegulation(points[|points| - 1], nominal, tolerance) then 1 else 0)
  }

  /** Counting one more sample: the step of the ON-stage loop. */
  lemma OffCountStep(points: seq<real>, y: nat, nominal: real, tolerance: real)
    requires y < |points|
    ensures OffCount(points[..y + 1], nominal, tolerance)
            == OffCount(points[..y], nominal, tolerance)
               + (if OffRegulation(points[y], nominal, tolerance) then 1 else 0)
  {
    assert points[..y + 1][..y] == points[..y];
  }

  /** The ON-stage record for a complete segment: the off fraction is count / n and the
      in fraction 1 - off, both NaN for an empty segment. */
  function OnStageOf(points: seq<real>, mean: real, deviation: real, nominal: real, tolerance: real)
    : OnStageRailStats
  {
    if |points| == 0 then OnStageRailStats(NotANumber, mean, deviation, NotANumber)
    else
      var off := (OffCount(points, nominal, tolerance) as real) / (|points| as real);
      OnStageRailStats(Value(1.0 - off), mean, deviation, Value(off))
  }

  /** The two fractions of a non-empty ON segment lie in [0, 1] and add up to 1; the off
      fraction is 0 exactly when every sample is in regulation. */
  lemma OnStageFractions(points: seq<real>, mean: real, deviation: real, nominal: real, tolerance: real)
    requires |points| > 0
    ensures OnStageOf(points, mean, deviation, nominal, tolerance).offRegulationPercent.Value?
    ensures OnStageOf(points, mean, deviation, nominal, tolerance).inRegulationPercent.Value?
    ensures 0.0 <= OnStageOf(points, mean, deviation, nominal, tolerance).offRegulationPercent.r <= 1.0
    ensures OnStageOf(points, mean, deviation, nominal, tolerance).inRegulationPercent.r
            + OnStageOf(points, mean, deviation, nominal, tolerance).offRegulationPercent.r == 1.0
    ensures OnStageOf(points, mean, deviation, nominal, tolerance).offRegulationPercent.r == 0.0
            <==> forall j :: 0 <= j < |points| ==> !OffRegulation(points[j], nominal, tolerance)
  {
    var o := OnStageOf(points, mean, deviation, nominal, tolerance);
    var c := OffCount(points, nominal, tolerance) as real;
    var n := |points| as real;
    assert o == OnStageRailStats(Value(1.0 - c / n), mean, deviation, Value(c / n));
    FractionBounds(c, n);
  }

  lemma FractionBounds(c: real, n: real)
    requires 0.0 <= c <= n && n > 0.0
    ensures 0.0 <= c / n <= 1.0
    ensures c / n == 0.0 <==> c == 0.0
  {
    var f := c / n;
    assert f * n == c;
  }

  /** The T2 record: the time axis 0..n-1 always, the quadratic fit only from three
      samples on and the line fit only from two samples on. */
  function RampUpOf(points: seq<real>): RampUpStageRailStats
  {
    var time := seq(|points|, j requires 0 <= j < |points| => j as real);
    RampUpStageRailStats(
      if |points| < 3 then None else Some(FitRequest(time, points, 2)),
      time,
      if |points| < 2 then None else Some(FitRequest(time, points, 1)))
  }

  lemma RampUpPresence(points: seq<real>)
    ensures |RampUpOf(points).timeAxis| == |points|
    ensures forall j :: 0 <= j < |points| ==> RampUpOf(points).timeAxis[j] == j as real
    ensures RampUpOf(points).curveFit.Some? <==> |points| >= 3
    ensures RampUpOf(points).lineFit.Some? <==> |points| >= 2
    ensures RampUpOf(points).curveFit.Some? ==> RampUpOf(points).lineFit.Some?
    ensures RampUpOf(points).curveFit.Some? ==>
              RampUpOf(points).curveFit.value == FitRequest(RampUpOf(points).timeAxis, points, 2)
    ensures RampUpOf(points).lineFit.Some? ==>
              RampUpOf(points).lineFit.value == FitRequest(RampUpOf(points).timeAxis, points, 1)
  {
  }

  /** ASCII upper-casing; other characters are left as they are. */
  function ToUpper(c: char): char
  {
    if 'a' <= c <= 'z' then (c as int - 32) as char else c
  }

  /** `String.Equals(a, b, StringComparison.OrdinalIgnoreCase)` over ASCII. */
  predicate EqualsIgnoreCase(a: string, b: string)
  {
    |a| == |b| && forall j :: 0 <= j < |a| ==> ToUpper(a[j]) == ToUpper(b[j])
  }

  /** Of the stage names only index 3 matches "ON" and only index 1 matches "T2",
      whatever the case of the label. */
  lemma StageLabels(k: nat)
    requires k < |StageNames|
    ensures EqualsIgnoreCase(StageNames[k], "ON") <==> k == 3
    ensures EqualsIgnoreCase(StageNames[k], "on") <==> k == 3
    ensures EqualsIgnoreCase(StageNames[k], "T2") <==> k == 1
    ensures EqualsIgnoreCase(StageNames[k], "t2") <==> k == 1
  {
    assert ToUpper('o') == 'O' && ToUpper('n') == 'N' && ToUpper('t') == 'T';
    if k == 0 {
      assert StageNames[k][1] == '1';
    } else if k == 1 {
      assert StageNames[k] == "T2" && ToUpper(StageNames[k][0]) == 'T';
    } else if k == 2 {
      assert StageNames[k][1] == '3';
    } else if k == 3 {
      assert StageNames[k] == "ON" && ToUpper(StageNames[k][0]) == 'O';
    } else if k == 4 {
      assert StageNames[k][1] == '6';
    } else {
      assert |StageNames[k]| == 3;
    }
  }

  /** The record `CalcSegmentStats` returns for the stages `start` and `end`. */
  function SegmentOf(data: seq<real>, markers: seq<Marker>, start: nat, end: nat)
    : (r: Result<RailSegmentStats, AnalyzerError>)
    requires start < |StageNames| && end < |StageNames|
    ensures r.Err? <==> Complete(markers, start, end) && FrameAt(markers, end) > |data|
    ensures r.Err? ==> r.error == SliceOutOfRange
    ensures r.Ok? ==> r.value.fromSignal == StageNames[start] && r.value.toSignal == StageNames[end]
    ensures r.Ok? ==> (r.value.metadataIncomplete <==> !Complete(markers, start, end))
    ensures r.Ok? && !Complete(markers, start, end) ==> r.value == IncompleteSegment(StageNames[start], StageNames[end])
    ensures r.Ok? && Complete(markers, start, end) ==>
              && r.value.points == Some(data[FrameAt(markers, start)..FrameAt(markers, end)])
              && r.value.durationFrames == FrameAt(markers, end) - FrameAt(markers, start) >= 0
              && r.value.durationUs == markers[end].timeUs - markers[start].timeUs
  {
    var from, to := StageNames[start], StageNames[end];
    if !Complete(markers, start, end) then Ok(IncompleteSegment(from, to))
    else
      match ExtractPointSegmentsFromMetadata(data, markers, start, end)
      case Err(e) => Err(e)
      case Ok(slice) =>
        var sm := Summarize(slice);
        Ok(RailSegmentStats(false, from, to, sm.mean, sm.deviation, sm.max, sm.min, Some(slice),
                            markers[end].frame - markers[start].frame,
                            markers[end].timeUs - markers[start].timeUs))
  }

  /** A complete, non-empty segment reports min <= mean <= max, all taken from its own
      samples, and a non-negative deviation. */
  lemma SegmentSummaryOrdered(data: seq<real>, markers: seq<Marker>, start: nat, end: nat)
    requires start < |StageNames| && end < |StageNames|
    requires SegmentOf(data, markers, start, end).Ok?
    requires Complete(markers, start, end) && FrameAt(markers, start) < FrameAt(markers, end)
    ensures var s := SegmentOf(data, markers, start, end).value;
            s.minVoltage <= s.meanVoltage <= s.maxVoltage && s.deviation >= 0.0
  {
    var s := SegmentOf(data, markers, start, end).value;
    var slice := data[FrameAt(markers, start)..FrameAt(markers, end)];
    var sm := Summarize(slice);
    assert s.meanVoltage == sm.mean && s.minVoltage == sm.min;
    assert s.maxVoltage == sm.max && s.deviation == sm.deviation;
    SummarizeOrdered(slice);
  }

  /** The rail-side state `CalcSegmentStats` touches. */
  datatype RailView = RailView(
    segments: seq<RailSegmentStats>,
    onStage: Option<OnStageRailStats>,
    t2: Option<RampUpStageRailStats>)

  const EmptyView: RailView := RailView([], None, None)

  /** One `CalcSegmentStats` call on a rail with the given nominal voltage and tolerance. */
  function SegmentStep(view: RailView, data: seq<real>, markers: seq<Marker>, start: nat, end: nat,
                       nominal: real, tolerance: real): (r: Result<RailView, AnalyzerError>)
    requires start < |StageNames| && end < |StageNames|
    ensures r.Err? <==> SegmentOf(data, markers, start, end).Err?
    ensures r.Ok? ==> r.value.segments == view.segments + [SegmentOf(data, markers, start, end).value]
  {
    match SegmentOf(data, markers, start, end)
    case Err(e) => Err(e)
    case Ok(seg) =>
      if seg.metadataIncomplete then Ok(view.(segments := view.segments + [seg]))
      else
        var slice := seg.points.value;
        var onStage :=
          if EqualsIgnoreCase(StageNames[start], "ON")
          then Some(OnStageOf(slice, seg.meanVoltage, seg.deviation, nominal, tolerance))
          else view.onStage;
        var t2 := if EqualsIgnoreCase(StageNames[start], "T2") then Some(RampUpOf(slice)) else view.t2;
        Ok(RailView(view.segments + [seg], onStage, t2))
  }

  /** The six stage pairs `Run` visits per rail: consecutive stages, then T1 to ON. */
  const SegmentPairs: seq<(nat, nat)> := [(0, 1), (1, 2), (2, 3), (3, 4), (4, 5), (0, 3)]

  /** Every pair names two stages. */
  predicate ValidPairs(pairs: seq<(nat, nat)>)
  {
    forall k :: 0 <= k < |pairs| ==> pairs[k].0 < |StageNames| && pairs[k].1 < |StageNames|
  }

  /** The calls for `pairs`, in order, stopping at the first exception. */
  function SegmentsFrom(view: RailView, data: seq<real>, markers: seq<Marker>,
                        pairs: seq<(nat, nat)>, nominal: real, tolerance: real)
    : (r: Result<RailView, AnalyzerError>)
    requires ValidPairs(pairs)
    ensures r.Ok? ==> |r.value.segments| == |view.segments| + |pairs|
    ensures r.Ok? ==> r.value.segments[..|view.segments|] == view.segments
    decreases |pairs|
  {
    if |pairs| == 0 then Ok(view)
    else
      var n := |pairs| - 1;
      match SegmentsFrom(view, data, markers, pairs[..n], nominal, tolerance)
      case Err(e) => Err(e)
      case Ok(v) =>
        assert v.segments[..|view.segments|] == view.segments;
        SegmentStep(v, data, markers, pairs[n].0, pairs[n].1, nominal, tolerance)
  }

  /** The metadata pass over one rail, from an empty segment list. */
  function RailPass(data: seq<real>, markers: seq<Marker>, nominal: real, tolerance: real)
    : Result<RailView, AnalyzerError>
  {
    SegmentsFrom(EmptyView, data, markers, SegmentPairs, nominal, tolerance)
  }

  /** The calls for `pairs` succeed exactly when every one of them does, and then the
      k-th new segment is the record of the k-th pair. */
  lemma {:induction false} SegmentsFromElements(view: RailView, data: seq<real>, markers: seq<Marker>,
                                                pairs: seq<(nat, nat)>, nominal: real, tolerance: real)
    requires ValidPairs(pairs)
    ensures SegmentsFrom(view, data, markers, pairs, nominal, tolerance).Ok?
            <==> forall k :: 0 <= k < |pairs| ==> SegmentOf(data, markers, pairs[k].0, pairs[k].1).Ok?
    ensures SegmentsFrom(view, data, markers, pairs, nominal, tolerance).Ok? ==>
              forall k :: 0 <= k < |pairs| ==>
                SegmentsFrom(view, data, markers, pairs, nominal, tolerance).value.segments[|view.segments| + k]
                == SegmentOf(data, markers, pairs[k].0, pairs[k].1).value
    decreases |pairs|
  {
    if |pairs| > 0 {
      var n := |pairs| - 1;
      var init := pairs[..n];
      assert ValidPairs(init);
      SegmentsFromElements(view, data, markers, init, nominal, tolerance);
      assert forall k :: 0 <= k < n ==> init[k] == pairs[k];
      var r := SegmentsFrom(view, data, markers, pairs, nominal, tolerance);
      var prev := SegmentsFrom(view, data, markers, init, nominal, tolerance);
      if prev.Ok? {
        assert r == SegmentStep(prev.value, data, markers, pairs[n].0, pairs[n].1, nominal, tolerance);
        if r.Ok? {
          assert r.value.segments == prev.value.segments + [SegmentOf(data, markers, pairs[n].0, pairs[n].1).value];
        }
      } else {
        assert r.Err?;
        var k :| 0 <= k < n && SegmentOf(data, markers, init[k].0, init[k].1).Err?;
        assert SegmentOf(data, markers, pairs[k].0, pairs[k].1).Err?;
      }
    }
  }

  /** The metadata pass over a rail fails exactly when some complete pair ends past the
      rail's data; otherwise it stores six segments, T1 to T2, T2 to T3, T3 to ON, ON to T6,
      T6 to OFF and T1 to ON, each the record of its pair. */
  lemma RailPassSegments(data: seq<real>, markers: seq<Marker>, nominal: real, tolerance: real)
    ensures RailPass(data, markers, nominal, tolerance).Err? <==>
              exists k :: 0 <= k < |SegmentPairs|
                && Complete(markers, SegmentPairs[k].0, SegmentPairs[k].1)
                && FrameAt(markers, SegmentPairs[k].1) > |data|
    ensures RailPass(data, markers, nominal, tolerance).Ok? ==>
              && |RailPass(data, markers, nominal, tolerance).value.segments| == 6
              && forall k :: 0 <= k < 6 ==>
                   RailPass(data, markers, nominal, tolerance).value.segments[k]
                   == SegmentOf(data, markers, SegmentPairs[k].0, SegmentPairs[k].1).value
                   && RailPass(data, markers, nominal, tolerance).value.segments[k].fromSignal
                      == StageNames[SegmentPairs[k].0]
                   && RailPass(data, markers, nominal, tolerance).value.segments[k].toSignal
                      == StageNames[SegmentPairs[k].1]
  {
    SegmentsFromElements(EmptyView, data, markers, SegmentPairs, nominal, tolerance);
  }

  /** One step leaves the ON and T2 records alone unless its own pair starts at that
      stage and is complete. */
  lemma StepStages(view: RailView, data: seq<real>, markers: seq<Marker>, start: nat, end: nat,
                   nominal: real, tolerance: real)
    requires start < |StageNames| && end < |StageNames|
    requires SegmentStep(view, data, markers, start, end, nominal, tolerance).Ok?
    ensures var v := SegmentStep(view, data, markers, start, end, nominal, tolerance).value;
            var seg := SegmentOf(data, markers, start, end).value;
            && v.onStage == (if start == 3 && Complete(markers, start, end)
                             then Some(OnStageOf(seg.points.value, seg.meanVoltage, seg.deviation, nominal, tolerance))
                             else view.onStage)
            && v.t2 == (if start == 1 && Complete(markers, start, end)
                        then Some(RampUpOf(seg.points.value))
                        else view.t2)
  {
    StageLabels(start);
  }

  /** After a successful pass the ON record comes from the ON to T6 segment, and is
      absent when that segment is incomplete. */
  lemma RailPassOnStage(data: seq<real>, markers: seq<Marker>, nominal: real, tolerance: real)
    requires RailPass(data, markers, nominal, tolerance).Ok?
    ensures SegmentOf(data, markers, 3, 4).Ok?
    ensures var on := SegmentOf(data, markers, 3, 4).value;
            RailPass(data, markers, nominal, tolerance).value.onStage
            == if Complete(markers, 3, 4)
               then Some(OnStageOf(on.points.value, on.meanVoltage, on.deviation, nominal, tolerance))
               else None
  {
    var head, tail := [(0, 1), (1, 2), (2, 3)], [(4, 5), (0, 3)];
    assert SegmentPairs == (head + [(3, 4)]) + tail;
    SplitAtStage(EmptyView, data, markers, head, (3, 4), tail, nominal, tolerance);
    var before := SegmentsFrom(EmptyView, data, markers, head, nominal, tolerance).value;
    StepStages(before, data, markers, 3, 4, nominal, tolerance);
    StagesKept(EmptyView, data, markers, head, nominal, tolerance);
  }

  /** After a successful pass the T2 record comes from the T2 to T3 segment, and is
      absent when that segment is incomplete. */
  lemma RailPassT2Stage(data: seq<real>, markers: seq<Marker>, nominal: real, tolerance: real)
    requires RailPass(data, markers, nominal, tolerance).Ok?
    ensures SegmentOf(data, markers, 1, 2).Ok?
    ensures RailPass(data, markers, nominal, tolerance).value.t2
            == if Complete(markers, 1, 2)
               then Some(RampUpOf(SegmentOf(data, markers, 1, 2).value.points.value))
               else None
  {
    var head, tail := [(0, 1)], [(2, 3), (3, 4), (4, 5), (0, 3)];
    assert SegmentPairs == (head + [(1, 2)]) + tail;
    SplitAtStage(EmptyView, data, markers, head, (1, 2), tail, nominal, tolerance);
    var before := SegmentsFrom(EmptyView, data, markers, head, nominal, tolerance).value;
    StepStages(before, data, markers, 1, 2, nominal, tolerance);
    StagesKept(EmptyView, data, markers, head, nominal, tolerance);
  }

  /** A pass split around one pair: the calls before it, the pair itself, and the calls
      after it, which leave the ON record alone when none starts at ON and the T2 record
      alone when none starts at T2. */
  lemma SplitAtStage(view: RailView, data: seq<real>, markers: seq<Marker>, head: seq<(nat, nat)>,
                     pair: (nat, nat), tail: seq<(nat, nat)>, nominal: real, tolerance: real)
    requires ValidPairs(head) && ValidPairs(tail) && pair.0 < |StageNames| && pair.1 < |StageNames|
    requires SegmentsFrom(view, data, markers, head + [pair] + tail, nominal, tolerance).Ok?
    ensures ValidPairs(head + [pair])
    ensures SegmentsFrom(view, data, markers, head, nominal, tolerance).Ok?
    ensures SegmentStep(SegmentsFrom(view, data, markers, head, nominal, tolerance).value,
                        data, markers, pair.0, pair.1, nominal, tolerance).Ok?
    ensures var mid := SegmentStep(SegmentsFrom(view, data, markers, head, nominal, tolerance).value,
                                   data, markers, pair.0, pair.1, nominal, tolerance).value;
            var last := SegmentsFrom(view, data, markers, head + [pair] + tail, nominal, tolerance).value;
            && ((forall k :: 0 <= k < |tail| ==> tail[k].0 != 3) ==> last.onStage == mid.onStage)
            && ((forall k :: 0 <= k < |tail| ==> tail[k].0 != 1) ==> last.t2 == mid.t2)
  {
    var front := head + [pair];
    assert ValidPairs(front);
    assert front[..|head|] == head;
    SegmentsFromAppend(view, data, markers, front, tail, nominal, tolerance);
    StagesKept(SegmentsFrom(view, data, markers, front, nominal, tolerance).value,
               data, markers, tail, nominal, tolerance);
  }

  /** Running the calls for a + b is running those for a, then those for b. */
  lemma {:induction false} SegmentsFromAppend(view: RailView, data: seq<real>, markers: seq<Marker>,
                                              a: seq<(nat, nat)>, b: seq<(nat, nat)>,
                                              nominal: real, tolerance: real)
    requires ValidPairs(a) && ValidPairs(b)
    ensures ValidPairs(a + b)
    ensures SegmentsFrom(view, data, markers, a + b, nominal, tolerance)
            == match SegmentsFrom(view, data, markers, a, nominal, tolerance)
               case Err(e) => Err(e)
               case Ok(v) => SegmentsFrom(v, data, markers, b, nominal, tolerance)
    decreases |b|
  {
    assert ValidPairs(a + b);
    if |b| == 0 {
      assert a + b == a;
    } else {
      var n := |b| - 1;
      assert ValidPairs(b[..n]);
      SegmentsFromAppend(view, data, markers, a, b[..n], nominal, tolerance);
      assert (a + b)[..|a + b| - 1] == a + b[..n];
    }
  }

  /** Calls none of which starts at ON keep the ON record; none at T2, the T2 record. */
  lemma {:induction false} StagesKept(view: RailView, data: seq<real>, markers: seq<Marker>,
                                      pairs: seq<(nat, nat)>, nominal: real, tolerance: real)
    requires ValidPairs(pairs)
    requires SegmentsFrom(view, data, markers, pairs, nominal, tolerance).Ok?
    ensures (forall k :: 0 <= k < |pairs| ==> pairs[k].0 != 3) ==>
              SegmentsFrom(view, data, markers, pairs, nominal, tolerance).value.onStage == view.onStage
    ensures (forall k :: 0 <= k < |pairs| ==> pairs[k].0 != 1) ==>
              SegmentsFrom(view, data, markers, pairs, nominal, tolerance).value.t2 == view.t2
    decreases |pairs|
  {
    if |pairs| > 0 {
      var n := |pairs| - 1;
      var init := pairs[..n];
      assert ValidPairs(init);
      assert forall k :: 0 <= k < n ==> init[k] == pairs[k];
      StagesKept(view, data, markers, init, nominal, tolerance);
      var prev := SegmentsFrom(view, data, markers, init, nominal, tolerance).value;
      StepStages(prev, data, markers, pairs[n].0, pairs[n].1, nominal, tolerance);
    }
  }

  /** Running the calls for one more pair of a prefix is one more step. */
  lemma PrefixStep(view: RailView, data: seq<real>, markers: seq<Marker>,
                   pairs: seq<(nat, nat)>, n: nat, nominal: real, tolerance: real)
    requires ValidPairs(pairs) && n < |pairs|
    ensures ValidPairs(pairs[..n]) && ValidPairs(pairs[..n + 1])
    ensures SegmentsFrom(view, data, markers, pairs[..n + 1], nominal, tolerance)
            == match SegmentsFrom(view, data, markers, pairs[..n], nominal, tolerance)
               case Err(e) => Err(e)
               case Ok(v) => SegmentStep(v, data, markers, pairs[n].0, pairs[n].1, nominal, tolerance)
  {
    assert ValidPairs(pairs[..n]) && ValidPairs(pairs[..n + 1]);
    assert pairs[..n + 1][..n] == pairs[..n];
  }

  /** The duration from T1 to ON that `Run` reports, 0 when those markers are incomplete. */
  function PgOkDuration(markers: seq<Marker>): int
  {
    if Complete(markers, 0, 3) then
      CompleteHasRecords(markers, 0, 3);
      markers[3].timeUs - markers[0].timeUs
    else 0
  }

  /** A failing prefix makes the whole sequence of calls fail. */
  lemma PrefixFails(view: RailView, data: seq<real>, markers: seq<Marker>,
                    pairs: seq<(nat, nat)>, n: nat, nominal: real, tolerance: real)
    requires ValidPairs(pairs) && n <= |pairs|
    requires ValidPairs(pairs[..n]) && SegmentsFrom(view, data, markers, pairs[..n], nominal, tolerance).Err?
    ensures SegmentsFrom(view, data, markers, pairs, nominal, tolerance).Err?
  {
    assert ValidPairs(pairs[n..]);
    assert pairs == pairs[..n] + pairs[n..];
    SegmentsFromAppend(view, data, markers, pairs[..n], pairs[n..], nominal, tolerance);
  }
}
