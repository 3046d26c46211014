/**
 * `RailStats`: the per-rail record the analyser fills in. Its segment list is
 * append-only from the analyser's side; the `Segments` property copies it out
 * and replaces it wholesale.
 */
module RailStatistics {
  import opened Common
  import opened AnalyzerTypes

  class RailStats {
    /** Set once, by the constructor: nothing in the analyser writes them afterwards. */
    const rail: Rail
    const nominalVoltage: real
    const voltageTolerance: real
    var meanVoltage: real
    var maxVoltage: real
    var minVoltage: real
    var points: seq<real>
    var peaks: seq<int>
    var edges: seq<int>
    var peakStartingSign: int
    /** The private `_segments` list. */
    var segments: seq<RailSegmentStats>
    var onStageStats: Option<OnStageRailStats>
    var t2StageStats: Option<RampUpStageRailStats>

    /** A rail record as `AtxStats` creates it: rail, nominal voltage and tolerance set,
        no segments, everything else at its default. */
    constructor(rail: Rail, nominalVoltage: real, voltageTolerance: real)
      ensures this.rail == rail
      ensures this.nominalVoltage == nominalVoltage
      ensures this.voltageTolerance == voltageTolerance
      ensures meanVoltage == 0.0 && maxVoltage == 0.0 && minVoltage == 0.0
      ensures points == [] && peaks == [] && edges == [] && peakStartingSign == 0
      ensures segments == []
      ensures onStageStats == None && t2StageStats == None
    {
      this.rail := rail;
      this.nominalVoltage := nominalVoltage;
      this.voltageTolerance := voltageTolerance;
      meanVoltage, maxVoltage, minVoltage := 0.0, 0.0, 0.0;
      points, peaks, edges, peakStartingSign := [], [], [], 0;
      segments := [];
      onStageStats, t2StageStats := None, None;
    }

    /** Adds `segment` after every stored one and returns the new count. */
    method AppendSegment(segment: RailSegmentStats) returns (count: int)
      modifies this`segments
      ensures segments == old(segments) + [segment]
      ensures count == |segments| == |old(segments)| + 1
    {
      segments := segments + [segment];
      count := |segments|;
    }

    /** The `Segments` getter: the stored segments, in insertion order. */
    method GetSegments() returns (r: seq<RailSegmentStats>)
      ensures r == segments
    {
      r := segments;
    }

    /** The `Segments` setter: clears the list, then adds every given segment. */
    method SetSegments(value: seq<RailSegmentStats>)
      modifies this`segments
      ensures segments == value
    {
      segments := [];
      segments := segments + value;
    }
  }

  /** A get after a set returns the assigned sequence, and appends keep earlier
      segments in place: the k-th stored segment is the k-th appended one. */
  method SetThenAppend(rs: RailStats, initial: seq<RailSegmentStats>, extra: RailSegmentStats)
    returns (got: seq<RailSegmentStats>)
    modifies rs`segments
    ensures got == initial + [extra]
    ensures forall k :: 0 <= k < |initial| ==> got[k] == initial[k]
  {
    rs.SetSegments(initial);
    var count := rs.AppendSegment(extra);
    got := rs.GetSegments();
  }
}
