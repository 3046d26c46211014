/** `AtxStats`: the container `Run` returns, one `RailStats` per analysed rail. */
module AtxStatistics {
  import opened Common
  import opened AnalyzerTypes
  import opened RailStatistics

  /** The nominal voltages of V12, V5, V5SB and V3_3. */
  const NominalVoltages: seq<real> := [12.0, 5.0, 5.0, 3.3]

  class AtxStats {
    const v12Stats: RailStats
    const v5Stats: RailStats
    const v5sbStats: RailStats
    const v3_3Stats: RailStats
    var sourceMetadata: Option<seq<Marker>>
    /** Written by `Run`; absent from the container's own declaration. */
    var pgOkSignalTimeUs: int
    var lastStageRecorded: Option<string>

    /** The four rail records are distinct objects. */
    predicate Valid()
    {
      v12Stats != v5Stats && v12Stats != v5sbStats && v12Stats != v3_3Stats
      && v5Stats != v5sbStats && v5Stats != v3_3Stats && v5sbStats != v3_3Stats
    }

    /** The rail records in the order `Run` processes them. */
    function Rails(): (r: seq<RailStats>)
      ensures |r| == 4
      ensures r[0] == v12Stats && r[1] == v5Stats && r[2] == v5sbStats && r[3] == v3_3Stats
    {
      [v12Stats, v5Stats, v5sbStats, v3_3Stats]
    }

    /** Nominal voltages 12, 5, 5 and 3.3 volts, each with a 5% tolerance. */
    constructor()
      ensures Valid()
      ensures fresh(v12Stats) && fresh(v5Stats) && fresh(v5sbStats) && fresh(v3_3Stats)
      ensures forall k :: 0 <= k < 4 ==>
                Rails()[k].rail == AnalyzedRails[k]
                && Rails()[k].nominalVoltage == NominalVoltages[k]
                && Rails()[k].voltageTolerance == VoltageTolerance
                && Rails()[k].segments == []
                && Rails()[k].onStageStats == None && Rails()[k].t2StageStats == None
      ensures sourceMetadata == None && pgOkSignalTimeUs == 0 && lastStageRecorded == None
    {
      v12Stats := new RailStats(V12, 12.0, VoltageTolerance);
      v5Stats := new RailStats(V5, 5.0, VoltageTolerance);
      v5sbStats := new RailStats(V5SB, 5.0, VoltageTolerance);
      v3_3Stats := new RailStats(V3_3, 3.3, VoltageTolerance);
      sourceMetadata := None;
      pgOkSignalTimeUs := 0;
      lastStageRecorded := None;
    }
  }
}
