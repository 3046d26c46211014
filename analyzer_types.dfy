/**
 * The value types of the CSV analyser: rails, stage markers and the per-segment
 * records that `AtxStaticAnalyzer` fills in.
 */
module AnalyzerTypes {
  import opened Common

  /** The `Rails` enumeration. */
  datatype Rail = V12 | V5 | V5SB | V3_3 | V12N | V5N

  /** One metadata record: `long[] { frameOffset, timeOffsetMicros }`. */
  datatype Marker = Marker(frame: int, timeUs: int)

  /** A `float` ratio that is NaN when computed as 0 / 0. */
  datatype Ratio = Value(r: real) | NotANumber

  /** The `OnStageRailStats` record. */
  datatype OnStageRailStats = OnStageRailStats(
    inRegulationPercent: Ratio,
    meanVoltage: real,
    deviationVoltage: real,
    offRegulationPercent: Ratio)

  /** A least-squares fit handed to the numerics library: the data and the degree.
      The fitted numbers themselves are not modelled. */
  datatype FitRequest = FitRequest(xs: seq<real>, ys: seq<real>, degree: nat)

  /** The `RampUpStageRailStats` record: `CurveCoefficients`/`Fitness` come from the
      degree-2 fit, `Slope`/`YIntercept` from the line fit. */
  datatype RampUpStageRailStats = RampUpStageRailStats(
    curveFit: Option<FitRequest>,
    timeAxis: seq<real>,
    lineFit: Option<FitRequest>)

  /** The `RailSegmentStats` record; `points` is null when the metadata is incomplete. */
  datatype RailSegmentStats = RailSegmentStats(
    metadataIncomplete: bool,
    fromSignal: string,
    toSignal: string,
    meanVoltage: real,
    deviation: real,
    maxVoltage: real,
    minVoltage: real,
    points: Option<seq<real>>,
    durationFrames: int,
    durationUs: int)

  /** The exceptions the analyser can raise on malformed metadata. */
  datatype AnalyzerError =
    | NullRail              // a rail series used before it was set
    | SliceOutOfRange       // `Array.Copy` past the end of the rail data
    | StageIndexOutOfRange  // more markers than stage names

  /** The default `MetadataLinesNames`. */
  const StageNames: seq<string> := ["T1", "T2", "T3", "ON", "T6", "OFF"]

  /** The rails `Run` analyses, in the order it processes them. */
  const AnalyzedRails: seq<Rail> := [V12, V5, V5SB, V3_3]

  /** The tolerance `AtxStats` gives each of its four rails. */
  const VoltageTolerance: real := 0.05

  /** A segment whose markers are missing or inverted: only the names are set. */
  function IncompleteSegment(from: string, to: string): RailSegmentStats
  {
    RailSegmentStats(true, from, to, 0.0, 0.0, 0.0, 0.0, None, 0, 0)
  }
}
