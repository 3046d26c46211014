# AtxWatchdog core, modelled in Dafny

AtxWatchdog is a test bench for ATX power supplies. An Arduino board samples the
+12 V, +5 V, +5 V standby and +3.3 V rails and the PS_ON / PG_GOOD signals. A
desktop tool then analyses the captured CSV files together with a binary file of
stage markers (T1, T2, T3, ON, T6, OFF).

This project models the parts of both sides that compute something:

- **Rail analyser** (`analyzer.dfy`, `peak_search.dfy`, `bounded_stats.dfy`, `segments.dfy`,
  `rail_stats.dfy`, `atx_stats.dfy`, `analyzer_types.dfy`):
  - the windowed peak, valley and edge classifier;
  - the bounded running mean, minimum, maximum and deviation;
  - the per-stage segment statistics, with ON-regulation fractions and T2 fit presence;
  - `Run`, which drives all of it over the four rails.
- **Loaders** (`matrix.dfy`, `csv_text.dfy`):
  - the big-endian 32-bit reader and the 8-byte marker records;
  - the fixed-priority rail reordering;
  - the CSV matrix loader with its line-skipping and column-padding rules.
- **Running average** (`running_avg.dfy`): the data dumper's bounded running mean.
- **Firmware** (`calibration.dfy`, `voltmeter.dfy`, `timer.dfy`, `buzzer.dfy`, `arduino.dfy`):
  - the calibration polynomials;
  - the voltmeter's sample averaging, clamping and presence predicates;
  - the `millis()`-driven `Timer` and `PiezoBuzzer` state machines.

Each method that loops or changes state is proved against a specification function:

- `Extrema`, `Edges` and `StartingSign` for the classifier.
- `Summarize` for the statistics.
- `SegmentOf`, `SegmentStep` and `RailPass` for the segments.
- `DecodeMarkers`, `Prioritized` and `Load` / `Columns` for the loaders.
- The wrapping tests `DueAsWritten` and `ExpiredAsWritten` for the firmware timers. The elapsed-time tests `Due` and `Expired` are the corrections under "## Findings".

Lemmas then state what those functions mean: membership, ordering, bounds, round
trips and the source's own unit test.

Modelling choices:

- Floating-point values are reals.
- The AVR `unsigned long` clock is an integer modulo 2^32, and the AVR `int` is a 16-bit range.
- Files, the ADC, the clock and the pins become parameters:
  - a byte sequence and a list of lines stand for the files;
  - sample sequences stand for the ADC;
  - the clock value is passed to every call;
  - pin writes are recorded in a list of levels.
- Exceptions become `Result` errors.

## Model

| member | source | states |
|---|---|---|
| Analyzer.AtxStaticAnalyzer.constructor | AtxWatchdogTools/AtxCsvAnalyzer/AtxStaticAnalyzer.cs:40-52 | A new analyser has its four rail series null and no markers; its window fraction and edge sensitivity are both 0.05. |
| Analyzer.AtxStaticAnalyzer.SearchPeaksEdges | AtxWatchdogTools/AtxCsvAnalyzer/AtxStaticAnalyzer.cs:298-385 | The reported peaks, edges and starting sign are exactly the extrema, edges and first-extremum sign of the series, for a window of fraction × N samples. |
| Analyzer.AtxStaticAnalyzer.ReportIndex | AtxWatchdogTools/AtxCsvAnalyzer/AtxStaticAnalyzer.cs:367-381 | One pass of the classifier loop appends index i to the peaks iff it is an extremum and to the edges iff it is reported, and fixes the starting sign at the first extremum, keeping the loop's invariant from i to i + 1. |
| Analyzer.AtxStaticAnalyzer.ScanIndex | AtxWatchdogTools/AtxCsvAnalyzer/AtxStaticAnalyzer.cs:305-365 | For one interior index, the five flags decide exactly whether it is a peak, whether it is an extremum, and whether it is reported as an edge. |
| Analyzer.AtxStaticAnalyzer.ScanBackward | AtxWatchdogTools/AtxCsvAnalyzer/AtxStaticAnalyzer.cs:324-343 | After ceil(min(i, w)) backward comparisons: peak survives iff every compared sample is lower; valley iff every one is higher; `different` is set iff one differs by more than the sensitivity; `edgeRight` survives iff all compared samples lie on one side. |
| Analyzer.AtxStaticAnalyzer.ScanForward | AtxWatchdogTools/AtxCsvAnalyzer/AtxStaticAnalyzer.cs:346-365 | The same for the forward scan over ceil(min(N-1-i, w)) samples, which clears `edgeLeft`. |
| Analyzer.AtxStaticAnalyzer.CalcMeanMinMax | AtxWatchdogTools/AtxCsvAnalyzer/AtxStaticAnalyzer.cs:427-454 | The four outputs are the bounded-divisor mean, the minimum seeded with float.MaxValue, the maximum seeded with 0, and the bounded mean absolute deviation. |
| Analyzer.AtxStaticAnalyzer.DeviationPass | AtxWatchdogTools/AtxCsvAnalyzer/AtxStaticAnalyzer.cs:446-453 | The deviation is the bounded mean of the absolute distances of the points from the mean. |
| Analyzer.AtxStaticAnalyzer.CalcRailMeanMinMax | AtxWatchdogTools/AtxCsvAnalyzer/AtxStaticAnalyzer.cs:413-425 | A rail record's mean, minimum and maximum become those of its points; the deviation is discarded. |
| Analyzer.AtxStaticAnalyzer.SearchRail | AtxWatchdogTools/AtxCsvAnalyzer/AtxStaticAnalyzer.cs:114-119 | A rail's record receives its points, its extrema, its edges and its starting sign. |
| Analyzer.AtxStaticAnalyzer.AnalyzeRail | AtxWatchdogTools/AtxCsvAnalyzer/AtxStaticAnalyzer.cs:413-425 | A rail's whole-series figures (points, peaks, edges, sign, mean, min, max) are those the specification assigns to its points. |
| Analyzer.AtxStaticAnalyzer.AnalyzeFullRails | AtxWatchdogTools/AtxCsvAnalyzer/AtxStaticAnalyzer.cs:112-150 | Each of the four rails gets the whole-series figures of its own series. |
| Analyzer.AtxStaticAnalyzer.CalcSegmentStats | AtxWatchdogTools/AtxCsvAnalyzer/AtxStaticAnalyzer.cs:200-296 | The returned segment is the stage segment of the markers. A successful call appends exactly that segment and updates the ON or T2 stats as the stage demands. A failing call (slice past the data) changes nothing. |
| Analyzer.AtxStaticAnalyzer.OnStageStats | AtxWatchdogTools/AtxCsvAnalyzer/AtxStaticAnalyzer.cs:234-247 | The counting loop gives exactly the ON block of the segment: off fraction = off-regulation count / N, in fraction its complement, NaN for an empty segment, and the segment's mean and deviation. |
| Analyzer.AtxStaticAnalyzer.RampUpStats | AtxWatchdogTools/AtxCsvAnalyzer/AtxStaticAnalyzer.cs:254-288 | The filling loop gives exactly the T2 block: time axis 0..n−1, values the segment's points, and the quadratic and line fits requested over them. |
| Analyzer.AtxStaticAnalyzer.CalcRailSegments | AtxWatchdogTools/AtxCsvAnalyzer/AtxStaticAnalyzer.cs:184-189 | The six segment calls for one rail succeed iff the whole rail pass does; they leave the rail as the pass does and return the T1→ON duration. |
| Analyzer.AtxStaticAnalyzer.SegmentAllRails | AtxWatchdogTools/AtxCsvAnalyzer/AtxStaticAnalyzer.cs:157-190 | The loop fails iff some rail's pass fails. Otherwise every rail holds its pass result and the result is the T1→ON duration in µs. |
| Analyzer.AtxStaticAnalyzer.ProcessMetadata | AtxWatchdogTools/AtxCsvAnalyzer/AtxStaticAnalyzer.cs:153-193 | Without markers nothing changes. With markers: each rail holds its six segments, `PgOkSignalTimeUs` is the T1→ON duration, and the last stage is the name of the last marker. It fails iff a slice runs past the data or there are more markers than stage names. It may change only the segment, ON and T2 fields, so the whole-series figures are untouched. |
| Analyzer.AtxStaticAnalyzer.Run | AtxWatchdogTools/AtxCsvAnalyzer/AtxStaticAnalyzer.cs:103-198 | It fails iff a rail series is still null (the null dereference of the peak search), a slice runs past the data, or there are more markers than stage names, with that error. Otherwise the statistics hold, per rail, its nominal voltage, tolerance and whole-series figures; when markers are present they also hold its segments, the PG_OK time and the last stage. |
| Analyzer.AtxStaticAnalyzer.AnalyzeSeries | AtxWatchdogTools/AtxCsvAnalyzer/AtxStaticAnalyzer.cs:107-197 | With the series set, the peak search, the full-rail summaries and the metadata pass give the statistics `Run` promises, failing iff the metadata pass fails. |
| BoundedStats.RunningMinIsMinimum | AtxWatchdogTools/AtxCsvAnalyzer/AtxStaticAnalyzer.cs:429-441 | The minimum is at most every point, and is either float.MaxValue or one of the points. |
| BoundedStats.RunningMaxIsMaximum | AtxWatchdogTools/AtxCsvAnalyzer/AtxStaticAnalyzer.cs:430-439 | The maximum is at least every point, and is either 0 or one of the points. |
| BoundedStats.AbsDeviationsAt | AtxWatchdogTools/AtxCsvAnalyzer/AtxStaticAnalyzer.cs:447-450 | Element j of the deviation series is the absolute distance of point j from the mean. |
| BoundedStats.MeanStep | AtxWatchdogTools/AtxCsvAnalyzer/AtxStaticAnalyzer.cs:443 | Adding point i moves the bounded mean by (v − mean) / min(i+1, cap); the divisor is never zero. |
| BoundedStats.MinMaxStep | AtxWatchdogTools/AtxCsvAnalyzer/AtxStaticAnalyzer.cs:438-441 | One more point replaces the minimum only when it is strictly lower, and the maximum only when it is strictly higher. |
| BoundedStats.StepBetween | AtxWatchdogTools/AtxCsvAnalyzer/AtxStaticAnalyzer.cs:443 | An update with divisor at least 1 lands between the old mean and the new value. |
| BoundedStats.BoundedMeanWithin | AtxWatchdogTools/AtxCsvAnalyzer/AtxStaticAnalyzer.cs:443 | The bounded mean of values that all lie in [lo, hi] lies in [lo, hi]. |
| BoundedStats.BoundedMeanIsArithmeticMean | AtxWatchdogTools/AtxCsvAnalyzer/AtxStaticAnalyzer.cs:443 | Up to `cap` values, the bounded mean is the arithmetic mean. |
| BoundedStats.SummarizeEmpty | AtxWatchdogTools/AtxCsvAnalyzer/AtxStaticAnalyzer.cs:429-432 | With no points: mean 0, minimum float.MaxValue, maximum 0, deviation 0. |
| BoundedStats.AllNegativeMaxIsZero | AtxWatchdogTools/AtxCsvAnalyzer/AtxStaticAnalyzer.cs:430-439 | An all-negative series reports a maximum of 0. |
| BoundedStats.SummarizeOrdered | AtxWatchdogTools/AtxCsvAnalyzer/AtxStaticAnalyzer.cs:429-453 | With at least one point, min ≤ mean ≤ max and the deviation is not negative. |
| PeakSearch.ScanLengthBound | AtxWatchdogTools/AtxCsvAnalyzer/AtxStaticAnalyzer.cs:325 | The loop `r < limit` with a float limit runs exactly ScanLength(limit) times. |
| PeakSearch.GrowLow | AtxWatchdogTools/AtxCsvAnalyzer/AtxStaticAnalyzer.cs:325-343 | Comparing one more sample further back updates the all-below, all-above, any-far and same-side facts exactly as one backward iteration does. |
| PeakSearch.GrowHigh | AtxWatchdogTools/AtxCsvAnalyzer/AtxStaticAnalyzer.cs:347-365 | The same for one more forward sample. |
| PeakSearch.BelowIncreasing | AtxWatchdogTools/AtxCsvAnalyzer/AtxStaticAnalyzer.cs:305-381 | Indices reported before k lie in [1, k) and both lists are strictly increasing. |
| PeakSearch.ExtremaBelowMembers | AtxWatchdogTools/AtxCsvAnalyzer/AtxStaticAnalyzer.cs:367-373 | An index is among the extrema found before k iff it is below k and is a peak or a valley. |
| PeakSearch.EdgesBelowMembers | AtxWatchdogTools/AtxCsvAnalyzer/AtxStaticAnalyzer.cs:367-381 | An index is among the edges found before k iff it is below k and is an extremum or a surviving, different edge. |
| PeakSearch.ClassifyStep | AtxWatchdogTools/AtxCsvAnalyzer/AtxStaticAnalyzer.cs:367-381 | Index i appends itself to the peaks iff it is an extremum, and to the edges iff it is reported; the first extremum sets the starting sign. |
| PeakSearch.ExtremaAreInteriorEdges | AtxWatchdogTools/AtxCsvAnalyzer/AtxStaticAnalyzer.cs:305-381 | Only interior indices 1..N−2 are reported; every peak or valley is also an edge, so there are no more peaks than edges. |
| PeakSearch.StartingSignIsFirstKind | AtxWatchdogTools/AtxCsvAnalyzer/AtxStaticAnalyzer.cs:302-371 | The starting sign is +1 without extrema. Otherwise it is +1 when the first extremum is a peak and −1 when it is a valley. |
| PeakSearch.NonPositiveWindowAllExtrema | AtxWatchdogTools/AtxCsvAnalyzer/AtxStaticAnalyzer.cs:303-365 | With a window of zero or less, no sample is compared, so every interior index is an extremum. |
| PeakSearch.NeighbourWindow | AtxWatchdogTools/AtxCsvAnalyzer/AtxStaticAnalyzer.cs:317-365 | When each scan compares one sample: peak iff both neighbours are lower; valley iff both are higher; edge iff a neighbour differs by more than the sensitivity. |
| PeakSearch.IncreasingSeries | AtxWatchdogTools/AtxCsvAnalyzer/AtxStaticAnalyzer.cs:305-381 | A strictly increasing series has no extrema, and its edges are the interior indices next to a jump larger than the sensitivity. |
| PeakSearch.UnitTestClassification | AtxWatchdogTools/AtxCsvAnalyzerTests/AtxStaticAnalyzerTests.cs:19-21 | On the unit-test series, index 5 is the only extremum and indices 2..7 are the reported edges. |
| PeakSearch.UnitTestSeries | AtxWatchdogTools/AtxCsvAnalyzerTests/AtxStaticAnalyzerTests.cs:19-33 | On the unit-test series with the default fractions, peaks are [5], edges are [2,3,4,5,6,7] and the starting sign is +1. |
| Segments.CompleteHasRecords | AtxWatchdogTools/AtxCsvAnalyzer/AtxStaticAnalyzer.cs:206-208 | A complete segment has marker records for both stages, and 1 ≤ start frame ≤ end frame. |
| Segments.ExtractPointSegments | AtxWatchdogTools/AtxCsvAnalyzer/AtxStaticAnalyzer.cs:456-462 | The slice succeeds iff 0 ≤ from ≤ to ≤ N. It then holds the points from..to−1; otherwise it is the out-of-range error. |
| Segments.ExtractPointSegmentsFromMetadata | AtxWatchdogTools/AtxCsvAnalyzer/AtxStaticAnalyzer.cs:464-471 | The slice between the frames of the two marker records: it succeeds iff 0 ≤ start frame ≤ end frame ≤ N and then holds exactly those samples; otherwise it is the out-of-range error. |
| Segments.OffCount | AtxWatchdogTools/AtxCsvAnalyzer/AtxStaticAnalyzer.cs:237-239 | The off-regulation count is at most N. It is 0 iff no point is off regulation, and N iff every point is. |
| Segments.OnStageFractions | AtxWatchdogTools/AtxCsvAnalyzer/AtxStaticAnalyzer.cs:241-246 | For a non-empty ON segment the off fraction is in [0, 1], the in fraction is its complement, and off is 0 iff every point is in regulation. |
| Segments.RampUpPresence | AtxWatchdogTools/AtxCsvAnalyzer/AtxStaticAnalyzer.cs:254-288 | The T2 time axis is 0..n−1. The quadratic fit is requested iff n ≥ 3 and the line fit iff n ≥ 2, both over that axis and the points. |
| Segments.StageLabels | AtxWatchdogTools/AtxCsvAnalyzer/AtxStaticAnalyzer.cs:234-251 | Among the stage names, only stage 3 equals "ON" and only stage 1 equals "T2", ignoring case. |
| Segments.SegmentOf | AtxWatchdogTools/AtxCsvAnalyzer/AtxStaticAnalyzer.cs:203-232 | An incomplete stage pair gives a flagged segment with no points. A complete pair gives the slice between the frames, its frame and µs durations, and its statistics. It fails iff the end frame is past the data. |
| Segments.SegmentSummaryOrdered | AtxWatchdogTools/AtxCsvAnalyzer/AtxStaticAnalyzer.cs:222-232 | A non-empty segment has min ≤ mean ≤ max and a deviation that is not negative. |
| Segments.SegmentStep | AtxWatchdogTools/AtxCsvAnalyzer/AtxStaticAnalyzer.cs:234-293 | One segment call fails iff its segment does; otherwise the rail's segment list grows by exactly that segment. |
| Segments.SegmentsFromElements | AtxWatchdogTools/AtxCsvAnalyzer/AtxStaticAnalyzer.cs:184-188 | A run of segment calls succeeds iff every one does; segment k of the result is the k-th pair's segment, after the earlier ones. |
| Segments.RailPassSegments | AtxWatchdogTools/AtxCsvAnalyzer/AtxStaticAnalyzer.cs:184-188 | A rail pass fails iff some complete pair ends past the data. Otherwise it appends six segments in the order T1→T2, T2→T3, T3→ON, ON→T6, T6→OFF, T1→ON. |
| Segments.RailPassOnStage | AtxWatchdogTools/AtxCsvAnalyzer/AtxStaticAnalyzer.cs:234-249 | After a pass the ON stats are those of the ON→T6 segment when it is complete, and absent otherwise. |
| Segments.RailPassT2Stage | AtxWatchdogTools/AtxCsvAnalyzer/AtxStaticAnalyzer.cs:251-290 | After a pass the T2 stats are those of the T2→T3 segment when it is complete, and absent otherwise. |
| Segments.StagesKept | AtxWatchdogTools/AtxCsvAnalyzer/AtxStaticAnalyzer.cs:234-290 | Segment calls that do not start at ON leave the ON stats alone; calls that do not start at T2 leave the T2 stats alone. |
| RailStatistics.RailStats.constructor | AtxWatchdogTools/AtxCsvAnalyzer/RailStats.cs:25-92 | A new record holds its rail, nominal voltage and tolerance, zero figures, and no segments or stage stats. |
| RailStatistics.RailStats.AppendSegment | AtxWatchdogTools/AtxCsvAnalyzer/RailStats.cs:95-99 | The segment goes at the end, earlier segments stay in order, and the new count is returned. |
| RailStatistics.RailStats.GetSegments | AtxWatchdogTools/AtxCsvAnalyzer/RailStats.cs:76 | The getter returns the stored segments in insertion order. |
| RailStatistics.RailStats.SetSegments | AtxWatchdogTools/AtxCsvAnalyzer/RailStats.cs:77-81 | The setter replaces the contents by the assigned sequence. |
| RailStatistics.SetThenAppend | AtxWatchdogTools/AtxCsvAnalyzer/RailStats.cs:76-99 | A set followed by an append and a get returns the assigned segments followed by the appended one. |
| AtxStatistics.AtxStats.constructor | AtxWatchdogTools/AtxCsvAnalyzer/AtxStats.cs:22-25 | Four fresh rail records: +12 V, +5 V, +5 V standby and +3.3 V, each with its nominal voltage and the 0.05 tolerance, and no segments. |
| RunningAverage.RunningAvg.constructor | AtxWatchdogTools/AtxDataDumper/RunningAvg.cs:6-8 | Count 0, mean 0, factor 1000. |
| RunningAverage.RunningAvg.Add | AtxWatchdogTools/AtxDataDumper/RunningAvg.cs:10-14 | The count grows by exactly one. The mean moves by (value − mean) / min(count+1, factor). The mean keeps tracking the bounded mean of the values added since the last reset. |
| RunningAverage.RunningAvg.Reset | AtxWatchdogTools/AtxDataDumper/RunningAvg.cs:16-20 | Count and mean return to 0; the factor is unchanged. |
| RunningAverage.RunningAvg.SetFactor | AtxWatchdogTools/AtxDataDumper/RunningAvg.cs:8 | The factor property takes the assigned value. |
| RunningAverage.FirstValueIsMean | AtxWatchdogTools/AtxDataDumper/RunningAvg.cs:12 | With a factor of at least 1, the first value added after a reset becomes the mean. |
| RunningAverage.SteadyStateStep | AtxWatchdogTools/AtxDataDumper/RunningAvg.cs:12 | Once `factor` values have been added, each add moves the mean by (value − mean) / factor. |
| RunningAverage.MeanIsArithmeticMean | AtxWatchdogTools/AtxDataDumper/RunningAvg.cs:10-14 | While no more than `factor` values have been added since a reset, the mean is their arithmetic mean. |
| Calibration.CalCurve1 | AtxWatchdog/CalibrationCurves.c:6-15 | Inputs below 0.5 read 0. |
| Calibration.CalCurve2 | AtxWatchdog/CalibrationCurves.c:17-30 | Inputs below 0.5 read 0. |
| Calibration.CalCurve3 | AtxWatchdog/CalibrationCurves.c:32-46 | Inputs below 0.5 read 0. |
| Calibration.CalCurve4 | AtxWatchdog/CalibrationCurves.c:48-63 | Inputs below 0.5 read 0. |
| Calibration.CalCurve4IsPolynomial | AtxWatchdog/CalibrationCurves.c:48-63 | From 0.5 up, calCurve4 equals x4·x⁴ + x3·x³ + x2·x² + x1·x + o, whichever leading coefficients are zero. |
| Calibration.LowerCurvesAreQuartics | AtxWatchdog/CalibrationCurves.c:17-51 | calCurve3, calCurve2 and calCurve1 equal calCurve4 with the missing leading coefficients set to zero, so the delegation chain is consistent. |
| Calibration.ZeroCoefficientsGiveOffset | AtxWatchdog/CalibrationCurves.c:6-51 | With every coefficient zero, a reading from 0.5 up returns the offset. |
| Voltmeter.AveragedRange | AtxWatchdog/AtxVoltmeter.cpp:27-43 | For ADC samples in 0..1023 the result is in 0..1023. With two or more samples it is either 0 (trimmed) or above 341 and at most the largest sample. |
| Voltmeter.ClampNonNegative | AtxWatchdog/AtxVoltmeter.cpp:67-70 | The sensed value is never negative and is unchanged when already non-negative. |
| Voltmeter.TrimmedReadsZero | AtxWatchdog/AtxVoltmeter.cpp:45-84 | A trimmed (zero) ADC average senses as 0 V on every rail, whatever the coefficients and Vcc. |
| Voltmeter.LevelValue | AtxWatchdog/AtxVoltmeter.cpp:139-140 | A digital read is positive iff the pin is HIGH. |
| Voltmeter.PresenceRelations | AtxWatchdog/AtxVoltmeter.cpp:144-172 | The PSU is present iff standby is above 1 V or PS_ON is high. It is on iff present with PS_ON low; so on implies present. |
| Voltmeter.AccessorsReadState | AtxWatchdog/AtxVoltmeter.cpp:111-187 | `V12`, `V5`, `V5SB` and `V3_3` return the stored rail voltages; `isV5sbPresent`, `isPsOnPresent`, `isPgGoodPresent` and `isTriggered` test standby > 1 V, PS_ON > 0, PG_GOOD > 0 and the trigger > 0; the two getters return the sampling settings. |
| Voltmeter.AtxVoltmeter.constructor | AtxWatchdog/AtxVoltmeter.cpp:12-25 | The pins are stored, the averaging count is 3, trimming is on, and nothing has been written to the trigger pin. |
| Voltmeter.AtxVoltmeter.AvgAnalogRead | AtxWatchdog/AtxVoltmeter.cpp:27-43 | The loop returns the averaged reading of the samples: the raw sum for counts up to 1, otherwise the integer mean trimmed to 0 at 341 or below. |
| Voltmeter.AtxVoltmeter.SenseV12 | AtxWatchdog/AtxVoltmeter.cpp:45-71 | +12 V is the clamped calibration curve of the averaged raw reading. |
| Voltmeter.AtxVoltmeter.SenseV5 | AtxWatchdog/AtxVoltmeter.cpp:73-84 | +5 V is the clamped curve of the averaged reading converted to volts against Vcc. |
| Voltmeter.AtxVoltmeter.SenseV5sb | AtxWatchdog/AtxVoltmeter.cpp:86-96 | +5 V standby is the clamped curve of the averaged raw reading. |
| Voltmeter.AtxVoltmeter.SenseV3_3 | AtxWatchdog/AtxVoltmeter.cpp:98-109 | +3.3 V is the clamped curve of the averaged raw reading. |
| Voltmeter.AtxVoltmeter.Update | AtxWatchdog/AtxVoltmeter.cpp:131-172 | Vcc becomes millivolts/1000; each rail takes its sensed value, never negative; PS_ON and PG_GOOD take the levels read. Afterwards PS_ON and PG_GOOD are present iff their pins read HIGH, the PSU is present iff PS_ON is HIGH or standby is above 1 V, and it is on iff PS_ON is LOW and standby is above 1 V. |
| Voltmeter.AtxVoltmeter.SetSamplingAvgCount | AtxWatchdog/AtxVoltmeter.cpp:174-182 | The getter returns what the setter stored. |
| Voltmeter.AtxVoltmeter.SetSamplingCurveTrimming | AtxWatchdog/AtxVoltmeter.cpp:184-192 | The getter returns what the setter stored. |
| Voltmeter.AtxVoltmeter.SetV12Coefficients | AtxWatchdog/AtxVoltmeter.cpp:194-201 | Only the +12 V coefficients change, to the five given. |
| Voltmeter.AtxVoltmeter.SetV5Coefficients | AtxWatchdog/AtxVoltmeter.cpp:203-210 | Only the +5 V coefficients change, to the five given. |
| Voltmeter.AtxVoltmeter.SetV5sbCoefficients | AtxWatchdog/AtxVoltmeter.cpp:212-219 | Only the +5 V standby coefficients change, to the five given. |
| Voltmeter.AtxVoltmeter.SetV3_3Coefficients | AtxWatchdog/AtxVoltmeter.cpp:221-228 | Only the +3.3 V coefficients change, to the five given. |
| Voltmeter.AtxVoltmeter.TurnOn | AtxWatchdog/AtxVoltmeter.cpp:258-260 | The PS_ON trigger pin is driven HIGH. |
| Voltmeter.AtxVoltmeter.TurnOff | AtxWatchdog/AtxVoltmeter.cpp:262-264 | The PS_ON trigger pin is driven LOW. |
| Arduino.WrapAdd | AtxWatchdog/Timer.cpp:12 | `unsigned long` addition: the plain sum when it fits, the sum minus 2^32 when it overflows. |
| Timers.AsWrittenFiresEarly | AtxWatchdog/Timer.cpp:12 | The written test fires 100 ms after a run at 2^32 − 500, where the elapsed-time test does not. |
| Timers.AsWrittenAgreesWithoutOverflow | AtxWatchdog/Timer.cpp:12 | When the last run plus the interval does not wrap, the written and the corrected tests agree. |
| Timers.NotDueWithinInterval | AtxWatchdog/Timer.cpp:11-13 | After a run at m, no poll from m to m + interval is due. |
| Timers.AsWrittenDueAfterWrappedRun | AtxWatchdog/Timer.cpp:12 | When the last run plus the interval wraps, the written test holds at every reading from the last run to the clock's own wrap. |
| Timers.DueOnWrapOrElapsed | AtxWatchdog/Timer.cpp:12 | A clock value below the last run (wrap-around) is due, and so is one more than `interval` after it. |
| Timers.Timer.constructor | AtxWatchdog/Timer.h:6-7 | Interval 1000 ms, last run at 0, no callback runs yet. |
| Timers.Timer.Fire | AtxWatchdog/Timer.cpp:21-25 | The last run becomes m and the callback runs exactly once. |
| Timers.Timer.Update | AtxWatchdog/Timer.cpp:9-14 | The poll fires at m iff the clock is behind the last run or past the last run plus the interval, that sum wrapping in `unsigned long`; otherwise nothing changes. |
| Timers.FireThenPoll | AtxWatchdog/Timer.cpp:9-25 | When the run plus the interval does not wrap, a fire followed by a poll within the interval runs the callback once. |
| Timers.FireThenPollWrapped | AtxWatchdog/Timer.cpp:9-25 | When the run plus the interval wraps, a poll at any later reading before the clock wraps runs the callback again. |
| Buzzer.AsWrittenCutsBeepShort | AtxWatchdog/PiezoBuzzer.cpp:32 | The written test ends a 75 ms beep started at 2^32 − 50 only 10 ms in, where the elapsed-time test does not. |
| Buzzer.AsWrittenAgreesWithoutOverflow | AtxWatchdog/PiezoBuzzer.cpp:32 | When start plus length does not wrap, the written and the corrected tests agree. |
| Buzzer.NotExpiredWithinLength | AtxWatchdog/PiezoBuzzer.cpp:29-37 | A beep is not switched off from its start up to start + length. |
| Buzzer.AsWrittenExpiredAfterWrappedStart | AtxWatchdog/PiezoBuzzer.cpp:32 | When the start plus a non-negative length wraps, the written test holds at every reading from the start to the clock's own wrap. |
| Buzzer.PiezoBuzzer.constructor | AtxWatchdog/PiezoBuzzer.h:19-26 | The pin is stored; the buzzer is idle, not muted, with a default beep length of 75 ms; the actual length is left unset. |
| Buzzer.PiezoBuzzer.IsBeeping | AtxWatchdog/PiezoBuzzer.cpp:39-42 | Reports whether a beep is on. |
| Buzzer.PiezoBuzzer.Update | AtxWatchdog/PiezoBuzzer.cpp:29-37 | When the clock is behind the start or past the start plus the actual length (that sum wrapping in `unsigned long`), the beep is switched off and LOW is written, even if muted or idle; otherwise nothing changes. |
| Buzzer.PiezoBuzzer.Beep | AtxWatchdog/PiezoBuzzer.cpp:14-27 | The length is always recorded. An idle buzzer starts at m and writes HIGH unless muted. A beeping one keeps its start and runs the written expiry test with the new length. |
| Buzzer.PiezoBuzzer.BeepDefault | AtxWatchdog/PiezoBuzzer.cpp:9-12 | Behaves as `beep` with the default length. |
| Buzzer.BeepThenPoll | AtxWatchdog/PiezoBuzzer.cpp:14-37 | A beep started from idle is still on when polled within its length, when start plus length does not wrap. |
| Buzzer.BeepThenPollWrapped | AtxWatchdog/PiezoBuzzer.cpp:14-37 | When start plus length wraps, the first poll after the start switches the beep off and writes LOW. |
| Matrix.ByteStream.ReadByte | AtxWatchdogTools/AtxCsvAnalyzer/Matrix.cs:163-166 | The next byte, or −1 at the end of the stream; the position advances only before the end. |
| Matrix.ReadLongFromStream | AtxWatchdogTools/AtxCsvAnalyzer/Matrix.cs:161-178 | The value is the big-endian combination of the next four reads; the position moves by four, stopping at the end. |
| Matrix.LongAtRange | AtxWatchdogTools/AtxCsvAnalyzer/Matrix.cs:161-177 | Four real bytes give a value in [0, 2^32). |
| Matrix.LongAtEnd | AtxWatchdogTools/AtxCsvAnalyzer/Matrix.cs:163-175 | Reading at the end folds four −1 bytes into −16843009; nothing checks for the end. |
| Matrix.DecodeEncode32 | AtxWatchdogTools/AtxCsvAnalyzer/Matrix.cs:168-175 | Decoding the four big-endian bytes of a 32-bit value gives the value back. |
| Matrix.EncodeDecode32 | AtxWatchdogTools/AtxCsvAnalyzer/Matrix.cs:168-175 | Encoding a decoded value gives the four bytes back. |
| Matrix.LoadMetadataMarkers | AtxWatchdogTools/AtxCsvAnalyzer/Matrix.cs:137-154 | The loop yields the decoded (frame, time) records of the file, in order. |
| Matrix.MarkerCount | AtxWatchdogTools/AtxCsvAnalyzer/Matrix.cs:143-150 | There is one record per started 8 bytes, with no early stop. |
| Matrix.DecodeEncodeMarkers | AtxWatchdogTools/AtxCsvAnalyzer/Matrix.cs:143-150 | Decoding the encoding of records with 32-bit fields gives the records back. |
| Matrix.EncodeDecodeMarkers | AtxWatchdogTools/AtxCsvAnalyzer/Matrix.cs:143-150 | A byte file whose length is a multiple of 8 re-encodes to itself. |
| Matrix.SortMatrix | AtxWatchdogTools/AtxCsvAnalyzer/Matrix.cs:102-130 | The output is the input's entries taken in the order V5SB, V12, V5, V3_3. |
| Matrix.SortMatrixContents | AtxWatchdogTools/AtxCsvAnalyzer/Matrix.cs:106-127 | The output holds exactly the input entries other than V12N and V5N, with unchanged values, in strictly increasing priority rank. |
| Matrix.AcceptedMeans | AtxWatchdogTools/AtxCsvAnalyzer/Matrix.cs:45-63 | A line contributes a row iff it is not blank, its trimmed text does not start with '#', and it holds at least one comma. |
| Matrix.WidthIsLargestRow | AtxWatchdogTools/AtxCsvAnalyzer/Matrix.cs:65-93 | The number of columns is the largest cell count over the accepted rows. |
| Matrix.FirstWithIsFirst | AtxWatchdogTools/AtxCsvAnalyzer/Matrix.cs:65-72 | A column is opened at the first row long enough to reach it. |
| Matrix.ColumnsStep | AtxWatchdogTools/AtxCsvAnalyzer/Matrix.cs:65-83 | An accepted row widens the matrix to its cell count. It appends its cell c to column c for each of its cells; a new column first gets one zero per earlier row. |
| Matrix.ColumnsOfRectangle | AtxWatchdogTools/AtxCsvAnalyzer/Matrix.cs:65-95 | When all rows have the same width, the result is their transpose. |
| Matrix.OpenColumns | AtxWatchdogTools/AtxCsvAnalyzer/Matrix.cs:65-72 | The matrix grows to the row's width; existing columns are kept and new ones hold one zero per earlier row. |
| Matrix.AppendCells | AtxWatchdogTools/AtxCsvAnalyzer/Matrix.cs:74-81 | Either the first unparsable cell is the error, or each cell is appended to its column and the other columns are unchanged. |
| Matrix.ReadDataLine | AtxWatchdogTools/AtxCsvAnalyzer/Matrix.cs:45-83 | The line is used iff it passes the skip rules. A used line either fails on its first bad cell or turns the matrix into the columns of the rows read so far plus this one. |
| Matrix.LoadMatrix | AtxWatchdogTools/AtxCsvAnalyzer/Matrix.cs:22-96 | An empty file is an error. Otherwise the headers are the split first line, or t0,v12,v5,v5sb,v3_3 when the first line is data. The columns are those of the accepted rows, or the first bad cell is the error. |
| CsvText.TrimProps | AtxWatchdogTools/AtxCsvAnalyzer/Matrix.cs:45-51 | Trimming leaves nothing iff the line is blank; otherwise the first and last characters are not whitespace. |
| CsvText.JoinSplit | AtxWatchdogTools/AtxCsvAnalyzer/Matrix.cs:58 | Joining the split pieces with the separator gives the line back. |
| CsvText.SplitPiecesFree | AtxWatchdogTools/AtxCsvAnalyzer/Matrix.cs:58 | No piece contains the separator. |
| CsvText.SplitCount | AtxWatchdogTools/AtxCsvAnalyzer/Matrix.cs:58-59 | There is one more piece than there are separators, empty pieces included. |

## Left out

- Curve-fit values: `Fit.Polynomial`, `Fit.Line` and `GoodnessOfFit.RSquared` are a foreign library, so the model records only which fits are requested and on what data.
- Floating point: values are reals, so IEEE rounding, `pow` rounding and the NaN of an empty ON segment are not modelled. The empty-ON ratio is a distinct `NotANumber` value instead.
- Logging: `WriteLog`, the log stream and the `LogEntryWritten` event have no effect on results.
- Stage names: `MetadataLinesNames` is settable in the source, but the model always uses the default six names.
- Rail interleaving: the source searches all four rails first and then computes their means. The model takes one rail at a time. The fields touched are disjoint, so the resulting state is the same.
- RailStats: `Rail`, `NominalVoltage` and `VoltageTolerance` have setters in the source. Nothing in the modelled core calls them, so they are constants.
- RailStats: the serialisation methods are left out.
- RunningAverage.RunningAvg.Add: requires a non-zero factor. With factor 0 the source divides a float by zero and yields infinity or NaN, which reals cannot represent.
- RunningAverage.RunningAvg.Add: the 64-bit wrap-around of `Count` is not modelled.
- Voltmeter hardware: `readVcc` reads AVR registers. `analogRead`, `digitalRead` and `millis` are hardware too. They become parameters: Vcc in millivolts, sample sequences, pin levels and the clock value.
- Voltmeter fields: the fields the C++ constructor leaves uninitialised are unconstrained after construction in the model, as in the source. So is the buzzer's `_beepLengthActual`, which `PiezoBuzzer.h` declares without an initialiser.
- Whitespace: trimming and blank-line detection cover ASCII whitespace only, because the file is read as ASCII.
- File streams: `fs.CanRead` is taken to be true. `LoadMatrix` receives the file's lines, and `LoadMetadataMarkers` its bytes.
- LoadMatrix: the value `maxValue` is computed but never used, so it is not modelled.
- LoadMatrix: `float.Parse` is the `parse` parameter; a rejected cell is the `BadNumber` error.
- LoadMatrix: the loop body is split into `ReadDataLine`, `OpenColumns` and `AppendCells`.
- Exceptions (`IOException`, `Array.Copy`, index and null-reference errors) become `Result` errors.
- Rail series: the analyser's four series are null until set, and `Run` then fails with `NullRail`. Which rail it trips on is not recorded, since the partial statistics are discarded either way.
- AtxStats: the `AtxStats.cs` in this repository declares no `PgOkSignalTimeUs` or `LastStageRecorded`, although `Run` assigns both. The model gives the container these two fields.
- RailStats: `Points`, `Peaks` and `Edges` are null in a new record in the source and empty sequences in the model. `Run` assigns all three before anything reads them.
- Duplicates and outputs: the plotter's copies of `LoadMatrix` and `SortMatrix`, the stats writers, the command-line tools, the serial protocols and the data converter are outside the modelled core.

## Findings

| source | as written | input that shows it | evidently intended | confidence | as-written member | corrected member |
|---|---|---|---|---|---|---|
| AtxWatchdog/Timer.cpp:12 | `m > lastInvokeAt + interval` adds in `unsigned long`, so the sum wraps near 2^32 | last run 2^32 − 500, interval 1000, poll at 2^32 − 400: the sum wraps to 500 and the timer fires 100 ms after the last run | fire only once more than `interval` ms have elapsed (`m - lastInvokeAt > interval`) | medium, not executed | Timers.AsWrittenFiresEarly | Timers.NotDueWithinInterval |
| AtxWatchdog/PiezoBuzzer.cpp:32 | `m > _beepStart + _beepLengthActual` adds in `unsigned long`, so the sum wraps near 2^32 | beep of 75 ms started at 2^32 − 50, polled at 2^32 − 40: the sum wraps to 25 and the beep stops 10 ms in | stop only once the beep length has elapsed (`m - _beepStart > length`) | medium, not executed | Buzzer.AsWrittenCutsBeepShort | Buzzer.NotExpiredWithinLength |
