# Battery history chart — a verified model of its geometry core

The battery history chart of the Settings application turns a list of
battery-history records into six drawing paths: a filled polygon under the
battery level, three stroked polylines for the good, warn and critical level
bands, and two step traces for the charging and screen-on flags. This project
models the integer core of that view in Dafny and proves what it draws.

- `setStats` scans the history once. It finds the first UPDATE record
  (`mHistFirst`) and its time (`mHistStart`). It finds the last
  "interesting" record, meaning an UPDATE record whose level differs from the
  previous UPDATE record's level, or the very first record. It records that
  record's 1-based position over all records (`mNumHist`) and its time
  (`mHistEnd`). It fixes the level range to 0..100 and pushes `mHistEnd` past
  `mHistStart`.
- `onSizeChanged` resets the six paths. It walks at most `mNumHist` records
  from `mHistFirst` and maps each UPDATE record to a pixel, using Java's
  truncating division. A record on the same column is skipped. A record on a
  new column at the same height only marks a pending flat tail. Any other
  record is plotted into the band its level selects, into the fill polygon
  and into the flag traces. A control record inside a run finishes the run
  one pixel right of the last computed x.
- `finishPaths` closes a run. It draws the pending flat tail, brings the fill
  polygon down to the baseline and back to where the run started, and extends
  open flag traces to the closing x.

Modules:
- `Geometry` holds records, path operations, bands, the thresholds 29 and 14,
  and the pixel mapping.
- `HistoryScan` holds the scan as a fold (`ScanFrom`, `Reduce`) together with
  independent reference definitions (`LastUpdateLevel`, `Interesting`).
- `PathBuilder` holds one loop iteration (`Visit`), the run finaliser
  (`Finish`), the walk (`WalkFrom`) and the six paths it leaves (`Build`).
- `PathProperties` proves that, when the visited records are plottable,
  every point of the fill polygon and the band strokes lies in
  [0, w + 1] x [1, levelh], with each flag trace on its own height. It also
  proves that the polygons, band strokes and traces are well-formed for
  every history, and that each segment between plotted points is drawn on
  one band stroke only.
- `ChartProperties` composes the scan with the build.
- `BatteryChart` holds the view as a class. Its fields are updated in place
  by `SetStats`, `OnSizeChanged` and `FinishPaths`, and each method is proved
  against the function that specifies it.

Two behaviours of the code are easy to miss, and the model keeps both:
- When the history has no UPDATE record, `setStats` does not reset
  `mHistStart` or `mHistEnd`. They keep the values they held before, and only
  the final push past the start applies. `Reduce` therefore takes the
  previous values as parameters.
- The walk starts at `mHistFirst`, but `mNumHist` counts from the head of the
  list. When control records precede the first UPDATE record, the walk goes
  on past the last interesting record. Records there may lie after `mHistEnd`
  and are then plotted right of the view. `OverrunPlotsPastRightEdge`
  exhibits a concrete history where this happens.

## Model

| member | source | states |
|---|---|---|
| Geometry.BandOf | src/com/android/settings/fuelgauge/BatteryHistoryChart.java:351-354 | A level selects the critical band iff it is at most 14, the warn band iff it lies in 15..29, and the good band iff it is above 29. |
| Geometry.BandMonotone | src/com/android/settings/fuelgauge/BatteryHistoryChart.java:351-354 | A higher level never selects a lower band. |
| Geometry.Quot | src/com/android/settings/fuelgauge/BatteryHistoryChart.java:340-341 | Java's truncating division agrees with Euclidean division on non-negative operands. |
| Geometry.QuotTruncates | src/com/android/settings/fuelgauge/BatteryHistoryChart.java:340-341 | For every sign of the operands, the quotient truncates toward zero: the remainder is zero or has the dividend's sign, and is smaller than the divisor in magnitude. |
| Geometry.PixelXBounds | src/com/android/settings/fuelgauge/BatteryHistoryChart.java:340 | A time inside [mHistStart, mHistEnd] maps to a column in [0, w]. |
| Geometry.PixelXMonotone | src/com/android/settings/fuelgauge/BatteryHistoryChart.java:340 | Later times never map to columns further left. |
| Geometry.PixelYBounds | src/com/android/settings/fuelgauge/BatteryHistoryChart.java:341 | A level inside [mBatLow, mBatHigh] maps to a row in [1, levelh]. |
| HistoryScan.Reduce | src/com/android/settings/fuelgauge/BatteryHistoryChart.java:255-279 | After the scan, the end time lies strictly after the start time, `mNumHist` never exceeds the list length, `mHistFirst` lies inside the list, and the level range is 0..100. |
| HistoryScan.ScanLastLevel | src/com/android/settings/fuelgauge/BatteryHistoryChart.java:269-270 | `lastLevel` is the level of the most recent UPDATE record, or -1 when there is none. |
| HistoryScan.ScanFirst | src/com/android/settings/fuelgauge/BatteryHistoryChart.java:264-268 | The scan's first index is the first UPDATE record and its start time is that record's time; without an UPDATE record the start time is left as it was. |
| HistoryScan.ScanInteresting | src/com/android/settings/fuelgauge/BatteryHistoryChart.java:269-273 | `lastInteresting` is the position of the last interesting record, and the end time is that record's time. |
| HistoryScan.ReduceFirstUpdate | src/com/android/settings/fuelgauge/BatteryHistoryChart.java:256-268 | `mHistFirst` is the first UPDATE record and `mHistStart` its time; without an UPDATE record, `mHistFirst` is unset and `mHistStart` keeps its previous value. |
| HistoryScan.ReduceLastInteresting | src/com/android/settings/fuelgauge/BatteryHistoryChart.java:262-279 | `mNumHist` is the 1-based position of the last interesting record (0 if none), no later record is interesting, and `mHistEnd` is its time, pushed to `mHistStart + 1` when not after the start. |
| HistoryScan.ReduceVisitsFirstUpdate | src/com/android/settings/fuelgauge/BatteryHistoryChart.java:263-277 | With percentage levels, `mNumHist` is 0 exactly when there is no UPDATE record, and the first UPDATE record lies before position `mNumHist`. |
| HistoryScan.FlatFrom | src/com/android/settings/fuelgauge/BatteryHistoryChart.java:269-273 | When no record from index k on is interesting, the last UPDATE level seen stays the same from k on. |
| HistoryScan.ReduceTailIsFlat | src/com/android/settings/fuelgauge/BatteryHistoryChart.java:269-277 | Every UPDATE record after position `mNumHist` has the level of the last interesting record. |
| HistoryScan.ReduceIdempotent | src/com/android/settings/fuelgauge/BatteryHistoryChart.java:255-279 | Scanning the same history again, starting from the time fields the first scan left, leaves the same fields. |
| HistoryScan.ScanFrameOnly | src/com/android/settings/fuelgauge/BatteryHistoryChart.java:256-273 | The previous time values never influence the first index, `lastInteresting` or `lastLevel`. |
| HistoryScan.NoUpdateNoLevel | src/com/android/settings/fuelgauge/BatteryHistoryChart.java:259 | Before any UPDATE record, `lastLevel` is still its initial -1. |
| PathBuilder.FinishExtends | src/com/android/settings/fuelgauge/BatteryHistoryChart.java:290-310 | `finishPaths` closes an open fill polygon (with the pending flat tail first), extends each open flag trace to the closing x, and only appends; of the band strokes only the one in use grows, and only by the flat tail. |
| PathBuilder.StrokeJoins | src/com/android/settings/fuelgauge/BatteryHistoryChart.java:350-364 | On a band switch, the old band's stroke ends at (x, y) and the new band's stroke starts there with a move; without a switch, the band's stroke continues with a line; the third band and the other paths are untouched. |
| PathBuilder.PlotGrows | src/com/android/settings/fuelgauge/BatteryHistoryChart.java:350-397 | Plotting a point only appends to the paths. |
| PathBuilder.VisitGrows | src/com/android/settings/fuelgauge/BatteryHistoryChart.java:339-408 | One loop iteration only ever appends to the six paths. |
| PathBuilder.VisitCount | src/com/android/settings/fuelgauge/BatteryHistoryChart.java:331-338 | The loop visits at most `mNumHist` records, none past the end of the list, and none without `mHistFirst`. |
| PathProperties.PixelInBounds | src/com/android/settings/fuelgauge/BatteryHistoryChart.java:340-341 | A plottable UPDATE record maps into [0, w] x [1, levelh]. |
| PathProperties.FinishInBounds | src/com/android/settings/fuelgauge/BatteryHistoryChart.java:290-310 | Finishing a run at a column in [0, w + 1] keeps every point in [0, w + 1] x [1, levelh], with each flag trace on its own height. |
| PathProperties.VisitInBounds | src/com/android/settings/fuelgauge/BatteryHistoryChart.java:339-408 | One loop iteration over a plottable record keeps every point in [0, w + 1] x [1, levelh] (each flag trace on its own height) and the loop variables' columns in [0, w]. |
| PathProperties.WalkInBounds | src/com/android/settings/fuelgauge/BatteryHistoryChart.java:338-412 | Along the walk over plottable records, every point stays in [0, w + 1] x [1, levelh], with each flag trace on its own height. |
| PathProperties.BuildInBounds | src/com/android/settings/fuelgauge/BatteryHistoryChart.java:313-416 | When the visited records are plottable, every point lies in [0, w + 1] x [1, levelh], and each flag trace lies on its own height. |
| PathProperties.FinishFill | src/com/android/settings/fuelgauge/BatteryHistoryChart.java:292-302 | Finishing leaves the fill path as a series of closed polygons. |
| PathProperties.VisitFill | src/com/android/settings/fuelgauge/BatteryHistoryChart.java:366-372 | The fill path has a polygon open exactly while a run is active, and that polygon starts at `startX`. |
| PathProperties.WalkFill | src/com/android/settings/fuelgauge/BatteryHistoryChart.java:338-412 | The fill invariant holds throughout the walk. |
| PathProperties.BuildFillClosed | src/com/android/settings/fuelgauge/BatteryHistoryChart.java:366-415 | The finished fill path is a series of closed polygons, each brought down to the baseline and back to the x where its run started. |
| PathProperties.VisitTraces | src/com/android/settings/fuelgauge/BatteryHistoryChart.java:377-408 | Each flag trace alternates move and line on its own height, ends on a move exactly while its flag is on, and a flag is on only inside a run. |
| PathProperties.WalkTraces | src/com/android/settings/fuelgauge/BatteryHistoryChart.java:338-412 | The trace invariant holds throughout the walk. |
| PathProperties.BuildTracesClosed | src/com/android/settings/fuelgauge/BatteryHistoryChart.java:304-309 | After the build, both flag traces are closed step lines: every move is followed by a line at the same height. |
| PathProperties.VisitBands | src/com/android/settings/fuelgauge/BatteryHistoryChart.java:350-364 | Every band stroke starts with a move, and the stroke in use is not empty. |
| PathProperties.WalkBands | src/com/android/settings/fuelgauge/BatteryHistoryChart.java:338-412 | The band invariant holds throughout the walk. |
| PathProperties.WalkBandAtLast | src/com/android/settings/fuelgauge/BatteryHistoryChart.java:338-412 | Throughout the walk, a run is open exactly while a band is in use, and the stroke of the band in use ends on the last plotted point (`lastX`, `lastY`). |
| PathProperties.BandSegmentJoins | src/com/android/settings/fuelgauge/BatteryHistoryChart.java:343-375 | Inside a run, a plotted record adds the segment from the previous plotted point to the new one to the band stroke that was in use and to no other; a new band's stroke starts with a move to the new point. |
| PathProperties.BuildBandsStartWithMove | src/com/android/settings/fuelgauge/BatteryHistoryChart.java:350-364 | In the finished build, every band stroke is empty or starts with a move. |
| PathProperties.NoUpdateNoWalk | src/com/android/settings/fuelgauge/BatteryHistoryChart.java:401 | Control records alone, outside any run, draw nothing and leave the loop variables at their initial values. |
| ChartProperties.WalkLastPlot | src/com/android/settings/fuelgauge/BatteryHistoryChart.java:343-375 | While a run is open, `lastX` and `lastY` are the pixel of a visited UPDATE record, and the fill path ends on a point exactly there. |
| ChartProperties.RunAdvancesRight | src/com/android/settings/fuelgauge/BatteryHistoryChart.java:331-375 | With non-decreasing times and no visited UPDATE record before `mHistStart`, an UPDATE record inside an open run either leaves the fill path alone or extends it by a line to a point strictly right of the last one and at another height, so no segment of a run has zero length; records after `mHistEnd` are included. |
| ChartProperties.WalkGrows | src/com/android/settings/fuelgauge/BatteryHistoryChart.java:338-412 | Between the reset and the final finish, the paths only grow. |
| ChartProperties.NoUpdateDrawsNothing | src/com/android/settings/fuelgauge/BatteryHistoryChart.java:255-416 | A history without UPDATE records, including the empty history, leaves all six paths empty. |
| ChartProperties.ChartStartsAtLeftEdge | src/com/android/settings/fuelgauge/BatteryHistoryChart.java:339-372 | With percentage levels, the fill polygon starts with a move at x = 0 and at the height of the first UPDATE record's level. |
| ChartProperties.ChartInBounds | src/com/android/settings/fuelgauge/BatteryHistoryChart.java:255-416 | For a history that starts with an UPDATE record, has non-decreasing times and has percentage levels, every point drawn lies in [0, w + 1] x [1, levelh], with each flag trace on its own height. |
| ChartProperties.OverrunRange | src/com/android/settings/fuelgauge/BatteryHistoryChart.java:255-279 | For two control records followed by UPDATE, control, UPDATE at the same level, the scan sets `mHistFirst` to index 2 and `mNumHist` to 3. |
| ChartProperties.OverrunWalk | src/com/android/settings/fuelgauge/BatteryHistoryChart.java:331-412 | The walk over that history visits indices 2 to 4 and plots index 4 at x = 1000. |
| ChartProperties.OverrunPlotsPastRightEdge | src/com/android/settings/fuelgauge/BatteryHistoryChart.java:331-338 | With leading control records, a well-formed history draws a point 1000 pixels into a 10-pixel view, because `mNumHist` is counted from the head of the list. |
| BatteryChart.BatteryHistoryChart.constructor | src/com/android/settings/fuelgauge/BatteryHistoryChart.java:74-108 | A line width of at most 0 becomes 1, the trace offsets are one, two and three line widths, and the view starts with no history, `mHistStart`, `mHistEnd`, `mBatLow` and `mBatHigh` at Java's default 0, and empty paths. |
| BatteryChart.BatteryHistoryChart.SetStats | src/com/android/settings/fuelgauge/BatteryHistoryChart.java:255-279 | The loop leaves exactly the fields `Reduce` describes (a loop invariant ties its variables to the scan of the records seen so far), stores the history, and keeps the view valid. |
| BatteryChart.BatteryHistoryChart.AppendBand | src/com/android/settings/fuelgauge/BatteryHistoryChart.java:358-363 | Appending to a band path changes that band's stroke and no other path. |
| BatteryChart.BatteryHistoryChart.StrokeBands | src/com/android/settings/fuelgauge/BatteryHistoryChart.java:356-364 | The band strokes change as `Stroke` says. |
| BatteryChart.BatteryHistoryChart.StepTraces | src/com/android/settings/fuelgauge/BatteryHistoryChart.java:377-397 | Each flag trace steps as `Edge` says: a move when the flag turns on, a line when it turns off, nothing when it is unchanged. |
| BatteryChart.BatteryHistoryChart.PlotRecord | src/com/android/settings/fuelgauge/BatteryHistoryChart.java:350-397 | The paths change as `PlotPaths` says. |
| BatteryChart.BatteryHistoryChart.FinishPaths | src/com/android/settings/fuelgauge/BatteryHistoryChart.java:290-310 | The paths change as `Finish` says, with the trace heights taken from the view's offsets. |
| BatteryChart.BatteryHistoryChart.VisitRecord | src/com/android/settings/fuelgauge/BatteryHistoryChart.java:339-408 | One iteration moves the loop variables and the paths as `Visit` says. |
| BatteryChart.BatteryHistoryChart.WalkHistory | src/com/android/settings/fuelgauge/BatteryHistoryChart.java:331-412 | From the reset paths, the loop leaves the loop variables and paths of `WalkFrom` over the records it visits (a loop invariant ties the walk so far to the prefix visited). |
| BatteryChart.BatteryHistoryChart.OnSizeChanged | src/com/android/settings/fuelgauge/BatteryHistoryChart.java:313-416 | Whatever the paths held before, afterwards they are exactly `Build` of the history, the fields `setStats` left and the view size. |

## Left out

- The constructor's paint, colour, text and typeface setup and attribute parsing are Android resource plumbing. Only the line-width clamp and the three offsets are modelled, with the line width as a parameter.
- `setTypeface`, `onMeasure` and `onDraw` are text measurement and canvas calls.
- The duration string in `setStats` comes from the clock, the stats service and string resources, all outside this model. The `mStats` and `mStatsPeriod` fields are left out for the same reason.
- `android.graphics.Path` is modelled as the ordered list of operations appended to it. Rasterisation, clipping and `isEmpty` are not modelled.
- The plugged and screen-on bit masks are defined in `BatteryStats`, which is not part of this model. A record carries the two flags as booleans, and the level as an unbounded integer.
- Java `long`/`int` overflow in the pixel mapping, the `(int)` cast and `byte` levels outside -128..127 are not modelled. Integers are unbounded, and the lemmas state the ranges under which they hold.
- The linked list of history records is a sequence, and `mHistFirst` is an index into it. Following `next` from a record is moving to the next index.
- The loop variables of `onSizeChanged` are grouped into one `Cursor` value. The loop and its body are split into the helper methods `WalkHistory`, `VisitRecord` and `PlotRecord`, which update the same path fields in place.
- ChartProperties.ChartInBounds: proved only for histories that start with an UPDATE record. With leading control records, the walk overruns the last interesting record, as `OverrunPlotsPastRightEdge` shows, so no bound by w + 1 holds in general.
- PathProperties.BuildInBounds: the right edge of the bound is w + 1, not w, because an interrupted run is closed one pixel right of its last column, which can be w.
