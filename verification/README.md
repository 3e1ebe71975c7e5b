# Sparkline, modelled in Dafny

A model of the core of the Spark library's `Sparkline` Android view. The view
draws a data set from a `SparkAdapter` as a line graph. The model covers:

- **Scale transform.** The `ScaleHelper` makes one pass over the adapter to find
  the x and y bounds; the y bounds are widened to the baseline when there is
  one. It then builds the affine map `getX`/`getY`. That map fits the bounds
  into the content rectangle, inset by half the stroke width, and flips y for
  drawing.
- **`populatePath`.** It rebuilds the main path: a move to the first scaled
  point and a line to each later one. When filling, it closes the path down to
  the bottom padding, across to x = 0 and back. It also rebuilds the baseline
  path and the render path and, when scrubbing is enabled, the table of scaled
  x coordinates (`xPoints`). It does nothing without an adapter or with an
  empty view.
- **Scrubbing.** `getNearestIndex` does a `Collections.binarySearch` in `xPoints`
  and decodes the result: an exact hit, clamping at both ends, and otherwise
  the closer neighbour, with ties going to the upper one. The scrub line is a
  vertical line at the pointer across the padded height.
- **Data-set observer.** `onChanged` rebuilds the paths and decides whether to
  animate; `onInvalidated` empties the paths. The path animation starts at
  length 0.
- **Rebuild triggers.** `onSizeChanged` and `setPadding` recompute the content
  rectangle (`updateContentRect`, which rebuilds nothing by itself) and then
  rebuild the paths. `setFill` rebuilds the paths only when the flag changes,
  and does not touch the rectangle. `setScrubEnabled`, `setAnimateChanges`,
  `setScrubListener` and `setAdapter` only store their value.

Coordinates are exact reals. `Float.MAX_VALUE` and `Float.MIN_VALUE` are their
exact rational values (`Scale.FloatMaxValue`, `Scale.FloatMinValue`).

Files:

- `wrappers.dfy`: `Option`.
- `paths.dfy`: path commands, plus horizontal and vertical segments.
- `scale.dfy`: the extents scan, `ScaleHelper`, the fit lemmas and the
  `Float.MIN_VALUE` finding.
- `scrub.dfy`: the binary search and the nearest index.
- `sparkline.dfy`: the `Sparkline` class with its path fields, its handlers and
  the specification functions of the paths.

The model keeps these features of the code as written:

- The fill closure drops from `getX(count - 1)`. That is the scaled INDEX of the
  last point, not its x.
- The x and y maxima start at `Float.MIN_VALUE`, which is positive (see Findings).
- The observer's `oldCount` is never assigned, so it stays 0.
- The animation's start length is multiplied by 0.
- The scale divisions are not guarded. The model makes non-zero ranges a
  precondition (`Scale.CanScale`) of every path rebuild that gets past the
  early exits.

## Model

| member | source | states |
|---|---|---|
| Scale.Scan | spark/src/main/java/com/robinhood/spark/Sparkline.java:549-557 | the min/max scan only widens its starting bounds and every point lies within the bounds it returns |
| Scale.NewScaleHelper | spark/src/main/java/com/robinhood/spark/Sparkline.java:531-567 | the ScaleHelper constructor's loop computes exactly the scan of the adapter's points from the baseline-or-sentinel start, and the fields follow from those bounds |
| Scale.ScaleFitsInset | spark/src/main/java/com/robinhood/spark/Sparkline.java:536-566 | the transform sends minX and maxX to the left and right edges inset by half the stroke, and maxY and minY (flipped) to the inset top and bottom edges |
| Scale.GetXInjective | spark/src/main/java/com/robinhood/spark/Sparkline.java:572-574 | with a non-zero x scale, getX maps distinct raw x to distinct device x, and equal to equal |
| Scale.GetXMonotone | spark/src/main/java/com/robinhood/spark/Sparkline.java:572-574 | with a non-negative x scale, getX preserves order |
| Scale.GetYAntitone | spark/src/main/java/com/robinhood/spark/Sparkline.java:580-582 | with a non-negative y scale, getY reverses order (the flip) |
| Scale.GetYFlips | spark/src/main/java/com/robinhood/spark/Sparkline.java:576-582 | with a positive y scale, a strictly larger raw y is drawn strictly higher |
| Scale.ScaleSigns | spark/src/main/java/com/robinhood/spark/Sparkline.java:538-563 | both scales are non-negative when the range ascends and the content box is at least a stroke wide or tall, and positive when it is wider or taller |
| Scale.ScanAttained | spark/src/main/java/com/robinhood/spark/Sparkline.java:544-557 | each scanned bound is its starting value or the coordinate of some point |
| Scale.BaseLineInRange | spark/src/main/java/com/robinhood/spark/Sparkline.java:544-557 | with a baseline, the y range contains the baseline |
| Scale.PointFitsContent | spark/src/main/java/com/robinhood/spark/Sparkline.java:531-583 | every data point is drawn inside the content rectangle inset by half the stroke width |
| Scale.BaseLineFitsContent | spark/src/main/java/com/robinhood/spark/Sparkline.java:544-566 | the scaled baseline lies between the inset top and bottom edges |
| Scale.NegativeDataExtents | spark/src/main/java/com/robinhood/spark/Sparkline.java:545-557 | for y values -2 and -1 with no baseline, the scanned maximum y is Float.MIN_VALUE and not -1 |
| Scale.TopMissedWithPositiveMax | spark/src/main/java/com/robinhood/spark/Sparkline.java:560-582 | for x in [0, 1], y from -2 and any positive maximum y, the point at y = -1 is drawn strictly below the top of a 100 x 50 box |
| Scale.MaxSentinelMissesTop | spark/src/main/java/com/robinhood/spark/Sparkline.java:546-548 | as written, the highest point of all-negative data is not drawn on the top edge |
| Scale.CorrectedExtentsTight | spark/src/main/java/com/robinhood/spark/Sparkline.java:544-557 | with the maxima starting at -Float.MAX_VALUE, each bound of non-empty finite data is attained by a point (or by the baseline for y) |
| Scale.CorrectedReachesTop | spark/src/main/java/com/robinhood/spark/Sparkline.java:560-566 | with the corrected bounds, the highest value is drawn exactly on the inset top edge |
| Scrub.BinarySearch | spark/src/main/java/com/robinhood/spark/Sparkline.java:616 | Collections.binarySearch: on any table, a non-negative result is an index in bounds and a negative one encodes a position in 0..size; on a sorted table, a hit holds the key and a miss encodes the insertion point, which splits the table into smaller and larger entries |
| Scrub.NearestIndex | spark/src/main/java/com/robinhood/spark/Sparkline.java:615-639 | getNearestIndex, on any table, returns 0 for an empty table and otherwise an index in bounds; on a sorted table it also returns an exact hit as found, 0 below the first entry and the last index above the last; between neighbours it returns the lower only when that is strictly closer (ties go up); and the result is nearest among all entries |
| Scrub.HitIsNearest | spark/src/main/java/com/robinhood/spark/Sparkline.java:619 | an index holding x is a nearest index in the above sense |
| Scrub.InsertionPointNearest | spark/src/main/java/com/robinhood/spark/Sparkline.java:622-638 | decoding an insertion point (0 at the start, the last index at the end, otherwise the closer neighbour with ties going up) gives a nearest index in the above sense |
| Sparkline.Trace | spark/src/main/java/com/robinhood/spark/Sparkline.java:169-179 | the main path has one command per data point |
| Sparkline.TraceAt | spark/src/main/java/com/robinhood/spark/Sparkline.java:169-179 | the i-th command is a move (for i = 0) or a line (otherwise) to the scaled i-th point |
| Sparkline.ScaledXs | spark/src/main/java/com/robinhood/spark/Sparkline.java:159-182 | the scrub table has one entry per data point |
| Sparkline.ScaledXsAt | spark/src/main/java/com/robinhood/spark/Sparkline.java:171-182 | the i-th table entry is getX of the i-th point's raw x |
| Sparkline.ScaledXsSorted | spark/src/main/java/com/robinhood/spark/Sparkline.java:171-182 | with a non-negative x scale, ascending raw x gives a sorted scrub table |
| Sparkline.AscendingDataGivesSortedTable | spark/src/main/java/com/robinhood/spark/Sparkline.java:615-616 | the table populatePath builds for ascending x in a box at least a stroke wide is sorted, as the binary search requires |
| Sparkline.FillDropMeetsLastPoint | spark/src/main/java/com/robinhood/spark/Sparkline.java:185-189 | with a non-zero x scale, the fill closure drops from the last point's own scaled x if and only if that point's raw x equals its index; for any other adapter the drop starts elsewhere |
| Sparkline.BaseLine | spark/src/main/java/com/robinhood/spark/Sparkline.java:196-202 | the baseline path is present exactly when the adapter has a baseline, and is then a horizontal segment from x = 0 to the view width |
| Sparkline.Sparkline.constructor | spark/src/main/java/com/robinhood/spark/Sparkline.java:39-56 | a new view has the given style, no adapter, no size, no padding and empty paths |
| Sparkline.Sparkline.UpdateContentRect | spark/src/main/java/com/robinhood/spark/Sparkline.java:603-610 | the content rectangle is the bounds less the padding; its width and height are the size less both paddings |
| Sparkline.Sparkline.PlotPoints | spark/src/main/java/com/robinhood/spark/Sparkline.java:159-183 | the loop leaves the main path equal to the trace of the scaled points and, when scrubbing is enabled, the table equal to their scaled x; otherwise the table is unchanged |
| Sparkline.Sparkline.ClosePaths | spark/src/main/java/com/robinhood/spark/Sparkline.java:185-207 | appends the fill closure exactly when filling, sets the baseline path and resets the render path to the main path |
| Sparkline.Sparkline.Rebuild | spark/src/main/java/com/robinhood/spark/Sparkline.java:156-207 | past the early exits, the paths and the table become those built from the adapter, size and style, and the table is unchanged when scrubbing is off |
| Sparkline.Sparkline.PopulatePath | spark/src/main/java/com/robinhood/spark/Sparkline.java:152-209 | past the early exits, the paths and the table are those built from the adapter, size and style; without an adapter or with a zero size nothing changes; the table is unchanged when scrubbing is off |
| Sparkline.Sparkline.SetScrubLine | spark/src/main/java/com/robinhood/spark/Sparkline.java:211-216 | the scrub line is a vertical segment at x from the top padding to the height less the bottom padding |
| Sparkline.Sparkline.OnSizeChanged | spark/src/main/java/com/robinhood/spark/Sparkline.java:142-147 | takes the new size, recomputes the content rectangle and rebuilds the paths; with no adapter or a zero size the paths and the table are as they were, and with scrubbing off the table is as it was |
| Sparkline.Sparkline.SetPadding | spark/src/main/java/com/robinhood/spark/Sparkline.java:218-223 | takes the new padding, recomputes the content rectangle and rebuilds the paths; with no adapter or a zero size the paths and the table are as they were, and with scrubbing off the table is as it was |
| Sparkline.Sparkline.SetFill | spark/src/main/java/com/robinhood/spark/Sparkline.java:328-334 | only a change of the fill flag rebuilds the paths; otherwise they and the table are untouched; with no adapter or a zero size nothing is rebuilt, and with scrubbing off the table is as it was |
| Sparkline.Sparkline.SetScrubEnabled | spark/src/main/java/com/robinhood/spark/Sparkline.java:446-450 | the flag is set; nothing is rebuilt |
| Sparkline.Sparkline.SetAnimateChanges | spark/src/main/java/com/robinhood/spark/Sparkline.java:296-298 | the flag is set |
| Sparkline.Sparkline.SetScrubListener | spark/src/main/java/com/robinhood/spark/Sparkline.java:462-464 | the listener is set |
| Sparkline.Sparkline.SetAdapter | spark/src/main/java/com/robinhood/spark/Sparkline.java:476-484 | the adapter is set; nothing is rebuilt |
| Sparkline.Sparkline.DoPathAnimation | spark/src/main/java/com/robinhood/spark/Sparkline.java:486-515 | any running animation is cancelled; a path of length 0 starts nothing; otherwise an animation from 0 (whatever the ratio) to the path length starts |
| Sparkline.Sparkline.OnChanged | spark/src/main/java/com/robinhood/spark/Sparkline.java:652-668 | the paths are rebuilt from the new data, except that on a zero-size view the paths and the table are as they were, and with scrubbing off the table is as it was; an animation is requested exactly when changes animate and the data are not empty (the old count stays 0), and it starts at 0 |
| Sparkline.Sparkline.OnInvalidated | spark/src/main/java/com/robinhood/spark/Sparkline.java:670-677 | the render, main and baseline paths are emptied |
| Sparkline.Sparkline.OnScrubbed | spark/src/main/java/com/robinhood/spark/Sparkline.java:117-129 | without an adapter nothing happens; otherwise a listener (if any) is told the index getNearestIndex gives (in bounds on any table; on a sorted table the exact hit, the clamps, the upward tie rule and nearest among all) and the scrub line moves to x |
| Sparkline.Sparkline.OnScrubEnded | spark/src/main/java/com/robinhood/spark/Sparkline.java:131-136 | the scrub line is emptied and a listener (if any) is told scrubbing ended |

The class keeps an invariant, `Valid`, that every method preserves:

- the observer's count is 0;
- the scrub line is empty or a vertical segment;
- the baseline path is empty or a horizontal segment starting at x = 0;
- an animator starts at length 0.

## Left out

- The Android view machinery is not part of this model: layout, `invalidate`,
  `onDraw`, the `Paint` objects and the colour, width and corner setters and
  getters, the styled-attribute reading in `init`, and the SDK-version padding
  getters. Padding values are plain fields.
- Floating point: coordinates are exact reals. Rounding, NaN, infinities and
  signed zero are not modelled; `Math.min`/`Math.max` are plain comparisons.
- The fields `ScaleHelper.xStep` and `ScaleHelper.size` are not modelled:
  `xStep` is never read, and `size` is read only as the bound of the
  constructor's own loop, which the model keeps as a local (the number of
  points).
- `Sparkline.Sparkline.DoPathAnimation`: the `PathMeasure` length of the path
  is a parameter. The animator's duration, the update listener that re-traces
  `renderPath`, and the resource lookup of `shortAnimationTime` are left out.
  The animator is reduced to its start, its end and whether it runs.
- `Sparkline.Sparkline.OnChanged`: the length ratio `oldCount / newCount` is
  computed only when it is used (new count > 0). When the count is 0, the
  source's float division gives NaN and is never used.
- `Sparkline.Sparkline.OnScrubbed`: the listener receives `adapter.getItem(index)`
  in the source; the model reports the index. The request that the parent not
  intercept touch events is left out. The scrub gesture detector is left out,
  so its being enabled or disabled is not modelled.
- `Sparkline.Sparkline.SetAdapter`: registering and unregistering the observer
  is not modelled. Line 478 unregisters from the NEW adapter rather than the
  old one, which is an error when the new adapter is null.
- `Sparkline.Sparkline.OnScrubbed`: a scrub table that was never allocated
  (`xPoints == null`, scrubbing disabled at every rebuild since the view was
  made) is modelled as the empty table. The consequence: after
  `setScrubEnabled(true)` without a rebuild, a scrub with a listener makes the
  source call `Collections.binarySearch(null, x)` at line 616, which throws
  NullPointerException; the model instead reports index 0 (`Scrubbed(0)`) and
  moves the scrub line.
- `Sparkline.Sparkline.PopulatePath` and its callers require non-zero x and y
  ranges (`Scale.CanScale`) whenever they get past the early exits. In the
  source, a zero range divides by zero and gives infinite or NaN scales, which
  exact reals cannot represent.
- The adapter is a snapshot of its points and baseline. `getItem` payloads and
  the adapter's own observer bookkeeping are not part of this model.

## Findings

| source | as written | input that shows it | evidently intended | confidence | as-written member | corrected member |
|---|---|---|---|---|---|---|
| spark/src/main/java/com/robinhood/spark/Sparkline.java:546-548 | the maxima `maxY` (no baseline) and `maxX` start at `Float.MIN_VALUE`, the smallest positive float | y values -2 and -1, no baseline: the scanned maximum is `Float.MIN_VALUE`, so the highest point (-1) is drawn below the top edge | start the maxima at `-Float.MAX_VALUE` so the bounds are those of the data | not executed | Scale.MaxSentinelMissesTop | Scale.CorrectedExtentsTight |

The corrected start (`Scale.CorrectedInitialExtents`) is proved tight
(`Scale.CorrectedExtentsTight`), and with it the highest value reaches the top
edge (`Scale.CorrectedReachesTop`). The `Sparkline` class still uses the scan
as written, so that its paths are the ones the view actually draws.
