/**
 * The Sparkline view: the paths it draws, the scrub table it builds beside
 * them, and the handlers that rebuild or clear them when the size, the padding,
 * the style or the adapter's data change, and when the user scrubs.
 */
module Sparkline {
  import opened Wrappers
  import opened Paths
  import opened Scale
  import opened Scrub

  /** The command for the i-th data point: a move for the first, a line for the rest. */
  function Plot(s: ScaleHelper, i: nat, p: Point): PathCmd
  {
    if i == 0 then MoveTo(s.GetX(p.x), s.GetY(p.y)) else LineTo(s.GetX(p.x), s.GetY(p.y))
  }

  /** The main graph path for pts, built point by point: one command per point. */
  function Trace(s: ScaleHelper, pts: seq<Point>): (t: Path)
    ensures |t| == |pts|
    decreases |pts|
  {
    if pts == [] then []
    else
      var k := |pts| - 1;
      Trace(s, pts[..k]) + [Plot(s, k, pts[k])]
  }

  /** The scrub table for pts: the scaled x of every point, in index order. */
  function ScaledXs(s: ScaleHelper, pts: seq<Point>): (xs: seq<real>)
    ensures |xs| == |pts|
    decreases |pts|
  {
    if pts == [] then []
    else
      var k := |pts| - 1;
      ScaledXs(s, pts[..k]) + [s.GetX(pts[k].x)]
  }

  /**
   * The segments that close a filled graph: down to the bottom at the scaled
   * x of the last INDEX (count - 1), left to x = 0, and back to the start.
   */
  function FillClosure(s: ScaleHelper, count: int, bottom: real): Path
  {
    [LineTo(s.GetX((count - 1) as real), bottom), LineTo(0.0, bottom), Close]
  }

  /** The baseline path: a horizontal line at the scaled baseline across the whole view. */
  function BaseLine(s: ScaleHelper, a: Adapter, viewWidth: real): (p: Path)
    ensures p != [] <==> a.hasBaseLine
    ensures p != [] ==> IsHorizontalSegment(p) && p[0].x == 0.0 && p[1].x == viewWidth
  {
    if a.hasBaseLine then [MoveTo(0.0, s.GetY(a.baseLine)), LineTo(viewWidth, s.GetY(a.baseLine))]
    else []
  }

  /** The scrub line: a vertical line at x from the top padding to the bottom padding. */
  function ScrubLine(x: real, top: real, bottom: real): Path
  {
    [MoveTo(x, top), LineTo(x, bottom)]
  }

  /** The path-length animation: the traced length runs from start to end. */
  datatype Animator = Animator(start: real, end: real, running: bool)

  /** The animator after cancel(): still there, no longer running. */
  function Cancelled(a: Option<Animator>): Option<Animator>
  {
    if a.Some? then Some(a.value.(running := false)) else None
  }

  /** What the scrub listener is told. */
  datatype ScrubEvent = NoEvent | Scrubbed(index: nat) | ScrubEnded

  /** The i-th command of the main path is the scaled i-th point, a move first and lines after. */
  lemma {:induction false} TraceAt(s: ScaleHelper, pts: seq<Point>, i: nat)
    requires i < |pts|
    ensures Trace(s, pts)[i] == Plot(s, i, pts[i])
    decreases |pts|
  {
    var k := |pts| - 1;
    if i < k {
      TraceAt(s, pts[..k], i);
    }
  }

  /** The i-th entry of the scrub table is the scaled x of the i-th point. */
  lemma {:induction false} ScaledXsAt(s: ScaleHelper, pts: seq<Point>, i: nat)
    requires i < |pts|
    ensures ScaledXs(s, pts)[i] == s.GetX(pts[i].x)
    decreases |pts|
  {
    var k := |pts| - 1;
    if i < k {
      ScaledXsAt(s, pts[..k], i);
    }
  }

  /** Raw x in ascending order and a non-negative x scale give a sorted scrub table. */
  lemma ScaledXsSorted(s: ScaleHelper, pts: seq<Point>)
    requires 0.0 <= s.xScale
    requires forall i, j :: 0 <= i < j < |pts| ==> pts[i].x <= pts[j].x
    ensures Sorted(ScaledXs(s, pts))
  {
    var xs := ScaledXs(s, pts);
    forall i, j | 0 <= i < j < |xs| ensures xs[i] <= xs[j] {
      ScaledXsAt(s, pts, i);
      ScaledXsAt(s, pts, j);
      GetXMonotone(s, pts[i].x, pts[j].x);
    }
  }

  /**
   * For an adapter whose x values ascend, drawn into a box at least a stroke
   * wide, the scrub table populatePath builds is sorted, as the nearest-index
   * search needs.
   */
  lemma AscendingDataGivesSortedTable(a: Adapter, contentRect: RectF, lineWidth: real)
    requires CanScale(a)
    requires lineWidth <= contentRect.Width()
    requires forall i, j :: 0 <= i < j < |a.points| ==> a.points[i].x <= a.points[j].x
    ensures Sorted(ScaledXs(MakeScale(AdapterExtents(a), contentRect, lineWidth), a.points))
  {
    var e := AdapterExtents(a);
    var s := MakeScale(e, contentRect, lineWidth);
    if |a.points| > 0 {
      assert e.minX <= a.points[0].x <= e.maxX;
      ScaleSigns(e, contentRect, lineWidth);
      ScaledXsSorted(s, a.points);
    }
  }

  /**
   * The fill closure's first segment starts from getX(count - 1), the scaled
   * INDEX of the last point. For a transform that does not collapse x, it
   * drops from the last point's own scaled x exactly when that point's raw x
   * equals its index; for any other adapter it starts elsewhere.
   */
  lemma FillDropMeetsLastPoint(s: ScaleHelper, pts: seq<Point>, bottom: real)
    requires |pts| > 0 && s.xScale != 0.0
    ensures Trace(s, pts)[|pts| - 1] == Plot(s, |pts| - 1, pts[|pts| - 1])
    ensures FillClosure(s, |pts|, bottom)[0] == LineTo(Plot(s, |pts| - 1, pts[|pts| - 1]).x, bottom)
      <==> pts[|pts| - 1].x == (|pts| - 1) as real
  {
    TraceAt(s, pts, |pts| - 1);
    GetXInjective(s, pts[|pts| - 1].x, (|pts| - 1) as real);
  }

  class Sparkline {
    // style, from the view's attributes
    var lineWidth: real
    var fill: bool
    var scrubEnabled: bool
    var animateChanges: bool

    // the paths drawn: what is on screen, the full graph, the baseline, the scrub line
    var renderPath: Path
    var path: Path
    var baseLinePath: Path
    var scrubLinePath: Path

    var adapter: Option<Adapter>
    var hasScrubListener: bool
    var xPoints: seq<real>
    var pathAnimator: Option<Animator>
    var contentRect: RectF

    // the view's size and padding, set by the host
    var width: nat
    var height: nat
    var paddingStart: int
    var paddingTop: int
    var paddingEnd: int
    var paddingBottom: int

    // the data set observer's count of points, which nothing ever assigns
    var oldCount: int

    /**
     * The observer's count stays 0; the scrub line is empty or vertical; the
     * baseline is empty or horizontal from x = 0; an animation starts at 0.
     */
    ghost predicate Valid()
      reads this
    {
      && oldCount == 0
      && (scrubLinePath == [] || IsVerticalSegment(scrubLinePath))
      && (baseLinePath == [] || (IsHorizontalSegment(baseLinePath) && baseLinePath[0].x == 0.0))
      && (pathAnimator.Some? ==> pathAnimator.value.start == 0.0)
    }

    /** getHeight() - getPaddingBottom(): the bottom edge of the padded area. */
    function Bottom(): real
      reads this`height, this`paddingBottom
    {
      height as real - paddingBottom as real
    }

    /** populatePath does not return early: there is an adapter and a non-empty view. */
    predicate Drawable()
      reads this`adapter, this`width, this`height
    {
      adapter.Some? && width != 0 && height != 0
    }

    /** When populatePath gets past its early exits, the adapter's ranges are non-zero. */
    predicate ScaleDefined()
      reads this
    {
      Drawable() ==> CanScale(adapter.value)
    }

    /** The paths and the scrub table are those built from the current adapter, size and style. */
    ghost predicate PathsBuilt()
      reads this`adapter, this`width, this`height, this`paddingBottom, this`contentRect, this`lineWidth
      reads this`path, this`fill, this`baseLinePath, this`renderPath, this`scrubEnabled, this`xPoints
    {
      Drawable() && CanScale(adapter.value) ==>
        var a := adapter.value;
        var s := MakeScale(AdapterExtents(a), contentRect, lineWidth);
        && path == Trace(s, a.points) + (if fill then FillClosure(s, |a.points|, Bottom()) else [])
        && baseLinePath == BaseLine(s, a, width as real)
        && renderPath == path
        && (scrubEnabled ==> xPoints == ScaledXs(s, a.points))
    }

    /** The paths and the scrub table are the given ones. */
    ghost predicate Untouched(path0: Path, baseLinePath0: Path, renderPath0: Path, xPoints0: seq<real>)
      reads this`path, this`baseLinePath, this`renderPath, this`xPoints
    {
      path == path0 && baseLinePath == baseLinePath0 && renderPath == renderPath0 && xPoints == xPoints0
    }

    /** A new view with the given style, no adapter, no size and empty paths. */
    constructor (lineWidth: real, fill: bool, scrubEnabled: bool, animateChanges: bool)
      ensures Valid()
      ensures this.lineWidth == lineWidth && this.fill == fill
      ensures this.scrubEnabled == scrubEnabled && this.animateChanges == animateChanges
      ensures renderPath == [] && path == [] && baseLinePath == [] && scrubLinePath == []
      ensures adapter == None && !hasScrubListener && xPoints == [] && pathAnimator == None
      ensures width == 0 && height == 0 && contentRect == RectF(0.0, 0.0, 0.0, 0.0)
      ensures paddingStart == 0 && paddingTop == 0 && paddingEnd == 0 && paddingBottom == 0
    {
      this.lineWidth := lineWidth;
      this.fill := fill;
      this.scrubEnabled := scrubEnabled;
      this.animateChanges := animateChanges;
      renderPath, path, baseLinePath, scrubLinePath := [], [], [], [];
      adapter := None;
      hasScrubListener := false;
      xPoints := [];
      pathAnimator := None;
      contentRect := RectF(0.0, 0.0, 0.0, 0.0);
      width, height := 0, 0;
      paddingStart, paddingTop, paddingEnd, paddingBottom := 0, 0, 0, 0;
      oldCount := 0;
    }

    /** The content rectangle is the view's bounds less its padding. */
    method UpdateContentRect()
      modifies this`contentRect
      ensures contentRect == RectF(paddingStart as real, paddingTop as real,
                                   (width - paddingEnd) as real, (height - paddingBottom) as real)
      ensures contentRect.Width() == (width - paddingStart - paddingEnd) as real
      ensures contentRect.Height() == (height - paddingTop - paddingBottom) as real
    {
      contentRect := RectF(paddingStart as real, paddingTop as real,
                           (width - paddingEnd) as real, (height - paddingBottom) as real);
    }

    /**
     * The loop of populatePath: the main path becomes a move to the first
     * scaled point and a line to each later one, and, when scrubbing is
     * enabled, the scrub table becomes the scaled x of every point.
     */
    method PlotPoints(scaleHelper: ScaleHelper, points: seq<Point>)
      modifies this`path, this`xPoints
      ensures path == Trace(scaleHelper, points)
      ensures xPoints == if scrubEnabled then ScaledXs(scaleHelper, points) else old(xPoints)
    {
      // the scrub table is only used in scrubbing
      if scrubEnabled {
        xPoints := [];
      }
      path := [];
      for i := 0 to |points|
        invariant path == Trace(scaleHelper, points[..i])
        invariant xPoints == if scrubEnabled then ScaledXs(scaleHelper, points[..i]) else old(xPoints)
      {
        assert points[..i + 1][..i] == points[..i];
        var x := scaleHelper.GetX(points[i].x);
        var y := scaleHelper.GetY(points[i].y);
        if i == 0 {
          path := path + [MoveTo(x, y)];
        } else {
          path := path + [LineTo(x, y)];
        }
        if scrubEnabled {
          xPoints := xPoints + [x];
        }
      }
      assert points[..|points|] == points;
    }

    /**
     * populatePath: rebuilds the main path (a move to the first scaled point
     * and a line to each later one, closed down to the bottom when filling),
     * the baseline path and the render path, and, when scrubbing is enabled,
     * the scrub table. Without an adapter or with an empty view nothing changes.
     */
    method PopulatePath()
      requires Valid() && ScaleDefined()
      modifies this`path, this`baseLinePath, this`renderPath, this`xPoints
      ensures Valid() && PathsBuilt()
      ensures !Drawable() ==> Untouched(old(path), old(baseLinePath), old(renderPath), old(xPoints))
      ensures !scrubEnabled ==> xPoints == old(xPoints)
    {
      if adapter.None? {
        return;
      }
      if width == 0 || height == 0 {
        return;
      }
      Rebuild();
    }

    /**
     * The part of populatePath past its early exits: a fresh ScaleHelper for
     * the adapter, the loop over the points, then the closing steps.
     */
    method Rebuild()
      requires Valid() && Drawable() && CanScale(adapter.value)
      modifies this`path, this`baseLinePath, this`renderPath, this`xPoints
      ensures Valid() && PathsBuilt()
      ensures !scrubEnabled ==> xPoints == old(xPoints)
    {
      var data := adapter.value;
      var scaleHelper := NewScaleHelper(data, contentRect, lineWidth);

      PlotPoints(scaleHelper, data.points);
      ClosePaths(scaleHelper, data);
    }

    /**
     * The rest of populatePath: the fill closure when filling, the baseline
     * path when the adapter has a baseline, and the render path reset to the
     * main path.
     */
    method ClosePaths(scaleHelper: ScaleHelper, data: Adapter)
      modifies this`path, this`baseLinePath, this`renderPath
      ensures path == old(path) + (if fill then FillClosure(scaleHelper, |data.points|, Bottom()) else [])
      ensures baseLinePath == BaseLine(scaleHelper, data, width as real)
      ensures renderPath == path
    {
      // close the circuit when filling the graph in
      if fill {
        var lastX := scaleHelper.GetX((|data.points| - 1) as real);
        path := path + [LineTo(lastX, Bottom()), LineTo(0.0, Bottom()), Close];
      }
      // the baseline path
      if data.hasBaseLine {
        var scaledBaseLine := scaleHelper.GetY(data.baseLine);
        baseLinePath := [MoveTo(0.0, scaledBaseLine), LineTo(width as real, scaledBaseLine)];
      } else {
        baseLinePath := [];
      }
      // reset, then add the main path
      renderPath := path;
    }

    /** setScrubLine: the scrub line becomes a vertical line at x across the padded height. */
    method SetScrubLine(x: real)
      requires Valid()
      modifies this`scrubLinePath
      ensures Valid()
      ensures scrubLinePath == ScrubLine(x, paddingTop as real, Bottom())
    {
      scrubLinePath := [];
      scrubLinePath := scrubLinePath + [MoveTo(x, paddingTop as real)];
      scrubLinePath := scrubLinePath + [LineTo(x, Bottom())];
    }

    /** onSizeChanged: take the new size, recompute the content rectangle, rebuild the paths. */
    method OnSizeChanged(w: nat, h: nat)
      requires Valid()
      requires adapter.Some? && w != 0 && h != 0 ==> CanScale(adapter.value)
      modifies this`width, this`height, this`contentRect
      modifies this`path, this`baseLinePath, this`renderPath, this`xPoints
      ensures Valid() && PathsBuilt()
      ensures width == w && height == h
      ensures contentRect == RectF(paddingStart as real, paddingTop as real,
                                   (w - paddingEnd) as real, (h - paddingBottom) as real)
      ensures !Drawable() ==> Untouched(old(path), old(baseLinePath), old(renderPath), old(xPoints))
      ensures !scrubEnabled ==> xPoints == old(xPoints)
    {
      width, height := w, h;
      UpdateContentRect();
      PopulatePath();
    }

    /** setPadding: take the new padding, recompute the content rectangle, rebuild the paths. */
    method SetPadding(left: int, top: int, right: int, bottom: int)
      requires Valid() && ScaleDefined()
      modifies this`paddingStart, this`paddingTop, this`paddingEnd, this`paddingBottom, this`contentRect
      modifies this`path, this`baseLinePath, this`renderPath, this`xPoints
      ensures Valid() && PathsBuilt()
      ensures paddingStart == left && paddingTop == top && paddingEnd == right && paddingBottom == bottom
      ensures contentRect == RectF(left as real, top as real,
                                   (width - right) as real, (height - bottom) as real)
      ensures !Drawable() ==> Untouched(old(path), old(baseLinePath), old(renderPath), old(xPoints))
      ensures !scrubEnabled ==> xPoints == old(xPoints)
    {
      paddingStart, paddingTop, paddingEnd, paddingBottom := left, top, right, bottom;
      UpdateContentRect();
      PopulatePath();
    }

    /** setFill: only a change of the flag rebuilds the paths. */
    method SetFill(fill: bool)
      requires Valid() && ScaleDefined()
      modifies this`fill, this`path, this`baseLinePath, this`renderPath, this`xPoints
      ensures Valid()
      ensures this.fill == fill
      ensures fill != old(this.fill) ==> PathsBuilt()
      ensures fill == old(this.fill) ==> Untouched(old(path), old(baseLinePath), old(renderPath), old(xPoints))
      ensures !Drawable() ==> Untouched(old(path), old(baseLinePath), old(renderPath), old(xPoints))
      ensures !scrubEnabled ==> xPoints == old(xPoints)
    {
      if this.fill != fill {
        this.fill := fill;
        PopulatePath();
      }
    }

    /** setScrubEnabled: takes effect on the next rebuild; the paths are left as they are. */
    method SetScrubEnabled(scrubbingEnabled: bool)
      modifies this`scrubEnabled
      ensures scrubEnabled == scrubbingEnabled
    {
      scrubEnabled := scrubbingEnabled;
    }

    /** setAnimateChanges. */
    method SetAnimateChanges(animate: bool)
      modifies this`animateChanges
      ensures animateChanges == animate
    {
      animateChanges := animate;
    }

    /** setScrubListener, reduced to whether there is a listener. */
    method SetScrubListener(present: bool)
      modifies this`hasScrubListener
      ensures hasScrubListener == present
    {
      hasScrubListener := present;
    }

    /** setAdapter: the new adapter is kept; nothing is rebuilt until its data change. */
    method SetAdapter(adapter: Option<Adapter>)
      modifies this`adapter
      ensures this.adapter == adapter
    {
      this.adapter := adapter;
    }

    /**
     * doPathAnimation: cancels any running animation, and, unless the path has
     * no length, starts a new one. Its start length is multiplied by 0, so it
     * always starts at 0 whatever the ratio.
     */
    method DoPathAnimation(newToOldLengthRatio: real, endLength: real)
      requires Valid()
      modifies this`pathAnimator
      ensures Valid()
      ensures endLength == 0.0 ==> pathAnimator == Cancelled(old(pathAnimator))
      ensures endLength != 0.0 ==> pathAnimator == Some(Animator(0.0, endLength, true))
    {
      if pathAnimator.Some? {
        pathAnimator := Cancelled(pathAnimator);
      }
      if endLength == 0.0 {
        return;
      }
      var start := endLength * newToOldLengthRatio * 0.0;
      pathAnimator := Some(Animator(start, endLength, true));
    }

    /**
     * The observer's onChanged, for the adapter's new data and the length of the
     * path it yields. The paths are rebuilt; an animation is requested exactly
     * when changes animate and points were added, which, since the old count
     * stays 0, means the new data are not empty.
     */
    method OnChanged(data: Adapter, pathLength: real) returns (animate: bool)
      requires Valid()
      requires adapter.Some?
      requires width != 0 && height != 0 ==> CanScale(data)
      modifies this`adapter, this`path, this`baseLinePath, this`renderPath, this`xPoints, this`pathAnimator
      ensures Valid() && PathsBuilt()
      ensures adapter == Some(data)
      ensures !Drawable() ==> Untouched(old(path), old(baseLinePath), old(renderPath), old(xPoints))
      ensures !scrubEnabled ==> xPoints == old(xPoints)
      ensures animate == (animateChanges && 0 < |data.points|)
      ensures animate && pathLength != 0.0 ==> pathAnimator == Some(Animator(0.0, pathLength, true))
      ensures animate && pathLength == 0.0 ==> pathAnimator == Cancelled(old(pathAnimator))
      ensures !animate ==> pathAnimator == old(pathAnimator)
    {
      adapter := Some(data);
      // detect when points are added and animate by path tracing
      var newCount := |data.points|;
      var addingPoints := oldCount < newCount;

      PopulatePath();

      animate := animateChanges && addingPoints;
      if animate {
        var newToOldLengthRatio := oldCount as real / newCount as real;
        DoPathAnimation(newToOldLengthRatio, pathLength);
      }
    }

    /** The observer's onInvalidated: the render, main and baseline paths are emptied. */
    method OnInvalidated()
      requires Valid()
      modifies this`renderPath, this`path, this`baseLinePath
      ensures Valid()
      ensures renderPath == [] && path == [] && baseLinePath == []
    {
      renderPath := [];
      path := [];
      baseLinePath := [];
    }

    /**
     * The scrub detector's onScrubbed: with no adapter nothing happens;
     * otherwise the listener, if any, is told the nearest index and the scrub
     * line moves to x.
     */
    method OnScrubbed(x: real) returns (event: ScrubEvent)
      requires Valid()
      modifies this`scrubLinePath
      ensures Valid()
      ensures adapter.None? ==> event == NoEvent && scrubLinePath == old(scrubLinePath)
      ensures adapter.Some? ==> scrubLinePath == ScrubLine(x, paddingTop as real, Bottom())
      ensures adapter.Some? && !hasScrubListener ==> event == NoEvent
      ensures adapter.Some? && hasScrubListener ==> event.Scrubbed?
      ensures event.Scrubbed? ==> IsNearestIndex(xPoints, x, event.index)
    {
      event := NoEvent;
      if adapter.None? {
        return;
      }
      if hasScrubListener {
        var index := NearestIndex(xPoints, x);
        event := Scrubbed(index);
      }
      SetScrubLine(x);
    }

    /** The scrub detector's onScrubEnded: the scrub line is emptied and the listener told. */
    method OnScrubEnded() returns (event: ScrubEvent)
      requires Valid()
      modifies this`scrubLinePath
      ensures Valid()
      ensures scrubLinePath == []
      ensures event == if hasScrubListener then ScrubEnded else NoEvent
    {
      scrubLinePath := [];
      event := if hasScrubListener then ScrubEnded else NoEvent;
    }
  }
}
