/**
 * The sparkline's scale transform: the extents of the data (widened to the
 * baseline), and the affine map from raw (x, y) to device (x, y) that fits the
 * content rectangle inset by half the stroke width, with y flipped.
 */
module Scale {

  /** Float.MAX_VALUE, (2 - 2^-23) * 2^127. */
  const FloatMaxValue: real := 340282346638528859811704183484516925440.0

  /** Float.MIN_VALUE, 2^-149: the smallest POSITIVE float, not the most negative one. */
  const FloatMinValue: real := 1.0 / 713623846352979940529142984724747568191373312.0

  /** One data point as the adapter reports it through getX(i) and getY(i). */
  datatype Point = Point(x: real, y: real)

  /** A snapshot of the adapter: its points in index order and its optional baseline. */
  datatype Adapter = Adapter(points: seq<Point>, hasBaseLine: bool, baseLine: real)

  datatype RectF = RectF(left: real, top: real, right: real, bottom: real)
  {
    function Width(): real { right - left }
    function Height(): real { bottom - top }
  }

  /** The four running bounds of the scan in the ScaleHelper constructor. */
  datatype Extents = Extents(minX: real, maxX: real, minY: real, maxY: real)

  /** Math.min and Math.max on floats, away from NaN and signed zero. */
  function Min(a: real, b: real): real { if a <= b then a else b }
  function Max(a: real, b: real): real { if a >= b then a else b }

  /** One step of the scan: widen the bounds to take in point p. */
  function Include(e: Extents, p: Point): Extents
  {
    Extents(Min(e.minX, p.x), Max(e.maxX, p.x), Min(e.minY, p.y), Max(e.maxY, p.y))
  }

  /**
   * The scan over pts starting from init. The result only ever widens init,
   * and every point lies within the resulting bounds.
   */
  function Scan(init: Extents, pts: seq<Point>): (e: Extents)
    ensures e.minX <= init.minX && init.maxX <= e.maxX
    ensures e.minY <= init.minY && init.maxY <= e.maxY
    ensures forall i :: 0 <= i < |pts| ==>
      e.minX <= pts[i].x <= e.maxX && e.minY <= pts[i].y <= e.maxY
    decreases |pts|
  {
    if pts == [] then init
    else
      var k := |pts| - 1;
      assert forall i :: 0 <= i < k ==> pts[..k][i] == pts[i];
      Include(Scan(init, pts[..k]), pts[k])
  }

  /**
   * The starting bounds as the source writes them: y starts at the baseline when
   * there is one; otherwise every minimum starts at Float.MAX_VALUE and every
   * maximum at Float.MIN_VALUE.
   */
  function InitialExtents(a: Adapter): Extents
  {
    var minY := if a.hasBaseLine then a.baseLine else FloatMaxValue;
    var maxY := if a.hasBaseLine then minY else FloatMinValue;
    Extents(FloatMaxValue, FloatMinValue, minY, maxY)
  }

  /** The bounds the ScaleHelper constructor computes for an adapter. */
  function AdapterExtents(a: Adapter): Extents
  {
    Scan(InitialExtents(a), a.points)
  }

  /** Both ranges are non-zero, so that neither scale factor divides by zero. */
  predicate CanScale(a: Adapter)
  {
    var e := AdapterExtents(a);
    e.maxX != e.minX && e.maxY != e.minY
  }

  /** The fields of ScaleHelper that getX and getY read. */
  datatype ScaleHelper = ScaleHelper(width: real, height: real,
                                     xScale: real, yScale: real,
                                     xTranslation: real, yTranslation: real)
  {
    /** The raw x scaled to fit the view. */
    function GetX(rawX: real): real
    {
      rawX * xScale + xTranslation
    }

    /** The raw y scaled to fit the view and flipped for drawing. */
    function GetY(rawY: real): real
    {
      height - (rawY * yScale) + yTranslation
    }
  }

  /** The field formulas of the ScaleHelper constructor, given the scanned bounds. */
  function MakeScale(e: Extents, contentRect: RectF, lineWidth: real): ScaleHelper
    requires e.maxX != e.minX && e.maxY != e.minY
  {
    var leftPadding := contentRect.left;
    var topPadding := contentRect.top;
    // half of the line bleeds out of the content box on either side
    var width := contentRect.Width() - lineWidth;
    var height := contentRect.Height() - lineWidth;
    var xScale := width / (e.maxX - e.minX);
    var xTranslation := leftPadding - (e.minX * xScale) + (lineWidth / 2.0);
    var yScale := height / (e.maxY - e.minY);
    var yTranslation := e.minY * yScale + topPadding + (lineWidth / 2.0);
    ScaleHelper(width, height, xScale, yScale, xTranslation, yTranslation)
  }

  /**
   * The transform sends the x range onto the inset left and right edges, and
   * the y range, flipped, onto the inset top and bottom edges.
   */
  lemma ScaleFitsInset(e: Extents, contentRect: RectF, lineWidth: real)
    requires e.maxX != e.minX && e.maxY != e.minY
    ensures var s := MakeScale(e, contentRect, lineWidth);
      && s.GetX(e.minX) == contentRect.left + lineWidth / 2.0
      && s.GetX(e.maxX) == contentRect.right - lineWidth / 2.0
      && s.GetY(e.maxY) == contentRect.top + lineWidth / 2.0
      && s.GetY(e.minY) == contentRect.bottom - lineWidth / 2.0
  {
    var s := MakeScale(e, contentRect, lineWidth);
    assert (e.maxX - e.minX) * s.xScale == s.width;
    assert (e.maxY - e.minY) * s.yScale == s.height;
  }

  /**
   * The ScaleHelper constructor: one pass over the adapter finds the bounds,
   * then the fields are derived from them.
   */
  method NewScaleHelper(a: Adapter, contentRect: RectF, lineWidth: real) returns (s: ScaleHelper)
    requires CanScale(a)
    ensures s == MakeScale(AdapterExtents(a), contentRect, lineWidth)
  {
    var size := |a.points|;
    var hasBaseLine := a.hasBaseLine;
    var minY := if hasBaseLine then a.baseLine else FloatMaxValue;
    var maxY := if hasBaseLine then minY else FloatMinValue;
    var minX := FloatMaxValue;
    var maxX := FloatMinValue;
    for i := 0 to size
      invariant Extents(minX, maxX, minY, maxY) == Scan(InitialExtents(a), a.points[..i])
    {
      assert a.points[..i + 1][..i] == a.points[..i];
      var x := a.points[i].x;
      minX := Min(minX, x);
      maxX := Max(maxX, x);
      var y := a.points[i].y;
      minY := Min(minY, y);
      maxY := Max(maxY, y);
    }
    assert a.points[..size] == a.points;
    s := MakeScale(Extents(minX, maxX, minY, maxY), contentRect, lineWidth);
  }

  /** With a non-negative x scale, getX preserves order. */
  lemma GetXMonotone(s: ScaleHelper, a: real, b: real)
    requires 0.0 <= s.xScale && a <= b
    ensures s.GetX(a) <= s.GetX(b)
  {
    assert (b - a) * s.xScale >= 0.0;
  }

  /** With a non-zero x scale, getX is one-to-one. */
  lemma GetXInjective(s: ScaleHelper, a: real, b: real)
    requires s.xScale != 0.0
    ensures s.GetX(a) == s.GetX(b) <==> a == b
  {
    if a != b {
      assert s.GetX(a) - s.GetX(b) == (a - b) * s.xScale;
      assert (a - b) * s.xScale != 0.0;
    }
  }

  /** With a non-negative y scale, getY reverses order: up in the data is up on screen. */
  lemma GetYAntitone(s: ScaleHelper, a: real, b: real)
    requires 0.0 <= s.yScale && a <= b
    ensures s.GetY(b) <= s.GetY(a)
  {
    assert (b - a) * s.yScale >= 0.0;
  }

  /** With a positive y scale, a strictly larger raw y gives a strictly smaller device y. */
  lemma GetYFlips(s: ScaleHelper, a: real, b: real)
    requires 0.0 < s.yScale && a < b
    ensures s.GetY(b) < s.GetY(a)
  {
    assert (b - a) * s.yScale > 0.0;
  }

  /**
   * The scale factors are non-negative when the range is ascending and the
   * content box is at least a stroke wide (or tall), and positive when it is
   * wider (taller) than the stroke.
   */
  lemma ScaleSigns(e: Extents, contentRect: RectF, lineWidth: real)
    requires e.maxX != e.minX && e.maxY != e.minY
    ensures var s := MakeScale(e, contentRect, lineWidth);
      && (e.minX < e.maxX && lineWidth <= contentRect.Width() ==> 0.0 <= s.xScale)
      && (e.minX < e.maxX && lineWidth < contentRect.Width() ==> 0.0 < s.xScale)
      && (e.minY < e.maxY && lineWidth <= contentRect.Height() ==> 0.0 <= s.yScale)
      && (e.minY < e.maxY && lineWidth < contentRect.Height() ==> 0.0 < s.yScale)
  {
    if e.minX < e.maxX {
      QuotientSign(contentRect.Width() - lineWidth, e.maxX - e.minX);
    }
    if e.minY < e.maxY {
      QuotientSign(contentRect.Height() - lineWidth, e.maxY - e.minY);
    }
  }

  /** A quotient by a positive divisor keeps the sign of the dividend. */
  lemma QuotientSign(n: real, d: real)
    requires 0.0 < d
    ensures 0.0 <= n ==> 0.0 <= n / d
    ensures 0.0 < n ==> 0.0 < n / d
  {
    var q := n / d;
    assert n == d * q;
    if q < 0.0 {
      assert d * q < 0.0;
    }
  }

  /** Every bound is either its starting value or the coordinate of some point. */
  lemma {:induction false} ScanAttained(init: Extents, pts: seq<Point>)
    ensures var e := Scan(init, pts);
      && (e.minX == init.minX || exists i :: 0 <= i < |pts| && pts[i].x == e.minX)
      && (e.maxX == init.maxX || exists i :: 0 <= i < |pts| && pts[i].x == e.maxX)
      && (e.minY == init.minY || exists i :: 0 <= i < |pts| && pts[i].y == e.minY)
      && (e.maxY == init.maxY || exists i :: 0 <= i < |pts| && pts[i].y == e.maxY)
    decreases |pts|
  {
    if pts != [] {
      var k := |pts| - 1;
      ScanAttained(init, pts[..k]);
      assert forall i :: 0 <= i < k ==> pts[..k][i] == pts[i];
    }
  }

  /** When the adapter has a baseline, the y range contains it. */
  lemma BaseLineInRange(a: Adapter)
    requires a.hasBaseLine
    ensures AdapterExtents(a).minY <= a.baseLine <= AdapterExtents(a).maxY
  {
  }

  /**
   * Every data point is drawn inside the content box inset by half the stroke
   * width, provided the box is at least a stroke wide and tall.
   */
  lemma PointFitsContent(a: Adapter, contentRect: RectF, lineWidth: real, i: int)
    requires CanScale(a)
    requires lineWidth <= contentRect.Width() && lineWidth <= contentRect.Height()
    requires 0 <= i < |a.points|
    ensures var s := MakeScale(AdapterExtents(a), contentRect, lineWidth);
      && contentRect.left + lineWidth / 2.0 <= s.GetX(a.points[i].x) <= contentRect.right - lineWidth / 2.0
      && contentRect.top + lineWidth / 2.0 <= s.GetY(a.points[i].y) <= contentRect.bottom - lineWidth / 2.0
  {
    var e := AdapterExtents(a);
    var s := MakeScale(e, contentRect, lineWidth);
    var p := a.points[i];
    assert e.minX <= p.x <= e.maxX && e.minY <= p.y <= e.maxY;
    ScaleSigns(e, contentRect, lineWidth);
    ScaleFitsInset(e, contentRect, lineWidth);
    GetXMonotone(s, e.minX, p.x);
    GetXMonotone(s, p.x, e.maxX);
    GetYAntitone(s, e.minY, p.y);
    GetYAntitone(s, p.y, e.maxY);
  }

  /** The baseline is drawn inside the content box inset by half the stroke width. */
  lemma BaseLineFitsContent(a: Adapter, contentRect: RectF, lineWidth: real)
    requires CanScale(a) && a.hasBaseLine
    requires lineWidth <= contentRect.Height()
    ensures var s := MakeScale(AdapterExtents(a), contentRect, lineWidth);
      contentRect.top + lineWidth / 2.0 <= s.GetY(a.baseLine) <= contentRect.bottom - lineWidth / 2.0
  {
    var e := AdapterExtents(a);
    var s := MakeScale(e, contentRect, lineWidth);
    BaseLineInRange(a);
    ScaleSigns(e, contentRect, lineWidth);
    ScaleFitsInset(e, contentRect, lineWidth);
    GetYAntitone(s, e.minY, a.baseLine);
    GetYAntitone(s, a.baseLine, e.maxY);
  }

  // ---------------------------------------------------------------------------
  // The maximum sentinel. Starting the maxima at Float.MIN_VALUE, which is
  // positive, means a data set whose values are all negative reports a maximum
  // above every value, so its highest point never reaches the top edge.
  // ---------------------------------------------------------------------------

  /** Two points with negative y and no baseline, drawn into a 100 x 50 box with no stroke. */
  const NegativeData: Adapter := Adapter([Point(0.0, -2.0), Point(1.0, -1.0)], false, 0.0)
  const SampleRect: RectF := RectF(0.0, 0.0, 100.0, 50.0)

  lemma FloatMinValuePositive()
    ensures 0.0 < FloatMinValue < 1.0
  {
  }

  /** The bounds the source computes for NegativeData: the maximum y is Float.MIN_VALUE. */
  lemma NegativeDataExtents()
    ensures AdapterExtents(NegativeData) == Extents(0.0, 1.0, -2.0, FloatMinValue)
  {
    var pts := NegativeData.points;
    var e0 := InitialExtents(NegativeData);
    assert pts[..1][..0] == [] && pts[..1][0] == pts[0];
    assert Scan(e0, []) == e0;
    var e1 := Scan(e0, pts[..1]);
    assert e1 == Include(e0, pts[0]);
    assert pts[..2] == pts;
    assert AdapterExtents(NegativeData) == Include(e1, pts[1]);
  }

  /** Any positive maximum above data whose highest y is -1 pushes that point below the top. */
  lemma TopMissedWithPositiveMax(e: Extents)
    requires e.minX == 0.0 && e.maxX == 1.0 && e.minY == -2.0 && 0.0 < e.maxY
    ensures MakeScale(e, SampleRect, 0.0).GetY(-1.0) > SampleRect.top
  {
    var s := MakeScale(e, SampleRect, 0.0);
    assert s.yScale * (e.maxY + 2.0) == 50.0;
    assert s.GetY(-1.0) == 50.0 - s.yScale;
  }

  /**
   * As written, the highest point of NegativeData (y = -1) is drawn below the
   * top edge of the box, because the scanned maximum is Float.MIN_VALUE.
   */
  lemma MaxSentinelMissesTop()
    ensures AdapterExtents(NegativeData).maxY == FloatMinValue
    ensures CanScale(NegativeData)
    ensures MakeScale(AdapterExtents(NegativeData), SampleRect, 0.0).GetY(-1.0) != SampleRect.top
  {
    NegativeDataExtents();
    FloatMinValuePositive();
    TopMissedWithPositiveMax(AdapterExtents(NegativeData));
  }

  /** The starting bounds with the maxima at -Float.MAX_VALUE, the most negative float. */
  function CorrectedInitialExtents(a: Adapter): Extents
  {
    var minY := if a.hasBaseLine then a.baseLine else FloatMaxValue;
    var maxY := if a.hasBaseLine then minY else -FloatMaxValue;
    Extents(FloatMaxValue, -FloatMaxValue, minY, maxY)
  }

  function CorrectedExtents(a: Adapter): Extents
  {
    Scan(CorrectedInitialExtents(a), a.points)
  }

  /** A finite float. */
  predicate IsFloat(v: real)
  {
    -FloatMaxValue <= v <= FloatMaxValue
  }

  /**
   * With the corrected sentinels, for a non-empty adapter of finite values,
   * every x bound is the x of some point and every y bound is the y of some
   * point or the baseline: the extents are tight.
   */
  lemma CorrectedExtentsTight(a: Adapter)
    requires |a.points| > 0
    requires forall i :: 0 <= i < |a.points| ==> IsFloat(a.points[i].x) && IsFloat(a.points[i].y)
    ensures var e := CorrectedExtents(a);
      && (exists i :: 0 <= i < |a.points| && a.points[i].x == e.minX)
      && (exists i :: 0 <= i < |a.points| && a.points[i].x == e.maxX)
      && ((a.hasBaseLine && e.minY == a.baseLine) || exists i :: 0 <= i < |a.points| && a.points[i].y == e.minY)
      && ((a.hasBaseLine && e.maxY == a.baseLine) || exists i :: 0 <= i < |a.points| && a.points[i].y == e.maxY)
  {
    var init := CorrectedInitialExtents(a);
    var e := CorrectedExtents(a);
    ScanAttained(init, a.points);
    var p := a.points[0];
    assert e.minX <= p.x <= e.maxX && e.minY <= p.y <= e.maxY;
    if e.minX == init.minX { assert p.x == e.minX; }
    if e.maxX == init.maxX { assert p.x == e.maxX; }
    if !a.hasBaseLine {
      if e.minY == init.minY { assert p.y == e.minY; }
      if e.maxY == init.maxY { assert p.y == e.maxY; }
    }
  }

  /**
   * Consequently the corrected transform puts the highest value (of the data
   * and the baseline) exactly on the inset top edge.
   */
  lemma CorrectedReachesTop(a: Adapter, contentRect: RectF, lineWidth: real)
    requires |a.points| > 0
    requires forall i :: 0 <= i < |a.points| ==> IsFloat(a.points[i].x) && IsFloat(a.points[i].y)
    requires CorrectedExtents(a).maxX != CorrectedExtents(a).minX
    requires CorrectedExtents(a).maxY != CorrectedExtents(a).minY
    ensures var e := CorrectedExtents(a);
      var s := MakeScale(e, contentRect, lineWidth);
      (a.hasBaseLine && s.GetY(a.baseLine) == contentRect.top + lineWidth / 2.0)
        || exists i :: 0 <= i < |a.points| && s.GetY(a.points[i].y) == contentRect.top + lineWidth / 2.0
  {
    var e := CorrectedExtents(a);
    var s := MakeScale(e, contentRect, lineWidth);
    ScaleFitsInset(e, contentRect, lineWidth);
    assert s.GetY(e.maxY) == contentRect.top + lineWidth / 2.0;
    CorrectedExtentsTight(a);
    if !(a.hasBaseLine && e.maxY == a.baseLine) {
      var i :| 0 <= i < |a.points| && a.points[i].y == e.maxY;
      assert s.GetY(a.points[i].y) == contentRect.top + lineWidth / 2.0;
    }
  }
}
