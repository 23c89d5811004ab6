/** The hand-drawn trend curve of the share card and of the report cover
    (`getGraphPath` in components/ShareModal.tsx and
    components/ReportPDF.tsx): a move to the first month's point, then one
    cubic segment per later month whose two control points sit halfway
    between the neighbouring x positions, at the previous and the current
    height. Coordinates are exact rationals; the rendering of the numbers
    into the SVG path string is not modelled. */
module TrendPath {
  import opened Types

  datatype Point = Point(x: real, y: real)

  /** `C cp1x prevY, cp2x y, x y` */
  datatype Segment = Cubic(c1: Point, c2: Point, end: Point)

  /** `M x0 y0` followed by the cubic segments. */
  datatype Path = Path(start: Point, curves: seq<Segment>)

  /** The horizontal distance between months: the inner width over 11. */
  function XStep(w: real, p: real): real
  {
    (w - p * 2.0) / 11.0
  }

  /** The x position of month index i. */
  function XAt(i: int, w: real, p: real): real
  {
    p + i as real * XStep(w, p)
  }

  /** The y position of a score: 0 sits on the bottom padding line, 100 on
      the top one. */
  function YAt(score: int, h: real, p: real): real
  {
    h - p - (score as real / 100.0) * (h - p * 2.0)
  }

  /** A score of 0 is drawn at the bottom edge of the plot and 100 at the
      top edge, and a higher score is always drawn higher. */
  lemma YAtBounds(h: real, p: real, s: int, t: int)
    requires h > p * 2.0
    ensures YAt(0, h, p) == h - p
    ensures YAt(100, h, p) == p
    ensures s < t ==> YAt(s, h, p) > YAt(t, h, p)
  {
    if s < t {
      assert (t as real / 100.0) * (h - p * 2.0) - (s as real / 100.0) * (h - p * 2.0)
          == ((t - s) as real / 100.0) * (h - p * 2.0);
    }
  }

  /** The two control points of the segment ending at index i share the
      midpoint x of the two months it joins. */
  lemma ControlPointsMeet(i: int, w: real, p: real)
    ensures XAt(i - 1, w, p) + XStep(w, p) / 2.0 == (XAt(i - 1, w, p) + XAt(i, w, p)) / 2.0
    ensures XAt(i, w, p) - XStep(w, p) / 2.0 == (XAt(i - 1, w, p) + XAt(i, w, p)) / 2.0
  {
  }

  /** The segment the loop emits for index i. */
  function SegmentAt(data: seq<MonthlyData>, i: int, w: real, h: real, p: real): Segment
    requires 1 <= i < |data|
  {
    var mid := (XAt(i - 1, w, p) + XAt(i, w, p)) / 2.0;
    Cubic(Point(mid, YAt(data[i - 1].score, h, p)),
          Point(mid, YAt(data[i].score, h, p)),
          Point(XAt(i, w, p), YAt(data[i].score, h, p)))
  }

  /** `getGraphPath(w, h, p)`: one move point and exactly `|data| - 1`
      segments; the segment ending at index i reaches month i's point, and
      its control points share the midpoint x, the first at the previous
      height and the second at the current one. The source reads `data[0]`
      unguarded, so an empty year is outside its domain. */
  method GraphPath(data: seq<MonthlyData>, w: real, h: real, p: real) returns (path: Path)
    requires |data| > 0
    ensures path.start == Point(p, YAt(data[0].score, h, p))
    ensures |path.curves| == |data| - 1
    ensures forall i | 1 <= i < |data| :: path.curves[i - 1] == SegmentAt(data, i, w, h, p)
  {
    var xStep := (w - p * 2.0) / 11.0;
    var start := Point(p, h - p - (data[0].score as real / 100.0) * (h - p * 2.0));
    var curves: seq<Segment> := [];
    var i := 1;
    while i < |data|
      invariant 1 <= i <= |data|
      invariant |curves| == i - 1
      invariant forall j | 1 <= j < i :: curves[j - 1] == SegmentAt(data, j, w, h, p)
    {
      var x := p + i as real * xStep;
      var y := h - p - (data[i].score as real / 100.0) * (h - p * 2.0);
      var prevX := p + (i - 1) as real * xStep;
      var prevY := h - p - (data[i - 1].score as real / 100.0) * (h - p * 2.0);
      var cp1x := prevX + xStep / 2.0;
      var cp2x := x - xStep / 2.0;
      ControlPointsMeet(i, w, p);
      curves := curves + [Cubic(Point(cp1x, prevY), Point(cp2x, y), Point(x, y))];
      i := i + 1;
    }
    path := Path(start, curves);
  }
}
