/** Connection points attached to a shape and the connection lines drawn
    between them: where a line ends, how it is routed for each line type, where
    its arrow head goes, and how its styling follows colour, width and
    selection. */
module Connections {
  import opened Lists
  import opened Geometry
  import opened Shapes

  /** `ConnectionLine.LineType`. */
  datatype LineType = Straight | Polyline | Curve

  /** The numbers held by the line's JavaFX node: a `Line`, a `Polyline` (its
      coordinate list, read as points in order) or a `QuadCurve`. */
  datatype Path =
    | LinePath(startX: real, startY: real, endX: real, endY: real)
    | PolylinePath(points: seq<Point>)
    | QuadPath(startX: real, startY: real, controlX: real, controlY: real, endX: real, endY: real)

  /** The node class each line type is drawn with. */
  predicate Matches(t: LineType, p: Path)
  {
    match t
    case Straight => p.LinePath?
    case Polyline => p.PolylinePath?
    case Curve => p.QuadPath?
  }

  /** A freshly constructed node of the class for `t`: all coordinates zero, no
      polyline points. */
  function EmptyPath(t: LineType): (p: Path)
    ensures Matches(t, p)
    ensures p.PolylinePath? ==> p.points == []
  {
    match t
    case Straight => LinePath(0.0, 0.0, 0.0, 0.0)
    case Polyline => PolylinePath([])
    case Curve => QuadPath(0.0, 0.0, 0.0, 0.0, 0.0, 0.0)
  }

  /** The end a line is drawn to: its end point when it has one, otherwise the
      temporary end while both of its coordinates are set, otherwise its start. */
  function EndOf(start: Point, end: Option<Point>, tempX: Option<real>, tempY: Option<real>): (e: Point)
    ensures end.Some? ==> e == end.value
    ensures end.None? && tempX.Some? && tempY.Some? ==> e == Point(tempX.value, tempY.value)
    ensures !HasEnd(end, tempX, tempY) ==> e == start
  {
    if end.Some? then end.value
    else if tempX.Some? && tempY.Some? then Point(tempX.value, tempY.value)
    else start
  }

  /** The line has somewhere to go other than its start: this is also when the
      arrow head is placed. */
  predicate HasEnd(end: Option<Point>, tempX: Option<real>, tempY: Option<real>)
  {
    end.Some? || (tempX.Some? && tempY.Some?)
  }

  /** The elbow route: horizontal from the start to the mid x, vertical to the
      end's height, horizontal to the end. */
  function ElbowPoints(s: Point, e: Point): (ps: seq<Point>)
    ensures |ps| == 4 && ps[0] == s && ps[3] == e
    // first and last legs horizontal, the middle leg vertical
    ensures ps[0].y == ps[1].y && ps[1].x == ps[2].x && ps[2].y == ps[3].y
    // the vertical leg is half-way between the two ends
    ensures ps[1].x - s.x == e.x - ps[1].x
  {
    var mx := (s.x + e.x) / 2.0;
    [s, Point(mx, s.y), Point(mx, e.y), e]
  }

  /** The curve's control point: half-way across, 40 above the higher end. */
  function CurveControl(s: Point, e: Point): (c: Point)
    ensures c.x - s.x == e.x - c.x
    // 40 above the higher end (the smaller y), hence strictly above both
    ensures c.y + 40.0 <= s.y && c.y + 40.0 <= e.y
    ensures c.y + 40.0 == s.y || c.y + 40.0 == e.y
  {
    Point((s.x + e.x) / 2.0, Min(s.y, e.y) - 40.0)
  }

  function PathStart(p: Path): Point
  {
    match p
    case LinePath(sx, sy, _, _) => Point(sx, sy)
    case PolylinePath(ps) => if ps == [] then Point(0.0, 0.0) else ps[0]
    case QuadPath(sx, sy, _, _, _, _) => Point(sx, sy)
  }

  function PathEnd(p: Path): Point
  {
    match p
    case LinePath(_, _, ex, ey) => Point(ex, ey)
    case PolylinePath(ps) => if ps == [] then Point(0.0, 0.0) else ps[|ps| - 1]
    case QuadPath(_, _, _, _, ex, ey) => Point(ex, ey)
  }

  /** What `updatePosition` writes into a node of type `t` for the ends `s` and `e`. */
  function Route(t: LineType, s: Point, e: Point): (p: Path)
    ensures Matches(t, p)
    ensures PathStart(p) == s && PathEnd(p) == e
    ensures p.PolylinePath? ==> p.points == ElbowPoints(s, e)
    ensures p.QuadPath? ==> Point(p.controlX, p.controlY) == CurveControl(s, e)
  {
    match t
    case Straight => LinePath(s.x, s.y, e.x, e.y)
    case Polyline => PolylinePath(ElbowPoints(s, e))
    case Curve =>
      var c := CurveControl(s, e);
      QuadPath(s.x, s.y, c.x, c.y, e.x, e.y)
  }

  /** Routing from the other end walks the same elbow backwards. */
  lemma ElbowReversed(s: Point, e: Point)
    ensures ElbowPoints(e, s) == [ElbowPoints(s, e)[3], ElbowPoints(s, e)[2], ElbowPoints(s, e)[1], ElbowPoints(s, e)[0]]
  {
    assert (e.x + s.x) / 2.0 == (s.x + e.x) / 2.0;
  }

  /** The curve's control point does not depend on which end is the start. */
  lemma ControlSymmetric(s: Point, e: Point)
    ensures CurveControl(e, s) == CurveControl(s, e)
  {
    assert (e.x + s.x) / 2.0 == (s.x + e.x) / 2.0;
  }

  /** A line that has nowhere to go collapses onto its start: the straight line
      and the elbow have zero length, and the curve loops up to 40 above it. */
  lemma CollapsedRoute(t: LineType, s: Point)
    ensures PathStart(Route(t, s, s)) == PathEnd(Route(t, s, s)) == s
    ensures t == Polyline ==> Route(t, s, s).points == [s, s, s, s]
    ensures t == Curve ==> Route(t, s, s).controlX == s.x && Route(t, s, s).controlY == s.y - 40.0
  {
    if t == Polyline {
      var ps := ElbowPoints(s, s);
      assert ps[1] == s && ps[2] == s;
    }
  }

  /** Radius of the circle marking a connection point. */
  const PointRadius := 5.0

  /** A point at a fixed offset from its shape's origin, marked by a small
      circle that is hidden until shown. The circle's centre is where the point is. */
  class ConnectionPoint {
    const parentShape: Shape
    const relativeX: real
    const relativeY: real
    // the marker circle
    const radius: real
    const markerFill: Color
    const markerStroke: Color
    const markerStrokeWidth: real
    var centerX: real
    var centerY: real
    var markerVisible: bool
    /** `isVisible`, kept beside the marker's own visibility. */
    var visible: bool

    /** The point sits at its offset from the shape's current origin. */
    ghost predicate OnParent()
      reads this`centerX, this`centerY, parentShape`x, parentShape`y
    {
      centerX == parentShape.x + relativeX && centerY == parentShape.y + relativeY
    }

    constructor (parent: Shape, relX: real, relY: real)
      ensures parentShape == parent && relativeX == relX && relativeY == relY
      ensures radius == PointRadius && markerFill == White && markerStroke == Blue && markerStrokeWidth == 1.5
      ensures !visible && !markerVisible
      ensures OnParent()
    {
      parentShape, relativeX, relativeY := parent, relX, relY;
      radius, markerFill, markerStroke, markerStrokeWidth := PointRadius, White, Blue, 1.5;
      visible, markerVisible := false, false;
      centerX, centerY := parent.x + relX, parent.y + relY;
    }

    /** `updatePosition`: moves the marker back onto the shape after the shape
        moved; `getX`/`getY` then report the shape's origin plus the offset. */
    method UpdatePosition()
      modifies this`centerX, this`centerY
      ensures OnParent()
      ensures GetX() == parentShape.x + relativeX && GetY() == parentShape.y + relativeY
    {
      centerX, centerY := parentShape.x + relativeX, parentShape.y + relativeY;
    }

    function GetX(): real
      reads this`centerX
    {
      centerX
    }

    function GetY(): real
      reads this`centerY
    {
      centerY
    }

    function Position(): Point
      reads this`centerX, this`centerY
    {
      Point(centerX, centerY)
    }

    /** `show`: the point and its marker become visible. */
    method Show()
      modifies this`visible, this`markerVisible
      ensures IsVisible() && markerVisible
    {
      visible, markerVisible := true, true;
    }

    /** `hide`: the point and its marker become invisible. */
    method Hide()
      modifies this`visible, this`markerVisible
      ensures !IsVisible() && !markerVisible
    {
      visible, markerVisible := false, false;
    }

    predicate IsVisible()
      reads this`visible
    {
      visible
    }
  }

  /** The JavaFX node a line is drawn with: its numbers and its stroke. */
  class LineNode {
    var path: Path
    var stroke: Color
    var strokeWidth: real

    constructor (path: Path, stroke: Color, strokeWidth: real)
      ensures this.path == path && this.stroke == stroke && this.strokeWidth == strokeWidth
    {
      this.path, this.stroke, this.strokeWidth := path, stroke, strokeWidth;
    }
  }

  /** Length of the arrow head. */
  const ArrowSize := 10.0

  /** The arrow head: a triangle with its tip at the origin pointing along +x,
      moved to the line's end. */
  class ArrowNode {
    const vertices: seq<Point>
    var fill: Color
    var stroke: Color
    var strokeWidth: real
    var visible: bool
    var translateX: real
    var translateY: real

    constructor (c: Color)
      ensures vertices == [Point(0.0, 0.0), Point(-ArrowSize, -ArrowSize / 2.0), Point(-ArrowSize, ArrowSize / 2.0)]
      ensures fill == c && stroke == c && strokeWidth == 1.0
      ensures visible && translateX == 0.0 && translateY == 0.0
    {
      vertices := [Point(0.0, 0.0), Point(-ArrowSize, -ArrowSize / 2.0), Point(-ArrowSize, ArrowSize / 2.0)];
      fill, stroke, strokeWidth := c, c, 1.0;
      visible, translateX, translateY := true, 0.0, 0.0;
    }
  }

  /** A line from a start point to an end point, or to a temporary end while it
      is being drawn, with an optional arrow head at the end. */
  class ConnectionLine {
    var line: LineNode
    const arrow: ArrowNode
    var startPoint: ConnectionPoint?
    var endPoint: ConnectionPoint?
    var tempEndX: Option<real>
    var tempEndY: Option<real>
    var lineType: LineType
    var color: Color
    var strokeWidth: real
    var arrowEnabled: bool
    var selected: bool

    /** The node always has the class of the current line type. */
    ghost predicate Valid()
      reads this`line, this`lineType, line`path
    {
      Matches(lineType, line.path)
    }

    /** The line and arrow show the colour and width, or the selection highlight. */
    ghost predicate Styled()
      reads this`line, this`selected, this`color, this`strokeWidth, line`stroke, line`strokeWidth, arrow`fill, arrow`stroke
    {
      && line.stroke == (if selected then DodgerBlue else color)
      && line.strokeWidth == (if selected then strokeWidth + 2.0 else strokeWidth)
      && arrow.fill == line.stroke && arrow.stroke == line.stroke
    }

    function EndOption(): Option<Point>
      reads this`endPoint, endPoint
    {
      if endPoint == null then None else Some(endPoint.Position())
    }

    /** Where the line is drawn to, once it has a start. */
    function EndPosition(): Point
      requires startPoint != null
      reads this`startPoint, this`endPoint, this`tempEndX, this`tempEndY, startPoint, endPoint
    {
      EndOf(startPoint.Position(), EndOption(), tempEndX, tempEndY)
    }

    /** What `updatePosition` draws: nothing without a start point. */
    function Routed(): Option<Path>
      reads this`startPoint, this`endPoint, this`tempEndX, this`tempEndY, this`lineType, startPoint, endPoint
    {
      if startPoint == null then None
      else Some(Route(lineType, startPoint.Position(), EndPosition()))
    }

    /** Where `updatePosition` moves the arrow head: to the drawn end when the
        line has an end and the arrow is enabled. */
    function ArrowTip(): Option<Point>
      reads this`startPoint, this`endPoint, this`tempEndX, this`tempEndY, this`arrowEnabled, startPoint, endPoint
    {
      if startPoint != null && HasEnd(EndOption(), tempEndX, tempEndY) && arrowEnabled
      then Some(EndPosition())
      else None
    }

    /** The node shows `Routed()` (or still `p0` when nothing is routed) and the
        arrow sits at `ArrowTip()` (or still at `(ax0, ay0)`). */
    ghost predicate Drawn(p0: Path, ax0: real, ay0: real)
      reads this, line`path, arrow`translateX, arrow`translateY, startPoint, endPoint
    {
      && line.path == (if Routed().Some? then Routed().value else p0)
      && (if ArrowTip().Some? then arrow.translateX == ArrowTip().value.x && arrow.translateY == ArrowTip().value.y
          else arrow.translateX == ax0 && arrow.translateY == ay0)
    }

    constructor ()
      ensures Valid() && Styled()
      ensures startPoint == null && endPoint == null && tempEndX.None? && tempEndY.None?
      ensures lineType == Straight && color == Black && strokeWidth == 2.0 && arrowEnabled && !selected
      ensures fresh(line) && line.path == EmptyPath(Straight)
      ensures fresh(arrow) && arrow.strokeWidth == 1.0 && arrow.visible
      ensures arrow.translateX == 0.0 && arrow.translateY == 0.0
    {
      lineType, color, strokeWidth, arrowEnabled, selected := Straight, Black, 2.0, true, false;
      startPoint, endPoint, tempEndX, tempEndY := null, null, None, None;
      line := new LineNode(EmptyPath(Straight), Black, 2.0);
      arrow := new ArrowNode(Black);
    }

    /** `updatePosition`: redraws the node from the ends and moves the arrow head.
        Because the node always has the class of the line type, the routing
        branch for the line type is always the one taken. */
    method UpdatePosition()
      requires Valid()
      modifies line`path, arrow`translateX, arrow`translateY
      ensures Valid()
      ensures Drawn(old(line.path), old(arrow.translateX), old(arrow.translateY))
    {
      if startPoint == null {
        return;
      }
      var s := startPoint.Position();
      var e := EndOf(s, EndOption(), tempEndX, tempEndY);
      line.path := Route(lineType, s, e);
      if HasEnd(EndOption(), tempEndX, tempEndY) && arrowEnabled {
        arrow.translateX, arrow.translateY := e.x, e.y;
      }
    }

    /** `setLineType`: a no-op for the current type; otherwise a fresh node of
        the new type, stroked with the colour and width or the selection
        highlight, and drawn. */
    method SetLineType(t: LineType)
      requires Valid()
      modifies this`lineType, this`line, arrow`translateX, arrow`translateY
      ensures Valid() && lineType == t
      ensures old(lineType) == t ==> line == old(line) && unchanged(line) && unchanged(arrow)
      ensures old(lineType) != t ==> fresh(line)
      ensures old(lineType) != t ==> Drawn(EmptyPath(t), old(arrow.translateX), old(arrow.translateY))
      ensures old(lineType) != t ==> line.stroke == (if selected then DodgerBlue else color)
      ensures old(lineType) != t ==> line.strokeWidth == (if selected then strokeWidth + 2.0 else strokeWidth)
      ensures old(Styled()) ==> Styled()
    {
      if lineType == t {
        return;
      }
      lineType := t;
      line := new LineNode(EmptyPath(t), color, strokeWidth);
      if selected {
        line.stroke, line.strokeWidth := DodgerBlue, strokeWidth + 2.0;
      }
      UpdatePosition();
    }

    method SetStartPoint(p: ConnectionPoint?)
      requires Valid()
      modifies this`startPoint, line`path, arrow`translateX, arrow`translateY
      ensures Valid() && startPoint == p
      ensures Drawn(old(line.path), old(arrow.translateX), old(arrow.translateY))
    {
      startPoint := p;
      UpdatePosition();
    }

    /** `setEndPoint`: the end point replaces any temporary end. */
    method SetEndPoint(p: ConnectionPoint?)
      requires Valid()
      modifies this`endPoint, this`tempEndX, this`tempEndY, line`path, arrow`translateX, arrow`translateY
      ensures Valid() && endPoint == p && tempEndX.None? && tempEndY.None?
      ensures Drawn(old(line.path), old(arrow.translateX), old(arrow.translateY))
      ensures startPoint != null && p != null ==> PathEnd(line.path) == p.Position()
      ensures startPoint != null && p == null ==> PathEnd(line.path) == startPoint.Position()
    {
      endPoint, tempEndX, tempEndY := p, None, None;
      UpdatePosition();
    }

    /** `setTempEnd`: the line follows the pointer until it gets an end point. */
    method SetTempEnd(x: real, y: real)
      requires Valid()
      modifies this`tempEndX, this`tempEndY, line`path, arrow`translateX, arrow`translateY
      ensures Valid() && tempEndX == Some(x) && tempEndY == Some(y)
      ensures Drawn(old(line.path), old(arrow.translateX), old(arrow.translateY))
      ensures startPoint != null && endPoint == null ==> PathEnd(line.path) == Point(x, y)
      ensures startPoint != null && endPoint != null ==> PathEnd(line.path) == endPoint.Position()
    {
      tempEndX, tempEndY := Some(x), Some(y);
      UpdatePosition();
    }

    /** `setColor`: the node and the arrow take the colour, even while the line
        is selected, which drops the selection highlight of the stroke. */
    method SetColor(c: Color)
      modifies this`color, line`stroke, arrow`fill, arrow`stroke
      ensures color == c && line.stroke == c && arrow.fill == c && arrow.stroke == c
      ensures !selected && old(Styled()) ==> Styled()
    {
      color := c;
      line.stroke := c;
      arrow.fill, arrow.stroke := c, c;
    }

    /** `setStrokeWidth`: the node and the arrow outline take the width, even
        while the line is selected. */
    method SetStrokeWidth(w: real)
      modifies this`strokeWidth, line`strokeWidth, arrow`strokeWidth
      ensures strokeWidth == w && line.strokeWidth == w && arrow.strokeWidth == w
      ensures !selected && old(Styled()) ==> Styled()
    {
      strokeWidth := w;
      line.strokeWidth := w;
      arrow.strokeWidth := w;
    }

    /** `setArrowEnabled`: shows or hides the arrow head. */
    method SetArrowEnabled(b: bool)
      modifies this`arrowEnabled, arrow`visible
      ensures arrowEnabled == b && arrow.visible == b
    {
      arrowEnabled := b;
      arrow.visible := b;
    }

    /** `setSelected`: applies or removes the highlight, which restores the
        styling from the line's colour and width whatever came before. */
    method SetSelected(b: bool)
      modifies this`selected, line`stroke, line`strokeWidth, arrow`fill, arrow`stroke
      ensures selected == b && Styled()
      ensures b ==> line.stroke == DodgerBlue && line.strokeWidth == strokeWidth + 2.0
      ensures !b ==> line.stroke == color && line.strokeWidth == strokeWidth
    {
      selected := b;
      if b {
        line.strokeWidth, line.stroke := strokeWidth + 2.0, DodgerBlue;
        arrow.stroke, arrow.fill := DodgerBlue, DodgerBlue;
      } else {
        line.strokeWidth, line.stroke := strokeWidth, color;
        arrow.stroke, arrow.fill := color, color;
      }
    }
  }
}
