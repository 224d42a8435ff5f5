/** The outline parameters each shape kind derives from its bounding box
    `(x, y, width, height)`: what the shape classes write into their JavaFX nodes. */
module Geometry {

  datatype Point = Point(x: real, y: real)

  /** The six shape classes. */
  datatype Kind = Rectangle | Ellipse | Diamond | Parallelogram | Circle | Hexagon

  /** The numbers a shape writes into its drawing node. Polygons keep their
      vertices in drawing order. */
  datatype Outline =
    | RectOutline(left: real, top: real, width: real, height: real)
    | EllipseOutline(centerX: real, centerY: real, radiusX: real, radiusY: real)
    | CircleOutline(centerX: real, centerY: real, radius: real)
    | PolygonOutline(vertices: seq<Point>)
    | HexagonOutline(centerX: real, centerY: real, radius: real)

  /** `Math.min`. */
  function Min(a: real, b: real): (m: real)
    ensures m <= a && m <= b
    ensures m == a || m == b
  {
    if a <= b then a else b
  }

  predicate InBox(p: Point, x: real, y: real, w: real, h: real)
  {
    x <= p.x <= x + w && y <= p.y <= y + h
  }

  /** Diamond vertices: top, right, bottom, left. */
  function DiamondVertices(x: real, y: real, w: real, h: real): (v: seq<Point>)
    ensures |v| == 4
    // each vertex sits on one side of the bounding box
    ensures v[0].y == y && v[1].x == x + w && v[2].y == y + h && v[3].x == x
    // top and bottom share the centre x, left and right share the centre y
    ensures v[0].x == v[2].x && v[0].x - x == x + w - v[0].x
    ensures v[1].y == v[3].y && v[1].y - y == y + h - v[1].y
    ensures w >= 0.0 && h >= 0.0 ==> forall i :: 0 <= i < 4 ==> InBox(v[i], x, y, w, h)
  {
    var cx := x + w / 2.0;
    var cy := y + h / 2.0;
    [Point(cx, y), Point(x + w, cy), Point(cx, y + h), Point(x, cy)]
  }

  /** Parallelogram vertices: top-left, top-right, bottom-right, bottom-left;
      the top edge is shifted left by a quarter of the width. */
  function ParallelogramVertices(x: real, y: real, w: real, h: real): (v: seq<Point>)
    ensures |v| == 4
    ensures v[0] == Point(x, y) && v[2] == Point(x + w, y + h)
    // top and bottom edges are horizontal and both 3/4 of the width long
    ensures v[0].y == v[1].y && v[2].y == v[3].y
    ensures v[1].x - v[0].x == 0.75 * w && v[2].x - v[3].x == 0.75 * w
    // opposite sides are parallel and of equal length
    ensures v[1].x - v[0].x == v[2].x - v[3].x && v[1].y - v[0].y == v[2].y - v[3].y
    ensures v[3].x - v[0].x == v[2].x - v[1].x && v[3].y - v[0].y == v[2].y - v[1].y
    ensures w >= 0.0 && h >= 0.0 ==> forall i :: 0 <= i < 4 ==> InBox(v[i], x, y, w, h)
  {
    [Point(x, y), Point(x + w * 0.75, y), Point(x + w, y + h), Point(x + w * 0.25, y + h)]
  }

  /** Ellipse inscribed in the bounding box. */
  function EllipseParams(x: real, y: real, w: real, h: real): (e: Outline)
    ensures e.EllipseOutline?
    // the extent centre +- radius is exactly the bounding box
    ensures e.centerX - e.radiusX == x && e.centerX + e.radiusX == x + w
    ensures e.centerY - e.radiusY == y && e.centerY + e.radiusY == y + h
  {
    EllipseOutline(x + w / 2.0, y + h / 2.0, w / 2.0, h / 2.0)
  }

  /** Circle of diameter min(width, height) in the top-left corner of the box. */
  function CircleParams(x: real, y: real, w: real, h: real): (c: Outline)
    ensures c.CircleOutline?
    // the diameter is the smaller side
    ensures 2.0 * c.radius <= w && 2.0 * c.radius <= h
    ensures 2.0 * c.radius == w || 2.0 * c.radius == h
    // it touches the left and top sides of the box
    ensures c.centerX - c.radius == x && c.centerY - c.radius == y
    ensures w >= 0.0 && h >= 0.0 ==>
      c.radius >= 0.0 && c.centerX + c.radius <= x + w && c.centerY + c.radius <= y + h
  {
    var r := Min(w, h) / 2.0;
    CircleOutline(x + r, y + r, r)
  }

  /** Centre and radius of the hexagon's circumscribed circle (its six vertices
      lie on it at multiples of 60 degrees). */
  function HexagonParams(x: real, y: real, w: real, h: real): (c: Outline)
    ensures c.HexagonOutline?
    ensures c.centerX - x == x + w - c.centerX && c.centerY - y == y + h - c.centerY
    // the circumscribed circle's diameter is the smaller side
    ensures 2.0 * c.radius <= w && 2.0 * c.radius <= h
    ensures 2.0 * c.radius == w || 2.0 * c.radius == h
    ensures w >= 0.0 && h >= 0.0 ==>
      c.radius >= 0.0 && x <= c.centerX - c.radius && c.centerX + c.radius <= x + w
      && y <= c.centerY - c.radius && c.centerY + c.radius <= y + h
  {
    HexagonOutline(x + w / 2.0, y + h / 2.0, Min(w, h) / 2.0)
  }

  /** The outline a shape of kind `k` draws for its current fields. */
  function OutlineOf(k: Kind, x: real, y: real, w: real, h: real): (o: Outline)
    ensures k == Rectangle <==> o.RectOutline?
    ensures k == Ellipse <==> o.EllipseOutline?
    ensures k == Circle <==> o.CircleOutline?
    ensures k == Hexagon <==> o.HexagonOutline?
    ensures k == Diamond || k == Parallelogram <==> o.PolygonOutline?
    ensures w >= 0.0 && h >= 0.0 ==> WithinBox(o, x, y, w, h)
  {
    match k
    case Rectangle => RectOutline(x, y, w, h)
    case Ellipse => EllipseParams(x, y, w, h)
    case Diamond => PolygonOutline(DiamondVertices(x, y, w, h))
    case Parallelogram => PolygonOutline(ParallelogramVertices(x, y, w, h))
    case Circle => CircleParams(x, y, w, h)
    case Hexagon => HexagonParams(x, y, w, h)
  }

  /** Everything the outline covers lies in the box `[x, x+w] x [y, y+h]`. */
  predicate WithinBox(o: Outline, x: real, y: real, w: real, h: real)
  {
    match o
    case RectOutline(l, t, rw, rh) => x <= l && l + rw <= x + w && y <= t && t + rh <= y + h
    case EllipseOutline(cx, cy, rx, ry) =>
      x <= cx - rx && cx + rx <= x + w && y <= cy - ry && cy + ry <= y + h
    case CircleOutline(cx, cy, r) =>
      x <= cx - r && cx + r <= x + w && y <= cy - r && cy + r <= y + h
    case PolygonOutline(vs) => forall i :: 0 <= i < |vs| ==> InBox(vs[i], x, y, w, h)
    case HexagonOutline(cx, cy, r) =>
      x <= cx - r && cx + r <= x + w && y <= cy - r && cy + r <= y + h
  }

  function Translate(o: Outline, dx: real, dy: real): Outline
  {
    match o
    case RectOutline(l, t, w, h) => RectOutline(l + dx, t + dy, w, h)
    case EllipseOutline(cx, cy, rx, ry) => EllipseOutline(cx + dx, cy + dy, rx, ry)
    case CircleOutline(cx, cy, r) => CircleOutline(cx + dx, cy + dy, r)
    case PolygonOutline(vs) => PolygonOutline(seq(|vs|, i requires 0 <= i < |vs| => Point(vs[i].x + dx, vs[i].y + dy)))
    case HexagonOutline(cx, cy, r) => HexagonOutline(cx + dx, cy + dy, r)
  }

  /** Moving a shape moves its outline by the same amount and does not change its size. */
  lemma OutlineTranslates(k: Kind, x: real, y: real, w: real, h: real, dx: real, dy: real)
    ensures OutlineOf(k, x + dx, y + dy, w, h) == Translate(OutlineOf(k, x, y, w, h), dx, dy)
  {
    match k
    case Diamond =>
      var moved := Translate(OutlineOf(k, x, y, w, h), dx, dy).vertices;
      assert moved == DiamondVertices(x + dx, y + dy, w, h);
    case Parallelogram =>
      var moved := Translate(OutlineOf(k, x, y, w, h), dx, dy).vertices;
      assert moved == ParallelogramVertices(x + dx, y + dy, w, h);
    case _ =>
  }
}
