/** The computations the canvas's mouse handlers, copy and paste rely on:
    grid snapping, hit order, the rubber-band rectangle and what it encloses,
    the tool that click-to-create understands and what a clone keeps. */
module Interaction {
  import opened Lists
  import opened Geometry
  import opened Shapes

  /** `GRID_SIZE`. */
  const GridSize: int := 20

  /** `Math.abs`. */
  function Abs(a: real): (r: real)
    ensures r >= 0.0 && (r == a || r == -a)
  {
    if a < 0.0 then -a else a
  }

  /** A whole multiple of the grid size. */
  predicate OnGrid(r: real)
  {
    (r / GridSize as real).Floor as real == r / GridSize as real
  }

  /** `snapToGrid`: `Math.round(v / GRID_SIZE) * GRID_SIZE`, where `Math.round`
      rounds halves up (floor of `v + 1/2`). The result is the grid line nearest
      to `v`, a value exactly half-way going to the larger one. */
  function Snap(v: real): (r: real)
    ensures OnGrid(r)
    ensures r - 10.0 <= v < r + 10.0
  {
    var k := (v / GridSize as real + 0.5).Floor;
    assert (k * GridSize) as real / GridSize as real == k as real;
    (k * GridSize) as real
  }

  /** The two properties of `Snap` determine it: a grid line within
      `(v - 10, v + 10]` is the snapped value. */
  lemma SnapUnique(v: real, r: real)
    requires OnGrid(r) && r - 10.0 <= v < r + 10.0
    ensures r == Snap(v)
  {
    var s := Snap(v);
    var m, k := (r / 20.0).Floor, (s / 20.0).Floor;
    assert r == m as real * 20.0;
    assert s == k as real * 20.0;
    assert -20.0 < (m - k) as real * 20.0 < 20.0;
    assert m == k;
  }

  /** A value already on the grid is left where it is. */
  lemma SnapKeepsGridValues(v: real)
    requires OnGrid(v)
    ensures Snap(v) == v
  {
    SnapUnique(v, v);
  }

  /** The index of the first shape, in list order, that the hit test accepts. */
  function FirstHit(ss: seq<Shape>, contains: Shape -> bool): (r: Option<nat>)
    ensures r.Some? ==> r.value < |ss| && contains(ss[r.value])
    ensures r.Some? ==> forall j :: 0 <= j < r.value ==> !contains(ss[j])
    ensures r.None? ==> forall j :: 0 <= j < |ss| ==> !contains(ss[j])
    decreases |ss|
  {
    if ss == [] then None
    else if contains(ss[0]) then Some(0)
    else
      match FirstHit(ss[1..], contains)
      case None => None
      case Some(k) => Some(k + 1)
  }

  datatype Rect = Rect(x: real, y: real, width: real, height: real)

  /** A rubber band starts only once the pointer is more than 5 away from the
      press point on both axes. */
  predicate StartsRubberBand(startX: real, startY: real, x: real, y: real)
  {
    Abs(x - startX) > 5.0 && Abs(y - startY) > 5.0
  }

  /** The rubber band spanned by the press point and the pointer: its min
      corner and absolute width and height. */
  function RubberBand(startX: real, startY: real, x: real, y: real): (r: Rect)
    ensures r.width >= 0.0 && r.height >= 0.0
    // the two points are opposite corners of the rectangle
    ensures (r.x == startX && r.x + r.width == x) || (r.x == x && r.x + r.width == startX)
    ensures (r.y == startY && r.y + r.height == y) || (r.y == y && r.y + r.height == startY)
  {
    Rect(Min(startX, x), Min(startY, y), Abs(x - startX), Abs(y - startY))
  }

  /** The shape's bounding box lies inside the rectangle. */
  predicate Inside(s: Shape, r: Rect)
    reads s`x, s`y, s`width, s`height
  {
    s.x >= r.x && s.y >= r.y && s.x + s.width <= r.x + r.width && s.y + s.height <= r.y + r.height
  }

  /** The shapes of `ss` inside `r`, in list order. */
  function Enclosed(ss: seq<Shape>, r: Rect): (sel: seq<Shape>)
    reads ss`x, ss`y, ss`width, ss`height
    ensures |sel| <= |ss|
    decreases |ss|
  {
    if ss == [] then []
    else if Inside(ss[0], r) then [ss[0]] + Enclosed(ss[1..], r)
    else Enclosed(ss[1..], r)
  }

  /** The filtered list holds exactly the shapes of `ss` inside `r`. */
  lemma {:induction false} EnclosedMembers(ss: seq<Shape>, r: Rect)
    ensures forall i :: 0 <= i < |Enclosed(ss, r)| ==>
      Enclosed(ss, r)[i] in ss && Inside(Enclosed(ss, r)[i], r)
    ensures forall i :: 0 <= i < |ss| && Inside(ss[i], r) ==> ss[i] in Enclosed(ss, r)
    decreases |ss|
  {
    if ss != [] {
      EnclosedMembers(ss[1..], r);
      assert forall i :: 1 <= i < |ss| ==> ss[i] == ss[1..][i - 1];
    }
  }

  /** Filtering a list without duplicates gives a list without duplicates. */
  lemma {:induction false} EnclosedDistinct(ss: seq<Shape>, r: Rect)
    requires NoDup(ss)
    ensures NoDup(Enclosed(ss, r))
    decreases |ss|
  {
    if ss != [] {
      assert NoDup(ss[1..]) by {
        forall i, j | 0 <= i < j < |ss| - 1 ensures ss[1..][i] != ss[1..][j] {
          assert ss[i + 1] != ss[j + 1];
        }
      }
      EnclosedDistinct(ss[1..], r);
      EnclosedMembers(ss[1..], r);
      assert ss[0] !in Enclosed(ss[1..], r) by {
        forall j | 0 <= j < |ss| - 1 ensures ss[1..][j] != ss[0] {
          assert ss[0] != ss[j + 1];
        }
      }
    }
  }

  /** Filtering a list extended by one shape extends the filtered list by that
      shape exactly when it is inside. */
  lemma {:induction false} EnclosedAppend(ss: seq<Shape>, s: Shape, r: Rect)
    ensures Enclosed(ss + [s], r) == Enclosed(ss, r) + (if Inside(s, r) then [s] else [])
    decreases |ss|
  {
    if ss != [] {
      assert (ss + [s])[1..] == ss[1..] + [s];
      EnclosedAppend(ss[1..], s, r);
    }
  }

  /** The tools for which a click creates a shape, and the kind created. */
  function ToolKind(tool: string): (k: Option<Kind>)
    ensures k == Some(Rectangle) <==> tool == "矩形"
    ensures k == Some(Ellipse) <==> tool == "椭圆"
    ensures k == Some(Diamond) <==> tool == "菱形"
    ensures k.Some? ==> k.value in {Rectangle, Ellipse, Diamond}
  {
    if tool == "矩形" then Some(Rectangle)
    else if tool == "椭圆" then Some(Ellipse)
    else if tool == "菱形" then Some(Diamond)
    else None
  }

  /** The tool that only selects. */
  const SelectTool := "选择"

  /** A release counts as a click when it is under 5 from the press point on both axes. */
  predicate IsClick(pressX: real, pressY: real, x: real, y: real)
  {
    Abs(x - pressX) < 5.0 && Abs(y - pressY) < 5.0
  }

  /** The kinds `cloneShape` knows how to copy. */
  predicate Cloneable(k: Kind)
  {
    k == Rectangle || k == Ellipse || k == Diamond
  }

  /** What `cloneShape` makes of a shape it can copy: the same kind, geometry,
      label and colour, not selected. */
  function CloneData(d: ShapeData): (c: ShapeData)
    ensures c.kind == d.kind && c.x == d.x && c.y == d.y
    ensures c.width == d.width && c.height == d.height
    ensures c.labelText == d.labelText && c.color == d.color && !c.selected
  {
    d.(selected := false)
  }

  /** What `paste` adds for one clipboard entry: its clone moved by (+20, +20). */
  function PastedData(d: ShapeData): (p: ShapeData)
    ensures p.kind == d.kind && p.x == d.x + 20.0 && p.y == d.y + 20.0
    ensures p.width == d.width && p.height == d.height
    ensures p.labelText == d.labelText && p.color == d.color && !p.selected
  {
    CloneData(d).(x := d.x + 20.0, y := d.y + 20.0)
  }

  /** How many clipboard entries, from the front, `cloneShape` can copy: `paste`
      stops at the first entry it cannot. */
  function LeadingCloneable(clip: seq<Shape?>): (n: nat)
    ensures n <= |clip|
    ensures forall i :: 0 <= i < n ==> clip[i] != null && Cloneable(clip[i].kind)
    ensures n < |clip| ==> clip[n] == null || !Cloneable(clip[n].kind)
    decreases |clip|
  {
    if clip == [] || clip[0] == null || !Cloneable(clip[0].kind) then 0
    else 1 + LeadingCloneable(clip[1..])
  }
}
