/** `FlowchartShape` and its subclasses: a positioned, labelled, coloured node
    whose fields are updated in place, and the persistent drawing node that
    `getShape` refreshes from those fields. */
module Shapes {
  import opened Geometry

  /** The colours the code names, and any other colour by its textual form. */
  datatype Color = LightBlue | Black | Red | DodgerBlue | White | Blue | Web(spec: string)

  /** The persistent JavaFX node of one shape (`Rectangle`, `Ellipse`, `Circle`
      or `Polygon`): the numbers last written into it, its fill and its stroke. */
  class FxNode {
    var outline: Outline
    var fill: Color
    var stroke: Color

    constructor (outline: Outline, fill: Color)
      ensures this.outline == outline && this.fill == fill && stroke == Black
    {
      this.outline := outline;
      this.fill := fill;
      stroke := Black;
    }
  }

  /** The value of a shape's fields. */
  datatype ShapeData = ShapeData(kind: Kind, x: real, y: real, width: real, height: real,
                                 labelText: string, color: Color, selected: bool)

  class Shape {
    const kind: Kind
    const node: FxNode
    var x: real
    var y: real
    var width: real
    var height: real
    var color: Color
    var labelText: string
    var selected: bool

    function Data(): ShapeData
      reads this
    {
      ShapeData(kind, x, y, width, height, labelText, color, selected)
    }

    /** The constructor of every shape class: fields stored verbatim, colour
        LIGHTBLUE, not selected, and a fresh node drawn from those fields. */
    constructor (kind: Kind, x: real, y: real, width: real, height: real, labelText: string)
      ensures Data() == ShapeData(kind, x, y, width, height, labelText, LightBlue, false)
      ensures fresh(node)
      ensures node.outline == OutlineOf(kind, x, y, width, height)
      ensures node.fill == LightBlue && node.stroke == Black
    {
      this.kind := kind;
      this.x, this.y, this.width, this.height := x, y, width, height;
      this.labelText := labelText;
      color := LightBlue;
      selected := false;
      node := new FxNode(OutlineOf(kind, x, y, width, height), LightBlue);
    }

    /** `clone()`: a field-by-field copy. Like `Object.clone` it is shallow, so
        the copy shares the original's drawing node. */
    constructor Copy(src: Shape)
      ensures Data() == src.Data()
      ensures node == src.node
    {
      kind, node := src.kind, src.node;
      x, y, width, height := src.x, src.y, src.width, src.height;
      color, labelText, selected := src.color, src.labelText, src.selected;
    }

    /** `getShape`: refreshes the persistent node from the current fields and
        returns that same node. */
    method GetShape() returns (n: FxNode)
      modifies node
      ensures n == node
      ensures node.outline == OutlineOf(kind, x, y, width, height)
      ensures node.fill == color
      ensures node.stroke == if selected then Red else Black
    {
      node.outline := OutlineOf(kind, x, y, width, height);
      node.fill := color;
      node.stroke := if selected then Red else Black;
      n := node;
    }

    method SetX(v: real)
      modifies this`x
      ensures x == v
    {
      x := v;
    }

    method SetY(v: real)
      modifies this`y
      ensures y == v
    {
      y := v;
    }

    method SetWidth(v: real)
      modifies this`width
      ensures width == v
    {
      width := v;
    }

    method SetHeight(v: real)
      modifies this`height
      ensures height == v
    {
      height := v;
    }

    method SetColor(c: Color)
      modifies this`color
      ensures color == c
    {
      color := c;
    }

    method SetLabel(s: string)
      modifies this`labelText
      ensures labelText == s
    {
      labelText := s;
    }

    method SetSelected(b: bool)
      modifies this`selected
      ensures selected == b
    {
      selected := b;
    }
  }
}
