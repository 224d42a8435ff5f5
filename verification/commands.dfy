/** `AddShapeCommand` and the shape list it shares with the canvas. */
module Commands {
  import opened Lists
  import opened Shapes

  /** The canvas's `List<FlowchartShape> shapes`: one list object, aliased by
      the canvas and by every command created on it. */
  class ShapeList {
    var elems: seq<Shape>

    constructor ()
      ensures elems == []
    {
      elems := [];
    }
  }

  /** Adds one shape to the shared list; undoing removes it again. */
  class AddShapeCommand {
    const shapes: ShapeList
    const shape: Shape

    constructor (shapes: ShapeList, shape: Shape)
      ensures this.shapes == shapes && this.shape == shape
    {
      this.shapes := shapes;
      this.shape := shape;
    }

    /** `execute`: appends the shape; the elements already present stay as they were. */
    method Execute()
      modifies shapes
      ensures shapes.elems == old(shapes.elems) + [shape]
    {
      shapes.elems := shapes.elems + [shape];
    }

    /** `undo`: removes the first occurrence of the shape, if it is there. */
    method Undo()
      modifies shapes
      ensures shapes.elems == RemoveFirst(old(shapes.elems), shape)
    {
      shapes.elems := RemoveFirst(shapes.elems, shape);
    }
  }

  /** The shape each command adds, in stack order. */
  function Targets(cs: seq<AddShapeCommand>): (ts: seq<Shape>)
    ensures |ts| == |cs|
    ensures forall i :: 0 <= i < |cs| ==> ts[i] == cs[i].shape
  {
    seq(|cs|, i requires 0 <= i < |cs| => cs[i].shape)
  }
}
