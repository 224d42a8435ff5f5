/** `CanvasPane`: the document's shape list, the selection, the clipboard, the
    undo/redo stacks and the press/drag/release state machine. */
module Canvas {
  import opened Lists
  import opened Geometry
  import opened Shapes
  import opened Commands
  import opened UndoHistory
  import opened Interaction

  class CanvasPane {
    const shapes: ShapeList
    var selectedShapes: seq<Shape>
    var clipboard: seq<Shape?>
    var currentTool: string
    var selectStartX: real
    var selectStartY: real
    /** The rubber-band rectangle `selectionRect`: its bounds and visibility. */
    var band: Rect
    var bandVisible: bool
    var isSelecting: bool
    var mousePressedX: real
    var mousePressedY: real
    var undoStack: seq<AddShapeCommand>
    var redoStack: seq<AddShapeCommand>
    /** Position of each selected shape when the drag began, parallel to `selectedShapes`. */
    var dragStartX: seq<real>
    var dragStartY: seq<real>
    var dragOriginMouseX: real
    var dragOriginMouseY: real
    var isDraggingShapes: bool

    /** The shape list with the two stacks. */
    function Record(): History
      reads this`undoStack, this`redoStack, shapes
    {
      History(shapes.elems, undoStack, redoStack)
    }

    /** Every command on either stack acts on this canvas's own list, the stacks
        keep their discipline, the selection has no duplicates, and while shapes
        are dragged the start positions run parallel to the selection. */
    ghost predicate Valid()
      reads this`undoStack, this`redoStack, shapes, this`selectedShapes,
            this`isDraggingShapes, this`dragStartX, this`dragStartY
    {
      && Sound()
      && (isDraggingShapes ==> |dragStartX| == |selectedShapes| && |dragStartY| == |selectedShapes|)
    }

    /** `Valid` without the drag bookkeeping, which a release restores by ending the drag. */
    ghost predicate Sound()
      reads this`undoStack, this`redoStack, shapes, this`selectedShapes
    {
      StacksSound() && NoDup(selectedShapes)
    }

    /** The stacks keep their discipline and every command on them acts on
        this canvas's own list. */
    ghost predicate StacksSound()
      reads this`undoStack, this`redoStack, shapes
    {
      && Coherent(Record())
      && (forall i :: 0 <= i < |undoStack| ==> undoStack[i].shapes == shapes)
      && (forall i :: 0 <= i < |redoStack| ==> redoStack[i].shapes == shapes)
    }

    /** The start positions are the positions of the selected shapes, in order. */
    ghost predicate Anchored()
      reads this, selectedShapes
    {
      && |dragStartX| == |selectedShapes| && |dragStartY| == |selectedShapes|
      && forall i :: 0 <= i < |selectedShapes| ==>
           dragStartX[i] == selectedShapes[i].x && dragStartY[i] == selectedShapes[i].y
    }

    /** A release here would create a shape: nothing is selected, the tool is
        a shape tool and the pointer has stayed within a click's distance. */
    predicate CreatesOnClick(x: real, y: real)
      reads this
    {
      && selectedShapes == []
      && currentTool != SelectTool
      && IsClick(mousePressedX, mousePressedY, x, y)
      && ToolKind(currentTool).Some?
    }

    constructor ()
      ensures Valid() && fresh(shapes)
      ensures Record() == History([], [], [])
      ensures selectedShapes == [] && clipboard == [] && currentTool == "矩形"
      ensures !isSelecting && !isDraggingShapes && !bandVisible
    {
      shapes := new ShapeList();
      selectedShapes, clipboard := [], [];
      currentTool := "矩形";
      selectStartX, selectStartY := 0.0, 0.0;
      band, bandVisible := Rect(0.0, 0.0, 0.0, 0.0), false;
      isSelecting := false;
      mousePressedX, mousePressedY := 0.0, 0.0;
      undoStack, redoStack := [], [];
      dragStartX, dragStartY := [], [];
      dragOriginMouseX, dragOriginMouseY := 0.0, 0.0;
      isDraggingShapes := false;
      EmptyCoherent();
    }

    method SetCurrentTool(tool: string)
      modifies this`currentTool
      ensures currentTool == tool
    {
      currentTool := tool;
    }

    /** `executeCommand`: runs the command, pushes it on the undo stack and
        empties the redo stack. Every caller passes a command on this canvas's
        list whose shape was just built. */
    method ExecuteCommand(cmd: AddShapeCommand)
      requires Sound()
      requires cmd.shapes == shapes && cmd.shape !in shapes.elems
      modifies this`undoStack, this`redoStack, shapes
      ensures Sound()
      ensures Record() == Executed(old(Record()), cmd)
    {
      cmd.Execute();
      undoStack := undoStack + [cmd];
      redoStack := [];
      ExecutedCoherent(old(Record()), cmd);
    }

    /** `undo`: with an empty undo stack nothing changes; otherwise the top
        command is undone and moved to the redo stack. */
    method Undo()
      requires Valid()
      modifies this`undoStack, this`redoStack, shapes
      ensures Valid()
      ensures Record() == Undone(old(Record()))
    {
      if undoStack != [] {
        var cmd := undoStack[|undoStack| - 1];
        undoStack := undoStack[..|undoStack| - 1];
        cmd.Undo();
        redoStack := redoStack + [cmd];
        UndoneCoherent(old(Record()));
      }
    }

    /** `redo`: with an empty redo stack nothing changes; otherwise the top
        command is executed again and moved to the undo stack. */
    method Redo()
      requires Valid()
      modifies this`undoStack, this`redoStack, shapes
      ensures Valid()
      ensures Record() == Redone(old(Record()))
    {
      if redoStack != [] {
        var cmd := redoStack[|redoStack| - 1];
        redoStack := redoStack[..|redoStack| - 1];
        cmd.Execute();
        undoStack := undoStack + [cmd];
        RedoneCoherent(old(Record()));
      }
    }

    /** `handleMousePressed`. `contains` is the hit test of each shape at the
        pressed point. Only the first shape hit, in list order, counts. */
    method HandleMousePressed(x: real, y: real, ctrl: bool, contains: Shape -> bool)
      requires Valid()
      modifies this`mousePressedX, this`mousePressedY, this`selectStartX, this`selectStartY,
               this`band, this`bandVisible, this`selectedShapes, this`dragOriginMouseX,
               this`dragOriginMouseY, this`dragStartX, this`dragStartY, this`isDraggingShapes,
               shapes.elems`selected
      ensures Valid()
      ensures mousePressedX == x && mousePressedY == y
      // nothing hit: the selection and every flag are cleared, a rubber band may start here
      ensures FirstHit(shapes.elems, contains).None? ==>
        && selectedShapes == [] && !isDraggingShapes
        && (forall s :: s in shapes.elems ==> !s.selected)
        && selectStartX == x && selectStartY == y
        && band == Rect(x, y, 0.0, 0.0) && !bandVisible
        && dragOriginMouseX == old(dragOriginMouseX) && dragOriginMouseY == old(dragOriginMouseY)
        && dragStartX == old(dragStartX) && dragStartY == old(dragStartY)
      // a shape hit: the selection is updated and a drag of the whole selection starts
      ensures FirstHit(shapes.elems, contains).Some? ==>
        var hit := shapes.elems[FirstHit(shapes.elems, contains).value];
        && isDraggingShapes && Anchored()
        && dragOriginMouseX == x && dragOriginMouseY == y
        && selectStartX == old(selectStartX) && selectStartY == old(selectStartY)
        && band == old(band) && bandVisible == old(bandVisible)
        && (ctrl && hit in old(selectedShapes) ==>
              selectedShapes == RemoveFirst(old(selectedShapes), hit) && !hit.selected)
        && (ctrl && hit !in old(selectedShapes) ==>
              selectedShapes == old(selectedShapes) + [hit] && hit.selected)
        && (ctrl ==> forall s :: s in shapes.elems && s != hit ==> s.selected == old(s.selected))
        && (!ctrl ==> selectedShapes == [hit] && forall s :: s in shapes.elems ==> s.selected == (s == hit))
    {
      mousePressedX, mousePressedY := x, y;
      var i := FirstHitIndex(shapes.elems, contains);
      if i < |shapes.elems| {
        PressOnShape(shapes.elems[i], x, y, ctrl);
      } else {
        PressOnEmpty(x, y);
      }
    }

    /** A press on `hit`: the selection is toggled (ctrl) or replaced, and a
        drag of the whole selection starts from the pointer. */
    method PressOnShape(hit: Shape, x: real, y: real, ctrl: bool)
      requires Valid() && hit in shapes.elems
      modifies this`selectedShapes, this`dragOriginMouseX, this`dragOriginMouseY,
               this`dragStartX, this`dragStartY, this`isDraggingShapes, shapes.elems`selected
      ensures Valid()
      ensures isDraggingShapes && Anchored()
      ensures dragOriginMouseX == x && dragOriginMouseY == y
      ensures selectStartX == old(selectStartX) && selectStartY == old(selectStartY)
      ensures band == old(band) && bandVisible == old(bandVisible)
      ensures ctrl && hit in old(selectedShapes) ==>
        selectedShapes == RemoveFirst(old(selectedShapes), hit) && !hit.selected
      ensures ctrl && hit !in old(selectedShapes) ==>
        selectedShapes == old(selectedShapes) + [hit] && hit.selected
      ensures ctrl ==> forall s :: s in shapes.elems && s != hit ==> s.selected == old(s.selected)
      ensures !ctrl ==> selectedShapes == [hit] && forall s :: s in shapes.elems ==> s.selected == (s == hit)
    {
      if ctrl {
        ToggleSelection(hit);
      } else {
        SelectOnly(hit, shapes.elems);
      }
      dragOriginMouseX, dragOriginMouseY := x, y;
      RecordDragStart();
      isDraggingShapes := true;
    }

    /** A press on empty canvas: the rubber band is anchored here, hidden and
        empty, and the selection and every flag are cleared. */
    method PressOnEmpty(x: real, y: real)
      requires Valid()
      modifies this`selectStartX, this`selectStartY, this`band, this`bandVisible,
               this`selectedShapes, this`isDraggingShapes, shapes.elems`selected
      ensures Valid()
      ensures selectedShapes == [] && !isDraggingShapes
      ensures forall s :: s in shapes.elems ==> !s.selected
      ensures selectStartX == x && selectStartY == y
      ensures band == Rect(x, y, 0.0, 0.0) && !bandVisible
      ensures dragOriginMouseX == old(dragOriginMouseX) && dragOriginMouseY == old(dragOriginMouseY)
      ensures dragStartX == old(dragStartX) && dragStartY == old(dragStartY)
    {
      selectStartX, selectStartY := x, y;
      band := Rect(x, y, 0.0, 0.0);
      bandVisible := false;
      selectedShapes := [];
      ClearFlags(shapes.elems);
      isDraggingShapes := false;
    }

    /** The loop of `handleMousePressed` up to its `break`: the index of the
        first shape hit, or the length of the list when none is. */
    static method FirstHitIndex(elems: seq<Shape>, contains: Shape -> bool) returns (i: nat)
      ensures i <= |elems|
      ensures i < |elems| <==> FirstHit(elems, contains).Some?
      ensures i < |elems| ==> FirstHit(elems, contains).value == i
    {
      i := 0;
      while i < |elems| && !contains(elems[i])
        invariant 0 <= i <= |elems|
        invariant forall j :: 0 <= j < i ==> !contains(elems[j])
      {
        i := i + 1;
      }
    }

    /** A ctrl-press on `hit`: it leaves the selection if it was in it and
        joins it at the end otherwise; its flag follows. */
    method ToggleSelection(hit: Shape)
      requires NoDup(selectedShapes)
      modifies this`selectedShapes, hit`selected
      ensures NoDup(selectedShapes)
      ensures hit in old(selectedShapes) ==> selectedShapes == RemoveFirst(old(selectedShapes), hit) && !hit.selected
      ensures hit !in old(selectedShapes) ==> selectedShapes == old(selectedShapes) + [hit] && hit.selected
    {
      if hit in selectedShapes {
        RemoveFirstDistinct(selectedShapes, hit);
        selectedShapes := RemoveFirst(selectedShapes, hit);
        hit.selected := false;
      } else {
        NoDupAppend(selectedShapes, hit);
        selectedShapes := selectedShapes + [hit];
        hit.selected := true;
      }
    }

    /** A plain press on `hit`: the selection becomes exactly `hit`, and of
        the listed shapes only `hit` is flagged. */
    method SelectOnly(hit: Shape, elems: seq<Shape>)
      modifies this`selectedShapes, elems`selected, hit`selected
      ensures selectedShapes == [hit] && hit.selected
      ensures forall s :: s in elems ==> s.selected == (s == hit)
    {
      selectedShapes := [hit];
      ClearFlags(elems);
      hit.selected := true;
    }

    /** `for (s : shapes) s.setSelected(false)`. */
    static method ClearFlags(elems: seq<Shape>)
      modifies elems`selected
      ensures forall s :: s in elems ==> !s.selected
    {
      var k := 0;
      while k < |elems|
        invariant 0 <= k <= |elems|
        invariant forall j :: 0 <= j < k ==> !elems[j].selected
      {
        elems[k].selected := false;
        k := k + 1;
      }
    }

    /** Records the position of every selected shape, in selection order. */
    method RecordDragStart()
      modifies this`dragStartX, this`dragStartY
      ensures Anchored()
    {
      dragStartX, dragStartY := [], [];
      var k := 0;
      while k < |selectedShapes|
        invariant 0 <= k <= |selectedShapes|
        invariant |dragStartX| == k && |dragStartY| == k
        invariant forall j :: 0 <= j < k ==>
          dragStartX[j] == selectedShapes[j].x && dragStartY[j] == selectedShapes[j].y
      {
        dragStartX := dragStartX + [selectedShapes[k].x];
        dragStartY := dragStartY + [selectedShapes[k].y];
        k := k + 1;
      }
    }

    /** `handleMouseDragged`: while shapes are dragged, each selected shape is
        put at its start position plus one common snapped delta; otherwise the
        rubber band starts or follows the pointer. */
    method HandleMouseDragged(x: real, y: real)
      requires Valid()
      modifies this`isSelecting, this`band, this`bandVisible, selectedShapes`x, selectedShapes`y
      ensures Valid()
      ensures old(isDraggingShapes && selectedShapes != []) ==>
        && isSelecting == old(isSelecting) && band == old(band) && bandVisible == old(bandVisible)
        && forall i :: 0 <= i < |selectedShapes| ==>
             && selectedShapes[i].x == dragStartX[i] + Snap(x - dragOriginMouseX)
             && selectedShapes[i].y == dragStartY[i] + Snap(y - dragOriginMouseY)
      ensures !old(isDraggingShapes && selectedShapes != []) ==>
        && (forall s :: s in selectedShapes ==> s.x == old(s.x) && s.y == old(s.y))
        && isSelecting == (old(isSelecting) || StartsRubberBand(selectStartX, selectStartY, x, y))
        && bandVisible == (old(bandVisible) || (!old(isSelecting) && isSelecting))
        && band == if isSelecting then RubberBand(selectStartX, selectStartY, x, y) else old(band)
    {
      if isDraggingShapes && selectedShapes != [] {
        MoveBy(selectedShapes, dragStartX, dragStartY, Snap(x - dragOriginMouseX), Snap(y - dragOriginMouseY));
        return;
      }
      TrackBand(x, y);
    }

    /** Puts each shape of `sel` at its start position moved by `(dx, dy)`. */
    static method MoveBy(sel: seq<Shape>, startX: seq<real>, startY: seq<real>, dx: real, dy: real)
      requires NoDup(sel) && |startX| == |sel| && |startY| == |sel|
      modifies sel`x, sel`y
      ensures forall i :: 0 <= i < |sel| ==> sel[i].x == startX[i] + dx && sel[i].y == startY[i] + dy
    {
      var i := 0;
      while i < |sel|
        invariant 0 <= i <= |sel|
        invariant forall j :: 0 <= j < i ==> sel[j].x == startX[j] + dx && sel[j].y == startY[j] + dy
      {
        sel[i].x := startX[i] + dx;
        sel[i].y := startY[i] + dy;
        i := i + 1;
      }
    }

    /** The rubber band half of a drag: it starts once the pointer is far
        enough from the press point and then spans the press point and the pointer. */
    method TrackBand(x: real, y: real)
      modifies this`isSelecting, this`band, this`bandVisible
      ensures isSelecting == (old(isSelecting) || StartsRubberBand(selectStartX, selectStartY, x, y))
      ensures bandVisible == (old(bandVisible) || (!old(isSelecting) && isSelecting))
      ensures band == if isSelecting then RubberBand(selectStartX, selectStartY, x, y) else old(band)
    {
      if !isSelecting && StartsRubberBand(selectStartX, selectStartY, x, y) {
        isSelecting := true;
        bandVisible := true;
      }
      if isSelecting {
        band := RubberBand(selectStartX, selectStartY, x, y);
      }
    }

    /** `handleMouseReleased`: ends a rubber band by selecting what it encloses,
        or creates a shape on a click with a shape tool; always ends a drag. */
    method HandleMouseReleased(x: real, y: real)
      requires Valid()
      modifies this`selectedShapes, this`bandVisible, this`isSelecting, this`isDraggingShapes,
               this`undoStack, this`redoStack, shapes, shapes.elems`selected
      ensures Valid()
      ensures !isDraggingShapes && !isSelecting
      // the band is hidden only when one was being drawn
      ensures !old(isSelecting) ==> bandVisible == old(bandVisible)
      // rubber band: the selection is exactly the enclosed shapes, in list order
      ensures old(isSelecting) ==>
        && Record() == old(Record())
        && selectedShapes == Enclosed(shapes.elems, band)
        && (forall s :: s in shapes.elems ==> s.selected == Inside(s, band))
        && !bandVisible
      // click with a shape tool on an empty selection: one new 100 x 60 shape, selected alone
      ensures !old(isSelecting) && old(CreatesOnClick(x, y)) ==>
        && |undoStack| == |old(undoStack)| + 1
        && var cmd := undoStack[|undoStack| - 1];
        && Record() == Executed(old(Record()), cmd)
        && fresh(cmd) && fresh(cmd.shape)
        && cmd.shape.Data() == ShapeData(ToolKind(currentTool).value, x, y, 100.0, 60.0,
                                         currentTool, LightBlue, true)
        && selectedShapes == [cmd.shape]
        && (forall s :: s in old(shapes.elems) ==> s.selected == old(s.selected))
      // anything else: only the drag ends
      ensures !old(isSelecting) && !old(CreatesOnClick(x, y)) ==>
        && Record() == old(Record())
        && selectedShapes == old(selectedShapes)
        && (forall s :: s in shapes.elems ==> s.selected == old(s.selected))
    {
      if isSelecting {
        SelectEnclosed();
      } else if CreatesOnClick(x, y) {
        CreateOnClick(x, y);
      }
      isDraggingShapes := false;
    }

    /** The end of a rubber band: the selection becomes the shapes the band
        encloses, in list order, each flagged exactly when enclosed; the band
        is hidden. */
    method SelectEnclosed()
      requires Sound()
      modifies this`selectedShapes, this`bandVisible, this`isSelecting, shapes.elems`selected
      ensures Sound()
      ensures selectedShapes == Enclosed(shapes.elems, band)
      ensures forall s :: s in shapes.elems ==> s.selected == Inside(s, band)
      ensures !bandVisible && !isSelecting
    {
      bandVisible, isSelecting := false, false;
      FlagEnclosed();
      EnclosedDistinct(shapes.elems, band);
    }

    /** The loop of a rubber-band release: the selection is rebuilt from the
        shapes the band encloses, in list order, and each shape is flagged by
        whether the band encloses it. */
    method FlagEnclosed()
      modifies this`selectedShapes, shapes.elems`selected
      ensures selectedShapes == Enclosed(shapes.elems, band)
      ensures forall s :: s in shapes.elems ==> s.selected == Inside(s, band)
    {
      var elems, r := shapes.elems, band;
      selectedShapes := [];
      var i := 0;
      while i < |elems|
        invariant 0 <= i <= |elems|
        invariant selectedShapes == Enclosed(elems[..i], r)
        invariant forall j :: 0 <= j < i ==> elems[j].selected == Inside(elems[j], r)
      {
        FlagNext(elems, r, i, elems[i]);
        i := i + 1;
      }
      assert elems[..i] == elems;
    }

    /** One pass of that loop: the `i`-th shape joins the selection and is
        flagged when `r` encloses it, and is unflagged otherwise. */
    method FlagNext(elems: seq<Shape>, r: Rect, i: nat, s: Shape)
      requires i < |elems| && elems[i] == s && selectedShapes == Enclosed(elems[..i], r)
      modifies this`selectedShapes, s`selected
      ensures selectedShapes == Enclosed(elems[..i + 1], r)
      ensures s.selected == Inside(s, r)
    {
      EnclosedAppend(elems[..i], s, r);
      assert elems[..i + 1] == elems[..i] + [s];
      if Inside(s, r) {
        selectedShapes := selectedShapes + [s];
        s.selected := true;
      } else {
        s.selected := false;
      }
      assert selectedShapes == Enclosed(elems[..i + 1], r);
    }

    /** A click with a shape tool on an empty selection: a new 100 x 60 shape of
        the tool's kind, labelled with the tool's name, is added through an add
        command and becomes the only selected shape. */
    method CreateOnClick(x: real, y: real)
      requires Sound() && CreatesOnClick(x, y)
      modifies this`selectedShapes, this`undoStack, this`redoStack, shapes
      ensures Sound()
      ensures |undoStack| == |old(undoStack)| + 1
      ensures var cmd := undoStack[|undoStack| - 1];
        && Record() == Executed(old(Record()), cmd)
        && fresh(cmd) && fresh(cmd.shape)
        && cmd.shape.Data() == ShapeData(ToolKind(currentTool).value, x, y, 100.0, 60.0,
                                         currentTool, LightBlue, true)
        && selectedShapes == [cmd.shape]
    {
      var shape := new Shape(ToolKind(currentTool).value, x, y, 100.0, 60.0, currentTool);
      var cmd := new AddShapeCommand(shapes, shape);
      ExecuteCommand(cmd);
      selectedShapes := [shape];
      shape.selected := true;
    }

    /** `cloneShape`: a fresh shape of the same kind, geometry, label and
        colour for rectangles, ellipses and diamonds; null for anything else. */
    static method CloneShape(s: Shape?) returns (c: Shape?)
      ensures c != null <==> s != null && Cloneable(s.kind)
      ensures c != null ==> fresh(c) && c.Data() == CloneData(s.Data())
    {
      if s != null && Cloneable(s.kind) {
        c := new Shape(s.kind, s.x, s.y, s.width, s.height, s.labelText);
        c.SetColor(s.color);
      } else {
        c := null;
      }
    }

    /** `copySelected`: the clipboard becomes one clone per selected shape, in
        selection order (null where the shape cannot be cloned). */
    method CopySelected()
      modifies this`clipboard
      ensures |clipboard| == |selectedShapes|
      ensures forall i :: 0 <= i < |clipboard| ==>
        && (clipboard[i] != null <==> Cloneable(selectedShapes[i].kind))
        && (clipboard[i] != null ==> fresh(clipboard[i]) && clipboard[i].Data() == CloneData(selectedShapes[i].Data()))
    {
      clipboard := [];
      var i := 0;
      while i < |selectedShapes|
        invariant 0 <= i <= |selectedShapes|
        invariant |clipboard| == i
        invariant forall j :: 0 <= j < i ==>
          && (clipboard[j] != null <==> Cloneable(selectedShapes[j].kind))
          && (clipboard[j] != null ==> fresh(clipboard[j]) && clipboard[j].Data() == CloneData(selectedShapes[j].Data()))
      {
        var c := CloneShape(selectedShapes[i]);
        clipboard := clipboard + [c];
        i := i + 1;
      }
    }

    /** `paste`: one add command per clipboard entry, each on a fresh clone
        moved by (+20, +20); the clipboard itself is left alone. An entry that
        cannot be cloned ends the paste with a null dereference (`completed` is
        false), keeping the shapes pasted before it. */
    method Paste() returns (completed: bool)
      requires Valid()
      modifies this`undoStack, this`redoStack, shapes
      ensures Valid()
      ensures completed <==> LeadingCloneable(clipboard) == |clipboard|
      ensures |undoStack| == |old(undoStack)| + LeadingCloneable(clipboard)
      ensures Record() == ExecutedAll(old(Record()), undoStack[|old(undoStack)|..])
      ensures forall j :: |old(undoStack)| <= j < |undoStack| ==> fresh(undoStack[j].shape)
    {
      var cmds;
      completed, cmds := PasteEntries();
      ExecutedAllAppends(old(Record()), cmds);
      assert undoStack == old(undoStack) + cmds;
      assert undoStack[|old(undoStack)|..] == cmds;
    }

    /** The loop of `paste`: the commands it executed, one per entry before
        the first entry that cannot be cloned. */
    method PasteEntries() returns (completed: bool, cmds: seq<AddShapeCommand>)
      requires Sound()
      modifies this`undoStack, this`redoStack, shapes
      ensures Sound()
      ensures completed <==> LeadingCloneable(clipboard) == |clipboard|
      ensures |cmds| == LeadingCloneable(clipboard)
      ensures Record() == ExecutedAll(old(Record()), cmds)
      ensures forall j :: 0 <= j < |cmds| ==> fresh(cmds[j].shape)
    {
      cmds := [];
      completed := true;
      var i := 0;
      while i < |clipboard|
        invariant 0 <= i <= LeadingCloneable(clipboard)
        invariant Sound()
        invariant |cmds| == i
        invariant Record() == ExecutedAll(old(Record()), cmds)
        invariant forall j :: 0 <= j < i ==> fresh(cmds[j].shape)
        invariant completed
        modifies this`undoStack, this`redoStack, shapes
      {
        var cmd := PasteEntry(clipboard[i]);
        if cmd == null {
          completed := false;
          break;
        }
        assert (cmds + [cmd])[..i] == cmds;
        cmds := cmds + [cmd];
        i := i + 1;
      }
    }


    /** One pass of the paste loop: the entry is cloned, the clone moved by
        (+20, +20) and added through an add command. When the entry cannot be
        cloned, nothing changes and no command is returned. */
    method PasteEntry(src: Shape?) returns (cmd: AddShapeCommand?)
      requires Sound()
      modifies this`undoStack, this`redoStack, shapes
      ensures Sound()
      ensures cmd == null <==> src == null || !Cloneable(src.kind)
      ensures cmd == null ==> Record() == old(Record())
      ensures cmd != null ==>
        && Record() == Executed(old(Record()), cmd)
        && fresh(cmd.shape) && cmd.shape.Data() == PastedData(src.Data())
    {
      var newShape := CloneShape(src);
      if newShape == null {
        return null;
      }
      newShape.SetX(newShape.x + 20.0);
      newShape.SetY(newShape.y + 20.0);
      cmd := new AddShapeCommand(shapes, newShape);
      ExecuteCommand(cmd);
    }
  }
}
