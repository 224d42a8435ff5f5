# Flowchart editor document engine

This project is a Dafny model of the document engine of a JavaFX flowchart editor, with proofs about it. The model covers:

- **The canvas (`CanvasPane`).** It holds:
  - the shape list;
  - the selection and each shape's `selected` flag;
  - the clipboard;
  - the undo and redo stacks of add-shape commands;
  - the state machine driven by mouse press, drag and release: shape dragging with snap-to-grid, rubber-band selection and click-to-create.

  It also implements copy and paste.
- **`AddShapeCommand`.** It appends one shape to the canvas's shared list, and removes it again on undo.
- **The shape classes.** `FlowchartShape` holds mutable position, size, label, colour and selection. The rectangle, ellipse, diamond, parallelogram, circle and hexagon subclasses turn those fields into the numbers they write into their persistent drawing node.
- **Connection points and connection lines.** A point sits at a fixed offset from a shape. A line resolves its end (end point, temporary end, or its own start) and routes a straight line, an elbow polyline or a quadratic curve. It places an arrow head and restyles itself on selection.
- **`MainWindow.createShapeFromJson`.** It reads one saved shape back from a JSON object.

Modules, one per file:

| file | module | contents |
|---|---|---|
| `lists.dfy` | `Lists` | `java.util.List` removal by identity (`RemoveFirst`) and its laws |
| `geometry.dfy` | `Geometry` | the outline each shape kind derives from its box |
| `shapes.dfy` | `Shapes` | class `Shape` (every `FlowchartShape` subclass) and its drawing node |
| `commands.dfy` | `Commands` | the shared `ShapeList` and class `AddShapeCommand` |
| `history.dfy` | `UndoHistory` | the list and both stacks as a value; the functions `executeCommand`, `undo` and `redo` apply to it; the stack discipline they keep |
| `interaction.dfy` | `Interaction` | snapping, hit order, the rubber band, click-to-create tools, clone data |
| `canvas.dfy` | `Canvas` | class `CanvasPane`, whose methods are proved against the functions above |
| `connections.dfy` | `Connections` | classes `ConnectionPoint` and `ConnectionLine`, and the routing functions |
| `loader.dfy` | `Loader` | the JSON shape decoder and the method that builds the shape |

How the source is represented:

- **Shapes are compared by identity.** The shape classes do not override `equals`, so `List.remove` and `List.contains` compare objects by reference. The model's lists are sequences of object references.
- **Coordinates are `real`.**
- **Colours are a datatype.** It names the colours the code uses, plus any other colour by its text.
- **Hit testing (`Shape.contains`) is a parameter** of the press handler.
- **Parsing a colour text (`Color.valueOf`) is a parameter** of the JSON decoder.

## Model

| member | source | states |
|---|---|---|
| Lists.RemoveFirst | src/main/java/editor/action/AddShapeCommand.java:19 | `List.remove`: an absent element leaves the list unchanged; a present one makes it one shorter, and nothing new appears |
| Lists.RemoveFirstSplit | src/main/java/editor/action/AddShapeCommand.java:19 | removal drops exactly the first occurrence and keeps everything before and after it in order |
| Lists.RemoveAppended | src/main/java/editor/action/AddShapeCommand.java:13-19 | appending a shape that is not in the list and then removing it gives the original list back |
| Lists.RemoveFirstDistinct | src/main/java/editor/ui/CanvasPane.java:83-85 | on a duplicate-free list, removing `x` leaves exactly the other elements, still without duplicates |
| Geometry.DiamondVertices | src/main/java/editor/model/DiamondShape.java:24-43 | four vertices in the order top, right, bottom, left, each on its side of the box; top and bottom share the centre x, left and right the centre y; with non-negative size all lie in the box |
| Geometry.ParallelogramVertices | src/main/java/editor/model/ParallelogramShape.java:23-33 | vertices `(x,y)` … `(x+w,y+h)`; top and bottom edges horizontal and 3/4 of the width; opposite sides parallel and equal; inside the box for non-negative size |
| Geometry.EllipseParams | src/main/java/editor/model/EllipseShape.java:18-27 | centre ± radius spans exactly `[x, x+w] × [y, y+h]` |
| Geometry.CircleParams | src/main/java/editor/model/CircleShape.java:21-29 | the diameter is the smaller side; the circle touches the left and top of the box; it stays inside the box for non-negative size |
| Geometry.HexagonParams | src/main/java/editor/model/HexagonShape.java:18-22 | the circumscribed circle is centred in the box, its diameter equals the smaller side, and for non-negative size it stays inside the box |
| Geometry.OutlineOf | src/main/java/editor/model/RectangleShape.java:18-27 | each kind draws the outline of its class (for the rectangle, its own bounds, by definition); for non-negative size, everything drawn lies inside the bounding box |
| Geometry.OutlineTranslates | src/main/java/editor/model/DiamondShape.java:26-38 | moving a shape by `(dx, dy)` moves every outline number, including every vertex, by the same amount; sizes are unchanged |
| Shapes.Shape.constructor | src/main/java/editor/model/FlowchartShape.java:7-14 | position, size and label are stored as given; the colour is LIGHTBLUE; the shape is not selected; a fresh node holds the outline of those fields |
| Shapes.Shape.Copy | src/main/java/editor/model/FlowchartShape.java:36-42 | `clone` copies every field; the copy is shallow, so it shares the original's drawing node |
| Shapes.Shape.GetShape | src/main/java/editor/model/RectangleShape.java:17-27 | returns the same persistent node, refreshed from the current fields: fill is the colour, stroke is red exactly when selected |
| Shapes.Shape.SetX | src/main/java/editor/model/FlowchartShape.java:28 | only `x` changes, to any value |
| Shapes.Shape.SetY | src/main/java/editor/model/FlowchartShape.java:29 | only `y` changes |
| Shapes.Shape.SetWidth | src/main/java/editor/model/FlowchartShape.java:30 | only `width` changes, with no bound |
| Shapes.Shape.SetHeight | src/main/java/editor/model/FlowchartShape.java:31 | only `height` changes, with no bound |
| Shapes.Shape.SetColor | src/main/java/editor/model/FlowchartShape.java:32 | only the colour changes |
| Shapes.Shape.SetLabel | src/main/java/editor/model/FlowchartShape.java:33 | only the label changes |
| Shapes.Shape.SetSelected | src/main/java/editor/model/FlowchartShape.java:34 | only the flag changes |
| Commands.AddShapeCommand.constructor | src/main/java/editor/action/AddShapeCommand.java:9-11 | the command keeps the shared list and the shape |
| Commands.AddShapeCommand.Execute | src/main/java/editor/action/AddShapeCommand.java:13-17 | the shape is appended; the elements already present stay as they were |
| Commands.AddShapeCommand.Undo | src/main/java/editor/action/AddShapeCommand.java:19 | the first occurrence of the shape is removed, if there is one |
| UndoHistory.EmptyCoherent | src/main/java/editor/ui/CanvasPane.java:18-31 | an empty list with empty stacks satisfies the stack discipline |
| UndoHistory.ExecutedCoherent | src/main/java/editor/ui/CanvasPane.java:262-269 | executing a command on a new shape keeps the stack discipline: the undo stack's shapes are the tail of the list in order, the list has no duplicates, and the redo stack's shapes are distinct and absent from it |
| UndoHistory.UndoneCoherent | src/main/java/editor/ui/CanvasPane.java:271-278 | undo keeps the stack discipline |
| UndoHistory.RedoneCoherent | src/main/java/editor/ui/CanvasPane.java:280-287 | redo keeps the stack discipline |
| UndoHistory.UndoPopsLast | src/main/java/editor/ui/CanvasPane.java:271-278 | under the discipline, undo removes the last shape of the list (the top command's) and moves the top command to the redo stack |
| UndoHistory.UndoThenRedo | src/main/java/editor/ui/CanvasPane.java:271-287 | undo followed by redo restores the list and both stacks |
| UndoHistory.RedoThenUndo | src/main/java/editor/ui/CanvasPane.java:271-287 | redo followed by undo restores the list and both stacks |
| UndoHistory.ExecuteThenUndo | src/main/java/editor/ui/CanvasPane.java:262-278 | executing then undoing restores the list and the undo stack; the command is then the only one left to redo |
| UndoHistory.ExecutedAllAppends | src/main/java/editor/ui/CanvasPane.java:230-238 | executing several commands appends their shapes and the commands in order, and empties the redo stack unless there were none |
| Interaction.Snap | src/main/java/editor/ui/CanvasPane.java:290-292 | the result is a multiple of 20 and lies in `(v - 10, v + 10]`: halves round up, as `Math.round` does |
| Interaction.SnapUnique | src/main/java/editor/ui/CanvasPane.java:290-292 | those two properties determine the snapped value |
| Interaction.SnapKeepsGridValues | src/main/java/editor/ui/CanvasPane.java:290-292 | a value already on the grid is unchanged |
| Interaction.FirstHit | src/main/java/editor/ui/CanvasPane.java:79-80 | the index of the first shape in list order that the hit test accepts; none when no shape is hit |
| Interaction.RubberBand | src/main/java/editor/ui/CanvasPane.java:145-152 | the rectangle has the press point and the pointer as opposite corners, with non-negative width and height |
| Interaction.Enclosed | src/main/java/editor/ui/CanvasPane.java:168-177 | the shapes whose boxes lie inside the band (list order holds by definition); never more than the list |
| Interaction.EnclosedMembers | src/main/java/editor/ui/CanvasPane.java:168-177 | a shape is in that selection exactly when it is in the list and inside the band |
| Interaction.EnclosedDistinct | src/main/java/editor/ui/CanvasPane.java:168-177 | the selection has no duplicates when the list has none |
| Interaction.EnclosedAppend | src/main/java/editor/ui/CanvasPane.java:169-177 | one more pass of the loop extends the selection by that shape exactly when it is inside |
| Interaction.ToolKind | src/main/java/editor/ui/CanvasPane.java:186-192 | "矩形", "椭圆" and "菱形" create a rectangle, an ellipse and a diamond; every other tool creates nothing |
| Interaction.CloneData | src/main/java/editor/ui/CanvasPane.java:241-259 | a clone keeps kind, geometry, label and colour, and is not selected |
| Interaction.PastedData | src/main/java/editor/ui/CanvasPane.java:232-234 | a pasted shape is the clone moved by (+20, +20) |
| Interaction.LeadingCloneable | src/main/java/editor/ui/CanvasPane.java:230-236 | how many clipboard entries, from the front, can be cloned: the first entry it stops at is null or of a kind `cloneShape` does not copy |
| Canvas.CanvasPane.constructor | src/main/java/editor/ui/CanvasPane.java:18-38 | empty list, selection, clipboard and stacks; tool "矩形"; no drag or rubber band; the invariant holds |
| Canvas.CanvasPane.SetCurrentTool | src/main/java/editor/ui/CanvasPane.java:64-66 | only the tool changes |
| Canvas.CanvasPane.ExecuteCommand | src/main/java/editor/ui/CanvasPane.java:262-269 | the list and stacks become `UndoHistory.Executed` of the old ones: shape appended, command pushed, redo stack emptied; the invariant is kept |
| Canvas.CanvasPane.Undo | src/main/java/editor/ui/CanvasPane.java:271-278 | the list and stacks become `UndoHistory.Undone` of the old ones: nothing on an empty undo stack, otherwise the top command is undone and moved to the redo stack |
| Canvas.CanvasPane.Redo | src/main/java/editor/ui/CanvasPane.java:280-287 | the list and stacks become `UndoHistory.Redone` of the old ones: the mirror image of undo |
| Canvas.CanvasPane.HandleMousePressed | src/main/java/editor/ui/CanvasPane.java:72-123 | only the first hit shape counts. Ctrl toggles its membership and flag; without ctrl it becomes the only selected and flagged shape; then the drag start positions parallel the selection. With no hit, the selection and every flag are cleared and the band is reset and hidden. A hit leaves the band, its visibility and the band anchor `selectStartX/Y` as they were; a miss leaves the drag origin and the drag start positions as they were |
| Canvas.CanvasPane.PressOnShape | src/main/java/editor/ui/CanvasPane.java:81-106 | toggle or replace the selection, record the drag origin and start positions, start dragging; the band, its visibility and its anchor are unchanged |
| Canvas.CanvasPane.PressOnEmpty | src/main/java/editor/ui/CanvasPane.java:109-121 | anchor a hidden empty band at the press point, clear selection and flags, no drag; the drag origin and start positions are unchanged |
| Canvas.CanvasPane.FirstHitIndex | src/main/java/editor/ui/CanvasPane.java:79-80 | the loop stops at exactly the index `FirstHit` names, or runs off the end when nothing is hit |
| Canvas.CanvasPane.ToggleSelection | src/main/java/editor/ui/CanvasPane.java:82-89 | a selected shape is removed and unflagged; otherwise it is appended and flagged; the selection stays duplicate-free |
| Canvas.CanvasPane.SelectOnly | src/main/java/editor/ui/CanvasPane.java:91-94 | the selection becomes exactly the shape, and of all shapes only it is flagged |
| Canvas.CanvasPane.ClearFlags | src/main/java/editor/ui/CanvasPane.java:119 | every shape's flag is cleared |
| Canvas.CanvasPane.RecordDragStart | src/main/java/editor/ui/CanvasPane.java:99-104 | the start lists have the selection's length and hold each selected shape's position |
| Canvas.CanvasPane.HandleMouseDragged | src/main/java/editor/ui/CanvasPane.java:125-155 | while dragging a non-empty selection, each selected shape sits at its start plus the snapped pointer delta. Otherwise the band starts once both offsets exceed 5 (`StartsRubberBand`), and then spans the press point and the pointer |
| Canvas.CanvasPane.MoveBy | src/main/java/editor/ui/CanvasPane.java:131-135 | shape `i` is put at `dragStart[i]` plus the common delta |
| Canvas.CanvasPane.TrackBand | src/main/java/editor/ui/CanvasPane.java:140-153 | the rubber band starts (and is shown) once both offsets exceed 5; while it runs it is `RubberBand` of the press point and pointer |
| Canvas.CanvasPane.HandleMouseReleased | src/main/java/editor/ui/CanvasPane.java:157-206 | ends any drag. A running band selects exactly the enclosed shapes, with flags matching, and is hidden; without a running band the band's visibility is unchanged. A click (`IsClick`: both offsets under 5) with a shape tool on an empty selection adds one 100 × 60 shape labelled with the tool and selects only it. Otherwise the list, stacks and selection are unchanged |
| Canvas.CanvasPane.SelectEnclosed | src/main/java/editor/ui/CanvasPane.java:163-179 | the selection becomes `Enclosed` of the list, every flag says whether its shape is inside, the band is hidden |
| Canvas.CanvasPane.FlagEnclosed | src/main/java/editor/ui/CanvasPane.java:168-177 | the loop rebuilds the selection as `Enclosed` and sets every flag to inside-ness |
| Canvas.CanvasPane.FlagNext | src/main/java/editor/ui/CanvasPane.java:170-176 | one pass: the selection grows to `Enclosed` of one more shape and that shape's flag is set |
| Canvas.CanvasPane.CreateOnClick | src/main/java/editor/ui/CanvasPane.java:183-201 | a fresh shape of the tool's kind at the pointer, 100 × 60, labelled with the tool, is added through one command and becomes the only selection |
| Canvas.CanvasPane.CloneShape | src/main/java/editor/ui/CanvasPane.java:241-259 | a fresh shape with `CloneData` for rectangles, ellipses and diamonds; null for anything else, null included |
| Canvas.CanvasPane.CopySelected | src/main/java/editor/ui/CanvasPane.java:222-227 | the clipboard holds one entry per selected shape, in order: a fresh clone, or null where the kind cannot be cloned |
| Canvas.CanvasPane.Paste | src/main/java/editor/ui/CanvasPane.java:230-238 | one add command per clipboard entry, each on a fresh shape, applied as `UndoHistory.ExecutedAll`. The paste completes only when every entry can be cloned; otherwise it stops at the first that cannot (the null dereference) |
| Canvas.CanvasPane.PasteEntries | src/main/java/editor/ui/CanvasPane.java:231-236 | the loop issues exactly `LeadingCloneable(clipboard)` commands and leaves the list and stacks at `ExecutedAll` of them |
| Canvas.CanvasPane.PasteEntry | src/main/java/editor/ui/CanvasPane.java:232-235 | one entry: no command for an entry that cannot be cloned; otherwise a fresh shape with `PastedData` of the entry is executed |
| Connections.EmptyPath | src/main/java/editor/model/ConnectionLine.java:48-54 | a new node has the class of its line type and holds no points |
| Connections.EndOf | src/main/java/editor/model/ConnectionLine.java:86-97 | the end is the end point if there is one, else the temporary end when both coordinates are set, else the start |
| Connections.ElbowPoints | src/main/java/editor/model/ConnectionLine.java:104-108 | four points from start to end: horizontal, vertical at the horizontal midpoint, horizontal |
| Connections.CurveControl | src/main/java/editor/model/ConnectionLine.java:113-116 | the control point is half-way across and exactly 40 above the higher end (y = min(s.y, e.y) - 40), so strictly above both |
| Connections.Route | src/main/java/editor/model/ConnectionLine.java:98-119 | the path has the class of its line type and runs from start to end through the elbow or control point |
| Connections.ElbowReversed | src/main/java/editor/model/ConnectionLine.java:104-108 | routing from the other end gives the same elbow, walked backwards |
| Connections.ControlSymmetric | src/main/java/editor/model/ConnectionLine.java:113-114 | the control point does not depend on which end is the start |
| Connections.CollapsedRoute | src/main/java/editor/model/ConnectionLine.java:94-97 | a line with no end collapses onto its start; a curve then loops up to 40 above it |
| Connections.ConnectionPoint.constructor | src/main/java/editor/model/ConnectionPoint.java:14-27 | parent and offsets stored; a hidden marker of radius 5, white fill, blue stroke 1.5; the position is already the parent's origin plus the offset |
| Connections.ConnectionPoint.UpdatePosition | src/main/java/editor/model/ConnectionPoint.java:29-34 | `getX`/`getY` (`GetX`/`GetY`, reading the marker's centre) then equal the parent's origin plus the fixed offset. Only the cached centre is written; moving the parent does not touch it |
| Connections.ConnectionPoint.Show | src/main/java/editor/model/ConnectionPoint.java:36-39 | the point and its marker are visible afterwards (`isVisible`, modelled as `IsVisible`), whatever before |
| Connections.ConnectionPoint.Hide | src/main/java/editor/model/ConnectionPoint.java:41-44 | the point and its marker are hidden afterwards (`IsVisible` is false), whatever before |
| Connections.ArrowNode.constructor | src/main/java/editor/model/ConnectionLine.java:32-40 | the triangle `(0,0), (-10,-5), (-10,5)` filled and stroked in the line colour, stroke width 1 |
| Connections.ConnectionLine.constructor | src/main/java/editor/model/ConnectionLine.java:26-41 | straight, black, width 2, arrow on, not selected, no ends; node and arrow styled accordingly |
| Connections.ConnectionLine.UpdatePosition | src/main/java/editor/model/ConnectionLine.java:84-127 | nothing without a start point; otherwise the node holds `Route` of the type, start and resolved end. The arrow moves to that end when the line has an end and the arrow is enabled |
| Connections.ConnectionLine.SetLineType | src/main/java/editor/model/ConnectionLine.java:43-64 | the current type is a no-op. Another type gets a fresh node of that type, stroked with the colour and width (or the highlight when selected), and drawn; colour and width are kept |
| Connections.ConnectionLine.SetStartPoint | src/main/java/editor/model/ConnectionLine.java:67-70 | sets the start and redraws |
| Connections.ConnectionLine.SetEndPoint | src/main/java/editor/model/ConnectionLine.java:71-76 | sets the end, clears both temporary coordinates and redraws; the line then ends at that point, or at its start when the point is null |
| Connections.ConnectionLine.SetTempEnd | src/main/java/editor/model/ConnectionLine.java:78-82 | sets both temporary coordinates and redraws; the line ends there unless it has an end point |
| Connections.ConnectionLine.SetColor | src/main/java/editor/model/ConnectionLine.java:133-138 | node stroke, arrow fill and arrow stroke take the colour, even on a selected line |
| Connections.ConnectionLine.SetStrokeWidth | src/main/java/editor/model/ConnectionLine.java:140-144 | node and arrow outline take the width, even on a selected line |
| Connections.ConnectionLine.SetArrowEnabled | src/main/java/editor/model/ConnectionLine.java:146-149 | the flag and the arrow's visibility follow the argument |
| Connections.ConnectionLine.SetSelected | src/main/java/editor/model/ConnectionLine.java:151-164 | highlighted in DODGERBLUE with width `strokeWidth + 2`, or styled back from the colour and width; the stored colour and width never change |
| Loader.GetString | src/main/java/editor/ui/MainWindow.java:77 | a value exactly when the key is present and holds a string |
| Loader.GetDouble | src/main/java/editor/ui/MainWindow.java:78-81 | a value exactly when the key is present and holds a number |
| Loader.KindOfTag | src/main/java/editor/ui/MainWindow.java:86-106 | each of the six tags selects its shape class; any other tag selects none |
| Loader.TagOf | src/main/java/editor/ui/MainWindow.java:86-106 | every kind has a tag that decodes back to it |
| Loader.TagRoundTrip | src/main/java/editor/ui/MainWindow.java:86-106 | every tag that decodes is the tag of its kind |
| Loader.DecodeBuilds | src/main/java/editor/ui/MainWindow.java:76-111 | a shape is built exactly when all seven fields have the right type, the colour parses and the tag is known. It carries the numbers and label unchanged (the circle's too), its tag's kind, the parsed colour, and is not selected |
| Loader.UnknownTag | src/main/java/editor/ui/MainWindow.java:85-110 | an unknown tag gives null only once every field has been read and the colour has parsed; it never gives a shape |
| Loader.ObjectOf | src/main/java/editor/ui/MainWindow.java:77-83 | the object that stores a shape's data under the seven keys is well typed |
| Loader.DecodeObjectOf | src/main/java/editor/ui/MainWindow.java:76-111 | decoding that object gives the unselected shape's data back, when its colour text parses back to its colour |
| Loader.CreateShapeFromJson | src/main/java/editor/ui/MainWindow.java:76-111 | the outcome is `Loader.Decode` of the object (the fields in source order, the first missing or mistyped one named, then the colour, then the tag); a fresh shape is returned exactly when a shape is built, and it holds the built data; null otherwise |

## Left out

- **The `Command` interface is not declared.** `AddShapeCommand` is its only implementation in the modelled files, so both stacks hold `AddShapeCommand`s.
- **JavaFX rendering.** Left out: `redraw`, the children list, `requestFocus`, the canvas's style and size, the selection rectangle's fill and stroke, and handler registration. Drawing nodes are modelled only by the numbers and colours the code writes into them.
- **The keyboard handler of the canvas constructor.** It only dispatches Ctrl+C/V/Z/Y to `CopySelected`, `Paste`, `Undo` and `Redo`, which are modelled.
- **Debug output and the property panel.** `System.out.println` and `propertyPanel.showShape` have no effect on the model's state.
- **Hit testing.** Every `contains` method delegates to JavaFX, so the hit test is a parameter of `HandleMousePressed`.
- **The hexagon's six vertices and the arrow head's rotation.** They come from `Math.cos`/`Math.sin` and `Math.atan2`. Only the hexagon's centre and radius and the arrow head's translation are modelled.
- **Colour parsing.** `Color.valueOf` is a parameter of the decoder. Colours are the named values the code uses plus `Web(text)` for any other.
- **File dialogs and I/O.** `saveFile`, `openFile` and the reading of the file are not modelled. org.json's own parsing is not modelled either: the JSON object is a map from keys to string, number or other values.
- **Methods with no code in the modelled files are not part of this model:** `saveShapesToJson`, `loadShapesFromJson`, `clearCanvas`, `copySelectedShapes`, `pasteShapes`, `deleteSelectedShapes`, `toggleGrid`, `toggleSnapToGrid`, `getLink` and `setLink`.
- **The widget classes are not part of this model:** `ToolbarPanel`, `PropertyPanel`, `ShapeLibraryPanel` and `FlowchartEditorApp`.
- **Getters of `FlowchartShape` and `ConnectionLine`.** They are field reads; the model reads the fields. `ConnectionPoint`'s `getX`, `getY` and `isVisible` are modelled as `GetX`, `GetY` and `IsVisible`, named in the rows of `UpdatePosition`, `Show` and `Hide`.
- **`CloneNotSupportedException`.** `clone` never throws it on these classes.
- Interaction.Snap: computed on exact reals. IEEE rounding of `value / 20` and the `long` range of `Math.round` are not modelled.
- Loader.GetDouble: a number stored as a JSON string counts as the wrong type. org.json's `getDouble` would parse such a string.
- Canvas.CanvasPane.ExecuteCommand: requires that the command acts on this canvas's list and that its shape is not yet in the list. Every caller in the source passes a command on `shapes` with a shape it has just built.
- Canvas.CanvasPane.PasteEntries: does not state that the shape of command `j` holds clipboard entry `j` moved by (+20, +20), because carrying that data through the loop's later calls does not fit the verifier's resource limit. `PasteEntry` states it for each shape as it is added, and no later step of the loop writes a shape's fields.
- Canvas.CanvasPane.Paste: the data of each pasted shape (its clipboard entry moved by (+20, +20)) is stated by `PasteEntry` as each shape is added. `Paste`'s own contract states the commands and freshness, not the data again.
- Connections.ConnectionLine.UpdatePosition: requires that the node has the class of the line type. The constructor and `SetLineType` always keep this, so the `instanceof` tests always pass and the case of a mismatched node is not modelled.
- **The node replaced by `setLineType`.** Nothing in the modelled files puts the new node on screen, and no caller is modelled.
