/** `createShapeFromJson`: reading one saved shape back from a JSON object. The
    fields are read in a fixed order and the first one that is missing or of
    the wrong type aborts the load; a colour text that does not parse aborts
    it too; an unknown type tag yields no shape. */
module Loader {
  import opened Lists
  import opened Geometry
  import opened Shapes

  /** A JSON value as the object hands it back: only strings and numbers are
      read here, everything else is of the wrong type. */
  datatype JsonValue = JString(text: string) | JNumber(number: real) | JOther

  type JsonObject = map<string, JsonValue>

  /** What a load comes to: the field it failed on, the colour text that did
      not parse, no shape for an unknown tag, or the data of the built shape. */
  datatype Outcome =
    | Missing(key: string)
    | BadColor(colorText: string)
    | NoShape
    | Built(data: ShapeData)

  /** `getString`: present and a string. */
  function GetString(obj: JsonObject, key: string): (r: Option<string>)
    ensures r.Some? <==> key in obj && obj[key].JString?
    ensures r.Some? ==> obj[key] == JString(r.value)
  {
    if key in obj && obj[key].JString? then Some(obj[key].text) else None
  }

  /** `getDouble`: present and a number. */
  function GetDouble(obj: JsonObject, key: string): (r: Option<real>)
    ensures r.Some? <==> key in obj && obj[key].JNumber?
    ensures r.Some? ==> obj[key] == JNumber(r.value)
  {
    if key in obj && obj[key].JNumber? then Some(obj[key].number) else None
  }

  /** The six type tags and the shape class each one builds. */
  function KindOfTag(tag: string): (k: Option<Kind>)
    ensures k == Some(Rectangle) <==> tag == "rectangle"
    ensures k == Some(Ellipse) <==> tag == "ellipse"
    ensures k == Some(Diamond) <==> tag == "diamond"
    ensures k == Some(Parallelogram) <==> tag == "parallelogram"
    ensures k == Some(Circle) <==> tag == "circle"
    ensures k == Some(Hexagon) <==> tag == "hexagon"
  {
    match tag
    case "rectangle" => Some(Rectangle)
    case "ellipse" => Some(Ellipse)
    case "diamond" => Some(Diamond)
    case "parallelogram" => Some(Parallelogram)
    case "circle" => Some(Circle)
    case "hexagon" => Some(Hexagon)
    case _ => None
  }

  /** The tag that stands for each kind. */
  function TagOf(k: Kind): (tag: string)
    ensures KindOfTag(tag) == Some(k)
  {
    match k
    case Rectangle => "rectangle"
    case Ellipse => "ellipse"
    case Diamond => "diamond"
    case Parallelogram => "parallelogram"
    case Circle => "circle"
    case Hexagon => "hexagon"
  }

  /** Every tag that is understood is the tag of the kind it builds. */
  lemma TagRoundTrip(tag: string)
    requires KindOfTag(tag).Some?
    ensures TagOf(KindOfTag(tag).value) == tag
  {
  }

  /** The load, given how colour texts parse (`Color.valueOf`). The fields
      are read as `type`, `x`, `y`, `width`, `height`, `label`, `color`; the
      colour is parsed before the tag is looked at, and applied to the shape
      built for the tag. */
  function Decode(obj: JsonObject, parseColor: string -> Option<Color>): (r: Outcome)
  {
    var tag := GetString(obj, "type");
    if tag.None? then Missing("type") else
    var x := GetDouble(obj, "x");
    if x.None? then Missing("x") else
    var y := GetDouble(obj, "y");
    if y.None? then Missing("y") else
    var w := GetDouble(obj, "width");
    if w.None? then Missing("width") else
    var h := GetDouble(obj, "height");
    if h.None? then Missing("height") else
    var labelText := GetString(obj, "label");
    if labelText.None? then Missing("label") else
    var text := GetString(obj, "color");
    if text.None? then Missing("color") else
    var color := parseColor(text.value);
    if color.None? then BadColor(text.value) else
    match KindOfTag(tag.value)
    case None => NoShape
    case Some(k) => Built(ShapeData(k, x.value, y.value, w.value, h.value, labelText.value, color.value, false))
  }

  predicate IsString(obj: JsonObject, key: string)
  {
    key in obj && obj[key].JString?
  }

  predicate IsNumber(obj: JsonObject, key: string)
  {
    key in obj && obj[key].JNumber?
  }

  /** All seven fields are present with the right types. */
  predicate WellTyped(obj: JsonObject)
  {
    && IsString(obj, "type") && IsNumber(obj, "x") && IsNumber(obj, "y")
    && IsNumber(obj, "width") && IsNumber(obj, "height")
    && IsString(obj, "label") && IsString(obj, "color")
  }

  /** A shape is built exactly when the fields are well typed, the colour parses
      and the tag is one of the six; it then carries the fields unchanged (the
      circle's too), the kind of its tag and the parsed colour, not selected. */
  lemma DecodeBuilds(obj: JsonObject, parseColor: string -> Option<Color>)
    ensures Decode(obj, parseColor).Built? <==>
      WellTyped(obj) && parseColor(obj["color"].text).Some? && KindOfTag(obj["type"].text).Some?
    ensures Decode(obj, parseColor).Built? ==>
      Decode(obj, parseColor).data == ShapeData(KindOfTag(obj["type"].text).value,
        obj["x"].number, obj["y"].number, obj["width"].number, obj["height"].number,
        obj["label"].text, parseColor(obj["color"].text).value, false)
  {
  }

  /** An unknown tag yields no shape only once every field has been read and
      the colour has parsed; before that the load fails on the field. */
  lemma UnknownTag(obj: JsonObject, parseColor: string -> Option<Color>)
    requires "type" in obj && obj["type"].JString? && KindOfTag(obj["type"].text).None?
    ensures Decode(obj, parseColor).NoShape? <==> WellTyped(obj) && parseColor(obj["color"].text).Some?
    ensures !Decode(obj, parseColor).Built?
  {
    DecodeBuilds(obj, parseColor);
  }

  /** The object holding a shape's data under the seven keys, with the colour
      written as `colorText` gives it. */
  function ObjectOf(d: ShapeData, colorText: Color -> string): (obj: JsonObject)
    ensures WellTyped(obj)
  {
    map["type" := JString(TagOf(d.kind)), "x" := JNumber(d.x), "y" := JNumber(d.y),
        "width" := JNumber(d.width), "height" := JNumber(d.height),
        "label" := JString(d.labelText), "color" := JString(colorText(d.color))]
  }

  /** Loading the object of an unselected shape's data gives that data back,
      provided its colour text parses back to its colour. */
  lemma DecodeObjectOf(d: ShapeData, colorText: Color -> string, parseColor: string -> Option<Color>)
    requires !d.selected
    requires parseColor(colorText(d.color)) == Some(d.color)
    ensures Decode(ObjectOf(d, colorText), parseColor) == Built(d)
  {
  }

  /** `createShapeFromJson`: the load as a function of the object, and the fresh
      shape it builds when it builds one; `null` otherwise. */
  method CreateShapeFromJson(obj: JsonObject, parseColor: string -> Option<Color>) returns (r: Outcome, s: Shape?)
    ensures r == Decode(obj, parseColor)
    ensures s != null <==> r.Built?
    ensures s != null ==> fresh(s) && fresh(s.node) && s.Data() == r.data
  {
    var tag := GetString(obj, "type");
    if tag.None? { return Missing("type"), null; }
    var x := GetDouble(obj, "x");
    if x.None? { return Missing("x"), null; }
    var y := GetDouble(obj, "y");
    if y.None? { return Missing("y"), null; }
    var w := GetDouble(obj, "width");
    if w.None? { return Missing("width"), null; }
    var h := GetDouble(obj, "height");
    if h.None? { return Missing("height"), null; }
    var labelText := GetString(obj, "label");
    if labelText.None? { return Missing("label"), null; }
    var text := GetString(obj, "color");
    if text.None? { return Missing("color"), null; }
    var color := parseColor(text.value);
    if color.None? { return BadColor(text.value), null; }
    var kind := KindOfTag(tag.value);
    if kind.None? { return NoShape, null; }
    s := new Shape(kind.value, x.value, y.value, w.value, h.value, labelText.value);
    s.SetColor(color.value);
    r := Built(s.Data());
  }
}
