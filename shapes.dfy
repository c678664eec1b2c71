/** The shape record shared by characters and items, and JavaScript's `Math.round`. */
module Shapes {
  import opened Wrappers

  /**
   * One rectangle or circle of a drawing. `kind` is the JSON field `type`, kept as
   * the string the model returned; `zIndex` is `z_index`, absent on shapes whose
   * producer left it out; `scale` is present only on shapes that went through the
   * equip transformation.
   */
  datatype Shape = Shape(
    id: string,
    kind: string,
    x: real,
    y: real,
    width: real,
    height: real,
    color: string,
    zIndex: Option<real>,
    scale: Option<real>)

  const Rectangle: string := "rectangle"

  /** JavaScript `Math.round`: the nearest integer, halves rounded up. */
  function JsRound(v: real): (r: int)
    ensures r as real - 0.5 <= v < r as real + 0.5
  {
    (v + 0.5).Floor
  }

  lemma JsRoundOfInteger(n: int)
    ensures JsRound(n as real) == n
  {
  }

  /** `Math.round` as a JavaScript number again. */
  function Round(v: real): (r: real)
    ensures IsInteger(r)
    ensures r - 0.5 <= v < r + 0.5
  {
    JsRound(v) as real
  }

  predicate IsInteger(v: real) {
    v == v.Floor as real
  }

  /** With circles disabled every shape is made a rectangle; otherwise `type` passes through. */
  function ForceKind(s: Shape, enableCircles: bool): (r: Shape)
    ensures r.kind == (if enableCircles then s.kind else Rectangle)
    ensures r == s.(kind := r.kind)
  {
    if enableCircles then s else s.(kind := Rectangle)
  }

  function ForceKinds(shapes: seq<Shape>, enableCircles: bool): (r: seq<Shape>)
    ensures |r| == |shapes|
    ensures forall i :: 0 <= i < |r| ==> r[i] == ForceKind(shapes[i], enableCircles)
  {
    seq(|shapes|, i requires 0 <= i < |shapes| => ForceKind(shapes[i], enableCircles))
  }

  predicate AllRectangles(shapes: seq<Shape>) {
    forall i :: 0 <= i < |shapes| ==> shapes[i].kind == Rectangle
  }

  function Ids(shapes: seq<Shape>): seq<string> {
    seq(|shapes|, i requires 0 <= i < |shapes| => shapes[i].id)
  }

  /** `Array.prototype.findIndex(shape => shape.id === id)`. */
  function IndexOfId(shapes: seq<Shape>, id: string): (k: int)
    ensures -1 <= k < |shapes|
    ensures k == -1 <==> forall j :: 0 <= j < |shapes| ==> shapes[j].id != id
    ensures k >= 0 ==> shapes[k].id == id && forall j :: 0 <= j < k ==> shapes[j].id != id
  {
    if |shapes| == 0 then -1
    else if shapes[0].id == id then 0
    else
      var k := IndexOfId(shapes[1..], id);
      if k == -1 then -1 else k + 1
  }
}
