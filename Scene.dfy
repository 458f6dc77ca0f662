/**
 * The records the annotation overlay works on: pointer positions, the drawable
 * objects of the interactive canvas (free-hand paths and editable text), the
 * tools of the viewer and the text properties the toolbar edits.
 */
module Scene {
  import opened JsValues

  /** A pointer position in canvas coordinates. */
  datatype Point = Point(x: real, y: real)

  /** The object kinds on the overlay: editable text ("i-text") and free-hand strokes. */
  datatype Kind = IText | Path

  datatype Shadow = Shadow(color: string, blur: int, offsetX: int, offsetY: int)

  /**
   * One drawable object. Missing JavaScript values are folded into their falsy
   * counterpart: an absent string is "", an absent font size is 0.
   */
  datatype SceneObject = SceneObject(
    kind: Kind,
    left: real, top: real, scaleX: real, scaleY: real,
    text: string,
    fill: string,
    fontSize: int, fontFamily: string, fontWeight: string, fontStyle: string,
    backgroundColor: string,
    stroke: Option<string>, strokeWidth: int, strokeUniform: bool,
    strokeLineJoin: string, paintFirst: string,
    shadow: Option<Shadow>,
    opacity: real,
    selectable: bool)

  /** The annotation tools; "no tool" is `None` of an `Option<Tool>`. */
  datatype Tool = Pencil | Eraser | Text | Select

  /** The text style the toolbar edits and the selection reports. */
  datatype TextProps = TextProps(
    fontSize: int, fontFamily: string, bold: bool, italic: bool,
    fill: string, backgroundColor: string, shadow: bool)

  /** Everything of an object except its geometry (position and scale) is the same. */
  predicate SameContent(a: SceneObject, b: SceneObject)
  {
    a.(left := b.left, top := b.top, scaleX := b.scaleX, scaleY := b.scaleY) == b
  }

  /** The list `s` with the element at `k` removed, as the canvas's `remove` leaves it. */
  function RemoveAt<T>(s: seq<T>, k: nat): (r: seq<T>)
    requires k < |s|
    ensures |r| == |s| - 1
    ensures forall j :: 0 <= j < k ==> r[j] == s[j]
    ensures forall j :: k <= j < |r| ==> r[j] == s[j + 1]
  {
    s[..k] + s[k + 1..]
  }
}
