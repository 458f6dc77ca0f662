/**
 * The text and eraser tools of the annotation overlay: colour normalisation,
 * text-object construction and styling, the eraser's topmost-hit removal, and
 * the pointer-gesture state that tells a tap from a drag.
 */
module TextTools {
  import opened JsValues
  import opened Scene

  /** The colour used whenever a requested text colour would be invisible. */
  const FallbackColor: string := "#8B4513"

  /** The outline colour given to text drawn without a background. */
  const OutlineColor: string := "#111111"

  /** The soft dark shadow that goes with the outline. */
  const OutlineShadow: Shadow := Shadow("rgba(0,0,0,0.45)", 2, 1, 1)

  // ---------------------------------------------------------------------------
  // Colours

  /**
   * A lower-cased `rgba(...)` colour whose text, once the first "rgba(" and the
   * first ")" are removed, splits at commas into exactly four parts, the last
   * of which parses to 0.
   */
  predicate IsRgbaWithZeroAlpha(v: string)
  {
    var parts := Split(ReplaceFirst(ReplaceFirst(v, "rgba(", ""), ")", ""), ',');
    |parts| == 4 && ParseFloatIsZero(parts[3])
  }

  /**
   * The colours that would draw nothing: an empty value, "transparent" in any
   * case and with surrounding whitespace, and an rgba colour with alpha 0.
   */
  predicate IsInvisibleColor(col: string)
  {
    var v := ToLower(Trim(col));
    col == "" || v == "transparent" || ("rgba" <= v && IsRgbaWithZeroAlpha(v))
  }

  lemma FallbackColorIsVisible()
    ensures !IsInvisibleColor(FallbackColor)
  {
    assert TrimStart(FallbackColor) == FallbackColor;
    assert TrimEnd(FallbackColor) == FallbackColor;
    assert Trim(FallbackColor) == FallbackColor;
    assert ToLower(FallbackColor) == "#8b4513";
    assert !("rgba" <= "#8b4513") by { assert "#8b4513"[0] == '#'; }
  }

  /**
   * `normalizeColorOrFallback`: an invisible colour becomes the fallback colour,
   * any other colour is returned unchanged; the result is never invisible.
   */
  function NormalizeColorOrFallback(col: string): (r: string)
    ensures r == col || r == FallbackColor
    ensures !IsInvisibleColor(r)
    ensures r == col <==> !IsInvisibleColor(col)
  {
    FallbackColorIsVisible();
    if col == "" then FallbackColor
    else
      var v := ToLower(Trim(col));
      if v == "transparent" then FallbackColor
      else if "rgba" <= v then
        var parts := Split(ReplaceFirst(ReplaceFirst(v, "rgba(", ""), ")", ""), ',');
        if |parts| == 4 && ParseFloatIsZero(parts[3]) then FallbackColor else col
      else col
  }

  /** Normalising twice is normalising once. */
  lemma NormalizeIdempotent(col: string)
    ensures NormalizeColorOrFallback(NormalizeColorOrFallback(col)) == NormalizeColorOrFallback(col)
  {
  }

  /** The components `hexToRgb` reads; `None` is `NaN`. */
  datatype Rgb = Rgb(r: Option<int>, g: Option<int>, b: Option<int>)

  /**
   * `hexToRgb`: `None` (null) for empty input; otherwise the first "#" is removed,
   * three characters give doubled-digit components, anything else gives the
   * components of the pairs at 0, 2 and 4.
   */
  function HexToRgb(hex: string): (c: Option<Rgb>)
    ensures c.None? <==> hex == ""
  {
    if hex == "" then None
    else
      var s := ReplaceFirst(hex, "#", "");
      if |s| == 3 then
        Some(Rgb(ParseInt([s[0], s[0]], 16), ParseInt([s[1], s[1]], 16), ParseInt([s[2], s[2]], 16)))
      else
        Some(Rgb(ParseInt(Substr(s, 0, 2), 16), ParseInt(Substr(s, 2, 2), 16), ParseInt(Substr(s, 4, 2), 16)))
  }

  predicate IsHexDigit(c: char)
  {
    DigitValue(c) < 16
  }

  lemma HexDigitIsPlain(c: char)
    requires IsHexDigit(c)
    ensures !IsWhitespace(c) && c != '-' && c != '+' && c != 'x' && c != 'X'
  {
  }

  /** Two hexadecimal digits parse to their value, a byte. */
  lemma HexPairValue(pair: string)
    requires |pair| == 2 && IsHexDigit(pair[0]) && IsHexDigit(pair[1])
    ensures ParseInt(pair, 16) == Some(16 * DigitValue(pair[0]) + DigitValue(pair[1]))
    ensures 0 <= 16 * DigitValue(pair[0]) + DigitValue(pair[1]) <= 255
  {
    var x, y := pair[0], pair[1];
    assert pair == [x, y];
    HexDigitIsPlain(x);
    HexDigitIsPlain(y);
    assert TrimStart([x, y]) == [x, y];
    assert DigitPrefix([y], 16) == [y];
    assert DigitPrefix([x, y], 16) == [x, y];
    assert [x, y][..1] == [x];
    assert DigitsValue([x], 16) == DigitValue(x) by {
      assert [x][..0] == [];
    }
  }

  /** The short form "#abc" means the same colour as "#aabbcc". */
  lemma HexShortFormDoublesDigits(a: char, b: char, c: char)
    ensures HexToRgb(['#', a, b, c]) == HexToRgb(['#', a, a, b, b, c, c])
  {
    var short, long := ['#', a, b, c], ['#', a, a, b, b, c, c];
    assert OccursAt(short, "#", 0) && OccursAt(long, "#", 0);
    assert ReplaceFirst(short, "#", "") == [a, b, c];
    assert ReplaceFirst(long, "#", "") == [a, a, b, b, c, c];
    var s := [a, a, b, b, c, c];
    assert Substr(s, 0, 2) == [a, a] && Substr(s, 2, 2) == [b, b] && Substr(s, 4, 2) == [c, c];
  }

  /** `hexToRgb` drops a leading "#" and keeps the rest. */
  lemma LeadingHashStripped(s: string)
    ensures ReplaceFirst("#" + s, "#", "") == s
  {
    assert OccursAt("#" + s, "#", 0);
    assert IndexOf("#" + s, "#", 0) == Some(0);
  }

  /** The byte the two hexadecimal digits at `k` spell: `16 * hi + lo`. */
  function ByteAt(s: string, k: nat): int
    requires k + 2 <= |s|
  {
    16 * DigitValue(s[k]) + DigitValue(s[k + 1])
  }

  /** The pair of hexadecimal digits at `k` is read as the byte it spells. */
  lemma HexPairAt(s: string, k: nat)
    requires k + 2 <= |s| && IsHexDigit(s[k]) && IsHexDigit(s[k + 1])
    ensures ParseInt(Substr(s, k, 2), 16) == Some(ByteAt(s, k))
    ensures 0 <= ByteAt(s, k) <= 255
  {
    // The digits are neither whitespace nor a sign nor an "x", so parseInt reads both.
    HexDigitIsPlain(s[k]);
    HexDigitIsPlain(s[k + 1]);
    var pair := Substr(s, k, 2);
    assert |pair| == 2 && pair[0] == s[k] && pair[1] == s[k + 1];
    HexPairValue(pair);
  }

  /** "#rrggbb" of six hexadecimal digits is read as the three bytes it spells. */
  lemma HexSixDigits(s: string)
    requires |s| == 6 && forall k :: 0 <= k < 6 ==> IsHexDigit(s[k])
    ensures HexToRgb("#" + s) == Some(Rgb(Some(ByteAt(s, 0)), Some(ByteAt(s, 2)), Some(ByteAt(s, 4))))
    ensures 0 <= ByteAt(s, 0) <= 255 && 0 <= ByteAt(s, 2) <= 255 && 0 <= ByteAt(s, 4) <= 255
  {
    LeadingHashStripped(s);
    HexPairAt(s, 0);
    HexPairAt(s, 2);
    HexPairAt(s, 4);
  }

  // ---------------------------------------------------------------------------
  // Outline stroke

  /**
   * The outline width for a font size: `max(1, round(fontSize * 0.08))`. It is
   * at least 1, is 1 exactly when the scaled size is below 1.5, and otherwise is
   * the integer nearest to the scaled size.
   */
  function StrokeWidthFor(fontSize: int): (w: int)
    ensures w >= 1
    ensures w == 1 <==> (fontSize as real) * 0.08 < 1.5
    ensures w > 1 ==> (w as real) - 0.5 <= (fontSize as real) * 0.08 < (w as real) + 0.5
  {
    var rounded := (4 * fontSize + 25) / 50;
    assert 50 * rounded <= 4 * fontSize + 25 < 50 * rounded + 50;
    assert (fontSize as real) * 0.08 == (4 * fontSize) as real / 50.0;
    if rounded > 1 then rounded else 1
  }

  /** The font size an object is drawn with: its own, or 18 when it has none. */
  function EffectiveFontSize(o: SceneObject): (fs: int)
    ensures fs != 0
    ensures o.fontSize != 0 ==> fs == o.fontSize
    ensures o.fontSize == 0 ==> fs == 18
  {
    if o.fontSize != 0 then o.fontSize else 18
  }

  /**
   * `ensureVisibleStroke`: with a background colour the text loses its outline;
   * without one it gets the dark outline, of a width that grows with the font
   * size, painted under the fill, and the outline shadow. Nothing else changes.
   */
  function EnsureVisibleStroke(o: SceneObject, backgroundColor: string): (r: SceneObject)
    ensures backgroundColor != "" ==>
      r.stroke.None? && r.strokeWidth == 0 && r.shadow == o.shadow &&
      r.strokeUniform == o.strokeUniform && r.strokeLineJoin == o.strokeLineJoin && r.paintFirst == o.paintFirst
    ensures backgroundColor == "" ==>
      r.stroke == Some(OutlineColor) && r.strokeWidth >= 1 && r.strokeWidth == StrokeWidthFor(EffectiveFontSize(o)) &&
      r.strokeUniform && r.strokeLineJoin == "round" && r.paintFirst == "stroke" && r.shadow == Some(OutlineShadow)
    ensures r.(stroke := o.stroke, strokeWidth := o.strokeWidth, strokeUniform := o.strokeUniform,
               strokeLineJoin := o.strokeLineJoin, paintFirst := o.paintFirst, shadow := o.shadow) == o
  {
    if backgroundColor != "" then
      o.(stroke := None, strokeWidth := 0)
    else
      o.(stroke := Some(OutlineColor), strokeWidth := StrokeWidthFor(EffectiveFontSize(o)),
         strokeUniform := true, strokeLineJoin := "round", paintFirst := "stroke",
         shadow := Some(OutlineShadow))
  }

  // ---------------------------------------------------------------------------
  // New text objects

  /** The font size a new text object gets: at least 14, 18 when none is set. */
  function NewTextFontSize(requested: int): (fs: int)
    ensures fs >= 14
    ensures requested >= 14 ==> fs == requested
    ensures requested == 0 ==> fs == 18
    ensures requested != 0 && requested < 14 ==> fs == 14
  {
    var wanted := if requested != 0 then requested else 18;
    if wanted > 14 then wanted else 14
  }

  /**
   * `createTextObjectAt`: an editable text object reading "Text", placed at the
   * pointer, unscaled, opaque and selectable, styled from the text properties.
   */
  function CreateTextObjectAt(pointer: Point, tp: TextProps): (o: SceneObject)
    ensures o.kind == IText && o.text == "Text"
    ensures o.left == pointer.x && o.top == pointer.y && o.scaleX == 1.0 && o.scaleY == 1.0
    ensures o.fontSize == NewTextFontSize(tp.fontSize) && o.fontSize >= 14
    ensures o.fill == NormalizeColorOrFallback(tp.fill)
    ensures !IsInvisibleColor(o.fill) && (!IsInvisibleColor(tp.fill) ==> o.fill == tp.fill)
    ensures o.fontWeight == (if tp.bold then "bold" else "normal")
    ensures o.fontStyle == (if tp.italic then "italic" else "normal")
    ensures tp.fontFamily != "" ==> o.fontFamily == tp.fontFamily
    ensures tp.fontFamily == "" ==> o.fontFamily == "Arial"
    ensures o.backgroundColor == tp.backgroundColor
    ensures o.selectable && o.opacity == 1.0 && o.shadow.None? && o.stroke.None?
    ensures o.strokeWidth == 1 && !o.strokeUniform && o.strokeLineJoin == "miter" && o.paintFirst == "fill"
  {
    SceneObject(
      kind := IText,
      left := pointer.x, top := pointer.y, scaleX := 1.0, scaleY := 1.0,
      text := "Text",
      fill := NormalizeColorOrFallback(tp.fill),
      fontSize := NewTextFontSize(tp.fontSize),
      fontFamily := if tp.fontFamily != "" then tp.fontFamily else "Arial",
      fontWeight := if tp.bold then "bold" else "normal",
      fontStyle := if tp.italic then "italic" else "normal",
      backgroundColor := tp.backgroundColor,
      // The canvas library's defaults for the outline of a new object.
      stroke := None, strokeWidth := 1, strokeUniform := false,
      strokeLineJoin := "miter", paintFirst := "fill",
      shadow := None,
      opacity := 1.0,
      selectable := true)
  }

  /** The drop shadow a text gets when the shadow option is on, in its requested colour. */
  function TextShadow(tp: TextProps): Shadow
  {
    Shadow(if tp.fill != "" then tp.fill else "#000000", 2, 2, 2)
  }

  /**
   * The object `createTextAtPointer` adds: the new text object, with the text
   * shadow when requested, then made visible against the page.
   */
  function NewTextAtPointer(pointer: Point, tp: TextProps): (o: SceneObject)
    ensures o.kind == IText && o.text == "Text" && o.left == pointer.x && o.top == pointer.y
    ensures o.scaleX == 1.0 && o.scaleY == 1.0 && o.selectable && o.opacity == 1.0
    ensures o.fontSize == NewTextFontSize(tp.fontSize) && o.fontSize >= 14
    ensures o.fill == NormalizeColorOrFallback(tp.fill) && !IsInvisibleColor(o.fill)
    ensures o.fontWeight == (if tp.bold then "bold" else "normal")
    ensures o.fontStyle == (if tp.italic then "italic" else "normal")
    ensures o.fontFamily == (if tp.fontFamily != "" then tp.fontFamily else "Arial")
    ensures o.backgroundColor == tp.backgroundColor
    ensures tp.backgroundColor == "" ==>
      o.stroke == Some(OutlineColor) && o.strokeWidth == StrokeWidthFor(o.fontSize) && o.shadow == Some(OutlineShadow)
    ensures tp.backgroundColor == "" ==> o.strokeUniform && o.strokeLineJoin == "round" && o.paintFirst == "stroke"
    ensures tp.backgroundColor != "" ==>
      o.stroke.None? && o.strokeWidth == 0 && o.shadow == (if tp.shadow then Some(TextShadow(tp)) else None)
    ensures tp.backgroundColor != "" ==> !o.strokeUniform && o.strokeLineJoin == "miter" && o.paintFirst == "fill"
  {
    var it := CreateTextObjectAt(pointer, tp);
    var shaded := if tp.shadow then it.(shadow := Some(TextShadow(tp))) else it;
    EnsureVisibleStroke(shaded, tp.backgroundColor)
  }

  // ---------------------------------------------------------------------------
  // Styling the selected text

  /** The properties `notifySelection` reports for a selected text object. */
  function TextPropsOf(o: SceneObject): (tp: TextProps)
    ensures tp.fontSize == EffectiveFontSize(o) && tp.fontSize != 0
    ensures o.fontFamily != "" ==> tp.fontFamily == o.fontFamily
    ensures o.fontFamily == "" ==> tp.fontFamily == "Arial"
    ensures o.fill != "" ==> tp.fill == o.fill
    ensures o.fill == "" ==> tp.fill == FallbackColor
    ensures tp.backgroundColor == o.backgroundColor
    ensures tp.bold <==> o.fontWeight == "bold"
    ensures tp.italic <==> o.fontStyle == "italic"
    ensures tp.shadow <==> o.shadow.Some?
  {
    TextProps(
      fontSize := EffectiveFontSize(o),
      fontFamily := if o.fontFamily != "" then o.fontFamily else "Arial",
      bold := o.fontWeight == "bold",
      italic := o.fontStyle == "italic",
      fill := if o.fill != "" then o.fill else FallbackColor,
      backgroundColor := o.backgroundColor,
      shadow := o.shadow.Some?)
  }

  /**
   * The `set` calls of `applyTextPropsToActive` before the outline rule, given
   * the fill it computed first: the requested style, falling back to the
   * object's own size and family, that fill, full opacity and the requested
   * shadow.
   */
  function Restyled(o: SceneObject, tp: TextProps, fill: string): (r: SceneObject)
    ensures r.kind == o.kind && r.text == o.text && r.left == o.left && r.top == o.top
    ensures r.scaleX == o.scaleX && r.scaleY == o.scaleY && r.selectable == o.selectable
    ensures r.opacity == 1.0 && r.fill == fill
    ensures r.fontSize != 0
    ensures tp.fontSize != 0 ==> r.fontSize == tp.fontSize
    ensures tp.fontSize == 0 ==> r.fontSize == EffectiveFontSize(o)
    ensures tp.fontFamily != "" ==> r.fontFamily == tp.fontFamily
    ensures tp.fontFamily == "" ==> r.fontFamily == o.fontFamily
    ensures r.fontWeight == (if tp.bold then "bold" else "normal")
    ensures r.fontStyle == (if tp.italic then "italic" else "normal")
    ensures r.backgroundColor == tp.backgroundColor
    ensures r.shadow == (if tp.shadow then Some(TextShadow(tp)) else None)
    ensures r.stroke == o.stroke && r.strokeWidth == o.strokeWidth
    ensures r.strokeUniform == o.strokeUniform && r.strokeLineJoin == o.strokeLineJoin && r.paintFirst == o.paintFirst
  {
    o.(
      fontSize := if tp.fontSize != 0 then tp.fontSize else EffectiveFontSize(o),
      fontFamily := if tp.fontFamily != "" then tp.fontFamily else o.fontFamily,
      fontWeight := if tp.bold then "bold" else "normal",
      fontStyle := if tp.italic then "italic" else "normal",
      fill := fill,
      backgroundColor := tp.backgroundColor,
      opacity := 1.0,
      shadow := if tp.shadow then Some(TextShadow(tp)) else None)
  }

  /**
   * What `applyTextPropsToActive` does to a text object: the restyling, then
   * the outline rule (which, without a background colour, replaces the shadow
   * by the outline shadow).
   */
  function ApplyTextProps(o: SceneObject, tp: TextProps): (r: SceneObject)
    ensures r.kind == o.kind && r.text == o.text && r.left == o.left && r.top == o.top
    ensures r.scaleX == o.scaleX && r.scaleY == o.scaleY && r.selectable == o.selectable
    ensures r.opacity == 1.0
    ensures !IsInvisibleColor(r.fill)
    ensures r.fill == NormalizeColorOrFallback(if tp.fill != "" then tp.fill else o.fill)
    ensures r.fontSize != 0
    ensures tp.fontSize != 0 ==> r.fontSize == tp.fontSize
    ensures tp.fontSize == 0 ==> r.fontSize == EffectiveFontSize(o)
    ensures tp.fontFamily != "" ==> r.fontFamily == tp.fontFamily
    ensures tp.fontFamily == "" ==> r.fontFamily == o.fontFamily
    ensures r.fontWeight == (if tp.bold then "bold" else "normal")
    ensures r.fontStyle == (if tp.italic then "italic" else "normal")
    ensures r.backgroundColor == tp.backgroundColor
    ensures tp.backgroundColor != "" ==>
      r.stroke.None? && r.strokeWidth == 0 && r.shadow == (if tp.shadow then Some(TextShadow(tp)) else None)
    ensures tp.backgroundColor == "" ==>
      r.stroke == Some(OutlineColor) && r.strokeWidth == StrokeWidthFor(r.fontSize) && r.shadow == Some(OutlineShadow)
    ensures tp.backgroundColor == "" ==> r.strokeUniform && r.strokeLineJoin == "round" && r.paintFirst == "stroke"
    ensures tp.backgroundColor != "" ==>
      r.strokeUniform == o.strokeUniform && r.strokeLineJoin == o.strokeLineJoin && r.paintFirst == o.paintFirst
  {
    var fill := NormalizeColorOrFallback(if tp.fill != "" then tp.fill else o.fill);
    var styled := Restyled(o, tp, fill);
    var r := EnsureVisibleStroke(styled, tp.backgroundColor);
    assert r.fill == styled.fill && r.fontSize == styled.fontSize && r.opacity == styled.opacity;
    r
  }

  /**
   * The style the selection reports, applied back to the same object, leaves its
   * font, colour and background as they were (for a text whose size, family,
   * weight, style and colour are explicit and visible).
   */
  lemma ReportedPropsReapplyUnchanged(o: SceneObject)
    requires o.fontSize != 0 && o.fontFamily != ""
    requires o.fontWeight == "bold" || o.fontWeight == "normal"
    requires o.fontStyle == "italic" || o.fontStyle == "normal"
    requires !IsInvisibleColor(o.fill)
    ensures var r := ApplyTextProps(o, TextPropsOf(o));
      r.fontSize == o.fontSize && r.fontFamily == o.fontFamily &&
      r.fontWeight == o.fontWeight && r.fontStyle == o.fontStyle &&
      r.fill == o.fill && r.backgroundColor == o.backgroundColor
  {
  }

  // ---------------------------------------------------------------------------
  // Eraser

  /**
   * The index of the topmost object (the last in drawing order) that contains
   * the point, if any. `contains` is the canvas library's hit test.
   */
  function TopmostHit(objects: seq<SceneObject>, p: Point, contains: (SceneObject, Point) -> bool): (r: Option<nat>)
    ensures r.Some? ==> r.value < |objects| && contains(objects[r.value], p)
    ensures r.Some? ==> forall j :: r.value < j < |objects| ==> !contains(objects[j], p)
    ensures r.None? ==> forall j :: 0 <= j < |objects| ==> !contains(objects[j], p)
  {
    if objects == [] then None
    else if contains(objects[|objects| - 1], p) then Some(|objects| - 1)
    else TopmostHit(objects[..|objects| - 1], p, contains)
  }

  /** A point inside exactly one object singles that object out. */
  lemma SingleHitIsTopmost(objects: seq<SceneObject>, p: Point, contains: (SceneObject, Point) -> bool, k: nat)
    requires k < |objects| && contains(objects[k], p)
    requires forall j :: 0 <= j < |objects| && j != k ==> !contains(objects[j], p)
    ensures TopmostHit(objects, p, contains) == Some(k)
  {
  }

  // ---------------------------------------------------------------------------
  // The tools attached to one canvas

  /**
   * The handlers `attachTextHandlers` installs on a canvas, with the canvas's
   * object list and active object, the calls made to the selection callback,
   * and the gesture state shared by the pointer handlers.
   */
  class TextToolHandler {
    /** The canvas objects in drawing order (last is topmost). */
    var objects: seq<SceneObject>
    /** The canvas's active object, by position in `objects`. */
    var activeObject: Option<nat>
    /** The arguments of the selection callback so far (None is `null`). */
    var notified: seq<Option<TextProps>>
    var isDown: bool
    var downPos: Option<Point>
    var moved: bool
    var downTarget: Option<nat>

    ghost predicate Valid()
      reads this
    {
      activeObject.Some? ==> activeObject.value < |objects|
    }

    /** No gesture is in progress. */
    ghost predicate Idle()
      reads this
    {
      !isDown && downPos.None? && downTarget.None?
    }

    constructor (objects: seq<SceneObject>)
      ensures Valid() && Idle() && !moved
      ensures this.objects == objects && activeObject.None? && notified == []
    {
      this.objects := objects;
      activeObject := None;
      notified := [];
      isDown := false;
      downPos := None;
      moved := false;
      downTarget := None;
    }

    /** What `notifySelection` would report now: the selected text's style, or null. */
    function SelectionReport(): (r: Option<TextProps>)
      reads this
      requires Valid()
      ensures r.Some? <==> activeObject.Some? && objects[activeObject.value].kind == IText
      ensures r.Some? ==> r.value == TextPropsOf(objects[activeObject.value])
    {
      match activeObject
      case None => None
      case Some(i) => if objects[i].kind == IText then Some(TextPropsOf(objects[i])) else None
    }

    /** `notifySelection`: passes the selected text's style, or null, to the callback. */
    method NotifySelection()
      requires Valid()
      modifies this`notified
      ensures notified == old(notified) + [SelectionReport()]
    {
      notified := notified + [SelectionReport()];
    }

    /** The "selection:cleared" handler: the callback receives null. */
    method SelectionCleared()
      modifies this`notified
      ensures notified == old(notified) + [None]
    {
      notified := notified + [None];
    }

    /**
     * `eraseAtEvent`: removes the target the event or the canvas hit test names;
     * failing that, scans from the topmost object down and removes the first that
     * contains the point. At most one object goes, the rest keep their order, and
     * a miss changes nothing.
     */
    method EraseAtEvent(target: Option<nat>, p: Point, contains: (SceneObject, Point) -> bool) returns (erased: bool)
      requires Valid()
      requires target.Some? ==> target.value < |objects|
      modifies this`objects, this`activeObject
      ensures Valid()
      ensures erased <==> target.Some? || TopmostHit(old(objects), p, contains).Some?
      ensures target.Some? ==> objects == RemoveAt(old(objects), target.value)
      ensures target.None? && erased ==> objects == RemoveAt(old(objects), TopmostHit(old(objects), p, contains).value)
      ensures !erased ==> objects == old(objects) && activeObject == old(activeObject)
      ensures erased ==> activeObject.None?
    {
      if target.Some? {
        objects := RemoveAt(objects, target.value);
        activeObject := None;
        return true;
      }
      var i := |objects|;
      while i > 0
        invariant 0 <= i <= |objects|
        invariant objects == old(objects) && activeObject == old(activeObject)
        invariant TopmostHit(objects, p, contains) == TopmostHit(objects[..i], p, contains)
      {
        assert objects[..i][..i - 1] == objects[..i - 1];
        if contains(objects[i - 1], p) {
          objects := RemoveAt(objects, i - 1);
          activeObject := None;
          return true;
        }
        i := i - 1;
      }
      return false;
    }

    /**
     * `onMouseDown`: starts a gesture at the pointer (clearing `moved`); with the
     * eraser active it also erases, and a successful erase ends the press.
     */
    method OnMouseDown(tool: Option<Tool>, pointer: Point, target: Option<nat>, contains: (SceneObject, Point) -> bool)
      requires Valid()
      requires target.Some? ==> target.value < |objects|
      modifies this
      ensures Valid() && notified == old(notified)
      ensures !moved && downPos == Some(pointer) && downTarget == target
      ensures tool != Some(Eraser) ==> isDown && objects == old(objects) && activeObject == old(activeObject)
      ensures tool == Some(Eraser) ==>
        var erased := target.Some? || TopmostHit(old(objects), p := pointer, contains := contains).Some?;
        isDown == !erased && (erased ==> |objects| == |old(objects)| - 1) && (!erased ==> objects == old(objects))
      ensures tool == Some(Eraser) && target.Some? ==>
        objects == RemoveAt(old(objects), target.value) && activeObject.None?
      ensures tool == Some(Eraser) && target.None? && TopmostHit(old(objects), pointer, contains).Some? ==>
        objects == RemoveAt(old(objects), TopmostHit(old(objects), pointer, contains).value) && activeObject.None?
      ensures tool == Some(Eraser) && target.None? && TopmostHit(old(objects), pointer, contains).None? ==>
        activeObject == old(activeObject)
    {
      isDown := true;
      moved := false;
      downPos := Some(pointer);
      downTarget := target;
      if tool == Some(Eraser) {
        var erased := EraseAtEvent(target, pointer, contains);
        if erased {
          isDown := false;
        }
      }
    }

    /**
     * `onMouseMove`: while the button is down, a pointer more than 4 pixels away
     * from where it went down (on either axis) marks the gesture as a drag.
     */
    method OnMouseMove(pointer: Point)
      modifies this`moved
      ensures moved <==> (old(moved) ||
        (isDown && downPos.Some? &&
         (Abs(pointer.x - downPos.value.x) > 4.0 || Abs(pointer.y - downPos.value.y) > 4.0)))
      ensures !isDown ==> moved == old(moved)
    {
      if !isDown {
        return;
      }
      if downPos.None? {
        return;
      }
      var dx := Abs(pointer.x - downPos.value.x);
      var dy := Abs(pointer.y - downPos.value.y);
      if !moved && (dx > 4.0 || dy > 4.0) {
        moved := true;
      }
    }

    /**
     * `onMouseUp`: always ends the gesture. With the text tool, a drag does
     * nothing more, a tap on a text object selects it, and any other tap adds
     * exactly one new text object at the pointer and selects it.
     */
    method OnMouseUp(tool: Option<Tool>, upTarget: Option<nat>, pointer: Point, tp: TextProps)
      requires Valid()
      requires upTarget.Some? ==> upTarget.value < |objects|
      modifies this`objects, this`activeObject, this`notified, this`isDown, this`downPos, this`downTarget
      ensures Valid() && Idle()
      ensures tool != Some(Text) || old(moved) ==>
        objects == old(objects) && activeObject == old(activeObject) && notified == old(notified)
      ensures tool == Some(Text) && !old(moved) && upTarget.Some? && old(objects)[upTarget.value].kind == IText ==>
        objects == old(objects) && activeObject == upTarget &&
        notified == old(notified) + [Some(TextPropsOf(objects[upTarget.value]))]
      ensures tool == Some(Text) && !old(moved) && !(upTarget.Some? && old(objects)[upTarget.value].kind == IText) ==>
        objects == old(objects) + [NewTextAtPointer(pointer, tp)] && activeObject == Some(|old(objects)|) &&
        notified == old(notified) + [Some(TextPropsOf(NewTextAtPointer(pointer, tp)))]
    {
      if tool == Some(Text) {
        if moved {
          isDown, downPos, downTarget := false, None, None;
          return;
        }
        if upTarget.Some? && objects[upTarget.value].kind == IText {
          activeObject := upTarget;
          NotifySelection();
          isDown, downPos, downTarget := false, None, None;
          return;
        }
        CreateTextAtPointer(pointer, tp);
        isDown, downPos, downTarget := false, None, None;
        return;
      }
      isDown, downPos, downTarget := false, None, None;
    }

    /** `createTextAtPointer`: adds the new text object, selects it and reports it. */
    method CreateTextAtPointer(pointer: Point, tp: TextProps)
      requires Valid()
      modifies this`objects, this`activeObject, this`notified
      ensures Valid()
      ensures objects == old(objects) + [NewTextAtPointer(pointer, tp)]
      ensures activeObject == Some(|old(objects)|)
      ensures notified == old(notified) + [Some(TextPropsOf(NewTextAtPointer(pointer, tp)))]
    {
      AddAndSelect(NewTextAtPointer(pointer, tp));
    }

    /** `canvas.add` then `setActiveObject` on a text object, then `notifySelection`. */
    method AddAndSelect(it: SceneObject)
      requires Valid() && it.kind == IText
      modifies this`objects, this`activeObject, this`notified
      ensures Valid()
      ensures objects == old(objects) + [it]
      ensures activeObject == Some(|old(objects)|)
      ensures notified == old(notified) + [Some(TextPropsOf(it))]
    {
      objects := objects + [it];
      activeObject := Some(|objects| - 1);
      NotifySelection();
    }

    /**
     * `applyTextPropsToActive`: restyles the active object when it is a text
     * object, and changes nothing otherwise.
     */
    method ApplyTextPropsToActive(tp: TextProps)
      requires Valid()
      modifies this`objects
      ensures Valid()
      ensures activeObject.Some? && old(objects)[activeObject.value].kind == IText ==>
        objects == old(objects)[activeObject.value := ApplyTextProps(old(objects)[activeObject.value], tp)]
      ensures !(activeObject.Some? && old(objects)[activeObject.value].kind == IText) ==> objects == old(objects)
    {
      if activeObject.None? {
        return;
      }
      var i := activeObject.value;
      if objects[i].kind != IText {
        return;
      }
      objects := objects[i := ApplyTextProps(objects[i], tp)];
    }
  }
}
