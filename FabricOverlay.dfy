/**
 * The interactive drawing surface laid over the rendered page: how the active
 * tool sets the canvas flags, the brush and the pointer-event layering, and how
 * a zoom change rescales every object and the canvas in place.
 */
module FabricOverlay {
  import opened JsValues
  import opened Scene

  /** The smallest change of scale that triggers a rescale. */
  const ScaleEpsilon: real := 0.000001

  /** The brush width used when the requested width is 0 or not a number. */
  const DefaultBrushWidth: int := 4

  /** A scale as the overlay reads it: a missing (zero) scale counts as 1. */
  function EffectiveScale(s: real): (r: real)
    ensures r != 0.0
    ensures s != 0.0 ==> r == s
    ensures s == 0.0 ==> r == 1.0
  {
    if s != 0.0 then s else 1.0
  }

  /** The brush width for the width control's value: `parseInt(width, 10) || 4`. */
  function BrushWidthFrom(width: string): (w: int)
    ensures w != 0
    ensures ParseInt(width, 10).Some? && ParseInt(width, 10).value != 0 ==> w == ParseInt(width, 10).value
    ensures ParseInt(width, 10).None? ==> w == DefaultBrushWidth
    ensures ParseInt(width, 10) == Some(0) ==> w == DefaultBrushWidth
  {
    match ParseInt(width, 10)
    case None => DefaultBrushWidth
    case Some(v) => if v != 0 then v else DefaultBrushWidth
  }

  /**
   * A numeric width is used as it is, except 0, which becomes the default
   * width (for widths below 10^21 in magnitude, which `String` writes in full).
   */
  lemma BrushWidthOfNumber(n: int)
    ensures BrushWidthFrom(Numeral(n)) == if n != 0 then n else DefaultBrushWidth
  {
    if n < 0 {
      ParseIntNegativeNumeral(n);
    } else {
      ParseIntNaturalNumeral(n);
    }
  }

  /** An object moved and scaled by `ratio` about the canvas origin. */
  function ScaleObject(o: SceneObject, ratio: real): (r: SceneObject)
    ensures SameContent(o, r)
  {
    o.(left := o.left * ratio, top := o.top * ratio, scaleX := o.scaleX * ratio, scaleY := o.scaleY * ratio)
  }

  /** Every object scaled by `ratio`, count and order kept. */
  function RescaleAll(objects: seq<SceneObject>, ratio: real): (r: seq<SceneObject>)
    ensures |r| == |objects|
    ensures forall i :: 0 <= i < |r| ==> SameContent(objects[i], r[i])
  {
    seq(|objects|, i requires 0 <= i < |objects| => ScaleObject(objects[i], ratio))
  }

  lemma ScaleObjectComposes(o: SceneObject, a: real, b: real)
    ensures ScaleObject(ScaleObject(o, a), b) == ScaleObject(o, a * b)
  {
    assert o.left * a * b == o.left * (a * b);
    assert o.top * a * b == o.top * (a * b);
    assert o.scaleX * a * b == o.scaleX * (a * b);
    assert o.scaleY * a * b == o.scaleY * (a * b);
  }

  lemma ScaleObjectByOne(o: SceneObject)
    ensures ScaleObject(o, 1.0) == o
  {
  }

  /** Two rescales in a row are one rescale by the product of the ratios. */
  lemma RescaleComposes(objects: seq<SceneObject>, a: real, b: real)
    ensures RescaleAll(RescaleAll(objects, a), b) == RescaleAll(objects, a * b)
  {
    var lhs, rhs := RescaleAll(RescaleAll(objects, a), b), RescaleAll(objects, a * b);
    forall i | 0 <= i < |objects|
      ensures lhs[i] == rhs[i]
    {
      ScaleObjectComposes(objects[i], a, b);
    }
  }

  lemma RatioInverse(a: real, b: real)
    requires a != 0.0 && b != 0.0
    ensures (b / a) * (a / b) == 1.0
  {
    var q, p := b / a, a / b;
    assert q * a == b;
    assert p * b == a;
    assert (q * p) * (a * b) == (q * a) * (p * b);
  }

  lemma RescaleByOne(objects: seq<SceneObject>)
    ensures RescaleAll(objects, 1.0) == objects
  {
    forall i | 0 <= i < |objects|
      ensures RescaleAll(objects, 1.0)[i] == objects[i]
    {
      ScaleObjectByOne(objects[i]);
    }
  }

  /**
   * Zooming from one scale to another and back restores every object's
   * position and scale exactly.
   */
  lemma RescaleRoundTrip(objects: seq<SceneObject>, s1: real, s2: real)
    requires s1 != 0.0 && s2 != 0.0
    ensures RescaleAll(RescaleAll(objects, s2 / s1), s1 / s2) == objects
  {
    var there, back := s2 / s1, s1 / s2;
    RescaleComposes(objects, there, back);
    RatioInverse(s1, s2);
    assert there * back == 1.0;
    RescaleByOne(objects);
  }

  /**
   * A rescale keeps each object where it was relative to the canvas: its left
   * edge as a fraction of the width and its top as a fraction of the height.
   */
  lemma RescaleKeepsProportions(o: SceneObject, width: real, height: real, ratio: real)
    requires width != 0.0 && height != 0.0 && ratio != 0.0
    ensures ScaleObject(o, ratio).left / (width * ratio) == o.left / width
    ensures ScaleObject(o, ratio).top / (height * ratio) == o.top / height
  {
  }

  /** The style the overlay element gets: pointer events, stacking order and cursor. */
  datatype Layering = Layering(pointerEvents: string, zIndex: int, cursor: string)

  /**
   * The layering for a tool: any tool takes pointer events above the page,
   * with a text cursor for the text tool and a crosshair otherwise; no tool
   * lets them through below with the default cursor.
   */
  function LayeringFor(activeTool: Option<Tool>): (l: Layering)
    ensures activeTool.Some? ==> l.pointerEvents == "auto" && l.zIndex == 5000
    ensures activeTool.Some? ==> (l.cursor == "text" <==> activeTool == Some(Text))
    ensures activeTool.Some? && activeTool != Some(Text) ==> l.cursor == "crosshair"
    ensures activeTool.None? ==> l == Layering("none", 1000, "default")
  {
    if activeTool.Some? then Layering("auto", 5000, if activeTool == Some(Text) then "text" else "crosshair")
    else Layering("none", 1000, "default")
  }

  /** The overlay's canvas element and the canvas-library state behind it. */
  class Overlay {
    /** The overlay element exists (it is created once the page wrapper is there). */
    var hasElement: bool
    /** The canvas library has been loaded and the canvas constructed. */
    var hasCanvas: bool
    /** The canvas has a free-drawing brush. */
    var hasBrush: bool
    var layering: Layering
    var isDrawingMode: bool
    var selection: bool
    var skipTargetFind: bool
    var brushColor: string
    var brushWidth: int
    /** The canvas objects in drawing order. */
    var objects: seq<SceneObject>
    var width: real
    var height: real
    /** The scale the objects are currently laid out for, as last seen. */
    var prevScale: real

    /**
     * The canvas as created: rubber-band selection on exactly for the select
     * tool and drawing mode exactly for the pencil, both taken from the tool
     * active at creation; hit testing on; the brush and layering not yet set.
     */
    constructor (activeTool: Option<Tool>, scale: real, hasElement: bool, hasCanvas: bool, hasBrush: bool,
                 objects: seq<SceneObject>, width: real, height: real)
      ensures this.prevScale == scale && this.hasElement == hasElement && this.hasCanvas == hasCanvas
      ensures this.hasBrush == hasBrush && this.objects == objects
      ensures this.width == width && this.height == height
      ensures selection <==> activeTool == Some(Select)
      ensures isDrawingMode <==> activeTool == Some(Pencil)
      ensures layering == Layering("", 0, "") && !skipTargetFind
      ensures brushColor == "" && brushWidth == 1
    {
      this.prevScale := scale;
      this.hasElement := hasElement;
      this.hasCanvas := hasCanvas;
      this.hasBrush := hasBrush;
      this.objects := objects;
      this.width := width;
      this.height := height;
      layering := Layering("", 0, "");
      selection := activeTool == Some(Select);
      isDrawingMode := activeTool == Some(Pencil);
      skipTargetFind := false;
      // Placeholders: the canvas library's own brush defaults are not modelled,
      // and the tool effect sets the brush before the pencil draws.
      brushColor, brushWidth := "", 1;
    }

    /**
     * The tool effect: with a tool the overlay takes pointer events above the
     * page (text cursor for the text tool, crosshair otherwise); without one it
     * lets them through below. Only the pencil draws, and it skips hit testing;
     * only the select tool enables rubber-band selection.
     */
    method ApplyTool(activeTool: Option<Tool>, color: string, widthValue: string)
      modifies this`layering, this`isDrawingMode, this`selection, this`skipTargetFind
      modifies this`brushColor, this`brushWidth
      ensures hasElement ==> layering == LayeringFor(activeTool)
      ensures !hasElement ==> layering == old(layering)
      ensures hasCanvas ==>
        (isDrawingMode <==> activeTool == Some(Pencil)) &&
        (selection <==> activeTool == Some(Select)) &&
        (skipTargetFind <==> activeTool == Some(Pencil))
      ensures hasCanvas && hasBrush && activeTool == Some(Pencil) ==>
        brushColor == color && brushWidth == BrushWidthFrom(widthValue)
      ensures !(hasCanvas && hasBrush && activeTool == Some(Pencil)) ==>
        brushColor == old(brushColor) && brushWidth == old(brushWidth)
      ensures !hasCanvas ==>
        isDrawingMode == old(isDrawingMode) && selection == old(selection) && skipTargetFind == old(skipTargetFind)
    {
      if hasElement {
        layering := LayeringFor(activeTool);
      }
      if !hasCanvas {
        return;
      }
      isDrawingMode := activeTool == Some(Pencil);
      if isDrawingMode && hasBrush {
        SetBrush(color, widthValue);
      }
      selection := activeTool == Some(Select);
      skipTargetFind := activeTool == Some(Pencil);
    }

    /** The free-drawing brush takes the colour and the parsed width. */
    method SetBrush(color: string, widthValue: string)
      modifies this`brushColor, this`brushWidth
      ensures brushColor == color && brushWidth == BrushWidthFrom(widthValue)
    {
      brushColor := color;
      brushWidth := BrushWidthFrom(widthValue);
    }

    /** The `forEach` over the canvas objects: each one moved and scaled by `ratio`, in place. */
    method ScaleObjects(ratio: real)
      modifies this`objects
      ensures objects == RescaleAll(old(objects), ratio)
    {
      var i := 0;
      while i < |objects|
        invariant 0 <= i <= |objects| == |old(objects)|
        invariant forall j :: 0 <= j < i ==> objects[j] == ScaleObject(old(objects)[j], ratio)
        invariant forall j :: i <= j < |objects| ==> objects[j] == old(objects)[j]
      {
        objects := objects[i := ScaleObject(objects[i], ratio)];
        i := i + 1;
      }
    }

    /**
     * The scale effect: when the scale moved by more than the epsilon and the
     * canvas exists, every object's position and scale and the canvas size are
     * multiplied by new/old; the remembered scale always becomes the new one.
     */
    method Rescale(scale: real)
      modifies this`objects, this`width, this`height, this`prevScale
      ensures prevScale == EffectiveScale(scale)
      ensures hasCanvas && Abs(EffectiveScale(scale) - EffectiveScale(old(prevScale))) > ScaleEpsilon ==>
        var ratio := EffectiveScale(scale) / EffectiveScale(old(prevScale));
        objects == RescaleAll(old(objects), ratio) && width == old(width) * ratio && height == old(height) * ratio
      ensures !(hasCanvas && Abs(EffectiveScale(scale) - EffectiveScale(old(prevScale))) > ScaleEpsilon) ==>
        objects == old(objects) && width == old(width) && height == old(height)
    {
      var prev := EffectiveScale(prevScale);
      var next := EffectiveScale(scale);
      if hasCanvas && Abs(next - prev) > ScaleEpsilon {
        var ratio := next / prev;
        ScaleObjects(ratio);
        width, height := width * ratio, height * ratio;
      }
      prevScale := next;
    }
  }
}
