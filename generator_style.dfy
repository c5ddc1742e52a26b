/** The style mapper and widget lifecycle of the qr-generatetor preview
    component (qr-generatetor/components/custom-qr-code.tsx). This copy
    declares no shape unions: its mappers return the library's shape names
    as plain strings. The lemmas at the end show that it agrees, for every
    input, with the genqr copy in GenqrStyle. */
module GeneratorStyle {
  import opened JsText
  import G = GenqrStyle

  datatype ShapeOptions = ShapeOptions(shape: string, color: string)

  /** `getDotsOptions`: the colour is computed first, then a `switch` on
      `dotType` returns the shape name. */
  function GetDotsOptions(p: G.Props): ShapeOptions {
    var color := SlotOr(p.colors, 3, p.fgColor);
    match p.dotType
    case "circle" => ShapeOptions("dots", color)
    case "rounded-square" => ShapeOptions("rounded", color)
    case "extra-rounded" => ShapeOptions("extra-rounded", color)
    case "diamond" => ShapeOptions("classy-rounded", color)
    case _ => ShapeOptions("square", color)
  }

  /** `getCornerSquareOptions`. */
  function GetCornerSquareOptions(p: G.Props): ShapeOptions {
    var shape :=
      if p.pattern == "dots" then "dot"
      else if p.pattern == "rounded" || p.pattern == "classy-rounded" then "extra-rounded"
      else if p.pattern == "classy" then "classy"
      else "square";
    ShapeOptions(shape, SlotOr(p.colors, 0, p.fgColor))
  }

  /** `getCornerDotOptions`. */
  function GetCornerDotOptions(p: G.Props): ShapeOptions {
    var shape :=
      if p.pattern == "dots" then "dot"
      else if p.pattern == "rounded" || p.pattern == "classy-rounded" then "rounded"
      else if p.pattern == "classy" then "classy"
      else "square";
    ShapeOptions(shape, SlotOr(p.colors, 1, p.fgColor))
  }

  /** `includeMargin ? 10 : 0`. */
  function Margin(includeMargin: bool): (m: int)
    ensures includeMargin <==> m == 10
    ensures !includeMargin <==> m == 0
  {
    if includeMargin then 10 else 0
  }

  // ---------------------------------------------------------------------
  // Names of the library's shapes, as the library spells them

  function DotName(t: G.DotType): string {
    match t
    case Square => "square"
    case Dots => "dots"
    case Rounded => "rounded"
    case Classy => "classy"
    case ClassyRounded => "classy-rounded"
    case ExtraRounded => "extra-rounded"
  }

  function CornerSquareName(t: G.CornerSquareType): string {
    match t
    case CsSquare => "square"
    case CsDot => "dot"
    case CsExtraRounded => "extra-rounded"
    case CsClassy => "classy"
  }

  function CornerDotName(t: G.CornerDotType): string {
    match t
    case CdSquare => "square"
    case CdDot => "dot"
    case CdRounded => "rounded"
    case CdClassy => "classy"
  }

  /** The shape names are distinct, so a name determines its shape. */
  lemma NamesInjective(a: G.DotType, b: G.DotType, c: G.CornerSquareType, d: G.CornerSquareType,
                       e: G.CornerDotType, f: G.CornerDotType)
    ensures DotName(a) == DotName(b) ==> a == b
    ensures CornerSquareName(c) == CornerSquareName(d) ==> c == d
    ensures CornerDotName(e) == CornerDotName(f) ==> e == f
  {
  }

  /** The dot options of this copy are those of the genqr copy, shape name
      for shape, colour for colour. */
  lemma DotsAgree(p: G.Props)
    ensures GetDotsOptions(p).shape == DotName(G.GetDotsOptions(p).shape)
    ensures GetDotsOptions(p).color == G.GetDotsOptions(p).color
  {
  }

  /** The corner-square options agree with the genqr copy. */
  lemma CornerSquareAgree(p: G.Props)
    ensures GetCornerSquareOptions(p).shape == CornerSquareName(G.GetCornerSquareOptions(p).shape)
    ensures GetCornerSquareOptions(p).color == G.GetCornerSquareOptions(p).color
  {
  }

  /** The corner-dot options agree with the genqr copy. */
  lemma CornerDotAgree(p: G.Props)
    ensures GetCornerDotOptions(p).shape == CornerDotName(G.GetCornerDotOptions(p).shape)
    ensures GetCornerDotOptions(p).color == G.GetCornerDotOptions(p).color
  {
  }

  /** An unrecognised dot type or pattern gives "square" everywhere, and
      the mappers are total: every input gives a shape of the library's
      declared unions. */
  lemma UnknownIsSquare(p: G.Props)
    ensures p.dotType !in {"circle", "rounded-square", "extra-rounded", "diamond"} ==> GetDotsOptions(p).shape == "square"
    ensures p.pattern !in {"dots", "rounded", "classy-rounded", "classy"} ==>
      GetCornerSquareOptions(p).shape == "square" && GetCornerDotOptions(p).shape == "square"
    ensures GetDotsOptions(p).shape in {"square", "dots", "rounded", "classy-rounded", "extra-rounded"}
    ensures GetCornerSquareOptions(p).shape in {"square", "dot", "extra-rounded", "classy"}
    ensures GetCornerDotOptions(p).shape in {"square", "dot", "rounded", "classy"}
  {
  }

  /** The margins of the two copies agree. */
  lemma MarginAgree(includeMargin: bool)
    ensures Margin(includeMargin) == G.Margin(includeMargin)
  {
  }

  // ---------------------------------------------------------------------
  // Lifecycle

  datatype WidgetOptions = WidgetOptions(
    width: int, height: int, data: string, margin: int, errorCorrectionLevel: string,
    dots: ShapeOptions, cornersSquare: ShapeOptions, cornersDot: ShapeOptions,
    backgroundColor: string)

  /** The options the widget is constructed with. */
  function ConstructOptions(p: G.Props): (w: WidgetOptions)
    ensures w.width == p.size && w.height == p.size && w.data == p.value
    ensures w.margin == Margin(p.includeMargin) && w.errorCorrectionLevel == p.level
    ensures w.backgroundColor == p.bgColor
  {
    WidgetOptions(p.size, p.size, p.value, Margin(p.includeMargin), p.level,
      GetDotsOptions(p), GetCornerSquareOptions(p), GetCornerDotOptions(p), p.bgColor)
  }

  /** The options after `update`. */
  function UpdateOptions(w: WidgetOptions, p: G.Props): (w': WidgetOptions)
    ensures w'.width == w.width && w'.height == w.height && w'.margin == w.margin
    ensures w'.errorCorrectionLevel == w.errorCorrectionLevel && w'.backgroundColor == w.backgroundColor
    ensures w'.data == p.value
  {
    w.(data := p.value, dots := GetDotsOptions(p), cornersSquare := GetCornerSquareOptions(p),
       cornersDot := GetCornerDotOptions(p))
  }

  /** A genqr widget record with its shapes written as library names. */
  function Translate(w: G.WidgetOptions): WidgetOptions {
    WidgetOptions(w.width, w.height, w.data, w.margin, w.errorCorrectionLevel,
      ShapeOptions(DotName(w.dots.shape), w.dots.color),
      ShapeOptions(CornerSquareName(w.cornersSquare.shape), w.cornersSquare.color),
      ShapeOptions(CornerDotName(w.cornersDot.shape), w.cornersDot.color),
      w.backgroundColor)
  }

  /** The widget options of the two copies agree field for field, after
      construction and after an update alike. */
  lemma {:induction false} LifecycleAgrees(p: G.Props, w: G.WidgetOptions)
    ensures ConstructOptions(p) == Translate(G.ConstructOptions(p))
    ensures UpdateOptions(Translate(w), p) == Translate(G.UpdateOptions(w, p))
  {
    DotsAgree(p);
    CornerSquareAgree(p);
    CornerDotAgree(p);
  }

  /** The preview component of this copy. */
  class QrCodePreview {
    var widget: Option<WidgetOptions>
    var appendCount: nat

    constructor ()
      ensures widget == None && appendCount == 0
    {
      widget := None;
      appendCount := 0;
    }

    /** One run of the effect: construct once, then update in place. */
    method Render(p: G.Props, containerMounted: bool)
      modifies this
      ensures !containerMounted ==> widget == old(widget) && appendCount == old(appendCount)
      ensures containerMounted && old(widget).None? ==>
        widget == Some(ConstructOptions(p)) && appendCount == old(appendCount) + 1
      ensures containerMounted && old(widget).Some? ==>
        widget == Some(UpdateOptions(old(widget).value, p)) && appendCount == old(appendCount)
    {
      if !containerMounted {
        return;
      }
      if widget.None? {
        widget := Some(ConstructOptions(p));
        appendCount := appendCount + 1;
      } else {
        widget := Some(UpdateOptions(widget.value, p));
      }
    }
  }
}
