/** The style mapper and widget lifecycle of the genqr preview component
    (genqr/components/custom-qr-code.tsx). The UI choices arrive as plain
    strings; the shapes handed to the styling widget are the library's
    closed unions, written here as datatypes. */
module GenqrStyle {
  import opened JsText

  /** The library's dot shapes. */
  datatype DotType = Square | Dots | Rounded | Classy | ClassyRounded | ExtraRounded

  /** The library's corner-square shapes. */
  datatype CornerSquareType = CsSquare | CsDot | CsExtraRounded | CsClassy

  /** The library's corner-dot shapes. */
  datatype CornerDotType = CdSquare | CdDot | CdRounded | CdClassy

  datatype DotsOptions = DotsOptions(shape: DotType, color: string)
  datatype CornerSquareOptions = CornerSquareOptions(shape: CornerSquareType, color: string)
  datatype CornerDotOptions = CornerDotOptions(shape: CornerDotType, color: string)

  /** The props of the component. */
  datatype Props = Props(
    value: string, size: int, bgColor: string, fgColor: string, level: string,
    includeMargin: bool, pattern: string, dotType: string, colors: seq<string>)

  /** The dot shape chosen by the dot-type selector; anything unknown is square. */
  function DotShape(dotType: string): DotType {
    match dotType
    case "circle" => Dots
    case "rounded-square" => Rounded
    case "extra-rounded" => ExtraRounded
    case "diamond" => ClassyRounded
    case _ => Square
  }

  /** The corner-square shape chosen by the pattern. */
  function CornerSquareShape(pattern: string): CornerSquareType {
    if pattern == "dots" then CsDot
    else if pattern == "rounded" || pattern == "classy-rounded" then CsExtraRounded
    else if pattern == "classy" then CsClassy
    else CsSquare
  }

  /** The corner-dot shape chosen by the pattern. */
  function CornerDotShape(pattern: string): CornerDotType {
    if pattern == "dots" then CdDot
    else if pattern == "rounded" || pattern == "classy-rounded" then CdRounded
    else if pattern == "classy" then CdClassy
    else CdSquare
  }

  /** `getDotsOptions`: shape from `dotType`, colour `colors[3] || fgColor`. */
  function GetDotsOptions(p: Props): (o: DotsOptions)
    ensures o.shape == DotShape(p.dotType)
    ensures o.color == SlotOr(p.colors, 3, p.fgColor)
  {
    DotsOptions(DotShape(p.dotType), SlotOr(p.colors, 3, p.fgColor))
  }

  /** `getCornerSquareOptions`: shape from `pattern`, colour `colors[0] || fgColor`. */
  function GetCornerSquareOptions(p: Props): (o: CornerSquareOptions)
    ensures o.shape == CornerSquareShape(p.pattern)
    ensures o.color == SlotOr(p.colors, 0, p.fgColor)
  {
    CornerSquareOptions(CornerSquareShape(p.pattern), SlotOr(p.colors, 0, p.fgColor))
  }

  /** `getCornerDotOptions`: shape from `pattern`, colour `colors[1] || fgColor`. */
  function GetCornerDotOptions(p: Props): (o: CornerDotOptions)
    ensures o.shape == CornerDotShape(p.pattern)
    ensures o.color == SlotOr(p.colors, 1, p.fgColor)
  {
    CornerDotOptions(CornerDotShape(p.pattern), SlotOr(p.colors, 1, p.fgColor))
  }

  /** The outer margin in pixels. */
  function Margin(includeMargin: bool): (m: int)
    ensures includeMargin <==> m == 10
    ensures !includeMargin <==> m == 0
  {
    if includeMargin then 10 else 0
  }

  /** The dot-shape table, entry by entry, with the default. */
  lemma DotShapeTable(dotType: string)
    ensures dotType == "circle" ==> DotShape(dotType) == Dots
    ensures dotType == "rounded-square" ==> DotShape(dotType) == Rounded
    ensures dotType == "extra-rounded" ==> DotShape(dotType) == ExtraRounded
    ensures dotType == "diamond" ==> DotShape(dotType) == ClassyRounded
    ensures dotType !in {"circle", "rounded-square", "extra-rounded", "diamond"} ==> DotShape(dotType) == Square
  {
  }

  /** The dot mapper reaches exactly five of the six dot shapes: `classy`
      is never produced, and each of the others is produced by some input. */
  lemma DotShapeRange(dotType: string)
    ensures DotShape(dotType) != Classy
    ensures exists t: string :: DotShape(t) == Square
    ensures DotShape("circle") == Dots && DotShape("rounded-square") == Rounded
    ensures DotShape("extra-rounded") == ExtraRounded && DotShape("diamond") == ClassyRounded
  {
    assert DotShape("square") == Square;
  }

  /** The corner-square table, entry by entry, with the default. */
  lemma CornerSquareTable(pattern: string)
    ensures pattern == "dots" <==> CornerSquareShape(pattern) == CsDot
    ensures pattern in {"rounded", "classy-rounded"} <==> CornerSquareShape(pattern) == CsExtraRounded
    ensures pattern == "classy" <==> CornerSquareShape(pattern) == CsClassy
    ensures pattern !in {"dots", "rounded", "classy-rounded", "classy"} <==> CornerSquareShape(pattern) == CsSquare
  {
  }

  /** The corner-dot table, entry by entry, with the default. */
  lemma CornerDotTable(pattern: string)
    ensures pattern == "dots" <==> CornerDotShape(pattern) == CdDot
    ensures pattern in {"rounded", "classy-rounded"} <==> CornerDotShape(pattern) == CdRounded
    ensures pattern == "classy" <==> CornerDotShape(pattern) == CdClassy
    ensures pattern !in {"dots", "rounded", "classy-rounded", "classy"} <==> CornerDotShape(pattern) == CdSquare
  {
  }

  /** The colour of each element depends only on its own slot and the
      foreground colour: slot 2 is never read, and no slot beyond 3 either. */
  lemma ColorsIgnoreSlotTwo(p: Props, c: string)
    requires |p.colors| >= 3
    ensures var q := p.(colors := p.colors[2 := c]);
      GetDotsOptions(q) == GetDotsOptions(p) && GetCornerSquareOptions(q) == GetCornerSquareOptions(p)
      && GetCornerDotOptions(q) == GetCornerDotOptions(p)
  {
  }

  /** Nor any slot beyond 3: changing entry `k >= 4` leaves all three
      option groups as they were. */
  lemma ColorsIgnoreLaterSlots(p: Props, k: nat, c: string)
    requires 4 <= k < |p.colors|
    ensures var q := p.(colors := p.colors[k := c]);
      GetDotsOptions(q) == GetDotsOptions(p) && GetCornerSquareOptions(q) == GetCornerSquareOptions(p)
      && GetCornerDotOptions(q) == GetCornerDotOptions(p)
  {
  }

  /** The worked example: pattern "dots", dot type "circle" and the blue
      preset's four colours. */
  lemma BluePresetExample(p: Props)
    requires p.pattern == "dots" && p.dotType == "circle"
    requires p.colors == ["#1E40AF", "#3B82F6", "#93C5FD", "#DBEAFE"]
    ensures GetCornerSquareOptions(p) == CornerSquareOptions(CsDot, "#1E40AF")
    ensures GetCornerDotOptions(p) == CornerDotOptions(CdDot, "#3B82F6")
    ensures GetDotsOptions(p) == DotsOptions(Dots, "#DBEAFE")
  {
  }

  /** What the styling widget was last given. The image options are constant
      (`hideBackgroundDots: true, imageSize: 0.4, margin: 0`) and left out. */
  datatype WidgetOptions = WidgetOptions(
    width: int, height: int, data: string, margin: int, errorCorrectionLevel: string,
    dots: DotsOptions, cornersSquare: CornerSquareOptions, cornersDot: CornerDotOptions,
    backgroundColor: string)

  /** The options the widget is constructed with. */
  function ConstructOptions(p: Props): (w: WidgetOptions)
    ensures w.width == p.size && w.height == p.size && w.data == p.value
    ensures w.margin == Margin(p.includeMargin) && w.errorCorrectionLevel == p.level
    ensures w.dots == GetDotsOptions(p) && w.cornersSquare == GetCornerSquareOptions(p)
    ensures w.cornersDot == GetCornerDotOptions(p) && w.backgroundColor == p.bgColor
  {
    WidgetOptions(p.size, p.size, p.value, Margin(p.includeMargin), p.level,
      GetDotsOptions(p), GetCornerSquareOptions(p), GetCornerDotOptions(p), p.bgColor)
  }

  /** The options after `update`: only the data and the three shape groups
      change. */
  function UpdateOptions(w: WidgetOptions, p: Props): (w': WidgetOptions)
    ensures w'.data == p.value && w'.dots == GetDotsOptions(p)
    ensures w'.cornersSquare == GetCornerSquareOptions(p) && w'.cornersDot == GetCornerDotOptions(p)
    ensures w'.width == w.width && w'.height == w.height && w'.margin == w.margin
    ensures w'.errorCorrectionLevel == w.errorCorrectionLevel && w'.backgroundColor == w.backgroundColor
  {
    w.(data := p.value, dots := GetDotsOptions(p), cornersSquare := GetCornerSquareOptions(p),
       cornersDot := GetCornerDotOptions(p))
  }

  /** Updating twice with the same props is the same as updating once. */
  lemma UpdateIdempotent(w: WidgetOptions, p: Props)
    ensures UpdateOptions(UpdateOptions(w, p), p) == UpdateOptions(w, p)
  {
  }

  /** After an update, the style is exactly what a fresh construction with
      the new props would give; the construction-time fields are those of
      the first props. */
  lemma UpdateMatchesConstructStyle(first: Props, p: Props)
    ensures var w := UpdateOptions(ConstructOptions(first), p);
      var c := ConstructOptions(p);
      w.data == c.data && w.dots == c.dots && w.cornersSquare == c.cornersSquare
      && w.cornersDot == c.cornersDot
      && w.width == first.size && w.margin == Margin(first.includeMargin)
      && w.errorCorrectionLevel == first.level && w.backgroundColor == first.bgColor
  {
  }

  /** The preview component: `qrCodeRef.current` is the widget, absent until
      the first effect run that finds the container mounted. */
  class QrCodePreview {
    var widget: Option<WidgetOptions>
    /** The number of times the widget's output was appended to the container. */
    var appendCount: nat

    constructor ()
      ensures widget == None && appendCount == 0
    {
      widget := None;
      appendCount := 0;
    }

    /** One run of the effect. Without a mounted container it returns at
        once; otherwise it constructs the widget (and appends it) when
        there is none, and updates it in place when there is one. */
    method Render(p: Props, containerMounted: bool)
      modifies this
      ensures !containerMounted ==> widget == old(widget) && appendCount == old(appendCount)
      ensures containerMounted && old(widget).None? ==>
        widget == Some(ConstructOptions(p)) && appendCount == old(appendCount) + 1
      ensures containerMounted && old(widget).Some? ==>
        widget == Some(UpdateOptions(old(widget).value, p)) && appendCount == old(appendCount)
      ensures old(widget).Some? ==> widget.Some?
    {
      if !containerMounted {
        return;
      }
      if widget.None? {
        widget := Some(ConstructOptions(p));
        appendCount := appendCount + 1;
      } else {
        widget := Some(UpdateOptions(widget.value, p));
      }
    }
  }

  /** Two runs of the effect: the widget is constructed by the first and
      only updated by the second, so a changed size, margin, level or
      background never reaches it. */
  method RenderTwice(first: Props, second: Props) returns (w: WidgetOptions, appends: nat)
    ensures w == UpdateOptions(ConstructOptions(first), second)
    ensures w.width == first.size && w.height == first.size
    ensures w.margin == Margin(first.includeMargin) && w.backgroundColor == first.bgColor
    ensures w.dots == GetDotsOptions(second) && w.data == second.value
    ensures appends == 1
  {
    var view := new QrCodePreview();
    view.Render(first, true);
    view.Render(second, true);
    w := view.widget.value;
    appends := view.appendCount;
  }
}
