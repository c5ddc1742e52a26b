/** The history page, of which the repository has two copies:
    qr-generatetor/components/qr-code-history.tsx and
    genqr/components/qr-code-history.tsx. The record type, the fetch, the
    delete, the preview fallback and the URL truncation are the same in
    both and are modelled once; the two download flows differ and are
    modelled separately. */
module QrHistory {
  import opened JsText

  /** A row of `qr_codes` as the page holds it. */
  datatype QrCode = QrCode(
    id: string, url: string, pattern: string, color1: string, color2: Option<string>,
    color3: Option<string>, color4: Option<string>, createdAt: string,
    ipAddress: Option<string>, svgData: Option<string>)

  // ---------------------------------------------------------------------
  // find and filter

  /** `qrCodes.find((qr) => qr.id === id)`: the first record with that id. */
  function FindById(qrCodes: seq<QrCode>, id: string): (r: Option<QrCode>)
    ensures r.None? <==> forall k :: 0 <= k < |qrCodes| ==> qrCodes[k].id != id
    ensures r.Some? ==> exists k :: (0 <= k < |qrCodes| && qrCodes[k] == r.value && r.value.id == id
      && forall j :: 0 <= j < k ==> qrCodes[j].id != id)
  {
    if qrCodes == [] then None
    else if qrCodes[0].id == id then Some(qrCodes[0])
    else FindById(qrCodes[1..], id)
  }

  /** `qrCodes.filter((qr) => qr.id !== id)`. */
  function WithoutId(qrCodes: seq<QrCode>, id: string): (r: seq<QrCode>)
    ensures |r| <= |qrCodes|
    ensures forall k :: 0 <= k < |r| ==> r[k].id != id
    ensures forall q :: q in qrCodes && q.id != id ==> q in r
    ensures forall q :: q in r ==> q in qrCodes
  {
    if qrCodes == [] then []
    else if qrCodes[0].id == id then WithoutId(qrCodes[1..], id)
    else [qrCodes[0]] + WithoutId(qrCodes[1..], id)
  }

  /** Filtering is taken piece by piece, so the kept records stay in their
      original order. */
  lemma {:induction false} WithoutIdConcat(a: seq<QrCode>, b: seq<QrCode>, id: string)
    ensures WithoutId(a + b, id) == WithoutId(a, id) + WithoutId(b, id)
    decreases |a|
  {
    if a == [] {
      assert a + b == b;
    } else {
      assert (a + b)[0] == a[0] && (a + b)[1..] == a[1..] + b;
      WithoutIdConcat(a[1..], b, id);
    }
  }

  /** Exactly the records whose id differs are kept, each as often as it
      occurred; the records with the id are all gone. */
  lemma {:induction false} WithoutIdCounts(qrCodes: seq<QrCode>, id: string, q: QrCode)
    ensures multiset(WithoutId(qrCodes, id))[q] == if q.id == id then 0 else multiset(qrCodes)[q]
    decreases |qrCodes|
  {
    if qrCodes != [] {
      WithoutIdCounts(qrCodes[1..], id, q);
      WithoutIdCountsStep(qrCodes, id, q);
    }
  }

  /** The inductive step of `WithoutIdCounts`: from the tail to the list. */
  lemma WithoutIdCountsStep(qrCodes: seq<QrCode>, id: string, q: QrCode)
    requires qrCodes != []
    requires multiset(WithoutId(qrCodes[1..], id))[q] == if q.id == id then 0 else multiset(qrCodes[1..])[q]
    ensures multiset(WithoutId(qrCodes, id))[q] == if q.id == id then 0 else multiset(qrCodes)[q]
  {
    CountCons(qrCodes, q);
    var r := WithoutId(qrCodes, id);
    if qrCodes[0].id != id {
      assert r == [qrCodes[0]] + WithoutId(qrCodes[1..], id);
      assert r[0] == qrCodes[0] && r[1..] == WithoutId(qrCodes[1..], id);
      CountCons(r, q);
    }
  }

  /** How often `q` occurs in a non-empty list: in its head, then its tail. */
  lemma CountCons(s: seq<QrCode>, q: QrCode)
    requires s != []
    ensures multiset(s)[q] == (if s[0] == q then 1 else 0) + multiset(s[1..])[q]
  {
    assert s == [s[0]] + s[1..];
    assert multiset(s) == multiset([s[0]]) + multiset(s[1..]);
  }

  /** A list without the id is left as it is, so deleting twice is the same
      as deleting once. */
  lemma {:induction false} WithoutAbsentId(qrCodes: seq<QrCode>, id: string)
    requires forall k :: 0 <= k < |qrCodes| ==> qrCodes[k].id != id
    ensures WithoutId(qrCodes, id) == qrCodes
    decreases |qrCodes|
  {
    if qrCodes != [] {
      WithoutAbsentId(qrCodes[1..], id);
      assert qrCodes == [qrCodes[0]] + qrCodes[1..];
    }
  }

  lemma WithoutIdIdempotent(qrCodes: seq<QrCode>, id: string)
    ensures WithoutId(WithoutId(qrCodes, id), id) == WithoutId(qrCodes, id)
  {
    WithoutAbsentId(WithoutId(qrCodes, id), id);
  }

  /** After a delete the id is not found, and every other id is found as
      before. */
  lemma {:induction false} FindAfterDelete(qrCodes: seq<QrCode>, id: string, other: string)
    requires other != id
    ensures FindById(WithoutId(qrCodes, id), id).None?
    ensures FindById(WithoutId(qrCodes, id), other) == FindById(qrCodes, other)
    decreases |qrCodes|
  {
    if qrCodes != [] {
      FindAfterDelete(qrCodes[1..], id, other);
    }
  }

  // ---------------------------------------------------------------------
  // Display

  /** What a history card shows: the stored markup verbatim, or a
      150 × 150 placeholder with a white square and the text "QR Preview". */
  datatype Preview =
    | StoredSvg(containerId: string, markup: string)
    | Placeholder(containerId: string, width: int, height: int, viewBox: string, background: string, textFill: string)

  /** `renderQRCode`. */
  function RenderQRCode(qr: QrCode): (p: Preview)
    ensures p.containerId == "qr-" + qr.id
    ensures Truthy(qr.svgData) <==> p.StoredSvg?
    ensures p.StoredSvg? ==> p.markup == qr.svgData.value
    ensures p.Placeholder? ==> (p.width == 150 && p.height == 150 && p.viewBox == "0 0 150 150"
      && p.background == "#ffffff")
    ensures p.Placeholder? && qr.color1 != "" ==> p.textFill == qr.color1
    ensures p.Placeholder? && qr.color1 == "" ==> p.textFill == "#000000"
  {
    if Truthy(qr.svgData) then StoredSvg("qr-" + qr.id, qr.svgData.value)
    else Placeholder("qr-" + qr.id, 150, 150, "0 0 150 150", "#ffffff", Or(qr.color1, "#000000"))
  }

  /** The preview never depends on the pattern or the other colours: the
      record is shown from its snapshot, not regenerated. */
  lemma RenderIgnoresStyle(qr: QrCode, pattern: string, c2: Option<string>, c3: Option<string>, c4: Option<string>)
    ensures RenderQRCode(qr.(pattern := pattern, color2 := c2, color3 := c3, color4 := c4)) == RenderQRCode(qr)
  {
  }

  /** The link text: `url.length > 30 ? url.substring(0, 30) + "..." : url`. */
  function TruncateUrl(url: string): (t: string)
    ensures |t| <= 33
    ensures |url| <= 30 ==> t == url
    ensures |url| > 30 ==> |t| == 33 && t[..30] == url[..30] && t[30..] == "..."
  {
    if |url| > 30 then url[..30] + "..." else url
  }

  /** The link text always starts with as much of the URL as fits. */
  lemma TruncateIsPrefix(url: string)
    ensures var t := TruncateUrl(url);
      var n := if |url| < 30 then |url| else 30;
      t[..n] == url[..n] && (t == url || t == url[..30] + "...")
  {
  }

  // ---------------------------------------------------------------------
  // Fetch

  /** The query `fetchQRCodes` sends: newest first, restricted to the
      signed-in user when there is one (an empty id counts as none). */
  datatype Query = Query(table: string, orderBy: string, ascending: bool, userFilter: Option<string>)

  function QueryFor(userId: Option<string>): (q: Query)
    ensures q.table == "qr_codes" && q.orderBy == "created_at" && !q.ascending
    ensures Truthy(userId) <==> q.userFilter.Some?
    ensures q.userFilter.Some? ==> q.userFilter == userId
  {
    Query("qr_codes", "created_at", false, if Truthy(userId) then userId else None)
  }

  /** The reply of the store to a query: rows (possibly null), or an error. */
  datatype FetchReply = Rows(data: Option<seq<QrCode>>) | FetchError

  /** A notification shown to the user. */
  datatype Notice = NoNotice | Success(title: string) | Failure(title: string)

  // ---------------------------------------------------------------------
  // Download, qr-generatetor copy

  /** A file handed to the browser by the qr-generatetor copy. */
  datatype GeneratorFile =
    | StoredSvgFile(fileName: string, contents: string)
    | RasterFile(fileName: string, width: int, height: int)

  /** How the PNG branch of the qr-generatetor copy ends: the canvas, the
      image or the file reader may fail, each with its own message. The
      image's own size becomes the canvas size. */
  datatype RasterStep = RasterOk(imageWidth: int, imageHeight: int) | RasterFailed(message: string)

  /** The result of a download in the qr-generatetor copy: the file, if
      one was produced, and the notification. */
  datatype GeneratorDownload = GeneratorDownload(file: Option<GeneratorFile>, notice: Notice,
                                                  unhandledError: Option<string>)

  /** `downloadQRCode` of qr-generatetor/components/qr-code-history.tsx as
      written: a missing record, empty markup or (for PNG) a missing
      element return silently. The PNG branch returns its promise from
      inside the `try`, so the success notification after the branch is
      skipped and a failure escapes the `catch` unreported. */
  function GeneratorDownloadAsWritten(qrCodes: seq<QrCode>, id: string, format: Format,
                                      elementPresent: bool, raster: RasterStep): (d: GeneratorDownload)
  {
    var qr := FindById(qrCodes, id);
    if qr.None? || !Truthy(qr.value.svgData) then GeneratorDownload(None, NoNotice, None)
    else if format == Svg then
      GeneratorDownload(Some(StoredSvgFile("qrcode-" + id + ".svg", qr.value.svgData.value)),
                        Success("QR Code downloaded as SVG"), None)
    else if !elementPresent then GeneratorDownload(None, NoNotice, None)
    else match raster
      case RasterOk(w, h) => GeneratorDownload(Some(RasterFile("qrcode-" + id + ".png", w, h)), NoNotice, None)
      case RasterFailed(msg) => GeneratorDownload(None, NoNotice, Some(msg))
  }

  /** As written, a PNG download never tells the user anything, whether
      it succeeds or fails. */
  lemma GeneratorPngNeverNotifies(qrCodes: seq<QrCode>, id: string, elementPresent: bool, raster: RasterStep)
    ensures GeneratorDownloadAsWritten(qrCodes, id, Png, elementPresent, raster).notice == NoNotice
  {
  }

  /** A concrete case: a stored record whose PNG fails to load leaves an
      unhandled error and no notification. */
  lemma GeneratorPngFailureUnreported()
    ensures var qr := QrCode("a", "https://example.com", "squares", "#000000", None, None, None, "t", None, Some("<svg/>"));
      var d := GeneratorDownloadAsWritten([qr], "a", Png, true, RasterFailed("Failed to load image"));
      d.notice == NoNotice && d.unhandledError == Some("Failed to load image")
  {
  }

  /** The flow as evidently intended: the PNG promise is awaited, so the
      success notification follows a PNG download as it follows an SVG one,
      and a PNG failure gets the error notification. */
  function GeneratorDownloadAwaited(qrCodes: seq<QrCode>, id: string, format: Format,
                                    elementPresent: bool, raster: RasterStep): (d: GeneratorDownload)
  {
    var qr := FindById(qrCodes, id);
    if qr.None? || !Truthy(qr.value.svgData) then GeneratorDownload(None, NoNotice, None)
    else if format == Svg then
      GeneratorDownload(Some(StoredSvgFile("qrcode-" + id + ".svg", qr.value.svgData.value)),
                        Success("QR Code downloaded as SVG"), None)
    else if !elementPresent then GeneratorDownload(None, NoNotice, None)
    else match raster
      case RasterOk(w, h) =>
        GeneratorDownload(Some(RasterFile("qrcode-" + id + ".png", w, h)), Success("QR Code downloaded as PNG"), None)
      case RasterFailed(msg) => GeneratorDownload(None, Failure("Error downloading QR code"), None)
  }

  /** The intended flow: a silent no-op exactly when there is no record with
      stored markup (or no element for PNG); otherwise every file comes with
      a success notice, every failure with an error notice, nothing escapes;
      the SVG file is the stored markup verbatim, named after the id. */
  lemma GeneratorDownloadContract(qrCodes: seq<QrCode>, id: string, format: Format,
                                  elementPresent: bool, raster: RasterStep)
    ensures var d := GeneratorDownloadAwaited(qrCodes, id, format, elementPresent, raster);
      var qr := FindById(qrCodes, id);
      && d.unhandledError.None?
      && (d.notice == NoNotice <==> (qr.None? || !Truthy(qr.value.svgData) || (format == Png && !elementPresent)))
      && (d.file.Some? <==> d.notice.Success?)
      && (d.notice.Failure? ==> format == Png && raster.RasterFailed?)
      && (d.file.Some? && format == Svg ==>
            d.file.value == StoredSvgFile("qrcode-" + id + ".svg", qr.value.svgData.value)
            && exists k :: 0 <= k < |qrCodes| && qrCodes[k].id == id && qrCodes[k].svgData == Some(d.file.value.contents))
      && (d.file.Some? && format == Png ==> d.file.value.fileName == "qrcode-" + id + ".png")
      && ((forall k :: 0 <= k < |qrCodes| ==> qrCodes[k].id != id) ==> d == GeneratorDownload(None, NoNotice, None))
  {
  }

  /** The fix changes only the notifications of the PNG branch: the files
      produced are the same. */
  lemma AwaitingChangesOnlyNotices(qrCodes: seq<QrCode>, id: string, format: Format,
                                   elementPresent: bool, raster: RasterStep)
    ensures GeneratorDownloadAwaited(qrCodes, id, format, elementPresent, raster).file
         == GeneratorDownloadAsWritten(qrCodes, id, format, elementPresent, raster).file
    ensures format == Svg ==> (GeneratorDownloadAwaited(qrCodes, id, format, elementPresent, raster)
         == GeneratorDownloadAsWritten(qrCodes, id, format, elementPresent, raster))
  {
  }

  // ---------------------------------------------------------------------
  // Download, genqr copy

  /** The `<svg>` element found in the card's container: its size
      attributes and its serialized markup. */
  datatype SvgElement = SvgElement(width: Option<string>, height: Option<string>, viewBox: Option<string>,
                                   serialized: string)

  /** A file handed to the browser by the genqr copy. The PNG canvas is
      `canvasWidth × canvasHeight`; the white fill and the image cover
      `drawWidth × drawHeight` in the coordinates scaled by 2. */
  datatype GenqrFile =
    | RewrittenSvgFile(fileName: string, contents: string)
    | ScaledPngFile(fileName: string, canvasWidth: Option<int>, canvasHeight: Option<int>,
                    drawWidth: Option<int>, drawHeight: Option<int>)

  const GenqrPngScale: int := 2

  /** `parseInt(svg.getAttribute(side) || "300")` (no radix). */
  function SideOf(attr: Option<string>): Option<int> {
    ParseInt(OptOr(attr, "300"), false)
  }

  /** `svg.getAttribute("viewBox")?.split(" ").map(Number) || [0, 0, width, height]`.
      Only a missing attribute gives the default: an empty one splits into
      one empty token, which is the number 0. */
  function ViewBoxOf(viewBox: Option<string>, width: Option<int>, height: Option<int>): (vb: seq<Option<int>>)
    ensures viewBox.None? ==> vb == [Some(0), Some(0), width, height]
    ensures viewBox.Some? ==> (|vb| == |Split(viewBox.value, ' ')|
      && forall k :: 0 <= k < |vb| ==> vb[k] == ToNumber(Split(viewBox.value, ' ')[k]))
  {
    match viewBox
    case None => [Some(0), Some(0), width, height]
    case Some(v) =>
      var tokens := Split(v, ' ');
      seq(|tokens|, k requires 0 <= k < |tokens| => ToNumber(tokens[k]))
  }

  /** `viewBox.join(' ')`. */
  function ViewBoxText(vb: seq<Option<int>>): string {
    Join(seq(|vb|, k requires 0 <= k < |vb| => NumText(vb[k])), ' ')
  }

  /** The index of the first `>` at or after `k`. */
  function FirstGt(s: string, k: nat): (r: Option<nat>)
    requires k <= |s|
    ensures r.Some? ==> (k <= r.value < |s| && s[r.value] == '>'
      && forall m :: k <= m < r.value ==> s[m] != '>')
    ensures r.None? ==> forall m :: k <= m < |s| ==> s[m] != '>'
    decreases |s| - k
  {
    if k == |s| then None
    else if s[k] == '>' then Some(k)
    else FirstGt(s, k + 1)
  }

  predicate SvgAt(s: string, i: nat) {
    i + 4 <= |s| && s[i..i + 4] == "<svg"
  }

  /** The leftmost match of `/<svg([^>]*)>/` from position `i`: where the
      tag starts and where its `>` is. */
  function FirstSvgTag(s: string, i: nat): (r: Option<(nat, nat)>)
    requires i <= |s|
    ensures r.Some? ==> (i <= r.value.0 && SvgAt(s, r.value.0) && r.value.0 + 4 <= r.value.1 < |s|
      && FirstGt(s, r.value.0 + 4) == Some(r.value.1))
    ensures r.Some? ==> forall m :: i <= m < r.value.0 ==> !(SvgAt(s, m) && FirstGt(s, m + 4).Some?)
    ensures r.None? ==> forall m :: i <= m <= |s| ==> !(SvgAt(s, m) && FirstGt(s, m + 4).Some?)
    decreases |s| - i
  {
    if SvgAt(s, i) && FirstGt(s, i + 4).Some? then Some((i, FirstGt(s, i + 4).value))
    else if i == |s| then None
    else FirstSvgTag(s, i + 1)
  }

  /** `svgData.replace(/<svg([^>]*)>/, "<svg$1" + extra + ">")`: only the first
      opening tag gets `extra` before its `>`; without a match the markup is
      unchanged. */
  function RewriteSvgTag(s: string, extra: string): (r: string)
    ensures FirstSvgTag(s, 0).None? ==> r == s
    ensures FirstSvgTag(s, 0).Some? ==>
      var (i, j) := FirstSvgTag(s, 0).value;
      r == s[..j] + extra + s[j..]
  {
    match FirstSvgTag(s, 0)
    case None => s
    case Some((i, j)) =>
      ReplacementIsInsertion(s, i, j, extra);
      s[..i] + "<svg" + s[i + 4..j] + extra + ">" + s[j + 1..]
  }

  /** Writing the tag back as `<svg`, its attributes, `extra` and `>` is
      inserting `extra` just before its `>`. */
  lemma ReplacementIsInsertion(s: string, i: nat, j: nat, extra: string)
    requires SvgAt(s, i) && i + 4 <= j < |s| && s[j] == '>'
    ensures s[..i] + "<svg" + s[i + 4..j] + extra + ">" + s[j + 1..] == s[..j] + extra + s[j..]
  {
    assert s[..i] + "<svg" == s[..i + 4];
    assert s[..i + 4] + s[i + 4..j] == s[..j];
    assert ">" + s[j + 1..] == s[j..];
    calc {
      s[..i] + "<svg" + s[i + 4..j] + extra + ">" + s[j + 1..];
      s[..i + 4] + s[i + 4..j] + extra + ">" + s[j + 1..];
      s[..j] + extra + ">" + s[j + 1..];
      s[..j] + extra + (">" + s[j + 1..]);
      s[..j] + extra + s[j..];
    }
  }

  /** The rewrite leaves everything before the tag's `>` and everything
      from it on untouched, and only inserts `extra`. */
  lemma RewriteKeepsRest(s: string, extra: string)
    requires FirstSvgTag(s, 0).Some?
    ensures var (i, j) := FirstSvgTag(s, 0).value;
      var r := RewriteSvgTag(s, extra);
      |r| == |s| + |extra| && r[..j] == s[..j] && r[j..j + |extra|] == extra && r[j + |extra|..] == s[j..]
  {
  }

  /** The attributes the genqr copy appends to the opening tag. */
  function DimensionAttrs(width: Option<int>, height: Option<int>, vb: seq<Option<int>>): string {
    " width=\"" + NumText(width) + "\" height=\"" + NumText(height) + "\" viewBox=\"" + ViewBoxText(vb) + "\""
  }

  /** `downloadQRCode` of genqr/components/qr-code-history.tsx. Every error
      is caught and shown as "Error downloading QR code"; the result
      carries the thrown message. */
  function GenqrDownload(qrCodes: seq<QrCode>, id: string, format: Format, svg: Option<SvgElement>,
                         canvasContext: bool, imageLoads: bool): (r: Result<GenqrFile>)
  {
    var qr := FindById(qrCodes, id);
    if qr.None? || !Truthy(qr.value.svgData) then Err("QR code data not found")
    else if svg.None? then Err("SVG element not found")
    else
      var el := svg.value;
      var width := SideOf(el.width);
      var height := SideOf(el.height);
      var vb := ViewBoxOf(el.viewBox, width, height);
      var text := RewriteSvgTag(el.serialized, DimensionAttrs(width, height, vb));
      if format == Svg then Ok(RewrittenSvgFile("qrcode-" + id + ".svg", text))
      else if !canvasContext then Err("Failed to get canvas context")
      else if !imageLoads then Err("Failed to load QR code image")
      else Ok(ScaledPngFile("qrcode-" + id + ".png", NumScale(width, GenqrPngScale),
                            NumScale(height, GenqrPngScale), width, height))
  }

  /** The notification the genqr copy shows for a download result. */
  function GenqrNotice(format: Format, r: Result<GenqrFile>): (n: Notice)
    ensures r.Ok? <==> n.Success?
    ensures r.Err? ==> n == Failure("Error downloading QR code")
  {
    if r.Err? then Failure("Error downloading QR code")
    else Success("QR Code downloaded as " + (if format == Svg then "SVG" else "PNG"))
  }

  /** The errors of the genqr download, in the order they are checked, and
      the shape of its files. */
  lemma GenqrDownloadContract(qrCodes: seq<QrCode>, id: string, format: Format, svg: Option<SvgElement>,
                              canvasContext: bool, imageLoads: bool)
    ensures var r := GenqrDownload(qrCodes, id, format, svg, canvasContext, imageLoads);
      var qr := FindById(qrCodes, id);
      && ((qr.None? || !Truthy(qr.value.svgData)) <==> r == Err("QR code data not found"))
      && (qr.Some? && Truthy(qr.value.svgData) && svg.None? ==> r == Err("SVG element not found"))
      && (r.Ok? <==> qr.Some? && Truthy(qr.value.svgData) && svg.Some? && (format == Png ==> canvasContext && imageLoads))
      && (r.Ok? && format == Svg ==> r.value.RewrittenSvgFile? && r.value.fileName == "qrcode-" + id + ".svg")
      && (r.Ok? && format == Svg ==> (var el := svg.value;
            r.value.contents == RewriteSvgTag(el.serialized, DimensionAttrs(SideOf(el.width), SideOf(el.height),
                                               ViewBoxOf(el.viewBox, SideOf(el.width), SideOf(el.height))))))
      && (r.Ok? && format == Png ==> (r.value.ScaledPngFile? && r.value.fileName == "qrcode-" + id + ".png"
            && r.value.drawWidth == SideOf(svg.value.width) && r.value.drawHeight == SideOf(svg.value.height)
            && r.value.canvasWidth == NumScale(r.value.drawWidth, 2)
            && r.value.canvasHeight == NumScale(r.value.drawHeight, 2)))
  {
  }

  /** An element with no (or empty) size attributes and no viewBox is
      exported at 300 × 300: the tag gets `width="300" height="300"
      viewBox="0 0 300 300"` and the PNG canvas is 600 × 600. */
  lemma GenqrDefaultSize(width: Option<string>, height: Option<string>)
    requires !Truthy(width) && !Truthy(height)
    ensures SideOf(width) == Some(300) && SideOf(height) == Some(300)
    ensures ViewBoxText(ViewBoxOf(None, SideOf(width), SideOf(height))) == "0 0 300 300"
    ensures NumScale(SideOf(width), GenqrPngScale) == Some(600)
    ensures NumScale(SideOf(height), GenqrPngScale) == Some(600)
  {
    DefaultSide(width);
    DefaultSide(height);
    ViewBoxTextFour(Some(0), Some(0), Some(300), Some(300));
    ZeroAndThreeHundred();
  }

  /** The SVG file for such an element: the stored markup with
      ` width="300" height="300" viewBox="0 0 300 300"` inserted at the end
      of its first `<svg ...` tag, and nothing else changed. */
  lemma GenqrDefaultSvgFile(qrCodes: seq<QrCode>, id: string, el: SvgElement, canvasContext: bool, imageLoads: bool)
    requires FindById(qrCodes, id).Some? && Truthy(FindById(qrCodes, id).value.svgData)
    requires !Truthy(el.width) && !Truthy(el.height) && el.viewBox.None?
    requires FirstSvgTag(el.serialized, 0).Some?
    ensures var j := FirstSvgTag(el.serialized, 0).value.1;
      GenqrDownload(qrCodes, id, Svg, Some(el), canvasContext, imageLoads)
      == Ok(RewrittenSvgFile("qrcode-" + id + ".svg",
              el.serialized[..j] + DefaultDimensionAttrs + el.serialized[j..]))
  {
    GenqrDefaultSize(el.width, el.height);
    NumTextThreeHundred(SideOf(el.width));
    NumTextThreeHundred(SideOf(el.height));
    DefaultAttrsText(SideOf(el.width), SideOf(el.height), ViewBoxOf(None, SideOf(el.width), SideOf(el.height)));
  }

  /** ` width="300" height="300" viewBox="0 0 300 300"`, in the pieces
      the template writes. */
  const DefaultDimensionAttrs: string :=
    " width=\"" + "300" + "\" height=\"" + "300" + "\" viewBox=\"" + "0 0 300 300" + "\""

  /** The attribute text for the default size. */
  lemma DefaultAttrsText(width: Option<int>, height: Option<int>, vb: seq<Option<int>>)
    requires NumText(width) == "300" && NumText(height) == "300" && ViewBoxText(vb) == "0 0 300 300"
    ensures DimensionAttrs(width, height, vb) == DefaultDimensionAttrs
  {
  }

  /** `${300}` is "300". */
  lemma NumTextThreeHundred(x: Option<int>)
    requires x == Some(300)
    ensures NumText(x) == "300"
  {
    var t := DecimalText(300);
    assert t == "300";
  }

  /** A missing or empty side is 300. */
  lemma DefaultSide(attr: Option<string>)
    requires !Truthy(attr)
    ensures SideOf(attr) == Some(300)
  {
    var t := DecimalText(300);
    assert t == "300";
    ParseIntDecimalText(300, false);
  }

  lemma ZeroAndThreeHundred()
    ensures NumText(Some(0)) + " " + NumText(Some(0)) + " " + NumText(Some(300)) + " " + NumText(Some(300))
         == "0 0 300 300"
  {
    assert DecimalText(0) == "0";
    assert DecimalText(300) == "300";
  }

  /** The text of a four-number viewBox. */
  lemma ViewBoxTextFour(a: Option<int>, b: Option<int>, c: Option<int>, d: Option<int>)
    ensures ViewBoxText([a, b, c, d]) == NumText(a) + " " + NumText(b) + " " + NumText(c) + " " + NumText(d)
  {
    var texts := seq(4, k requires 0 <= k < 4 => NumText([a, b, c, d][k]));
    assert texts == [NumText(a), NumText(b), NumText(c), NumText(d)];
    JoinFour(NumText(a), NumText(b), NumText(c), NumText(d));
  }

  lemma JoinFour(p: string, q: string, r: string, t: string)
    ensures Join([p, q, r, t], ' ') == p + " " + q + " " + r + " " + t
  {
    assert [p, q, r, t][1..] == [q, r, t];
    assert [q, r, t][1..] == [r, t];
    assert [r, t][1..] == [t];
    assert Join([t], ' ') == t;
    assert Join([r, t], ' ') == r + [' '] + t;
    assert Join([q, r, t], ' ') == q + [' '] + (r + [' '] + t);
  }

  /** The texts `${n}` of a list of integers. */
  function IntTexts(ns: seq<int>): (ts: seq<string>)
    ensures |ts| == |ns| && forall k :: 0 <= k < |ns| ==> ts[k] == IntText(ns[k])
  {
    seq(|ns|, k requires 0 <= k < |ns| => IntText(ns[k]))
  }

  /** A viewBox written as space-separated integers is carried over
      exactly: parsing it and joining it again gives the same text. */
  lemma ViewBoxRoundTrip(ns: seq<int>, width: Option<int>, height: Option<int>)
    requires |ns| > 0
    ensures var text := Join(IntTexts(ns), ' ');
      ViewBoxText(ViewBoxOf(Some(text), width, height)) == text
  {
    var ts := IntTexts(ns);
    var text := Join(ts, ' ');
    forall k | 0 <= k < |ts| ensures ' ' !in ts[k] {
      IntTextHasNoSpace(ns[k]);
    }
    SplitJoin(ts, ' ');
    var vb := ViewBoxOf(Some(text), width, height);
    assert |vb| == |ns|;
    forall k | 0 <= k < |vb| ensures NumText(vb[k]) == ts[k] {
      ToNumberIntText(ns[k]);
      assert vb[k] == ToNumber(ts[k]) == ToNumber(IntText(ns[k]));
    }
    assert seq(|vb|, k requires 0 <= k < |vb| => NumText(vb[k])) == ts;
  }

  // ---------------------------------------------------------------------
  // The page's state

  class HistoryView {
    var qrCodes: seq<QrCode>
    var loading: bool
    var downloading: Option<(string, Format)>

    constructor ()
      ensures qrCodes == [] && loading && downloading == None
    {
      qrCodes := [];
      loading := true;
      downloading := None;
    }

    /** `fetchQRCodes`, given the store's reply to `QueryFor(userId)`: the
        list becomes the rows (`data || []`), or stays as it was on error;
        `loading` ends false either way. */
    method FetchQRCodes(reply: FetchReply) returns (notice: Notice)
      modifies this`qrCodes, this`loading
      ensures !loading
      ensures reply.Rows? && reply.data.Some? ==> qrCodes == reply.data.value
      ensures reply.Rows? && reply.data.None? ==> qrCodes == []
      ensures reply.FetchError? ==> qrCodes == old(qrCodes) && notice == Failure("Error loading history")
      ensures reply.Rows? ==> notice == NoNotice
    {
      loading := true;
      notice := NoNotice;
      match reply {
        case Rows(data) =>
          qrCodes := if data.Some? then data.value else [];
        case FetchError =>
          notice := Failure("Error loading history");
      }
      loading := false;
    }

    /** `deleteQRCode(id)`, given whether the store reported an error: on
        success the list keeps exactly the records with another id, in
        order; on error it is unchanged. */
    method DeleteQRCode(id: string, storeSucceeded: bool) returns (notice: Notice)
      modifies this`qrCodes
      ensures storeSucceeded ==> qrCodes == WithoutId(old(qrCodes), id) && notice == Success("QR code deleted")
      ensures storeSucceeded ==> forall k :: 0 <= k < |qrCodes| ==> qrCodes[k].id != id
      ensures !storeSucceeded ==> qrCodes == old(qrCodes) && notice == Failure("Error deleting QR code")
    {
      if storeSucceeded {
        qrCodes := WithoutId(qrCodes, id);
        notice := Success("QR code deleted");
      } else {
        notice := Failure("Error deleting QR code");
      }
    }

    /** The qr-generatetor copy's `downloadQRCode` as written: the PNG
        promise is not awaited, so `downloading` is cleared at once and
        the PNG branch never notifies. */
    method GeneratorDownloadQRCodeAsWritten(id: string, format: Format, elementPresent: bool, raster: RasterStep)
      returns (d: GeneratorDownload)
      modifies this`downloading
      ensures downloading == None
      ensures d == GeneratorDownloadAsWritten(qrCodes, id, format, elementPresent, raster)
    {
      downloading := Some((id, format));
      d := GeneratorDownloadAsWritten(qrCodes, id, format, elementPresent, raster);
      downloading := None;
    }

    /** The qr-generatetor copy's `downloadQRCode`, with the PNG promise
        awaited (see GeneratorDownloadAsWritten for the code as it stands). */
    method GeneratorDownloadQRCode(id: string, format: Format, elementPresent: bool, raster: RasterStep)
      returns (d: GeneratorDownload)
      modifies this`downloading
      ensures downloading == None
      ensures d == GeneratorDownloadAwaited(qrCodes, id, format, elementPresent, raster)
    {
      downloading := Some((id, format));
      d := GeneratorDownloadAwaited(qrCodes, id, format, elementPresent, raster);
      downloading := None;
    }

    /** The genqr copy's `downloadQRCode`. */
    method GenqrDownloadQRCode(id: string, format: Format, svg: Option<SvgElement>, canvasContext: bool,
                               imageLoads: bool)
      returns (r: Result<GenqrFile>, notice: Notice)
      modifies this`downloading
      ensures downloading == None
      ensures r == GenqrDownload(qrCodes, id, format, svg, canvasContext, imageLoads)
      ensures notice == GenqrNotice(format, r)
    {
      downloading := Some((id, format));
      r := GenqrDownload(qrCodes, id, format, svg, canvasContext, imageLoads);
      notice := GenqrNotice(format, r);
      downloading := None;
    }
  }
}
