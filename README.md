# QR code generator: a Dafny model of the browser app's logic

The app lets a user generate a styled QR code for a URL, save it to a history table and download it as SVG or PNG. The repository holds two versions of the app, `qr-generatetor` and `genqr`. QR encoding and drawing are done by an external styling widget. Storage and sign-in are done by a hosted database service. This model covers the deterministic layer around those:

- **Style mapper and widget lifecycle.** `GenqrStyle` and `GeneratorStyle` model the two copies of `custom-qr-code.tsx`.
  - Each maps the dot-type and pattern strings, plus the colour list, to the widget's shapes and colours.
  - A `QrCodePreview` class models the widget itself, which is constructed once and then updated in place.
  - `GeneratorStyle` proves that the two copies agree for every input.
- **Generator page.** `Generator` models `qr-code-generator.tsx`:
  - the colour presets and the colour-scheme effect;
  - the custom-colour editor and its hsl hue slider;
  - the harmonious-colour generator;
  - the row saved to the history table;
  - the SVG/PNG export of the preview.

  The page's state is the class `Generator.QrCodeGenerator`.
- **History page.** `QrHistory` models both copies of `qr-code-history.tsx`:
  - the record type, lookup by id and delete as a filter;
  - the preview fallback and the URL truncation;
  - the history query;
  - the two different download flows, including the genqr rewrite of the opening `<svg>` tag.

  The page's state is the class `QrHistory.HistoryView`.
- **JavaScript semantics.** `JsText` gives the parts of JavaScript the code relies on, on Dafny strings and integers:
  - `||` on strings, and reading past the end of an array;
  - `${n}` for integers;
  - `parseInt`, and `Number` on a token;
  - `split` and `join`.

Some inputs are parameters of the model. They are the outcomes of browser, network and database calls, the random base hue, and the timestamp. Where a flow raises an error, the model returns the error's message, in a `Result`.

## Model

| member | source | states |
|---|---|---|
| JsText.DecimalText | qr-generatetor/components/qr-code-generator.tsx:100-108 | `${n}` of a non-negative integer: non-empty decimal digits, no leading zero, whose value is `n` |
| JsText.ParseIntDecimalText | qr-generatetor/components/qr-code-generator.tsx:212-213 | `parseInt` of the decimal text of `n` is `n`, with or without radix 10 |
| JsText.ParseIntEmptyIsNaN | qr-generatetor/components/qr-code-generator.tsx:442 | `parseInt` of the empty string is NaN |
| JsText.ParseIntNonNumeric | qr-generatetor/components/qr-code-generator.tsx:442 | `parseInt` of a string whose first non-space character is neither a digit nor a sign is NaN |
| JsText.SignedDigitsToNumber | genqr/components/qr-code-history.tsx:91 | `Number` reads decimal digits, with an optional leading minus, as that integer |
| JsText.ToNumberIntText | genqr/components/qr-code-history.tsx:91 | `Number` of an integer's text gives the integer back |
| JsText.JoinSplit | genqr/components/qr-code-history.tsx:91-97 | joining the pieces of a split with the same separator gives the string back |
| JsText.SplitJoin | genqr/components/qr-code-history.tsx:91-97 | splitting a join of separator-free pieces gives the pieces back |
| JsText.SlotOr | genqr/components/custom-qr-code.tsx:63 | `arr[i] \|\| fallback`: the entry when it exists and is non-empty, the fallback otherwise |
| JsText.SlotOrNull | qr-generatetor/components/qr-code-generator.tsx:304-306 | `arr[i] \|\| null`: the entry when it exists and is non-empty, null otherwise |
| GenqrStyle.GetDotsOptions | genqr/components/custom-qr-code.tsx:41-65 | dot shape from the dot type; colour from slot 3, falling back to the foreground colour |
| GenqrStyle.GetCornerSquareOptions | genqr/components/custom-qr-code.tsx:68-83 | corner-square shape from the pattern; colour from slot 0, with the fallback |
| GenqrStyle.GetCornerDotOptions | genqr/components/custom-qr-code.tsx:86-101 | corner-dot shape from the pattern; colour from slot 1, with the fallback |
| GenqrStyle.DotShapeTable | genqr/components/custom-qr-code.tsx:44-59 | circle→dots, rounded-square→rounded, extra-rounded→extra-rounded, diamond→classy-rounded; any other string→square |
| GenqrStyle.DotShapeRange | genqr/components/custom-qr-code.tsx:19-59 | the dot mapper never gives `classy`; it gives each of the other five shapes for some input |
| GenqrStyle.CornerSquareTable | genqr/components/custom-qr-code.tsx:69-77 | dots→dot, rounded or classy-rounded→extra-rounded, classy→classy, anything else→square, each as an if-and-only-if |
| GenqrStyle.CornerDotTable | genqr/components/custom-qr-code.tsx:87-95 | dots→dot, rounded or classy-rounded→rounded, classy→classy, anything else→square, each as an if-and-only-if |
| GenqrStyle.ColorsIgnoreSlotTwo | genqr/components/custom-qr-code.tsx:63-99 | changing colour slot 2 changes none of the three option groups |
| GenqrStyle.ColorsIgnoreLaterSlots | genqr/components/custom-qr-code.tsx:63-99 | changing any colour slot from 4 on changes none of the three option groups |
| GenqrStyle.BluePresetExample | genqr/components/custom-qr-code.tsx:41-101 | with pattern dots, dot type circle and the blue preset, the corner square is dot/#1E40AF, the corner dot dot/#3B82F6 and the dots dots/#DBEAFE |
| GenqrStyle.Margin | genqr/components/custom-qr-code.tsx:108 | the margin is 10 exactly when margins are on, and 0 exactly when they are off |
| GenqrStyle.ConstructOptions | genqr/components/custom-qr-code.tsx:104-123 | the widget is built with the size as width and height, the value, the margin, the level, the three groups and the background |
| GenqrStyle.UpdateOptions | genqr/components/custom-qr-code.tsx:127-132 | an update sets the data and the three groups and keeps width, height, margin, level and background |
| GenqrStyle.UpdateIdempotent | genqr/components/custom-qr-code.tsx:127-132 | updating twice with the same props equals updating once |
| GenqrStyle.UpdateMatchesConstructStyle | genqr/components/custom-qr-code.tsx:103-133 | after construct-then-update, the style equals a fresh construction from the new props, and the construction-time fields come from the first props |
| GenqrStyle.QrCodePreview.constructor | genqr/components/custom-qr-code.tsx:35 | no widget yet, nothing appended |
| GenqrStyle.QrCodePreview.Render | genqr/components/custom-qr-code.tsx:37-133 | without a container nothing changes; the first run constructs and appends once; later runs update and never append |
| GenqrStyle.RenderTwice | genqr/components/custom-qr-code.tsx:103-133 | after two runs there is one append, size, margin and background come from the first props, and dots and data from the second |
| GeneratorStyle.Margin | qr-generatetor/components/custom-qr-code.tsx:104 | the margin is 10 exactly when margins are on, and 0 exactly when they are off |
| GeneratorStyle.NamesInjective | qr-generatetor/components/custom-qr-code.tsx:49-97 | distinct shapes have distinct library names, so the string-returning copy loses nothing |
| GeneratorStyle.GetDotsOptions | qr-generatetor/components/custom-qr-code.tsx:46-61 | the dot shape name and `colors[3] \|\| fgColor`; contract in GeneratorStyle.DotsAgree and GeneratorStyle.UnknownIsSquare |
| GeneratorStyle.GetCornerSquareOptions | qr-generatetor/components/custom-qr-code.tsx:64-79 | the corner-square shape name and `colors[0] \|\| fgColor`; contract in GeneratorStyle.CornerSquareAgree and GeneratorStyle.UnknownIsSquare |
| GeneratorStyle.GetCornerDotOptions | qr-generatetor/components/custom-qr-code.tsx:82-97 | the corner-dot shape name and `colors[1] \|\| fgColor`; contract in GeneratorStyle.CornerDotAgree and GeneratorStyle.UnknownIsSquare |
| GeneratorStyle.DotsAgree | qr-generatetor/components/custom-qr-code.tsx:46-61 | the switch-returning dot mapper gives the genqr shape's name and the same colour, for every input |
| GeneratorStyle.CornerSquareAgree | qr-generatetor/components/custom-qr-code.tsx:64-79 | the corner-square mapper agrees with the genqr copy in shape and colour |
| GeneratorStyle.CornerDotAgree | qr-generatetor/components/custom-qr-code.tsx:82-97 | the corner-dot mapper agrees with the genqr copy in shape and colour |
| GeneratorStyle.UnknownIsSquare | qr-generatetor/components/custom-qr-code.tsx:58-83 | an unknown dot type or pattern gives square, and every shape lies in the library's union |
| GeneratorStyle.MarginAgree | qr-generatetor/components/custom-qr-code.tsx:104 | the margins of the two copies agree |
| GeneratorStyle.ConstructOptions | qr-generatetor/components/custom-qr-code.tsx:100-119 | the construction fields come from the props |
| GeneratorStyle.UpdateOptions | qr-generatetor/components/custom-qr-code.tsx:123-128 | an update keeps width, height, margin, level and background, and takes the data from the props |
| GeneratorStyle.LifecycleAgrees | qr-generatetor/components/custom-qr-code.tsx:99-129 | construction and update of the two copies give the same widget options field for field |
| GeneratorStyle.QrCodePreview.constructor | qr-generatetor/components/custom-qr-code.tsx:30 | no widget yet, nothing appended |
| GeneratorStyle.QrCodePreview.Render | qr-generatetor/components/custom-qr-code.tsx:42-130 | construct once and append, then update in place; nothing without a container |
| Generator.FindPreset | qr-generatetor/components/qr-code-generator.tsx:63 | `find`: None exactly when no preset has the value, otherwise the first one that has it |
| Generator.PresetColorsNonEmpty | qr-generatetor/components/qr-code-generator.tsx:32-63 | in any table of well-formed presets, a scheme other than "random" and "custom" finds a preset only if it is one of the six named schemes; that preset's colour list is non-empty, and holds four colours unless the scheme is "default" |
| Generator.PresetSchemesFound | qr-generatetor/components/qr-code-generator.tsx:32-63 | each of the six named schemes finds its preset in the table |
| Generator.SchemeColors | qr-generatetor/components/qr-code-generator.tsx:57-68 | the colours the colour-scheme effect sets for a scheme; contract in Generator.SchemeColorsNonEmpty and Generator.QrCodeGenerator.RunSchemeEffect |
| Generator.SchemeColorsNonEmpty | qr-generatetor/components/qr-code-generator.tsx:57-68 | after the colour-scheme effect `colors` is never empty, and each colour preset gives four colours |
| Generator.DefaultPresetColors | qr-generatetor/components/qr-code-generator.tsx:33-68 | the "default" scheme finds the first preset, whose one colour is black, so the effect for it turns the four initial colours into `["#000000"]` |
| Generator.MatchHslText | qr-generatetor/components/qr-code-generator.tsx:445-448 | the hsl pattern matches the text the slider writes, with that text's own three numbers as its groups |
| Generator.FindHsl | qr-generatetor/components/qr-code-generator.tsx:445 | leftmost match of the hsl pattern: None only when no position from `i` on matches; otherwise the match at some position `j` with no match before it; a match at the start is the one returned; all groups are digit runs |
| Generator.SliderColor | qr-generatetor/components/qr-code-generator.tsx:443-448 | the colour the slider writes for a hue; contract in Generator.SliderKeepsSaturationAndLightness and Generator.SliderPositionAfterSlide |
| Generator.SliderPosition | qr-generatetor/components/qr-code-generator.tsx:442 | the slider position of a colour; contract in Generator.SliderPositionOfHslText, Generator.SliderPositionOfHexColor and Generator.SliderPositionAfterSlide |
| Generator.SliderKeepsSaturationAndLightness | qr-generatetor/components/qr-code-generator.tsx:443-448 | the slider gives the new hue and keeps the old saturation and lightness, or 70% and 50% when the colour is not hsl |
| Generator.SliderPositionAfterSlide | qr-generatetor/components/qr-code-generator.tsx:442-448 | the slider position read back from the colour the slider wrote is the hue it was moved to |
| Generator.SliderPositionOfHexColor | qr-generatetor/components/qr-code-generator.tsx:442 | a `#rrggbb` colour, such as the initial custom colours, puts the slider at NaN |
| Generator.SliderPositionOfHslText | qr-generatetor/components/qr-code-generator.tsx:442 | for an hsl text the slider reads its hue digits with `parseInt` |
| Generator.HslTextOfHue | qr-generatetor/components/qr-code-generator.tsx:442-448 | an hsl text built from a hue is matched with its own hue, saturation and lightness, and the slider shows it at that hue |
| Generator.HslTextSliderForm | qr-generatetor/components/qr-code-generator.tsx:442 | an hsl text is of the form the slider position pattern `^hsl\((\d+),.+$` reads |
| Generator.HarmoniousColors | qr-generatetor/components/qr-code-generator.tsx:93-111 | four colours; their hues, saturations and lightnesses in Generator.HarmoniousHues and Generator.HarmoniousColorsParse |
| Generator.HarmoniousHues | qr-generatetor/components/qr-code-generator.tsx:95-108 | four hues, each below 360: the base hue and the hues 180, 120 and 60 degrees round from it |
| Generator.HarmoniousColorsParse | qr-generatetor/components/qr-code-generator.tsx:98-110 | each harmonious colour is hsl with its hue, 70%/45% for the first three and 65%/80% for the last, and the slider shows it at that hue |
| Generator.BuildInsertRow | qr-generatetor/components/qr-code-generator.tsx:300-310 | url, pattern, user, ip and svg are kept; color_1 is `colors[0]` or "#000000"; each color_k is present exactly when its slot is non-empty, and then equals it |
| Generator.SavedColorsRoundTrip | qr-generatetor/components/qr-code-generator.tsx:303-306 | four non-empty colours are stored as they are, in order |
| Generator.ClientIp | qr-generatetor/components/qr-code-generator.tsx:275-284 | a failed lookup gives "unknown", a successful one the reported address |
| Generator.SvgString | qr-generatetor/components/qr-code-generator.tsx:139-144 | the serialized SVG, or "" when the container or the SVG is missing |
| Generator.SaveAttempt | qr-generatetor/components/qr-code-generator.tsx:286-312 | a session error fails before any insert and carries its message; otherwise exactly the built row is inserted |
| Generator.WithViewBox | qr-generatetor/components/qr-code-generator.tsx:161-166 | an existing viewBox is kept; a missing or empty one becomes `0 0 w h`, each side defaulting to "200" |
| Generator.Standalone | qr-generatetor/components/qr-code-generator.tsx:168-178 | the clone has the SVG namespace, keeps the viewBox, and a missing width or height becomes "200" |
| Generator.RasterizeClone | qr-generatetor/components/qr-code-generator.tsx:211-253 | an image that fails to load gives its error; otherwise the canvas is 4× the parsed size, and fill and image cover that size |
| Generator.ExportPreview | qr-generatetor/components/qr-code-generator.tsx:146-273 | what `downloadQRCode` produces and the viewBox it leaves on the live SVG; contract in Generator.ExportContract, Generator.ExportDefaultSize and Generator.ExportCanvasScale |
| Generator.ExportContract | qr-generatetor/components/qr-code-generator.tsx:146-262 | the errors in the order they are checked; a success exactly when no error applies; the exported element is the namespaced clone of the live SVG after its viewBox step, so it has explicit size, viewBox and namespace; files named `qrcode-<timestamp>.svg` or `.png` |
| Generator.ExportDefaultSize | qr-generatetor/components/qr-code-generator.tsx:162-218 | an SVG whose width, height and viewBox are missing or empty gets the viewBox "0 0 200 200" on the page, a 200×200 drawing and an 800×800 canvas |
| Generator.ExportCanvasScale | qr-generatetor/components/qr-code-generator.tsx:161-218 | an SVG of decimal size w×h gets the canvas 4w×4h; an existing viewBox is kept, a missing one becomes `0 0 w h` |
| Generator.QrCodeGenerator.constructor | qr-generatetor/components/qr-code-generator.tsx:44-68 | the initial url, pattern, dot type, scheme and custom colours; the effect has run once for "default", so `colors` is `["#000000"]`; not saving, not downloading |
| Generator.QrCodeGenerator.RunSchemeEffect | qr-generatetor/components/qr-code-generator.tsx:57-68 | the colour-scheme effect: custom copies the custom colours, random takes harmonious colours, a preset its colours, an unknown scheme nothing; the custom colours are kept and `colors` stays non-empty |
| Generator.QrCodeGenerator.SetUrl | qr-generatetor/components/qr-code-generator.tsx:44 | sets the url only, and the state stays valid |
| Generator.QrCodeGenerator.SetPattern | qr-generatetor/components/qr-code-generator.tsx:45 | sets the pattern only, and the state stays valid |
| Generator.QrCodeGenerator.SetDotType | qr-generatetor/components/qr-code-generator.tsx:46 | sets the dot type only, and the state stays valid |
| Generator.QrCodeGenerator.SelectColorScheme | qr-generatetor/components/qr-code-generator.tsx:57-68 | after the first render the effect runs again only when the scheme changes, with the outcome of `RunSchemeEffect`; the custom colours are kept and the state stays valid |
| Generator.QrCodeGenerator.HandleColorChange | qr-generatetor/components/qr-code-generator.tsx:75-82 | writes the colour at the index and keeps length and other entries; `colors` follows only under the custom scheme |
| Generator.QrCodeGenerator.HandleRandomColors | qr-generatetor/components/qr-code-generator.tsx:113-119 | `colors` becomes the harmonious colours; the custom colours follow only under the custom scheme |
| Generator.QrCodeGenerator.HandleAIColors | qr-generatetor/components/qr-code-generator.tsx:121-137 | both colour lists become the four generated colours and the scheme becomes custom |
| Generator.QrCodeGenerator.SlideHue | qr-generatetor/components/qr-code-generator.tsx:438-449 | the custom colour at the index becomes its slider colour for the hue; `colors` follows only under the custom scheme |
| Generator.QrCodeGenerator.PreviewProps | qr-generatetor/components/qr-code-generator.tsx:467-478 | the preview gets `colors[0]` as foreground, the colours, url or the default, size 200, margin on, level H, white background |
| Generator.QrCodeGenerator.SaveQRCode | qr-generatetor/components/qr-code-generator.tsx:286-328 | the save outcome is that of the attempt with the markup `getSvgString` reads from the preview container, and `saving` is false afterwards, whatever happened |
| Generator.QrCodeGenerator.DownloadQRCode | qr-generatetor/components/qr-code-generator.tsx:146-273 | the export's outcome, and `downloading` cleared afterwards, whatever happened |
| QrHistory.FindById | qr-generatetor/components/qr-code-history.tsx:77 | `find` by id: None exactly when no record has the id, otherwise the first that has it |
| QrHistory.WithoutId | qr-generatetor/components/qr-code-history.tsx:186 | the filter keeps no record with the id, keeps every record with another id, and adds none |
| QrHistory.WithoutIdConcat | genqr/components/qr-code-history.tsx:190 | the filter distributes over concatenation, so the kept records keep their order |
| QrHistory.WithoutIdCounts | qr-generatetor/components/qr-code-history.tsx:186 | each record is kept as often as it occurred when its id differs, and not at all otherwise |
| QrHistory.WithoutAbsentId | genqr/components/qr-code-history.tsx:190 | deleting an absent id leaves the list as it is |
| QrHistory.WithoutIdIdempotent | genqr/components/qr-code-history.tsx:190 | deleting twice equals deleting once |
| QrHistory.FindAfterDelete | qr-generatetor/components/qr-code-history.tsx:186 | after a delete the id is not found, and every other id is found as before |
| QrHistory.RenderQRCode | qr-generatetor/components/qr-code-history.tsx:201-222 | stored markup verbatim exactly when present; otherwise a 150×150 placeholder filled with color_1, or "#000000" when color_1 is empty; container id `qr-<id>` |
| QrHistory.RenderIgnoresStyle | genqr/components/qr-code-history.tsx:205-226 | the card does not depend on the stored pattern or the other colours |
| QrHistory.TruncateUrl | qr-generatetor/components/qr-code-history.tsx:259 | at most 33 characters; a URL of up to 30 is shown whole, a longer one as its first 30 plus "..." |
| QrHistory.TruncateIsPrefix | genqr/components/qr-code-history.tsx:263 | the link text starts with as much of the URL as fits, and is the URL or its 30-character prefix plus "..." |
| QrHistory.QueryFor | qr-generatetor/components/qr-code-history.tsx:49-56 | table qr_codes, newest first, filtered by user exactly when a non-empty user id exists |
| QrHistory.GeneratorDownloadAsWritten | qr-generatetor/components/qr-code-history.tsx:74-178 | the page's `downloadQRCode` as written, with the un-awaited PNG branch; contract in QrHistory.GeneratorPngNeverNotifies and QrHistory.GeneratorPngFailureUnreported |
| QrHistory.GeneratorPngNeverNotifies | qr-generatetor/components/qr-code-history.tsx:96-167 | as written, a PNG download shows no notification, whatever its outcome |
| QrHistory.GeneratorPngFailureUnreported | qr-generatetor/components/qr-code-history.tsx:103-168 | as written, an image that fails to load leaves an unhandled error and no notification |
| QrHistory.GeneratorDownloadAwaited | qr-generatetor/components/qr-code-history.tsx:74-178 | the same flow with the PNG branch awaited; contract in QrHistory.GeneratorDownloadContract and QrHistory.AwaitingChangesOnlyNotices |
| QrHistory.GeneratorDownloadContract | qr-generatetor/components/qr-code-history.tsx:74-178 | silent exactly for a missing record, empty markup or a missing element; otherwise every file brings a success notice and every failure an error notice; the SVG file is the stored markup verbatim as `qrcode-<id>.svg`, and the PNG is `qrcode-<id>.png` |
| QrHistory.AwaitingChangesOnlyNotices | qr-generatetor/components/qr-code-history.tsx:103-167 | awaiting the PNG changes only the notices: the same files are produced, and SVG downloads are identical |
| QrHistory.ViewBoxOf | genqr/components/qr-code-history.tsx:91 | a missing viewBox becomes [0, 0, width, height]; a present one becomes the number of each space-separated token |
| QrHistory.ViewBoxRoundTrip | genqr/components/qr-code-history.tsx:91-97 | a viewBox of space-separated integers, negative ones included, is written back exactly |
| QrHistory.FirstGt | genqr/components/qr-code-history.tsx:96 | the first `>` at or after a position, or None when there is none |
| QrHistory.FirstSvgTag | genqr/components/qr-code-history.tsx:96 | leftmost match of `<svg([^>]*)>`: a `<svg` followed by a later `>`, no earlier such position, and the first `>` after it |
| QrHistory.RewriteSvgTag | genqr/components/qr-code-history.tsx:95-98 | without an opening tag the markup is unchanged; otherwise the attributes go just before the first tag's `>` |
| QrHistory.RewriteKeepsRest | genqr/components/qr-code-history.tsx:95-98 | the markup before and after the inserted attributes is untouched, and only `extra` is added |
| QrHistory.GenqrDownload | genqr/components/qr-code-history.tsx:74-166 | the file or error of genqr's `downloadQRCode`; contract in QrHistory.GenqrDownloadContract, QrHistory.GenqrDefaultSize and QrHistory.GenqrDefaultSvgFile |
| QrHistory.GenqrDownloadContract | genqr/components/qr-code-history.tsx:74-166 | "QR code data not found" exactly when the record or markup is missing; then "SVG element not found"; success exactly when no error applies; file names; the SVG file is the serialized element with the size and viewBox attributes inserted into its first tag; PNG canvas 2× the parsed size, with fill and image at that size |
| QrHistory.GenqrNotice | genqr/components/qr-code-history.tsx:168-178 | the success notice exactly on success, and "Error downloading QR code" on every failure |
| QrHistory.GenqrDefaultSize | genqr/components/qr-code-history.tsx:89-116 | an SVG whose width and height are missing or empty, and that has no viewBox, is read as 300×300, with viewBox text "0 0 300 300" and a 600×600 canvas |
| QrHistory.GenqrDefaultSvgFile | genqr/components/qr-code-history.tsx:89-103 | for an element without size or viewBox the SVG file is the serialized element with ` width="300" height="300" viewBox="0 0 300 300"` inserted at the end of its first tag |
| QrHistory.HistoryView.constructor | qr-generatetor/components/qr-code-history.tsx:36-38 | empty list, loading, not downloading |
| QrHistory.HistoryView.FetchQRCodes | qr-generatetor/components/qr-code-history.tsx:45-72 | the list becomes the rows, or [] for null rows; an error keeps the list and gives the error notice; loading is false afterwards |
| QrHistory.HistoryView.DeleteQRCode | genqr/components/qr-code-history.tsx:184-203 | a successful delete keeps exactly the records with another id, in order; a failed one keeps the list; each gives its notice |
| QrHistory.HistoryView.GeneratorDownloadQRCode | qr-generatetor/components/qr-code-history.tsx:74-178 | the download result of the flow with the PNG awaited, and `downloading` cleared afterwards |
| QrHistory.HistoryView.GeneratorDownloadQRCodeAsWritten | qr-generatetor/components/qr-code-history.tsx:74-178 | the download result of the flow as written, where the PNG branch never notifies, and `downloading` cleared afterwards |
| QrHistory.HistoryView.GenqrDownloadQRCode | genqr/components/qr-code-history.tsx:74-182 | the genqr download result and its notice, and `downloading` cleared afterwards |

## Left out

- Drawing and encoding of the QR code is left out. The external styling widget does it, so the widget appears only as the options it was last given. Its constant image options are left out too.
- Browser I/O is left out: the DOM, canvas, `Image`, `Blob`, `FileReader`, `XMLSerializer`, object URLs and the `setTimeout` delays. Each appears as an input: the element is present or not, its attributes and serialized markup, the context exists or not, the image loads or not.
- The serialized markup of the live preview is not modelled. Only the attributes the export reads or writes are.
- The hosted database's session, select, insert and delete calls are left out. Each is an input, a reply or a success flag. The query is modelled only as the data `QueryFor` returns.
- The IP lookup over the network is left out. It appears as `IpLookup`.
- Notifications and console output are left out. They appear only as the `Notice` results of the history flows.
- `Math.random` is not modelled. The base hue is a parameter in [0, 360).
- Generator.QrCodeGenerator.HandleAIColors: the four generated colours are an input. The golden-angle offsets are fractional hues, so only the state effect is modelled.
- `generatePastelColor` (qr-generatetor/components/qr-code-generator.tsx:85-90) is left out. Nothing calls it.
- The remount of the preview through `qrCodeKey` and `Date.now()` is left out. With it, a change of pattern or dot type constructs a fresh widget instead of updating the old one. It is a React remount, not logic of the component.
- The `window._qrCodeInstance` handle is not modelled.
- React's effect scheduling and batching of state updates, stale closures and overlapping async calls are left out. Each handler is modelled as one step over the state it read.
- The `date-fns` formatting of `created_at` and `new Date().getTime()` are left out. The timestamp is a natural-number input.
- Lengths are counted in Dafny characters, not UTF-16 code units. `substring(0, 30)` and the 30-character limit therefore differ only for text outside the Basic Multilingual Plane.
- JsText.ToNumber: only blank tokens and optionally signed decimal integers are numbers. Fractions, exponents, hex and `Infinity` are treated as NaN.
- JsText.ParseInt: reads an unbounded integer. The rounding of values beyond 2^53 is not modelled, and neither is the exponent form (`1e+21`) that `${n}` (JsText.NumText, JsText.IntText) gives for numbers of 10^21 or more.
- The canvas's coercion of a NaN or negative size is not modelled. The canvas size is the parsed number times the scale, or NaN.
- The layout, footer, page and sign-in components are left out. They hold markup and calls to the sign-in service only.

## Findings

| source | as written | input that shows it | evidently intended | confidence | as-written member | corrected member |
|---|---|---|---|---|---|---|
| qr-generatetor/components/qr-code-history.tsx:103-167 | The PNG branch returns its promise from inside `try` without awaiting it. So the success notice after the branch never runs, and a rejection such as "Failed to load image" escapes the `catch`. `downloading` is also cleared before the image has loaded. | A stored record with markup whose image fails to load: no notification, and an unhandled rejection. Any successful PNG download: no success notification. | The PNG branch, like the SVG branch, ends in the success notice, and its failures reach the error notice. | not executed; the control flow is plain in the code | QrHistory.GeneratorDownloadAsWritten, QrHistory.GeneratorPngNeverNotifies, QrHistory.GeneratorPngFailureUnreported | QrHistory.GeneratorDownloadAwaited, QrHistory.GeneratorDownloadContract |
