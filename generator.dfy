/** The generator page (qr-generatetor/components/qr-code-generator.tsx):
    colour presets, the colour-scheme effect, the custom-colour editor with
    its hue slider, the harmonious-colour generator, the record saved to the
    history table, and the SVG/PNG export of the preview. */
module Generator {
  import opened JsText
  import G = GenqrStyle

  // ---------------------------------------------------------------------
  // Presets

  datatype Preset = Preset(value: string, title: string, colors: seq<string>)

  const ColorPresets: seq<Preset> := [
    Preset("default", "Default", ["#000000"]),
    Preset("blue", "Blue", ["#1E40AF", "#3B82F6", "#93C5FD", "#DBEAFE"]),
    Preset("green", "Green", ["#166534", "#22C55E", "#86EFAC", "#DCFCE7"]),
    Preset("purple", "Purple", ["#581C87", "#9333EA", "#D8B4FE", "#F3E8FF"]),
    Preset("red", "Red", ["#991B1B", "#EF4444", "#FCA5A5", "#FEE2E2"]),
    Preset("gradient", "Gradient", ["#6366F1", "#8B5CF6", "#D946EF", "#F43F5E"]),
    Preset("random", "Random", []),
    Preset("custom", "Custom", [])
  ]

  /** The colours both `colors` and `customColors` start with. */
  const InitialColors: seq<string> := ["#000000", "#333333", "#666666", "#999999"]

  /** `presets.find((p) => p.value === scheme)`: the first preset with that value. */
  function FindPreset(presets: seq<Preset>, scheme: string): (r: Option<Preset>)
    ensures r.None? <==> forall k :: 0 <= k < |presets| ==> presets[k].value != scheme
    ensures r.Some? ==> exists k :: (0 <= k < |presets| && presets[k] == r.value && r.value.value == scheme
      && forall j :: 0 <= j < k ==> presets[j].value != scheme)
  {
    if presets == [] then None
    else if presets[0].value == scheme then Some(presets[0])
    else
      FindPreset(presets[1..], scheme)
  }

  /** What the preset table promises of each entry: a known scheme, and
      colours for every scheme but "random" and "custom" (four for every
      scheme but "default" too). */
  predicate PresetShape(p: Preset) {
    && p.value in {"default", "blue", "green", "purple", "red", "gradient", "random", "custom"}
    && (p.value != "random" && p.value != "custom" ==> |p.colors| > 0)
    && (p.value != "random" && p.value != "custom" && p.value != "default" ==> |p.colors| == 4)
  }

  lemma ColorPresetsShape()
    ensures forall k :: 0 <= k < |ColorPresets| ==> PresetShape(ColorPresets[k])
  {
    forall k | 0 <= k < |ColorPresets| ensures PresetShape(ColorPresets[k]) {
      PresetAt(k);
    }
  }

  /** The schemes that have a preset, and the colours it gives: only the
      six named schemes other than "random" and "custom" find one; its
      colours are never empty, and the five colour presets have four. */
  lemma {:induction false} PresetColorsNonEmpty(presets: seq<Preset>, scheme: string)
    requires forall k :: 0 <= k < |presets| ==> PresetShape(presets[k])
    requires scheme != "random" && scheme != "custom"
    ensures FindPreset(presets, scheme).Some? ==> |FindPreset(presets, scheme).value.colors| > 0
    ensures FindPreset(presets, scheme).Some? && scheme != "default" ==>
      |FindPreset(presets, scheme).value.colors| == 4
    ensures FindPreset(presets, scheme).Some? ==> scheme in {"default", "blue", "green", "purple", "red", "gradient"}
  {
    var r := FindPreset(presets, scheme);
    if r.Some? {
      var k :| 0 <= k < |presets| && presets[k] == r.value && r.value.value == scheme;
      assert PresetShape(presets[k]);
    }
  }

  /** Each of the six named schemes finds its preset. */
  lemma PresetSchemesFound(scheme: string)
    ensures scheme in {"default", "blue", "green", "purple", "red", "gradient"} ==> FindPreset(ColorPresets, scheme).Some?
  {
  }

  const PresetValues: seq<string> := ["default", "blue", "green", "purple", "red", "gradient", "random", "custom"]

  /** One entry of the preset table. */
  lemma PresetAt(k: nat)
    requires k < 8
    ensures |ColorPresets| == 8 && ColorPresets[k].value == PresetValues[k]
    ensures k < 6 ==> |ColorPresets[k].colors| > 0
    ensures 0 < k < 6 ==> |ColorPresets[k].colors| == 4
  {
  }

  /** The default scheme's preset is the first entry, with the single
      colour black; so the effect run for it at mount replaces the four
      initial colours by that one. */
  lemma DefaultPresetColors()
    ensures FindPreset(ColorPresets, "default") == Some(ColorPresets[0])
    ensures ColorPresets[0].colors == ["#000000"]
    ensures SchemeColors("default", InitialColors, InitialColors, 0) == ["#000000"]
  {
    PresetAt(0);
  }

  // ---------------------------------------------------------------------
  // hsl(...) colour strings

  /** `hsl(${h}, ${s}%, ${l}%)` with its three numbers already as text. */
  function HslText(h: string, s: string, l: string): string {
    "hsl(" + h + ", " + s + "%, " + l + "%)"
  }

  /** The three groups of a match of `/hsl\((\d+),\s*(\d+)%,\s*(\d+)%\)/`. */
  datatype HslMatch = HslMatch(hue: string, saturation: string, lightness: string)

  predicate DigitGroups(m: HslMatch) {
    |m.hue| > 0 && AllDigits(m.hue) && |m.saturation| > 0 && AllDigits(m.saturation)
    && |m.lightness| > 0 && AllDigits(m.lightness)
  }

  /** A run of decimal digits as a slice. */
  lemma DigitSlice(s: string, i: nat)
    requires i <= |s|
    ensures AllDigits(s[i..i + DigitRun(s, i, 10)])
  {
    var slice := s[i..i + DigitRun(s, i, 10)];
    forall k | 0 <= k < |slice| ensures IsDigit(slice[k]) {
      assert slice[k] == s[i + k];
      assert RadixDigit(s[i + k], 10).Some?;
    }
  }

  /** `s[i] == c`, false past the end. */
  predicate CharAt(s: string, i: nat, c: char) {
    i < |s| && s[i] == c
  }

  /** The pattern tried at position `i` of `s`. Each repeated part is
      followed by a character it cannot consume, so the greedy reading is
      the only one: a digit run is followed by `,` or `%`, a white-space
      run by a digit. */
  function MatchHslAt(s: string, i: nat): (r: Option<HslMatch>)
    requires i <= |s|
    ensures r.Some? ==> DigitGroups(r.value)
  {
    if i + 4 <= |s| && s[i..i + 4] == "hsl(" then MatchHueOn(s, i + 4) else None
  }

  /** `(\d+),` and the rest, from position `a`. */
  function MatchHueOn(s: string, a: nat): (r: Option<HslMatch>)
    requires a <= |s|
    ensures r.Some? ==> DigitGroups(r.value)
  {
    var b := a + DigitRun(s, a, 10);
    if b == a || !CharAt(s, b, ',') then None
    else match MatchSaturationOn(s, b + 1)
      case None => None
      case Some(rest) =>
        DigitSlice(s, a);
        Some(HslMatch(s[a..b], rest.0, rest.1))
  }

  /** `\s*(\d+)%,` and the rest, from position `p`. */
  function MatchSaturationOn(s: string, p: nat): (r: Option<(string, string)>)
    requires p <= |s|
    ensures r.Some? ==> |r.value.0| > 0 && AllDigits(r.value.0) && |r.value.1| > 0 && AllDigits(r.value.1)
  {
    var c := p + SpaceRun(s, p);
    var d := c + DigitRun(s, c, 10);
    if d == c || !(CharAt(s, d, '%') && CharAt(s, d + 1, ',')) then None
    else match MatchLightnessOn(s, d + 2)
      case None => None
      case Some(l) =>
        DigitSlice(s, c);
        Some((s[c..d], l))
  }

  /** `\s*(\d+)%\)`, from position `p`. */
  function MatchLightnessOn(s: string, p: nat): (r: Option<string>)
    requires p <= |s|
    ensures r.Some? ==> |r.value| > 0 && AllDigits(r.value)
  {
    var e := p + SpaceRun(s, p);
    var f := e + DigitRun(s, e, 10);
    if f == e || !(CharAt(s, f, '%') && CharAt(s, f + 1, ')')) then None
    else
      DigitSlice(s, e);
      Some(s[e..f])
  }

  /** The digits of `x`, placed at `i` in `t` and followed by a non-digit, form
      the run at `i`. */
  lemma DigitRunOf(t: string, i: nat, x: string)
    requires |x| > 0 && AllDigits(x) && i + |x| < |t| && t[i..i + |x|] == x && !IsDigit(t[i + |x|])
    ensures DigitRun(t, i, 10) == |x|
  {
    assert forall k :: i <= k < i + |x| ==> IsDigit(t[k]) by {
      forall k | i <= k < i + |x| ensures IsDigit(t[k]) { assert t[k] == t[i..i + |x|][k - i]; }
    }
    DigitRunIs(t, i, |x|);
  }

  /** Where the parts of `HslText(h, s, l)` sit: `hsl(` at 0, the hue at 4,
      `, ` at `a`, the saturation, `%, ` at `b`, the lightness, `%)` at `c`. */
  lemma HslTextShape(h: string, s: string, l: string)
    ensures var t := HslText(h, s, l);
      var a := 4 + |h|;
      var b := a + 2 + |s|;
      var c := b + 3 + |l|;
      && |t| == c + 2 && t[..4] == "hsl(" && t[4..a] == h && t[a] == ',' && t[a + 1] == ' '
      && t[a + 2..b] == s && t[b] == '%' && t[b + 1] == ',' && t[b + 2] == ' '
      && t[b + 3..c] == l && t[c] == '%' && t[c + 1] == ')'
  {
  }

  /** `\s*(\d+)%\)` matches one space, the digits `l`, then `%)`. */
  lemma LightnessAt(t: string, p: nat, l: string)
    requires |l| > 0 && AllDigits(l) && p + |l| + 3 <= |t|
    requires t[p] == ' ' && t[p + 1..p + 1 + |l|] == l && t[p + 1 + |l|] == '%' && t[p + 2 + |l|] == ')'
    ensures MatchLightnessOn(t, p) == Some(l)
  {
    NoSpaceAtDigit(l[0]);
    assert t[p + 1] == t[p + 1..p + 1 + |l|][0];
    SpaceRunIs(t, p, 1);
    DigitRunOf(t, p + 1, l);
  }

  /** `\s*(\d+)%,` and the lightness part match one space, the digits
      `sat`, `%,`, one space, the digits `l`, then `%)`. */
  lemma SaturationAt(t: string, p: nat, sat: string, l: string)
    requires |sat| > 0 && AllDigits(sat) && |l| > 0 && AllDigits(l)
    requires p + |sat| + |l| + 6 <= |t|
    requires t[p] == ' ' && t[p + 1..p + 1 + |sat|] == sat
    requires t[p + 1 + |sat|] == '%' && t[p + 2 + |sat|] == ','
    requires t[p + 3 + |sat|] == ' ' && t[p + 4 + |sat|..p + 4 + |sat| + |l|] == l
    requires t[p + 4 + |sat| + |l|] == '%' && t[p + 5 + |sat| + |l|] == ')'
    ensures MatchSaturationOn(t, p) == Some((sat, l))
  {
    var d := p + 1 + |sat|;
    NoSpaceAtDigit(sat[0]);
    assert t[p + 1] == t[p + 1..d][0];
    SpaceRunIs(t, p, 1);
    DigitRunOf(t, p + 1, sat);
    assert CharAt(t, d, '%') && CharAt(t, d + 1, ',');
    LightnessAt(t, d + 2, l);
    SaturationOnSteps(t, p, p + 1, d, l);
  }

  /** `MatchSaturationOn` once its white space ends at `c`, its digits at
      `d`, and the lightness part matches. */
  lemma SaturationOnSteps(t: string, p: nat, c: nat, d: nat, l: string)
    requires p <= c < d <= |t|
    requires c == p + SpaceRun(t, p) && d == c + DigitRun(t, c, 10)
    requires CharAt(t, d, '%') && CharAt(t, d + 1, ',') && MatchLightnessOn(t, d + 2) == Some(l)
    ensures MatchSaturationOn(t, p) == Some((t[c..d], l))
  {
  }

  /** The text that `HslText` builds is matched at its start, with its own
      three parts as the groups. */
  lemma MatchHslText(h: string, sat: string, l: string)
    requires |h| > 0 && AllDigits(h) && |sat| > 0 && AllDigits(sat) && |l| > 0 && AllDigits(l)
    ensures FindHsl(HslText(h, sat, l), 0) == Some(HslMatch(h, sat, l))
  {
    var t := HslText(h, sat, l);
    HslTextShape(h, sat, l);
    var a := 4 + |h|;
    DigitRunOf(t, 4, h);
    SaturationAt(t, a + 1, sat, l);
    assert MatchHueOn(t, 4) == Some(HslMatch(h, sat, l));
    assert MatchHslAt(t, 0) == Some(HslMatch(h, sat, l));
  }

  /** `s.match(...)` from position `i` on: the leftmost match. */
  function FindHsl(s: string, i: nat): (r: Option<HslMatch>)
    requires i <= |s|
    ensures r.Some? ==> DigitGroups(r.value)
    ensures MatchHslAt(s, i).Some? ==> r == MatchHslAt(s, i)
    ensures r.None? ==> NoMatchBetween(s, i, |s| + 1)
    ensures r.Some? ==> exists j :: i <= j <= |s| && r == MatchHslAt(s, j) && NoMatchBetween(s, i, j)
    decreases |s| - i
  {
    match MatchHslAt(s, i)
    case Some(m) =>
      assert NoMatchBetween(s, i, i);
      Some(m)
    case None =>
      if i < |s| then
        var r := FindHsl(s, i + 1);
        LeftmostStep(s, i, r);
        r
      else
        assert NoMatchBetween(s, i, |s| + 1) by {
          forall k | i <= k < |s| + 1 ensures MatchHslAt(s, k).None? {
            assert k == i;
          }
        }
        None
  }

  /** No position in `[i, j)` of `s` starts a match (the end `|s|` is a
      position too). */
  predicate NoMatchBetween(s: string, i: nat, j: nat)
    requires i <= j <= |s| + 1
  {
    forall k :: i <= k < j ==> MatchHslAt(s, k).None?
  }

  /** A leftmost match from `i + 1` on is one from `i` on when there is
      none at `i`. */
  lemma LeftmostStep(s: string, i: nat, r: Option<HslMatch>)
    requires i < |s| && MatchHslAt(s, i).None?
    requires r.None? ==> NoMatchBetween(s, i + 1, |s| + 1)
    requires r.Some? ==> exists j :: i + 1 <= j <= |s| && r == MatchHslAt(s, j) && NoMatchBetween(s, i + 1, j)
    ensures r.None? ==> NoMatchBetween(s, i, |s| + 1)
    ensures r.Some? ==> exists j :: i <= j <= |s| && r == MatchHslAt(s, j) && NoMatchBetween(s, i, j)
  {
    if r.Some? {
      var j :| i + 1 <= j <= |s| && r == MatchHslAt(s, j) && NoMatchBetween(s, i + 1, j);
      NoMatchExtends(s, i, j);
    } else {
      NoMatchExtends(s, i, |s| + 1);
    }
  }

  /** A stretch without a match grows by one position to the left. */
  lemma NoMatchExtends(s: string, i: nat, j: nat)
    requires i < j <= |s| + 1 && MatchHslAt(s, i).None? && NoMatchBetween(s, i + 1, j)
    ensures NoMatchBetween(s, i, j)
  {
  }

  /** The hue slider: `color` is the custom colour the slider belongs to and
      `hue` the slider position. Saturation and lightness are kept from the
      first hsl(...) in `color`, or are 70% and 50% when there is none. */
  function SliderColor(color: string, hue: nat): string {
    var m := FindHsl(color, 0);
    var sat := if m.Some? then m.value.saturation else "70";
    var light := if m.Some? then m.value.lightness else "50";
    HslText(DecimalText(hue), sat, light)
  }

  /** The slider replaces only the hue: the new colour matches with the new
      hue and with the saturation and lightness of the old colour, or with
      the defaults when the old colour was not an hsl(...) string. */
  lemma SliderKeepsSaturationAndLightness(color: string, hue: nat)
    ensures var m := FindHsl(color, 0);
      var r := FindHsl(SliderColor(color, hue), 0);
      r.Some? && r.value.hue == DecimalText(hue)
      && (m.Some? ==> r.value.saturation == m.value.saturation && r.value.lightness == m.value.lightness)
      && (m.None? ==> r.value.saturation == "70" && r.value.lightness == "50")
  {
    var m := FindHsl(color, 0);
    var sat := if m.Some? then m.value.saturation else "70";
    var light := if m.Some? then m.value.lightness else "50";
    MatchHslText(DecimalText(hue), sat, light);
  }

  /** Line terminators, which `.` in a regular expression does not match. */
  predicate IsLineTerminator(c: char) {
    c == '\n' || c == '\r' || c == '\U{2028}' || c == '\U{2029}'
  }

  /** No character of `s` is a line terminator. */
  predicate OnOneLine(s: string) {
    forall k :: 0 <= k < |s| ==> !IsLineTerminator(s[k])
  }

  /** The slider position shown for a colour:
      `Number.parseInt(color.replace(/^hsl\((\d+),.+$/, "$1") || "0")`.
      When `color` is `hsl(` digits `,` and at least one more character, none
      of them a line terminator, the digits are read; otherwise the whole
      colour is (`||` only replaces an empty colour). None is NaN. */
  function SliderPosition(color: string): Option<int> {
    var n := if |color| >= 4 then DigitRun(color, 4, 10) else 0;
    var comma := 4 + n;
    if |color| >= 4 && color[..4] == "hsl(" && n > 0 && comma + 1 < |color| && color[comma] == ','
       && OnOneLine(color[comma + 1..])
    then ParseInt(color[4..comma], false)
    else ParseInt(Or(color, "0"), false)
  }

  /** Moving the slider to `hue` puts it at `hue`: the colour it writes is
      shown at the position it was moved to. */
  lemma SliderPositionAfterSlide(color: string, hue: nat)
    ensures SliderPosition(SliderColor(color, hue)) == Some(hue)
  {
    var m := FindHsl(color, 0);
    var sat := if m.Some? then m.value.saturation else "70";
    var light := if m.Some? then m.value.lightness else "50";
    var h := DecimalText(hue);
    assert SliderColor(color, hue) == HslText(h, sat, light);
    SliderPositionOfHslText(h, sat, light);
    ParseIntDecimalText(hue, false);
  }

  /** The slider reads the hue digits of an hsl text. */
  lemma SliderPositionOfHslText(h: string, sat: string, light: string)
    requires |h| > 0 && AllDigits(h) && AllDigits(sat) && AllDigits(light)
    ensures SliderPosition(HslText(h, sat, light)) == ParseInt(h, false)
  {
    var t := HslText(h, sat, light);
    HslTextSliderForm(h, sat, light);
    var comma := 4 + DigitRun(t, 4, 10);
    assert comma == 4 + |h| && t[4..comma] == h;
  }

  /** A colour written as `#rrggbb`, as the initial custom colours and the
      colour picker's are, puts the slider at NaN. */
  lemma SliderPositionOfHexColor(color: string)
    requires |color| > 0 && color[0] == '#'
    ensures SliderPosition(color) == None
  {
    if |color| >= 4 {
      assert color[..4][0] == '#';
    }
    assert SliderPosition(color) == ParseInt(color, false);
    assert !IsJsSpace(color[0]);
    SpaceRunIs(color, 0, 0);
    ParseIntNonNumeric(color, false);
  }

  /** `HslText` has the form the slider's pattern reads: `hsl(`, the hue
      digits, `,`, and a one-line remainder. */
  lemma HslTextSliderForm(h: string, sat: string, light: string)
    requires |h| > 0 && AllDigits(h) && AllDigits(sat) && AllDigits(light)
    ensures var t := HslText(h, sat, light);
      |t| >= 4 && t[..4] == "hsl(" && DigitRun(t, 4, 10) == |h| && 4 + |h| + 1 < |t|
      && t[4 + |h|] == ',' && OnOneLine(t[4 + |h| + 1..]) && t[4..4 + |h|] == h
  {
    var t := HslText(h, sat, light);
    HslTextShape(h, sat, light);
    DigitRunOf(t, 4, h);
    var a := 4 + |h|;
    HslTextTailOneLine(h, sat, light);
    var rest := t[a + 1..];
    forall k | 0 <= k < |rest| ensures !IsLineTerminator(rest[k]) {
      assert rest[k] == t[a + 1 + k];
    }
  }

  /** After the hue's comma, an hsl text holds no line terminator. */
  lemma HslTextTailOneLine(h: string, sat: string, light: string)
    requires AllDigits(sat) && AllDigits(light)
    ensures var t := HslText(h, sat, light);
      forall k :: 4 + |h| + 1 <= k < |t| ==> !IsLineTerminator(t[k])
  {
    var t := HslText(h, sat, light);
    HslTextShape(h, sat, light);
    var a := 4 + |h|;
    var b := a + 2 + |sat|;
    var c := b + 3 + |light|;
    forall k | a + 1 <= k < |t| ensures !IsLineTerminator(t[k]) {
      if a + 2 <= k < b {
        assert t[k] == t[a + 2..b][k - a - 2];
      } else if b + 3 <= k < c {
        assert t[k] == t[b + 3..c][k - b - 3];
      }
    }
  }

  // ---------------------------------------------------------------------
  // Harmonious colours

  /** The four hues of `generateHarmoniousColors`, for the base hue `b`
      (`Math.floor(Math.random() * 360)`, so `0 <= b < 360`). */
  function HarmoniousHues(b: nat): (hues: seq<nat>)
    requires b < 360
    ensures |hues| == 4
    ensures forall k :: 0 <= k < 4 ==> hues[k] < 360
    ensures hues[0] == b && (hues[1] + 180 - b) % 360 == 0 && (hues[2] + 240 - b) % 360 == 0
    ensures (hues[3] + 300 - b) % 360 == 0
  {
    [b, (b + 180) % 360, (b + 120) % 360, (b + 60) % 360]
  }

  /** Three positioning-square colours at 70%/45%, then the data-module
      colour at 65%/80%. */
  function HarmoniousColors(b: nat): (cs: seq<string>)
    requires b < 360
    ensures |cs| == 4
  {
    var h := HarmoniousHues(b);
    [HslText(DecimalText(h[0]), "70", "45"), HslText(DecimalText(h[1]), "70", "45"),
     HslText(DecimalText(h[2]), "70", "45"), HslText(DecimalText(h[3]), "65", "80")]
  }

  /** Every harmonious colour is an hsl(...) string whose hue is the
      matching harmonious hue, below 360, with the documented saturation
      and lightness; so the slider keeps them, and shows each at its hue. */
  lemma HarmoniousColorsParse(b: nat, k: nat)
    requires b < 360 && k < 4
    ensures var m := FindHsl(HarmoniousColors(b)[k], 0);
      m.Some? && m.value.hue == DecimalText(HarmoniousHues(b)[k])
      && m.value.saturation == (if k < 3 then "70" else "65")
      && m.value.lightness == (if k < 3 then "45" else "80")
    ensures SliderPosition(HarmoniousColors(b)[k]) == Some(HarmoniousHues(b)[k])
  {
    var h := HarmoniousHues(b)[k];
    var sat := if k < 3 then "70" else "65";
    var light := if k < 3 then "45" else "80";
    assert |sat| > 0 && AllDigits(sat) && |light| > 0 && AllDigits(light);
    assert HarmoniousColors(b)[k] == HslText(DecimalText(h), sat, light);
    HslTextOfHue(h, sat, light);
  }

  /** An hsl text with the hue `hue` is matched with its own parts, and puts
      the slider at `hue`. */
  lemma HslTextOfHue(hue: nat, sat: string, light: string)
    requires |sat| > 0 && AllDigits(sat) && |light| > 0 && AllDigits(light)
    ensures FindHsl(HslText(DecimalText(hue), sat, light), 0) == Some(HslMatch(DecimalText(hue), sat, light))
    ensures SliderPosition(HslText(DecimalText(hue), sat, light)) == Some(hue)
  {
    MatchHslText(DecimalText(hue), sat, light);
    SliderPositionOfHslText(DecimalText(hue), sat, light);
    ParseIntDecimalText(hue, false);
  }

  // ---------------------------------------------------------------------
  // The colour-scheme effect

  /** `colors` after the colour-scheme effect has run for `scheme`; `hue`
      is the random base hue a "random" scheme draws. */
  function SchemeColors(scheme: string, colors: seq<string>, customColors: seq<string>, hue: nat): seq<string>
    requires hue < 360
  {
    if scheme == "custom" then customColors
    else if scheme == "random" then HarmoniousColors(hue)
    else match FindPreset(ColorPresets, scheme)
      case Some(p) => p.colors
      case None => colors
  }

  /** The effect never leaves `colors` empty: the empty colour lists of the
      "random" and "custom" presets are never used, because those two
      schemes are handled first. */
  lemma SchemeColorsNonEmpty(scheme: string, colors: seq<string>, customColors: seq<string>, hue: nat)
    requires hue < 360
    requires |colors| > 0 && |customColors| == 4
    ensures |SchemeColors(scheme, colors, customColors, hue)| > 0
    ensures scheme in {"blue", "green", "purple", "red", "gradient"} ==>
      |SchemeColors(scheme, colors, customColors, hue)| == 4
  {
    if scheme != "custom" && scheme != "random" {
      ColorPresetsShape();
      PresetColorsNonEmpty(ColorPresets, scheme);
    }
  }

  // ---------------------------------------------------------------------
  // The saved record

  /** The row inserted into `qr_codes`; the store assigns `id` and
      `created_at`. */
  datatype InsertRow = InsertRow(
    url: string, pattern: string, color1: string, color2: Option<string>,
    color3: Option<string>, color4: Option<string>, userId: Option<string>,
    ipAddress: string, svgData: string)

  /** The row built from the current state. */
  function BuildInsertRow(url: string, pattern: string, colors: seq<string>, userId: Option<string>,
                          ipAddress: string, svgData: string): (row: InsertRow)
    ensures row.url == url && row.pattern == pattern && row.userId == userId
    ensures row.ipAddress == ipAddress && row.svgData == svgData
    ensures row.color1 != ""
    ensures |colors| > 0 && colors[0] != "" ==> row.color1 == colors[0]
    ensures (|colors| == 0 || colors[0] == "") ==> row.color1 == "#000000"
    ensures forall k :: 1 <= k < 4 ==>
      ([row.color2, row.color3, row.color4][k - 1].Some? <==> k < |colors| && colors[k] != "")
    ensures forall k :: 1 <= k < |colors| && k < 4 && colors[k] != "" ==>
      [row.color2, row.color3, row.color4][k - 1] == Some(colors[k])
  {
    InsertRow(url, pattern, SlotOr(colors, 0, "#000000"), SlotOrNull(colors, 1), SlotOrNull(colors, 2),
      SlotOrNull(colors, 3), userId, ipAddress, svgData)
  }

  /** Four non-empty colours are stored as they are, in order. */
  lemma SavedColorsRoundTrip(colors: seq<string>, url: string, pattern: string, userId: Option<string>,
                             ip: string, svg: string)
    requires |colors| == 4 && forall k :: 0 <= k < 4 ==> colors[k] != ""
    ensures var row := BuildInsertRow(url, pattern, colors, userId, ip, svg);
      [Some(row.color1), row.color2, row.color3, row.color4] == [Some(colors[0]), Some(colors[1]), Some(colors[2]), Some(colors[3])]
  {
  }

  /** The session lookup: an error, or a session with an optional user. */
  datatype Session = SessionError(message: string) | SessionFound(userId: Option<string>)

  /** The IP lookup: the address the service reported, or a failure. */
  datatype IpLookup = IpFound(ip: string) | IpLookupFailed

  /** `getClientIp`: a failed lookup gives "unknown" and never fails the save. */
  function ClientIp(l: IpLookup): (ip: string)
    ensures l.IpLookupFailed? ==> ip == "unknown"
    ensures l.IpFound? ==> ip == l.ip
  {
    match l
    case IpFound(ip) => ip
    case IpLookupFailed => "unknown"
  }

  /** `getSvgString`: the serialized preview SVG, or "" when the container
      or the SVG inside it is missing. */
  function SvgString(containerMounted: bool, serializedSvg: Option<string>): (s: string)
    ensures !containerMounted || serializedSvg.None? ==> s == ""
    ensures containerMounted && serializedSvg.Some? ==> s == serializedSvg.value
  {
    if !containerMounted then "" else match serializedSvg
      case None => ""
      case Some(x) => x
  }

  /** What `saveQRCode` does. A session error fails before anything is
      inserted; otherwise the row is sent, and the insert may still fail. */
  datatype SaveOutcome = SaveFailedBeforeInsert(message: string) | InsertAttempted(row: InsertRow, inserted: bool)

  function SaveAttempt(url: string, pattern: string, colors: seq<string>, session: Session,
                      ip: IpLookup, svgData: string, insertSucceeds: bool): (o: SaveOutcome)
    ensures session.SessionError? <==> o.SaveFailedBeforeInsert?
    ensures session.SessionError? ==> o.message == session.message
    ensures o.InsertAttempted? ==> (o.inserted == insertSucceeds
      && o.row == BuildInsertRow(url, pattern, colors, session.userId, ClientIp(ip), svgData))
  {
    match session
    case SessionError(msg) => SaveFailedBeforeInsert(msg)
    case SessionFound(userId) =>
      InsertAttempted(BuildInsertRow(url, pattern, colors, userId, ClientIp(ip), svgData), insertSucceeds)
  }

  // ---------------------------------------------------------------------
  // Export of the preview

  /** The attributes of an `<svg>` element that the export reads or writes. */
  datatype SvgAttrs = SvgAttrs(width: Option<string>, height: Option<string>, viewBox: Option<string>,
                               xmlns: Option<string>)

  const SvgNamespace: string := "http://www.w3.org/2000/svg"

  /** The live element after the viewBox step: a missing or empty viewBox
      becomes `0 0 w h`, each side defaulting to "200". */
  function WithViewBox(svg: SvgAttrs): (s: SvgAttrs)
    ensures Truthy(svg.viewBox) ==> s == svg
    ensures !Truthy(svg.viewBox) ==>
      s == svg.(viewBox := Some("0 0 " + OptOr(svg.width, "200") + " " + OptOr(svg.height, "200")))
    ensures Truthy(s.viewBox)
  {
    if Truthy(svg.viewBox) then svg
    else svg.(viewBox := Some("0 0 " + OptOr(svg.width, "200") + " " + OptOr(svg.height, "200")))
  }

  /** The clone made for download: the namespace is set, a missing or
      empty width or height becomes "200". */
  function Standalone(svg: SvgAttrs): (c: SvgAttrs)
    ensures c.xmlns == Some(SvgNamespace) && c.viewBox == svg.viewBox
    ensures c.width == Some(OptOr(svg.width, "200")) && c.height == Some(OptOr(svg.height, "200"))
  {
    SvgAttrs(Some(OptOr(svg.width, "200")), Some(OptOr(svg.height, "200")), svg.viewBox, Some(SvgNamespace))
  }

  /** A PNG export: the canvas is the SVG's size times the scale (NaN when
      a side does not parse), the white background and the image both
      cover `width × height` in the scaled coordinates. */
  datatype Download =
    | SvgFile(fileName: string, svg: SvgAttrs)
    | PngFile(fileName: string, svg: SvgAttrs, canvasWidth: Option<int>, canvasHeight: Option<int>,
              drawWidth: Option<int>, drawHeight: Option<int>)

  /** The scale of the PNG export. */
  const PngScale: int := 4

  /** What `downloadQRCode(format)` produces. The first component is the
      live element afterwards (the viewBox step changes the page's own SVG,
      not the clone), the second the file or the message of the error thrown. */
  function ExportPreview(format: Format, refMounted: bool, svg: Option<SvgAttrs>, timestamp: nat,
                         canvasContext: bool, imageLoads: bool): (r: (Option<SvgAttrs>, Result<Download>))
  {
    if !refMounted then (svg, Err("QR code reference is not available"))
    else if svg.None? then (svg, Err("SVG element not found. Try refreshing the page."))
    else
      var live := WithViewBox(svg.value);
      var clone := Standalone(live);
      var fileName := "qrcode-" + DecimalText(timestamp);
      if format == Svg then (Some(live), Ok(SvgFile(fileName + ".svg", clone)))
      else if !canvasContext then (Some(live), Err("Could not get canvas context"))
      else (Some(live), RasterizeClone(fileName, clone, imageLoads))
  }

  /** The PNG branch once a 2-D context exists: the size is read back with
      `parseInt(..., 10)`, and the image must load before anything is drawn. */
  function RasterizeClone(fileName: string, clone: SvgAttrs, imageLoads: bool): (r: Result<Download>)
    ensures !imageLoads ==> r == Err("Failed to load SVG image")
    ensures imageLoads ==> r.Ok? && r.value.PngFile? && r.value.fileName == fileName + ".png" && r.value.svg == clone
    ensures imageLoads ==> (r.value.drawWidth == ParseInt(OptOr(clone.width, "200"), true)
      && r.value.drawHeight == ParseInt(OptOr(clone.height, "200"), true)
      && r.value.canvasWidth == NumScale(r.value.drawWidth, PngScale)
      && r.value.canvasHeight == NumScale(r.value.drawHeight, PngScale))
  {
    var w := ParseInt(OptOr(clone.width, "200"), true);
    var h := ParseInt(OptOr(clone.height, "200"), true);
    if !imageLoads then Err("Failed to load SVG image")
    else Ok(PngFile(fileName + ".png", clone, NumScale(w, PngScale), NumScale(h, PngScale), w, h))
  }

  /** The export's guarantees: the error cases come in the order the code
      checks them; a successful export always carries explicit width,
      height and viewBox, and names the file after the timestamp. */
  lemma ExportContract(format: Format, refMounted: bool, svg: Option<SvgAttrs>, timestamp: nat,
                       canvasContext: bool, imageLoads: bool)
    ensures var (live, res) := ExportPreview(format, refMounted, svg, timestamp, canvasContext, imageLoads);
      && (!refMounted ==> res == Err("QR code reference is not available") && live == svg)
      && (refMounted && svg.None? ==> res == Err("SVG element not found. Try refreshing the page."))
      && (refMounted && svg.Some? ==> live == Some(WithViewBox(svg.value)))
      && (refMounted && svg.Some? && format == Png && !canvasContext ==> res == Err("Could not get canvas context"))
      && (refMounted && svg.Some? && format == Png && canvasContext && !imageLoads ==> res == Err("Failed to load SVG image"))
      && (res.Ok? <==> refMounted && svg.Some? && (format == Png ==> canvasContext && imageLoads))
      && (res.Ok? ==> res.value.svg == Standalone(WithViewBox(svg.value)))
      && (res.Ok? ==> Truthy(res.value.svg.width) && Truthy(res.value.svg.height) && Truthy(res.value.svg.viewBox)
                      && res.value.svg.xmlns == Some(SvgNamespace))
      && (res.Ok? && format == Svg ==> res.value == SvgFile("qrcode-" + DecimalText(timestamp) + ".svg", res.value.svg))
      && (res.Ok? && format == Png ==> (res.value.PngFile? && res.value.fileName == "qrcode-" + DecimalText(timestamp) + ".png"
            && res.value.canvasWidth == NumScale(res.value.drawWidth, 4)
            && res.value.canvasHeight == NumScale(res.value.drawHeight, 4)))
  {
    if refMounted && svg.Some? {
      var live := WithViewBox(svg.value);
      var clone := Standalone(live);
      assert Truthy(clone.width) && Truthy(clone.height) && Truthy(clone.viewBox);
      if format == Png && canvasContext {
        var fileName := "qrcode-" + DecimalText(timestamp);
        assert ExportPreview(format, refMounted, svg, timestamp, canvasContext, imageLoads)
          == (Some(live), RasterizeClone(fileName, clone, imageLoads));
      }
    }
  }

  /** An SVG with no (or empty) size attributes and no viewBox exports at
      200 × 200: viewBox "0 0 200 200" on the page, and an 800 × 800 canvas
      for PNG. */
  lemma ExportDefaultSize(svg: SvgAttrs, timestamp: nat)
    requires !Truthy(svg.width) && !Truthy(svg.height) && !Truthy(svg.viewBox)
    ensures var (live, res) := ExportPreview(Png, true, Some(svg), timestamp, true, true);
      live == Some(svg.(viewBox := Some("0 0 200 200")))
      && res.Ok? && res.value.PngFile?
      && res.value.canvasWidth == Some(800) && res.value.canvasHeight == Some(800)
      && res.value.drawWidth == Some(200) && res.value.drawHeight == Some(200)
  {
    assert OptOr(svg.width, "200") == "200" && OptOr(svg.height, "200") == "200";
    assert "0 0 " + "200" + " " + "200" == "0 0 200 200";
    var clone := Standalone(WithViewBox(svg));
    assert clone.width == Some("200") && clone.height == Some("200");
    var t := DecimalText(200);
    assert t == "200";
    ParseIntDecimalText(200, true);
  }

  /** An SVG that states its size as decimal text `w` and `h` gets a canvas
      of `4w × 4h`, and the existing viewBox, if any, is left alone. */
  lemma ExportCanvasScale(w: nat, h: nat, viewBox: Option<string>, timestamp: nat)
    ensures var svg := SvgAttrs(Some(DecimalText(w)), Some(DecimalText(h)), viewBox, None);
      var (live, res) := ExportPreview(Png, true, Some(svg), timestamp, true, true);
      res.Ok? && res.value.PngFile?
      && res.value.canvasWidth == Some(4 * w) && res.value.canvasHeight == Some(4 * h)
      && (Truthy(viewBox) ==> live == Some(svg))
      && (!Truthy(viewBox) ==> live.value.viewBox == Some("0 0 " + DecimalText(w) + " " + DecimalText(h)))
  {
    var svg := SvgAttrs(Some(DecimalText(w)), Some(DecimalText(h)), viewBox, None);
    var live := WithViewBox(svg);
    var clone := Standalone(live);
    var fileName := "qrcode-" + DecimalText(timestamp);
    ParseIntDecimalText(w, true);
    ParseIntDecimalText(h, true);
    RasterizeDecimalSize(fileName, clone, w, h);
    assert ExportPreview(Png, true, Some(svg), timestamp, true, true) == (Some(live), RasterizeClone(fileName, clone, true));
  }

  /** A clone whose sides read back as `w` and `h` is drawn at `w × h` on
      a `4w × 4h` canvas. */
  lemma RasterizeDecimalSize(fileName: string, clone: SvgAttrs, w: nat, h: nat)
    requires Truthy(clone.width) && Truthy(clone.height)
    requires ParseInt(clone.width.value, true) == Some(w) && ParseInt(clone.height.value, true) == Some(h)
    ensures RasterizeClone(fileName, clone, true)
      == Ok(PngFile(fileName + ".png", clone, Some(4 * w), Some(4 * h), Some(w), Some(h)))
  {
    assert OptOr(clone.width, "200") == clone.width.value && OptOr(clone.height, "200") == clone.height.value;
  }

  // ---------------------------------------------------------------------
  // The page's state

  class QrCodeGenerator {
    var url: string
    var pattern: string
    var dotType: string
    var colorScheme: string
    var colors: seq<string>
    var customColors: seq<string>
    var saving: bool
    var downloading: Option<Format>

    /** `customColors` always has its four entries, and `colors` is never
        empty (so `colors[0]`, the preview's foreground, is defined). */
    predicate Valid()
      reads this
    {
      |customColors| == 4 && |colors| > 0
    }

    /** The page after its first render: the state starts from its
        initial values, and the colour-scheme effect then runs once for
        the initial scheme "default", so `colors` is the default preset's
        single colour while `customColors` keeps the four initial ones. */
    constructor ()
      ensures Valid()
      ensures url == "https://example.com" && pattern == "squares" && dotType == "square"
      ensures colorScheme == "default" && customColors == InitialColors
      ensures colors == SchemeColors("default", InitialColors, InitialColors, 0)
      ensures colors == ["#000000"]
      ensures !saving && downloading == None
    {
      url := "https://example.com";
      pattern := "squares";
      dotType := "square";
      colorScheme := "default";
      colors := InitialColors;
      customColors := InitialColors;
      saving := false;
      downloading := None;
      new;
      RunSchemeEffect(0);
      DefaultPresetColors();
    }

    method SetUrl(u: string)
      requires Valid()
      modifies this`url
      ensures Valid()
      ensures url == u
    {
      url := u;
    }

    method SetPattern(p: string)
      requires Valid()
      modifies this`pattern
      ensures Valid()
      ensures pattern == p
    {
      pattern := p;
    }

    method SetDotType(d: string)
      requires Valid()
      modifies this`dotType
      ensures Valid()
      ensures dotType == d
    {
      dotType := d;
    }

    /** The colour-scheme effect for the current scheme; `hue` is the base
        hue a "random" scheme draws. */
    method RunSchemeEffect(hue: nat)
      requires Valid() && hue < 360
      modifies this`colors, this`customColors
      ensures Valid()
      ensures customColors == old(customColors)
      ensures colors == SchemeColors(colorScheme, old(colors), old(customColors), hue)
    {
      SchemeColorsNonEmpty(colorScheme, colors, customColors, hue);
      if colorScheme == "custom" {
        colors := customColors;
      } else if colorScheme == "random" {
        HandleRandomColors(hue);
      } else {
        var preset := FindPreset(ColorPresets, colorScheme);
        if preset.Some? {
          colors := preset.value.colors;
        }
      }
    }

    /** Choosing a colour scheme after the first render. The effect depends
        on the scheme alone, so it runs again only when the scheme changes. */
    method SelectColorScheme(scheme: string, hue: nat)
      requires Valid() && hue < 360
      modifies this`colorScheme, this`colors, this`customColors
      ensures Valid()
      ensures colorScheme == scheme && customColors == old(customColors)
      ensures scheme == old(colorScheme) ==> colors == old(colors)
      ensures scheme != old(colorScheme) ==> colors == SchemeColors(scheme, old(colors), old(customColors), hue)
    {
      if scheme == colorScheme {
        return;
      }
      colorScheme := scheme;
      RunSchemeEffect(hue);
    }

    /** `handleColorChange(index, color)`: entry `index` of a copy of the
        custom colours is replaced; `colors` follows only under the
        "custom" scheme. The editor only calls it for a rendered entry. */
    method HandleColorChange(index: nat, color: string)
      requires Valid() && index < |customColors|
      modifies this`colors, this`customColors
      ensures Valid()
      ensures customColors == old(customColors)[index := color]
      ensures |customColors| == |old(customColors)| && customColors[index] == color
      ensures forall k :: 0 <= k < |customColors| && k != index ==> customColors[k] == old(customColors)[k]
      ensures colorScheme == "custom" ==> colors == customColors
      ensures colorScheme != "custom" ==> colors == old(colors)
    {
      var newColors := customColors[index := color];
      customColors := newColors;
      if colorScheme == "custom" {
        colors := newColors;
      }
    }

    /** `handleRandomColors` with the drawn base hue `hue`. */
    method HandleRandomColors(hue: nat)
      requires Valid() && hue < 360
      modifies this`colors, this`customColors
      ensures Valid()
      ensures colors == HarmoniousColors(hue)
      ensures colorScheme == "custom" ==> customColors == HarmoniousColors(hue)
      ensures colorScheme != "custom" ==> customColors == old(customColors)
    {
      var randomColors := HarmoniousColors(hue);
      colors := randomColors;
      if colorScheme == "custom" {
        customColors := randomColors;
      }
    }

    /** `handleAIColors`, given the four colours its golden-angle
        computation produced: both lists take them and the scheme becomes
        "custom" (the effect that may follow sets `colors` to the new
        custom colours, which are the same list). */
    method HandleAIColors(aiColors: seq<string>)
      requires Valid() && |aiColors| == 4
      modifies this`colors, this`customColors, this`colorScheme
      ensures Valid()
      ensures colors == aiColors && customColors == aiColors && colorScheme == "custom"
    {
      colors := aiColors;
      var wasCustom := colorScheme == "custom";
      colorScheme := "custom";
      customColors := aiColors;
      if !wasCustom {
        colors := customColors;
      }
    }

    /** Moving the hue slider of custom colour `index` to `hue`. */
    method SlideHue(index: nat, hue: nat)
      requires Valid() && index < |customColors| && hue <= 360
      modifies this`colors, this`customColors
      ensures Valid()
      ensures customColors == old(customColors)[index := SliderColor(old(customColors)[index], hue)]
      ensures colorScheme == "custom" ==> colors == customColors
      ensures colorScheme != "custom" ==> colors == old(colors)
    {
      HandleColorChange(index, SliderColor(customColors[index], hue));
    }

    /** The props the page gives the preview component. */
    function PreviewProps(): (p: G.Props)
      requires Valid()
      reads this
      ensures p.fgColor == colors[0] && p.colors == colors
      ensures p.value == Or(url, "https://example.com") && p.value != ""
      ensures p.size == 200 && p.includeMargin && p.level == "H" && p.bgColor == "#ffffff"
      ensures p.pattern == pattern && p.dotType == dotType
    {
      G.Props(Or(url, "https://example.com"), 200, "#ffffff", colors[0], "H", true, pattern, dotType, colors)
    }

    /** `saveQRCode`: `saving` is raised for the duration and lowered at
        the end, whatever happened; nothing else on the page changes. */
    method SaveQRCode(session: Session, ip: IpLookup, containerMounted: bool, serializedSvg: Option<string>,
                      insertSucceeds: bool)
      returns (o: SaveOutcome)
      modifies this`saving
      ensures !saving
      ensures o == SaveAttempt(url, pattern, colors, session, ip, SvgString(containerMounted, serializedSvg),
                               insertSucceeds)
    {
      saving := true;
      var svgData := SvgString(containerMounted, serializedSvg);
      o := SaveAttempt(url, pattern, colors, session, ip, svgData, insertSucceeds);
      saving := false;
    }

    /** `downloadQRCode(format)`: `downloading` names the format for the
        duration and is cleared at the end, whatever happened. */
    method DownloadQRCode(format: Format, refMounted: bool, svg: Option<SvgAttrs>, timestamp: nat,
                          canvasContext: bool, imageLoads: bool)
      returns (live: Option<SvgAttrs>, res: Result<Download>)
      modifies this`downloading
      ensures downloading == None
      ensures (live, res) == ExportPreview(format, refMounted, svg, timestamp, canvasContext, imageLoads)
    {
      downloading := Some(format);
      var outcome := ExportPreview(format, refMounted, svg, timestamp, canvasContext, imageLoads);
      live, res := outcome.0, outcome.1;
      downloading := None;
    }
  }
}
