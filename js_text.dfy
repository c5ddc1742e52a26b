/** JavaScript string and number behaviour that the components rely on:
    the `||` fallback on strings, array reads past the end, decimal
    rendering of integers in template literals, `parseInt`, `Number` on
    whitespace-separated tokens, `split(" ")` and `join(" ")`. */
module JsText {

  datatype Option<+T> = None | Some(value: T)

  /** The two formats a QR code is downloaded in. */
  datatype Format = Png | Svg

  /** The outcome of an action that can throw: the value, or the message
      of the error it threw. */
  datatype Result<+T> = Ok(value: T) | Err(message: string)

  /** `a || b` on a string: the empty string is falsy. */
  function Or(a: string, b: string): (r: string)
    ensures a != "" ==> r == a
    ensures a == "" ==> r == b
  {
    if a != "" then a else b
  }

  /** `arr[i]` of a JavaScript array: `undefined` past the end. */
  function At<T>(arr: seq<T>, i: nat): (r: Option<T>)
    ensures r.Some? <==> i < |arr|
    ensures r.Some? ==> r.value == arr[i]
  {
    if i < |arr| then Some(arr[i]) else None
  }

  /** `arr[i] || fallback` for an array of strings: an absent or empty slot
      gives the fallback. */
  function SlotOr(arr: seq<string>, i: nat, fallback: string): (r: string)
    ensures i < |arr| && arr[i] != "" ==> r == arr[i]
    ensures (i >= |arr| || arr[i] == "") ==> r == fallback
  {
    if i < |arr| then Or(arr[i], fallback) else fallback
  }

  /** `arr[i] || null` for an array of strings. */
  function SlotOrNull(arr: seq<string>, i: nat): (r: Option<string>)
    ensures r.Some? <==> i < |arr| && arr[i] != ""
    ensures r.Some? ==> r.value == arr[i]
  {
    if i < |arr| && arr[i] != "" then Some(arr[i]) else None
  }

  /** An optional attribute or column read with `|| fallback`. */
  function OptOr(a: Option<string>, fallback: string): (r: string)
    ensures a.Some? && a.value != "" ==> r == a.value
    ensures (a.None? || a.value == "") ==> r == fallback
  {
    if a.Some? && a.value != "" then a.value else fallback
  }

  /** True for a value that JavaScript treats as truthy when it is an
      optional string: present and non-empty. */
  predicate Truthy(a: Option<string>) {
    a.Some? && a.value != ""
  }

  // ---------------------------------------------------------------------
  // Characters

  predicate IsDigit(c: char) { '0' <= c <= '9' }

  /** White space and line terminators in the sense of ECMAScript
      (WhiteSpace, LineTerminator, and the Unicode space separators); this
      is the set matched by `\s` and skipped by `parseInt` and `Number`. */
  predicate IsJsSpace(c: char) {
    c == '\t' || c == '\n' || c == '\U{000B}' || c == '\U{000C}' || c == '\r' || c == ' '
    || c == '\U{00A0}' || c == '\U{1680}' || ('\U{2000}' <= c <= '\U{200A}')
    || c == '\U{2028}' || c == '\U{2029}' || c == '\U{202F}' || c == '\U{205F}'
    || c == '\U{3000}' || c == '\U{FEFF}'
  }

  predicate AllDigits(s: string) {
    forall k :: 0 <= k < |s| ==> IsDigit(s[k])
  }

  function DigitValue(c: char): (d: nat)
    requires IsDigit(c)
    ensures d < 10
  {
    (c as int - '0' as int) as nat
  }

  function DigitChar(d: nat): (c: char)
    requires d < 10
    ensures IsDigit(c) && DigitValue(c) == d
  {
    (('0' as int) + d) as char
  }

  /** The value of a hexadecimal digit, either case. */
  function HexDigitValue(c: char): Option<nat> {
    if IsDigit(c) then Some(DigitValue(c))
    else if 'a' <= c <= 'f' then Some((c as int - 'a' as int + 10) as nat)
    else if 'A' <= c <= 'F' then Some((c as int - 'A' as int + 10) as nat)
    else None
  }

  /** The digit value of `c` in the given radix, if `c` is such a digit. */
  function RadixDigit(c: char, radix: nat): (r: Option<nat>)
    requires radix == 10 || radix == 16
    ensures r.Some? ==> r.value < radix
    ensures radix == 10 ==> (r.Some? <==> IsDigit(c))
    ensures radix == 10 && IsDigit(c) ==> r == Some(DigitValue(c))
  {
    match HexDigitValue(c)
    case Some(d) => if d < radix then Some(d) else None
    case None => None
  }

  /** Value of a digit string in the given radix, most significant digit first. */
  function ValueOf(s: string, radix: nat): (v: nat)
    requires radix == 10 || radix == 16
    requires forall k :: 0 <= k < |s| ==> RadixDigit(s[k], radix).Some?
  {
    if s == [] then 0
    else ValueOf(s[..|s| - 1], radix) * radix + RadixDigit(s[|s| - 1], radix).value
  }

  // ---------------------------------------------------------------------
  // Decimal rendering of integers, as in `${n}`

  /** The shortest decimal text of `n`. */
  function DecimalText(n: nat): (s: string)
    ensures |s| > 0 && AllDigits(s)
    ensures ValueOf(s, 10) == n
    ensures s[0] == '0' ==> n == 0
  {
    if n < 10 then [DigitChar(n)]
    else
      var s := DecimalText(n / 10) + [DigitChar(n % 10)];
      assert s[..|s| - 1] == DecimalText(n / 10);
      s
  }

  /** `${n}` for an integer `n`. */
  function IntText(n: int): (s: string)
    ensures n >= 0 ==> s == DecimalText(n)
    ensures n < 0 ==> s == "-" + DecimalText(-n)
  {
    if n >= 0 then DecimalText(n) else "-" + DecimalText(-n)
  }

  /** `${x}` for a JavaScript number known to be an integer or NaN (None). */
  function NumText(x: Option<int>): (s: string)
    ensures x.None? ==> s == "NaN"
    ensures x.Some? ==> s == IntText(x.value)
  {
    match x
    case None => "NaN"
    case Some(n) => IntText(n)
  }

  /** `${n}` holds no space: only digits and a leading minus. */
  lemma IntTextHasNoSpace(n: int)
    ensures ' ' !in IntText(n)
  {
    var s := IntText(n);
    var d := DecimalText(if n >= 0 then n else -n);
    forall m | 0 <= m < |s| ensures s[m] != ' ' {
      if n >= 0 {
        assert IsDigit(d[m]);
      } else if m > 0 {
        assert s[m] == d[m - 1];
        assert IsDigit(d[m - 1]);
      }
    }
  }

  /** `x * k` for such a number: NaN stays NaN. */
  function NumScale(x: Option<int>, k: int): (r: Option<int>)
    ensures r.Some? <==> x.Some?
    ensures r.Some? ==> r.value == x.value * k
  {
    match x
    case None => None
    case Some(n) => Some(n * k)
  }

  // ---------------------------------------------------------------------
  // Scanning helpers

  /** Number of leading characters of `s[i..]` that satisfy `IsJsSpace`. */
  function SpaceRun(s: string, i: nat): (n: nat)
    requires i <= |s|
    ensures i + n <= |s|
    ensures forall k {:trigger IsJsSpace(s[k])} :: i <= k < i + n ==> IsJsSpace(s[k])
    ensures i + n < |s| ==> !IsJsSpace(s[i + n])
    decreases |s| - i
  {
    if i < |s| && IsJsSpace(s[i]) then 1 + SpaceRun(s, i + 1) else 0
  }

  /** Number of leading characters of `s[i..]` that are digits of `radix`. */
  function DigitRun(s: string, i: nat, radix: nat): (n: nat)
    requires i <= |s|
    requires radix == 10 || radix == 16
    ensures i + n <= |s|
    ensures forall k {:trigger RadixDigit(s[k], radix)} :: i <= k < i + n ==> RadixDigit(s[k], radix).Some?
    ensures i + n < |s| ==> RadixDigit(s[i + n], radix).None?
    decreases |s| - i
  {
    if i < |s| && RadixDigit(s[i], radix).Some? then 1 + DigitRun(s, i + 1, radix) else 0
  }

  /** A run is determined by where it stops: if `s[i..i+n]` are digits and
      the next character is not, the run is exactly `n` long. */
  lemma {:induction false} DigitRunIs(s: string, i: nat, n: nat)
    requires i + n <= |s|
    requires forall k :: i <= k < i + n ==> IsDigit(s[k])
    requires i + n < |s| ==> !IsDigit(s[i + n])
    ensures DigitRun(s, i, 10) == n
    decreases n
  {
    if n > 0 {
      DigitRunIs(s, i + 1, n - 1);
    }
  }

  /** The same for white space. */
  lemma {:induction false} SpaceRunIs(s: string, i: nat, n: nat)
    requires i + n <= |s|
    requires forall k :: i <= k < i + n ==> IsJsSpace(s[k])
    requires i + n < |s| ==> !IsJsSpace(s[i + n])
    ensures SpaceRun(s, i) == n
    decreases n
  {
    if n > 0 {
      SpaceRunIs(s, i + 1, n - 1);
    }
  }

  // ---------------------------------------------------------------------
  // parseInt

  /** The value of the longest run of radix digits at `start`, if any. */
  function DigitsAt(s: string, start: nat, radix: nat): (r: Option<nat>)
    requires start <= |s|
    requires radix == 10 || radix == 16
    ensures r.None? <==> DigitRun(s, start, radix) == 0
  {
    var n := DigitRun(s, start, radix);
    if n == 0 then None
    else
      var digits := s[start..start + n];
      assert forall k :: 0 <= k < |digits| ==> digits[k] == s[start + k];
      Some(ValueOf(digits, radix))
  }

  /** Decimal digits that stop at the end of the string are read in full. */
  lemma DigitsAtWhole(s: string, start: nat)
    requires start < |s|
    requires AllDigits(s[start..])
    ensures DigitsAt(s, start, 10) == Some(ValueOf(s[start..], 10))
  {
    assert forall k :: start <= k < |s| ==> IsDigit(s[k]) by {
      forall k | start <= k < |s| ensures IsDigit(s[k]) {
        assert s[start..][k - start] == s[k];
      }
    }
    DigitRunIs(s, start, |s| - start);
    assert s[start..start + (|s| - start)] == s[start..];
  }

  /** `parseInt(s, 10)` when `explicitRadix10` holds, `parseInt(s)` otherwise
      (which also reads a `0x`/`0X` prefix as hexadecimal). None is NaN. The
      steps: skip leading white space, read one optional sign, pick the radix,
      then read the longest run of digits; no digits gives NaN. */
  function ParseInt(s: string, explicitRadix10: bool): (r: Option<int>)
  {
    var i := SpaceRun(s, 0);
    var neg := i < |s| && s[i] == '-';
    var j := if i < |s| && (s[i] == '-' || s[i] == '+') then i + 1 else i;
    ParseUnsigned(s, j, neg, !explicitRadix10)
  }

  /** The part of `parseInt` after the sign: an optional hexadecimal prefix
      (only when `autoRadix`), then the digits, negated when `neg`. */
  function ParseUnsigned(s: string, j: nat, neg: bool, autoRadix: bool): (r: Option<int>)
    requires j <= |s|
  {
    var hex := autoRadix && j + 2 <= |s| && s[j] == '0' && (s[j + 1] == 'x' || s[j + 1] == 'X');
    var radix := if hex then 16 else 10;
    var start := if hex then j + 2 else j;
    match DigitsAt(s, start, radix)
    case None => None
    case Some(v) => Some(if neg then -(v as int) else v)
  }

  /** `parseInt` reads back the text of a non-negative integer, with or
      without an explicit radix. */
  lemma ParseIntDecimalText(n: nat, explicitRadix10: bool)
    ensures ParseInt(DecimalText(n), explicitRadix10) == Some(n)
  {
    var s := DecimalText(n);
    assert IsDigit(s[0]);
    NoSpaceAtDigit(s[0]);
    SpaceRunIs(s, 0, 0);
    assert s[0] != '-' && s[0] != '+';
    assert ParseInt(s, explicitRadix10) == ParseUnsigned(s, 0, false, !explicitRadix10);
    assert !(2 <= |s| && s[0] == '0');
    DigitsAtWhole(s, 0);
    assert s[0..] == s;
  }

  /** Digits are not white space. */
  lemma NoSpaceAtDigit(c: char)
    requires IsDigit(c)
    ensures !IsJsSpace(c)
  {
  }

  /** `parseInt("")` is NaN, with or without a radix; this is why the
      slider position falls back to "0" through `||` when the colour
      rewrites to the empty string. */
  lemma ParseIntEmptyIsNaN(explicitRadix10: bool)
    ensures ParseInt("", explicitRadix10) == None
  {
  }

  /** A string that, after its leading white space, starts with neither a
      digit nor a sign is NaN, whatever follows, with or without a radix. */
  lemma ParseIntNonNumeric(s: string, explicitRadix10: bool)
    requires var i := SpaceRun(s, 0); i == |s| || (!IsDigit(s[i]) && s[i] != '-' && s[i] != '+')
    ensures ParseInt(s, explicitRadix10) == None
  {
    var i := SpaceRun(s, 0);
    if i < |s| {
      assert RadixDigit(s[i], 10).None?;
    }
  }

  // ---------------------------------------------------------------------
  // Number(token) for the tokens of a viewBox

  /** `Number(t)` for a token. Blank gives 0; an optional sign followed by
      decimal digits, with white space around, gives that integer. Every
      other token is treated as NaN (None). */
  function ToNumber(t: string): (r: Option<int>)
  {
    var i := SpaceRun(t, 0);
    if i == |t| then Some(0)
    else
      var neg := t[i] == '-';
      var j := if t[i] == '-' || t[i] == '+' then i + 1 else i;
      var n := DigitRun(t, j, 10);
      if n > 0 && j + n + SpaceRun(t, j + n) == |t| then
        match DigitsAt(t, j, 10)
        case None => None
        case Some(v) => Some(if neg then -(v as int) else v)
      else None
  }

  /** `Number` reads a run of decimal digits, with an optional leading
      minus sign, as that integer. */
  lemma SignedDigitsToNumber(s: string, j: nat)
    requires j <= 1 && j < |s|
    requires j == 1 ==> s[0] == '-'
    requires forall k :: j <= k < |s| ==> IsDigit(s[k])
    requires AllDigits(s[j..])
    ensures ToNumber(s) == Some(if j == 1 then -(ValueOf(s[j..], 10) as int) else ValueOf(s[j..], 10))
  {
    assert s[0] == '-' || IsDigit(s[0]);
    assert !IsJsSpace(s[0]);
    SpaceRunIs(s, 0, 0);
    assert (s[0] == '-' || s[0] == '+') <==> j == 1;
    DigitRunIs(s, j, |s| - j);
    SpaceRunIs(s, |s|, 0);
    DigitsAtWhole(s, j);
  }

  /** `Number` reads back the text of any integer. */
  lemma ToNumberIntText(n: int)
    ensures ToNumber(IntText(n)) == Some(n)
  {
    var s := IntText(n);
    var m: nat := if n >= 0 then n else -n;
    var d := DecimalText(m);
    var j := if n >= 0 then 0 else 1;
    assert s[j..] == d;
    forall k | j <= k < |s| ensures IsDigit(s[k]) {
      assert s[k] == d[k - j];
    }
    SignedDigitsToNumber(s, j);
  }

  // ---------------------------------------------------------------------
  // split(" ") and join(" ")

  /** `s.split(sep)` for a one-character separator: the pieces between
      separators, empty pieces included; never an empty list. */
  function Split(s: string, sep: char): (r: seq<string>)
    ensures |r| > 0
    ensures forall k :: 0 <= k < |r| ==> sep !in r[k]
    decreases |s|
  {
    if s == [] then [""]
    else
      var rest := Split(s[1..], sep);
      if s[0] == sep then [""] + rest
      else [[s[0]] + rest[0]] + rest[1..]
  }

  /** `parts.join(sep)`. */
  function Join(parts: seq<string>, sep: char): (s: string)
    decreases |parts|
  {
    if parts == [] then ""
    else if |parts| == 1 then parts[0]
    else parts[0] + [sep] + Join(parts[1..], sep)
  }

  /** Joining the pieces of a split gives back the string. */
  lemma {:induction false} JoinSplit(s: string, sep: char)
    ensures Join(Split(s, sep), sep) == s
    decreases |s|
  {
    if s != [] {
      var rest := Split(s[1..], sep);
      JoinSplit(s[1..], sep);
      if s[0] != sep {
        var r := Split(s, sep);
        assert r[0] == [s[0]] + rest[0] && r[1..] == rest[1..];
        if |rest| == 1 {
          assert Join(r, sep) == [s[0]] + rest[0];
        } else {
          assert Join(rest, sep) == rest[0] + [sep] + Join(rest[1..], sep);
          assert Join(r, sep) == [s[0]] + rest[0] + [sep] + Join(rest[1..], sep);
        }
      }
    }
  }

  /** Splitting a join of separator-free pieces gives back the pieces. */
  lemma {:induction false} SplitJoin(parts: seq<string>, sep: char)
    requires |parts| > 0
    requires forall k :: 0 <= k < |parts| ==> sep !in parts[k]
    ensures Split(Join(parts, sep), sep) == parts
    decreases |parts|, |parts[0]|
  {
    if |parts| == 1 {
      SplitPiece(parts[0], sep);
    } else {
      SplitJoin(parts[1..], sep);
      SplitCons(parts[0], Join(parts[1..], sep), sep);
      assert [parts[0]] + parts[1..] == parts;
    }
  }

  /** A separator-free string splits into itself. */
  lemma {:induction false} SplitPiece(p: string, sep: char)
    requires sep !in p
    ensures Split(p, sep) == [p]
    decreases |p|
  {
    if p != [] {
      SplitPiece(p[1..], sep);
      assert [p[0]] + p[1..] == p;
    }
  }

  /** Splitting `p + [sep] + rest` for a separator-free `p`. */
  lemma {:induction false} SplitCons(p: string, rest: string, sep: char)
    requires sep !in p
    ensures Split(p + [sep] + rest, sep) == [p] + Split(rest, sep)
    decreases |p|
  {
    var s := p + [sep] + rest;
    if p == [] {
      assert s[0] == sep && s[1..] == rest;
    } else {
      assert s[0] == p[0] && s[1..] == p[1..] + [sep] + rest;
      SplitCons(p[1..], rest, sep);
      assert [p[0]] + p[1..] == p;
    }
  }
}
