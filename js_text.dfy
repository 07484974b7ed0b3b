/**
 * The small part of JavaScript's string and number built-ins that the scripts rely on:
 * the `\s` / `trim` white-space set, ASCII case mapping, substring tests, the global
 * `replace` forms used in the scripts, `parseInt` and `parseFloat`.
 * Numbers are exact (`int`, `real`): rounding to IEEE doubles is not modelled.
 */
module JsText {
  import opened Wrappers

  /** The result of `parseInt`: an integer or NaN. */
  datatype JsInt = NaN | Int(value: int)

  /** The result of `parseFloat`: a finite value, an infinity, or NaN. */
  datatype JsFloat = FloatNaN | Finite(value: real) | Infinity(negative: bool)

  // ---------------------------------------------------------------------------
  // Characters

  predicate IsDigit(c: char) { '0' <= c <= '9' }

  function DigitValue(c: char): (d: nat)
    requires IsDigit(c)
    ensures d < 10
  {
    (c as int) - ('0' as int)
  }

  /** ECMAScript WhiteSpace and LineTerminator: the set matched by `\s` and removed by `trim`. */
  predicate IsSpace(c: char) {
    || c == '\t' || c == '\n' || c == '\U{B}' || c == '\U{C}' || c == '\r' || c == ' '
    || c == '\U{A0}' || c == '\U{1680}' || ('\U{2000}' <= c <= '\U{200A}')
    || c == '\U{2028}' || c == '\U{2029}' || c == '\U{202F}' || c == '\U{205F}'
    || c == '\U{3000}' || c == '\U{FEFF}'
  }

  /** `\w`: ASCII letters, digits and underscore. */
  predicate IsWordChar(c: char) {
    ('a' <= c <= 'z') || ('A' <= c <= 'Z') || IsDigit(c) || c == '_'
  }

  function Lower(c: char): char {
    if 'A' <= c <= 'Z' then (c as int + 32) as char else c
  }

  function Upper(c: char): char {
    if 'a' <= c <= 'z' then (c as int - 32) as char else c
  }

  function LowerStr(s: string): (r: string)
    ensures |r| == |s|
    ensures forall i :: 0 <= i < |s| ==> r[i] == Lower(s[i])
  {
    if s == [] then [] else [Lower(s[0])] + LowerStr(s[1..])
  }

  function UpperStr(s: string): (r: string)
    ensures |r| == |s|
    ensures forall i :: 0 <= i < |s| ==> r[i] == Upper(s[i])
  {
    if s == [] then [] else [Upper(s[0])] + UpperStr(s[1..])
  }

  // ---------------------------------------------------------------------------
  // Substrings

  predicate StartsWith(s: string, prefix: string) {
    |prefix| <= |s| && s[..|prefix|] == prefix
  }

  predicate EndsWith(s: string, suffix: string) {
    |suffix| <= |s| && s[|s| - |suffix|..] == suffix
  }

  /** `t` occurs in `s` starting at index `i`. */
  predicate OccursAt(s: string, t: string, i: int) {
    0 <= i && i + |t| <= |s| && s[i..i + |t|] == t
  }

  /** `s.includes(t)`. */
  predicate Contains(s: string, t: string) {
    exists i :: 0 <= i <= |s| - |t| && OccursAt(s, t, i)
  }

  // ---------------------------------------------------------------------------
  // Trimming

  function TrimStart(s: string): (r: string)
    ensures |r| <= |s| && r == s[|s| - |r|..]
    ensures r == [] || !IsSpace(r[0])
    ensures forall i :: 0 <= i < |s| - |r| ==> IsSpace(s[i])
  {
    if s != [] && IsSpace(s[0]) then TrimStart(s[1..]) else s
  }

  function TrimEnd(s: string): (r: string)
    ensures |r| <= |s| && r == s[..|r|]
    ensures r == [] || !IsSpace(r[|r| - 1])
    ensures forall i :: |r| <= i < |s| ==> IsSpace(s[i])
  {
    if s != [] && IsSpace(s[|s| - 1]) then TrimEnd(s[..|s| - 1]) else s
  }

  /** `s.trim()`. */
  function Trim(s: string): string {
    TrimEnd(TrimStart(s))
  }

  // ---------------------------------------------------------------------------
  // Replacement

  /** `s.replace(/c/g, rep)` for a single character `c`. */
  function ReplaceAll(s: string, c: char, rep: string): (r: string)
    ensures c !in rep ==> c !in r
    ensures c !in s ==> r == s
    ensures |rep| >= 1 ==> |r| >= |s|
  {
    if s == [] then []
    else (if s[0] == c then rep else [s[0]]) + ReplaceAll(s[1..], c, rep)
  }

  /** Replacing in a concatenation replaces in each part. */
  lemma {:induction false} ReplaceAllConcat(a: string, b: string, c: char, rep: string)
    ensures ReplaceAll(a + b, c, rep) == ReplaceAll(a, c, rep) + ReplaceAll(b, c, rep)
  {
    if a == [] {
      assert a + b == b;
    } else {
      var head := if a[0] == c then rep else [a[0]];
      assert (a + b)[0] == a[0] && (a + b)[1..] == a[1..] + b;
      assert ReplaceAll(a + b, c, rep) == head + ReplaceAll(a[1..] + b, c, rep);
      ReplaceAllConcat(a[1..], b, c, rep);
      assert head + (ReplaceAll(a[1..], c, rep) + ReplaceAll(b, c, rep))
          == (head + ReplaceAll(a[1..], c, rep)) + ReplaceAll(b, c, rep);
    }
  }

  /** A single character: `c` becomes `rep`, any other character stays. */
  lemma {:induction false} ReplaceAllOfChar(x: char, c: char, rep: string)
    ensures ReplaceAll([x], c, rep) == if x == c then rep else [x]
  {
    assert [x][1..] == [];
  }

  /** `s.replace(/[...]/g, '')`: every character of `cs` removed. */
  function RemoveAll(s: string, cs: set<char>): (r: string)
    ensures forall i :: 0 <= i < |r| ==> r[i] !in cs
    ensures |r| <= |s|
  {
    if s == [] then []
    else (if s[0] in cs then [] else [s[0]]) + RemoveAll(s[1..], cs)
  }

  lemma {:induction false} RemoveAllConcat(a: string, b: string, cs: set<char>)
    ensures RemoveAll(a + b, cs) == RemoveAll(a, cs) + RemoveAll(b, cs)
  {
    if a == [] {
      assert a + b == b;
    } else {
      assert (a + b)[1..] == a[1..] + b;
      RemoveAllConcat(a[1..], b, cs);
    }
  }

  /** On one character, `RemoveAll` drops it exactly when it is one of `cs`. */
  lemma {:induction false} RemoveAllOfChar(x: char, cs: set<char>)
    ensures RemoveAll([x], cs) == if x in cs then [] else [x]
  {
    assert [x][1..] == [];
  }

  lemma {:induction false} RemoveAllNothing(s: string, cs: set<char>)
    requires forall i :: 0 <= i < |s| ==> s[i] !in cs
    ensures RemoveAll(s, cs) == s
  {
    if s != [] {
      RemoveAllNothing(s[1..], cs);
    }
  }

  /** `s.replace(c, '')` with a string pattern: only the first occurrence is removed. */
  function RemoveFirst(s: string, c: char): (r: string)
    ensures c in s ==> |r| == |s| - 1
    ensures c !in s ==> r == s
  {
    if s == [] then []
    else if s[0] == c then s[1..]
    else [s[0]] + RemoveFirst(s[1..], c)
  }

  /** When `d` holds no `c` and `t` starts with one, the first `c` of `d + t` is that one. */
  lemma {:induction false} RemoveFirstPast(d: string, t: string, c: char)
    requires c !in d && t != [] && t[0] == c
    ensures RemoveFirst(d + t, c) == d + t[1..]
  {
    if d == [] {
      assert d + t == t;
    } else {
      assert (d + t)[0] == d[0] && (d + t)[1..] == d[1..] + t;
      RemoveFirstPast(d[1..], t, c);
      assert [d[0]] + (d[1..] + t[1..]) == d + t[1..];
    }
  }

  /** `parts.join(sep)`. */
  function Join(parts: seq<string>, sep: string): (r: string)
    ensures parts == [] ==> r == []
    ensures |parts| == 1 ==> r == parts[0]
  {
    if parts == [] then []
    else if |parts| == 1 then parts[0]
    else parts[0] + sep + Join(parts[1..], sep)
  }

  // ---------------------------------------------------------------------------
  // Digit runs

  predicate AllDigits(s: string) {
    forall i :: 0 <= i < |s| ==> IsDigit(s[i])
  }

  /** The longest prefix of `s` made of decimal digits. */
  function LeadingDigits(s: string): (r: string)
    ensures |r| <= |s| && r == s[..|r|] && AllDigits(r)
    ensures |r| == |s| || !IsDigit(s[|r|])
  {
    if s != [] && IsDigit(s[0]) then [s[0]] + LeadingDigits(s[1..]) else []
  }

  /** The value of a decimal digit string (most significant digit first). */
  function DigitsValue(s: string): nat
    requires AllDigits(s)
  {
    if s == [] then 0 else DigitsValue(s[..|s| - 1]) * 10 + DigitValue(s[|s| - 1])
  }

  predicate IsHexDigit(c: char) {
    IsDigit(c) || ('a' <= c <= 'f') || ('A' <= c <= 'F')
  }

  function HexValue(c: char): (d: nat)
    requires IsHexDigit(c)
    ensures d < 16
  {
    if IsDigit(c) then DigitValue(c)
    else if 'a' <= c <= 'f' then (c as int) - ('a' as int) + 10
    else (c as int) - ('A' as int) + 10
  }

  function LeadingHex(s: string): (r: string)
    ensures |r| <= |s| && r == s[..|r|]
    ensures forall i :: 0 <= i < |r| ==> IsHexDigit(r[i])
  {
    if s != [] && IsHexDigit(s[0]) then [s[0]] + LeadingHex(s[1..]) else []
  }

  function HexDigitsValue(s: string): nat
    requires forall i :: 0 <= i < |s| ==> IsHexDigit(s[i])
  {
    if s == [] then 0 else HexDigitsValue(s[..|s| - 1]) * 16 + HexValue(s[|s| - 1])
  }

  // ---------------------------------------------------------------------------
  // parseInt

  /**
   * `parseInt(s)` (hexPrefix = true: no radix given, so a "0x"/"0X" prefix switches to
   * base 16) or `parseInt(s, 10)` (hexPrefix = false). Leading white space and one sign are
   * skipped; the longest run of digits that follows is the value; no digits give NaN.
   */
  function ParseIntWith(s: string, hexPrefix: bool): JsInt
  {
    var t := TrimStart(s);
    var u := Unsigned(t);
    if hexPrefix && |u| >= 2 && u[0] == '0' && (u[1] == 'x' || u[1] == 'X') then
      var h := LeadingHex(u[2..]);
      if h == [] then NaN
      else Int((if IsNegative(t) then -1 else 1) * HexDigitsValue(h))
    else
      var d := LeadingDigits(u);
      if d == [] then NaN
      else Int((if IsNegative(t) then -1 else 1) * DigitsValue(d))
  }

  /** A leading minus sign. */
  predicate IsNegative(t: string) {
    t != [] && t[0] == '-'
  }

  /** `t` without its leading sign, if it has one. */
  function Unsigned(t: string): string {
    if t != [] && (t[0] == '-' || t[0] == '+') then t[1..] else t
  }

  /** `parseInt(s)` with no radix. */
  function ParseInt(s: string): JsInt {
    ParseIntWith(s, true)
  }

  /** `parseInt(s, 10)`. */
  function ParseInt10(s: string): JsInt {
    ParseIntWith(s, false)
  }

  /** parseInt of a plain digit string is that string's decimal value, in either form. */
  lemma {:induction false} ParseIntOfDigits(d: string, hexPrefix: bool)
    requires d != [] && AllDigits(d)
    ensures ParseIntWith(d, hexPrefix) == Int(DigitsValue(d))
  {
    PlainDigits(d);
  }

  /** A digit string is its own trimmed, unsigned form, has no hex prefix, and is all digits. */
  lemma {:induction false} PlainDigits(d: string)
    requires d != [] && AllDigits(d)
    ensures TrimStart(d) == d && Unsigned(d) == d && !IsNegative(d)
    ensures !(|d| >= 2 && d[0] == '0' && (d[1] == 'x' || d[1] == 'X'))
    ensures LeadingDigits(d) == d
  {
    var c := d[0];
    assert IsDigit(c);
    assert !IsSpace(c) && c != '-' && c != '+';
    if |d| >= 2 {
      assert IsDigit(d[1]);
    }
    LeadingDigitsOfDigits(d);
  }

  lemma {:induction false} LeadingDigitsOfDigits(d: string)
    requires AllDigits(d)
    ensures LeadingDigits(d) == d
  {
    if d != [] {
      LeadingDigitsOfDigits(d[1..]);
    }
  }

  /** A run of digits followed by a non-digit (or nothing) is exactly the leading digits. */
  lemma {:induction false} LeadingDigitsOfPrefix(d: string, rest: string)
    requires AllDigits(d)
    requires rest == [] || !IsDigit(rest[0])
    ensures LeadingDigits(d + rest) == d
  {
    if d != [] {
      assert (d + rest)[1..] == d[1..] + rest;
      LeadingDigitsOfPrefix(d[1..], rest);
    } else {
      assert d + rest == rest;
    }
  }

  /**
   * parseInt of digits followed by a non-digit reads the digits only (unless the
   * digits are a lone `0` and an `x` follows, which starts a hexadecimal literal).
   */
  lemma {:induction false} ParseIntOfDigitsThen(d: string, rest: string)
    requires d != [] && AllDigits(d)
    requires rest == [] || (!IsDigit(rest[0]) && rest[0] != 'x' && rest[0] != 'X')
    ensures ParseInt(d + rest) == Int(DigitsValue(d))
  {
    var s := d + rest;
    assert s[0] == d[0];
    assert TrimStart(s) == s by {
      assert !IsSpace(s[0]);
    }
    assert Unsigned(s) == s;
    assert !(|s| >= 2 && s[0] == '0' && (s[1] == 'x' || s[1] == 'X')) by {
      if |d| >= 2 {
        assert IsDigit(s[1]);
      } else if |s| >= 2 {
        assert s[1] == rest[0];
      }
    }
    LeadingDigitsOfPrefix(d, rest);
    assert LeadingDigits(Unsigned(TrimStart(s))) == d;
  }

  // ---------------------------------------------------------------------------
  // parseFloat

  function Pow10(n: nat): (r: real)
    ensures r >= 1.0
  {
    if n == 0 then 1.0 else 10.0 * Pow10(n - 1)
  }

  /** The exponent part `e[+-]digits` at the start of `s`, or 0 when there is none. */
  function ExponentOf(s: string): int {
    if |s| >= 1 && (s[0] == 'e' || s[0] == 'E') then
      var negative := |s| >= 2 && s[1] == '-';
      var rest := if |s| >= 2 && (s[1] == '-' || s[1] == '+') then s[2..] else s[1..];
      var d := LeadingDigits(rest);
      if d == [] then 0 else (if negative then -1 else 1) * DigitsValue(d)
    else 0
  }

  /**
   * `parseFloat(s)`: the longest prefix of the trimmed string that is a decimal literal
   * (sign, digits, optional fraction, optional exponent) or `Infinity`; NaN when there is none.
   */
  function ParseFloat(s: string): (r: JsFloat)
    ensures r == FloatNaN <==>
      var u := Unsigned(TrimStart(s));
      !StartsWith(u, "Infinity") && LeadingDigits(u) == [] &&
      (u == [] || u[0] != '.' || LeadingDigits(u[1..]) == [])
  {
    var t := TrimStart(s);
    var negative := IsNegative(t);
    var u := Unsigned(t);
    if StartsWith(u, "Infinity") then Infinity(negative)
    else
      var whole := LeadingDigits(u);
      var rest := u[|whole|..];
      var fraction := if rest != [] && rest[0] == '.' then LeadingDigits(rest[1..]) else [];
      var afterFraction := if rest != [] && rest[0] == '.' then rest[1 + |fraction|..] else rest;
      if whole == [] && fraction == [] then FloatNaN
      else
        assert AllDigits(whole + fraction);
        var magnitude := DecimalValue(whole + fraction, |fraction|, ExponentOf(afterFraction));
        Finite(if negative then -magnitude else magnitude)
  }

  /** The value of the digits `d` with the last `scale` of them after the point, times 10^e. */
  function DecimalValue(d: string, scale: nat, e: int): real
    requires AllDigits(d)
  {
    var mantissa := DigitsValue(d) as real / Pow10(scale);
    if e >= 0 then mantissa * Pow10(e) else mantissa / Pow10(-e)
  }

  /** A plain decimal "w.f" reads as its digits over 10 to the number of fraction digits. */
  lemma {:induction false} ParseFloatDecimal(w: string, f: string)
    requires w != [] && AllDigits(w) && f != [] && AllDigits(f)
    ensures AllDigits(w + f)
    ensures ParseFloat(w + "." + f) == Finite(DecimalValue(w + f, |f|, 0))
  {
    var s := w + "." + f;
    assert AllDigits(w + f) by {
      assert forall i :: 0 <= i < |w + f| ==> (w + f)[i] == if i < |w| then w[i] else f[i - |w|];
    }
    assert s[0] == w[0];
    assert TrimStart(s) == s by {
      assert !IsSpace(s[0]);
    }
    assert Unsigned(s) == s;
    assert !StartsWith(s, "Infinity") by {
      assert "Infinity"[0] == 'I';
    }
    assert s == w + ("." + f);
    LeadingDigitsOfPrefix(w, "." + f);
    assert s[|w|..] == "." + f;
    LeadingDigitsOfDigits(f);
    assert ("." + f)[1..] == f;
    assert ("." + f)[1 + |f|..] == [];
    var rest := s[|w|..];
    assert LeadingDigits(s) == w && rest == "." + f;
    assert rest != [] && rest[0] == '.';
    assert LeadingDigits(rest[1..]) == f;
    assert rest[1 + |f|..] == [];
    assert ExponentOf([]) == 0;
  }
}
