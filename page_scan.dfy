/**
 * The label-then-value regular expressions the scrapers run over a page's visible text,
 * as a small scanner with the leftmost-match semantics of `String.prototype.match`.
 *
 * Every pattern has the shape
 *     label-words (separated by `\s*`)  [s]?  gap  value
 * and is matched ignoring ASCII case (the `i` flag without `u`, under which no
 * non-ASCII character folds onto an ASCII one). Each greedy part is followed by a
 * character outside its own class (a label word starts with a letter, a value with a
 * digit or a letter), so giving a greedy run back can never let the rest match: the
 * maximal runs taken here are the only ones the regex engine can succeed with. The
 * optional plural `s` is the one place where a shorter choice may be needed, and the
 * scanner tries both, in the engine's order.
 */
module PageScan {
  import opened Wrappers
  import opened JsText

  /** Character classes the patterns repeat. */
  datatype CharClass = Space | SpaceOrColon | Digit | DigitOrComma | NotQuote

  predicate InClass(c: char, k: CharClass) {
    match k
    case Space => IsSpace(c)
    case SpaceOrColon => IsSpace(c) || c == ':'
    case Digit => IsDigit(c)
    case DigitOrComma => IsDigit(c) || c == ','
    case NotQuote => c != '\''
  }

  /** What stands between the label and the value. */
  datatype Gap =
    | NoGap           // nothing
    | Spaces          // `\s*`, and `\s*\n?\s*`, which matches the same strings
    | SpacesOrColons  // `\s*[:\s]*`

  /** The captured part. */
  datatype Value =
    | Digits                                     // `(\d+)`
    | DigitsAndCommas                            // `([\d,]+)`
    | DigitPair(spacedSlash: bool)               // `(\d+)\/(\d+)`, or `(\d+)\s*\/\s*(\d+)`
    | OneOf(words: seq<string>, wordEnd: bool)   // `(Yes|No)`, or `(Y|N)\b`

  /**
   * One of the label alternatives (each a list of lower-case words), an optional plural
   * `s`, the gap and the value.
   */
  datatype Pattern = Pattern(labels: seq<seq<string>>, plural: bool, gap: Gap, value: Value)

  /** A match: where it starts and the captured groups. */
  datatype Match = Match(start: nat, groups: seq<string>)

  // ---------------------------------------------------------------------------
  // Pieces

  /** The lower-case word `w` occurs at `i`, ignoring ASCII case. */
  predicate WordAt(text: string, i: nat, w: string) {
    i + |w| <= |text| && forall k :: 0 <= k < |w| ==> Lower(text[i + k]) == w[k]
  }

  /** `\b` at position `j`. */
  predicate IsBoundary(text: string, j: nat) {
    var before := 0 < j <= |text| && IsWordChar(text[j - 1]);
    var after := j < |text| && IsWordChar(text[j]);
    before != after
  }

  /** The end of the longest run of class `k` starting at `i`. */
  function RunEnd(text: string, i: nat, k: CharClass): (j: nat)
    requires i <= |text|
    ensures i <= j <= |text|
    ensures forall m :: i <= m < j ==> InClass(text[m], k)
    ensures j == |text| || !InClass(text[j], k)
    decreases |text| - i
  {
    if i < |text| && InClass(text[i], k) then RunEnd(text, i + 1, k) else i
  }

  /** A run of class `k` of length `n` from `i`, not followed by class `k`, ends at `i + n`. */
  lemma {:induction false} RunEndOf(text: string, i: nat, n: nat, k: CharClass)
    requires i + n <= |text|
    requires forall m :: i <= m < i + n ==> InClass(text[m], k)
    requires i + n == |text| || !InClass(text[i + n], k)
    ensures RunEnd(text, i, k) == i + n
    decreases n
  {
    if n > 0 {
      RunEndOf(text, i + 1, n - 1, k);
    }
  }

  /** Where the label words, separated by `\s*`, end when they match from `i`. */
  function LabelEnd(text: string, i: nat, words: seq<string>): (r: Option<nat>)
    requires i <= |text|
    ensures r.Some? ==> i <= r.value <= |text|
    decreases |words|
  {
    if words == [] then Some(i)
    else if !WordAt(text, i, words[0]) then None
    else if |words| == 1 then Some(i + |words[0]|)
    else LabelEnd(text, RunEnd(text, i + |words[0]|, Space), words[1..])
  }

  function GapEnd(text: string, i: nat, g: Gap): (j: nat)
    requires i <= |text|
    ensures i <= j <= |text|
  {
    match g
    case NoGap => i
    case Spaces => RunEnd(text, i, Space)
    case SpacesOrColons => RunEnd(text, i, SpaceOrColon)
  }

  /** The groups a value of kind `v` captures. */
  predicate Shaped(v: Value, g: seq<string>) {
    match v
    case Digits => |g| == 1 && g[0] != [] && AllDigits(g[0])
    case DigitsAndCommas =>
      |g| == 1 && g[0] != [] && forall k :: 0 <= k < |g[0]| ==> InClass(g[0][k], DigitOrComma)
    case DigitPair(_) =>
      |g| == 2 && g[0] != [] && g[1] != [] && AllDigits(g[0]) && AllDigits(g[1])
    case OneOf(words, _) => |g| == 1 && LowerStr(g[0]) in words
  }

  /** The first of `words` that occurs at `i` (and ends a word, when asked). */
  function ChoiceAt(text: string, i: nat, words: seq<string>, wordEnd: bool): (r: Option<seq<string>>)
    requires i <= |text|
    ensures r.Some? ==> |r.value| == 1 && LowerStr(r.value[0]) in words
  {
    if words == [] then None
    else
      var w := words[0];
      if WordAt(text, i, w) && (!wordEnd || IsBoundary(text, i + |w|)) then
        assert LowerStr(text[i..i + |w|]) == w;
        Some([text[i..i + |w|]])
      else
        var r := ChoiceAt(text, i, words[1..], wordEnd);
        assert r.Some? ==> LowerStr(r.value[0]) in words[1..];
        r
  }

  /** The value captured at `i`. */
  function ValueAt(text: string, i: nat, v: Value): (r: Option<seq<string>>)
    requires i <= |text|
    ensures r.Some? ==> Shaped(v, r.value)
  {
    match v
    case Digits =>
      var j := RunEnd(text, i, Digit);
      if j == i then None else Some([text[i..j]])
    case DigitsAndCommas =>
      var j := RunEnd(text, i, DigitOrComma);
      if j == i then None else Some([text[i..j]])
    case DigitPair(spaced) =>
      var j := RunEnd(text, i, Digit);
      var s := if spaced then RunEnd(text, j, Space) else j;
      if j == i || s == |text| || text[s] != '/' then None
      else
        var t := if spaced then RunEnd(text, s + 1, Space) else s + 1;
        var m := RunEnd(text, t, Digit);
        if m == t then None else Some([text[i..j], text[t..m]])
    case OneOf(words, wordEnd) => ChoiceAt(text, i, words, wordEnd)
  }

  /** The gap and value matched from `j`, right after the label (and plural `s`). */
  function TailAt(text: string, j: nat, p: Pattern): (r: Option<seq<string>>)
    requires j <= |text|
    ensures r.Some? ==> Shaped(p.value, r.value)
  {
    ValueAt(text, GapEnd(text, j, p.gap), p.value)
  }

  /** The pattern anchored at `i`, trying the label alternatives in order. */
  function MatchWith(text: string, i: nat, p: Pattern, alts: seq<seq<string>>): (r: Option<seq<string>>)
    requires i <= |text|
    ensures r.Some? ==> Shaped(p.value, r.value)
  {
    if alts == [] then None
    else
      var tried :=
        match LabelEnd(text, i, alts[0])
        case None => None
        case Some(j) =>
          var plural :=
            if p.plural && j < |text| && Lower(text[j]) == 's' then TailAt(text, j + 1, p) else None;
          if plural.Some? then plural else TailAt(text, j, p);
      if tried.Some? then tried else MatchWith(text, i, p, alts[1..])
  }

  /** The groups of a match of `p` that starts exactly at `i`. */
  function MatchAt(text: string, i: nat, p: Pattern): (r: Option<seq<string>>)
    requires i <= |text|
    ensures r.Some? ==> Shaped(p.value, r.value)
  {
    MatchWith(text, i, p, p.labels)
  }

  // ---------------------------------------------------------------------------
  // Searching

  /** The leftmost match of `p` starting at or after `i`. */
  function FindFrom(text: string, p: Pattern, i: nat): (r: Option<Match>)
    requires i <= |text|
    ensures r.Some? ==>
      i <= r.value.start <= |text| && MatchAt(text, r.value.start, p) == Some(r.value.groups)
    ensures r.Some? ==> forall k :: i <= k < r.value.start ==> MatchAt(text, k, p).None?
    ensures r.None? ==> forall k :: i <= k <= |text| ==> MatchAt(text, k, p).None?
    decreases |text| - i
  {
    var here := MatchAt(text, i, p);
    if here.Some? then Some(Match(i, here.value))
    else if i == |text| then None
    else FindFrom(text, p, i + 1)
  }

  /**
   * `text.match(p)`: the leftmost match. Its groups have the shape of the value, no
   * earlier position matches, and no match at all means no position matches.
   */
  function Find(text: string, p: Pattern): (r: Option<Match>)
    ensures r.Some? ==> r.value.start <= |text| && MatchAt(text, r.value.start, p) == Some(r.value.groups)
    ensures r.Some? ==> Shaped(p.value, r.value.groups)
    ensures r.Some? ==> forall k :: 0 <= k < r.value.start ==> MatchAt(text, k, p).None?
    ensures r.None? ==> forall k :: 0 <= k <= |text| ==> MatchAt(text, k, p).None?
  {
    FindFrom(text, p, 0)
  }
}
