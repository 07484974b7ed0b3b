/**
 * The Fulton property-details batch scraper: the parcel page URL, the normalisers that
 * turn the page's field texts into numbers, and the main loop that sorts every scraped
 * property into exactly one of three counters.
 *
 * The site is an oracle: for each URL it gives the raw field texts the page shows, or
 * nothing when navigating or reading the page throws.
 */
module PropertyDetails {
  import opened Wrappers
  import opened JsText
  import opened PageScan
  import opened UriComponent
  import opened CountyScraper

  // ---------------------------------------------------------------------------
  // URL

  const DetailsPrefix :=
    "https://qpublic.schneidercorp.com/Application.aspx?AppID=936&LayerID=18251&PageTypeID=4&PageID=8156&KeyValue="

  /**
   * `buildUrl(parcelId)`: the fixed prefix followed by `encodeURIComponent(parcelId)`.
   * Decoding the key recovers the parcel exactly.
   */
  function BuildUrl(parcelId: string): (url: string)
    ensures StartsWith(url, DetailsPrefix)
    ensures Decode(url[|DetailsPrefix|..]) == Some(parcelId)
  {
    DecodeEncode(parcelId);
    var url := DetailsPrefix + Encode(parcelId);
    assert url[|DetailsPrefix|..] == Encode(parcelId);
    url
  }

  /** Different parcels get different URLs. */
  lemma {:induction false} BuildUrlInjective(a: string, b: string)
    requires BuildUrl(a) == BuildUrl(b)
    ensures a == b
  {
    assert Some(a) == Decode(BuildUrl(a)[|DetailsPrefix|..]);
  }

  // ---------------------------------------------------------------------------
  // Normalisers

  /** `(\d+)\s*\/\s*(\d+)`, case-sensitive, but it has no letters. */
  const SlashPairPattern := Pattern([[]], false, NoGap, DigitPair(true))

  /** `parseInt(g) || 0`: NaN (and 0) give 0. */
  function IntOrZero(v: JsInt): int {
    if v.Int? then v.value else 0
  }

  /** A captured digit run never reads as NaN, so `|| 0` leaves its value alone. */
  lemma {:induction false} IntOrZeroOfDigits(g: string)
    requires g != [] && AllDigits(g)
    ensures IntOrZero(ParseInt(g)) == DigitsInt(g)
  {
  }

  /**
   * `parseBathrooms(str)`: null for a missing or empty text; "N/M" (spaces allowed around
   * the slash) gives N + M/2; otherwise the leading number, or null when there is none.
   */
  function ParseBathrooms(s: Option<string>): (r: Option<JsFloat>)
    ensures r != Some(FloatNaN)
    ensures s.None? || s.value == [] ==> r.None?
    ensures s.Some? && s.value != [] && Find(s.value, SlashPairPattern).Some? ==>
      var g := Find(s.value, SlashPairPattern).value.groups;
      r == Some(Finite(FullPlusHalf(DigitsInt(g[0]), DigitsInt(g[1]))))
    ensures s.Some? && s.value != [] && Find(s.value, SlashPairPattern).None? ==>
      (r.None? <==> ParseFloat(s.value) == FloatNaN) && (r.Some? ==> r == Some(ParseFloat(s.value)))
  {
    if s.None? || s.value == [] then None
    else
      match Find(s.value, SlashPairPattern)
      case Some(m) =>
        IntOrZeroOfDigits(m.groups[0]);
        IntOrZeroOfDigits(m.groups[1]);
        var full: nat := IntOrZero(ParseInt(m.groups[0]));
        var half: nat := IntOrZero(ParseInt(m.groups[1]));
        Some(Finite(FullPlusHalf(full, half)))
      case None =>
        var num := ParseFloat(s.value);
        if num == FloatNaN then None else Some(num)
  }

  /** `parseIntOrNull(str)`: every comma removed, then `parseInt`; null for empty or NaN. */
  function ParseIntOrNull(s: Option<string>): Option<int> {
    if s.None? || s.value == [] then None
    else
      match ParseInt(RemoveAll(s.value, {','}))
      case NaN => None
      case Int(n) => Some(n)
  }

  /** The field texts read from a parcel page (each trimmed, null when empty or absent). */
  datatype RawDetails = RawDetails(
    bedrooms: Option<string>,
    bathrooms: Option<string>,
    yearBuilt: Option<string>,
    stories: Option<string>,
    style: Option<string>,
    squareFt: Option<string>)

  datatype Details = Details(
    bedrooms: Option<int>,
    bathrooms: Option<JsFloat>,
    yearBuilt: Option<int>,
    stories: Option<int>,
    style: Option<string>,
    squareFt: Option<int>)

  /** The conversion at the end of `scrapeProperty`. */
  function Convert(raw: RawDetails): (d: Details)
    ensures d.bedrooms == ParseIntOrNull(raw.bedrooms)
    ensures d.bathrooms == ParseBathrooms(raw.bathrooms)
    ensures d.yearBuilt == ParseIntOrNull(raw.yearBuilt)
    ensures d.stories == ParseIntOrNull(raw.stories)
    ensures d.squareFt == ParseIntOrNull(raw.squareFt)
    ensures d.style.Some? <==> raw.style.Some? && raw.style.value != []
    ensures d.style.Some? ==> d.style == raw.style
  {
    Details(
      ParseIntOrNull(raw.bedrooms),
      ParseBathrooms(raw.bathrooms),
      ParseIntOrNull(raw.yearBuilt),
      ParseIntOrNull(raw.stories),
      if raw.style.Some? && raw.style.value != [] then raw.style else None,
      ParseIntOrNull(raw.squareFt))
  }

  // ---------------------------------------------------------------------------
  // Normaliser properties

  /** Missing or empty texts are null. */
  lemma {:induction false} NormalisersOfNothing()
    ensures ParseBathrooms(None) == None && ParseBathrooms(Some("")) == None
    ensures ParseIntOrNull(None) == None && ParseIntOrNull(Some("")) == None
  {
  }

  predicate AllSpaces(s: string) {
    forall i :: 0 <= i < |s| ==> IsSpace(s[i])
  }

  /** "N/M", with any spaces around the slash and anything but a digit after, is N + M/2. */
  lemma {:induction false} ParseBathroomsPair(a: string, sp1: string, sp2: string, b: string, rest: string)
    requires a != [] && AllDigits(a) && b != [] && AllDigits(b)
    requires AllSpaces(sp1) && AllSpaces(sp2)
    requires rest == [] || !IsDigit(rest[0])
    ensures ParseBathrooms(Some(a + sp1 + "/" + sp2 + b + rest)) ==
      Some(Finite(FullPlusHalf(DigitsValue(a), DigitsValue(b))))
  {
    var t := a + sp1 + "/" + sp2 + b + rest;
    SlashPairFound(a, sp1, sp2, b, rest);
    assert Find(t, SlashPairPattern).value.groups == [a, b];
  }

  /** The slash pair is found at the very start, capturing both digit runs. */
  lemma {:induction false} SlashPairFound(a: string, sp1: string, sp2: string, b: string, rest: string)
    requires a != [] && AllDigits(a) && b != [] && AllDigits(b)
    requires AllSpaces(sp1) && AllSpaces(sp2)
    requires rest == [] || !IsDigit(rest[0])
    ensures Find(a + sp1 + "/" + sp2 + b + rest, SlashPairPattern) == Some(Match(0, [a, b]))
  {
    var t := a + sp1 + "/" + sp2 + b + rest;
    SlashPairValue(a, sp1, sp2, b, rest);
    assert MatchWith(t, 0, SlashPairPattern, [[]]) == TailAt(t, 0, SlashPairPattern);
    assert MatchAt(t, 0, SlashPairPattern) == Some([a, b]);
    assert FindFrom(t, SlashPairPattern, 0) == Some(Match(0, [a, b]));
  }

  lemma {:induction false} SlashPairValue(a: string, sp1: string, sp2: string, b: string, rest: string)
    requires a != [] && AllDigits(a) && b != [] && AllDigits(b)
    requires AllSpaces(sp1) && AllSpaces(sp2)
    requires rest == [] || !IsDigit(rest[0])
    ensures ValueAt(a + sp1 + "/" + sp2 + b + rest, 0, DigitPair(true)) == Some([a, b])
  {
    var t := a + sp1 + "/" + sp2 + b + rest;
    var s := |a| + |sp1|;
    var u := s + 1 + |sp2|;
    var e := u + |b|;
    FirstDigitsRun(a, sp1, sp2, b, rest);
    FirstSpacesRun(a, sp1, sp2, b, rest);
    SecondSpacesRun(a, sp1, sp2, b, rest);
    SecondDigitsRun(a, sp1, sp2, b, rest);
    SlashPairSlices(a, sp1, sp2, b, rest);
    PairValueAt(t, |a|, s, u, e);
  }

  /** The whole-number digits run to the end of `a`. */
  lemma {:induction false} FirstDigitsRun(a: string, sp1: string, sp2: string, b: string, rest: string)
    requires AllDigits(a) && AllSpaces(sp1)
    ensures RunEnd(a + sp1 + "/" + sp2 + b + rest, 0, Digit) == |a|
  {
    var t := a + sp1 + "/" + sp2 + b + rest;
    SlashPairSlices(a, sp1, sp2, b, rest);
    if sp1 != [] {
      assert t[|a|] == sp1[0];
      SpaceIsNoDigit(sp1[0]);
    }
    DigitsRun(t, 0, a);
  }

  /** The spaces before the slash run to the end of `sp1`. */
  lemma {:induction false} FirstSpacesRun(a: string, sp1: string, sp2: string, b: string, rest: string)
    requires AllSpaces(sp1)
    ensures RunEnd(a + sp1 + "/" + sp2 + b + rest, |a|, Space) == |a| + |sp1|
  {
    var t := a + sp1 + "/" + sp2 + b + rest;
    SlashPairSlices(a, sp1, sp2, b, rest);
    SpacesRun(t, |a|, sp1);
  }

  /** The spaces after the slash run to the end of `sp2`. */
  lemma {:induction false} SecondSpacesRun(a: string, sp1: string, sp2: string, b: string, rest: string)
    requires AllSpaces(sp2) && b != [] && IsDigit(b[0])
    ensures RunEnd(a + sp1 + "/" + sp2 + b + rest, |a| + |sp1| + 1, Space) == |a| + |sp1| + 1 + |sp2|
  {
    var t := a + sp1 + "/" + sp2 + b + rest;
    SlashPairSlices(a, sp1, sp2, b, rest);
    var u := |a| + |sp1| + 1 + |sp2|;
    assert t[u] == b[0];
    DigitIsNoSpace(b[0]);
    SpacesRun(t, |a| + |sp1| + 1, sp2);
  }

  /** The half digits run to the end of `b`. */
  lemma {:induction false} SecondDigitsRun(a: string, sp1: string, sp2: string, b: string, rest: string)
    requires AllDigits(b)
    requires rest == [] || !IsDigit(rest[0])
    ensures var u := |a| + |sp1| + 1 + |sp2|;
      RunEnd(a + sp1 + "/" + sp2 + b + rest, u, Digit) == u + |b|
  {
    var t := a + sp1 + "/" + sp2 + b + rest;
    SlashPairSlices(a, sp1, sp2, b, rest);
    DigitsThen(t, |a| + |sp1| + 1 + |sp2|, b, rest);
  }

  /** Digits followed by a rest that does not start with one form a maximal digit run. */
  lemma {:induction false} DigitsThen(t: string, i: nat, d: string, rest: string)
    requires i + |d| <= |t| && t[i..i + |d|] == d && t[i + |d|..] == rest && AllDigits(d)
    requires rest == [] || !IsDigit(rest[0])
    ensures RunEnd(t, i, Digit) == i + |d|
  {
    if rest != [] {
      assert t[i + |d|] == rest[0];
    }
    DigitsRun(t, i, d);
  }

  lemma {:induction false} SlashPairSlices(a: string, sp1: string, sp2: string, b: string, rest: string)
    ensures var t := a + sp1 + "/" + sp2 + b + rest;
      var s := |a| + |sp1|;
      var u := s + 1 + |sp2|;
      t[0..|a|] == a && t[|a|..s] == sp1 && t[s] == '/' && t[s + 1..u] == sp2 &&
      t[u..u + |b|] == b && t[u + |b|..] == rest
  {
    var t := a + sp1 + "/" + sp2 + b + rest;
    assert t == a + (sp1 + ("/" + (sp2 + (b + rest))));
  }

  /** The spaced digit pair, read off from the ends of its four runs. */
  lemma {:induction false} PairValueAt(t: string, j: nat, s: nat, u: nat, e: nat)
    requires 0 < j <= s < u <= e <= |t|
    requires RunEnd(t, 0, Digit) == j && RunEnd(t, j, Space) == s && t[s] == '/'
    requires RunEnd(t, s + 1, Space) == u && RunEnd(t, u, Digit) == e && u < e
    ensures ValueAt(t, 0, DigitPair(true)) == Some([t[0..j], t[u..e]])
  {
  }

  lemma {:induction false} DigitIsNoSpace(c: char)
    requires IsDigit(c)
    ensures !IsSpace(c)
  {
  }

  lemma {:induction false} SpaceIsNoDigit(c: char)
    requires IsSpace(c)
    ensures !IsDigit(c)
  {
  }

  /** A slice of digits followed by a non-digit (or the end) is a maximal digit run. */
  lemma {:induction false} DigitsRun(t: string, i: nat, piece: string)
    requires i + |piece| <= |t| && t[i..i + |piece|] == piece && AllDigits(piece)
    requires i + |piece| == |t| || !IsDigit(t[i + |piece|])
    ensures RunEnd(t, i, Digit) == i + |piece|
  {
    RunOfSlice(t, i, piece, Digit);
  }

  /** A slice of spaces followed by a non-space (or the end) is a maximal space run. */
  lemma {:induction false} SpacesRun(t: string, i: nat, piece: string)
    requires i + |piece| <= |t| && t[i..i + |piece|] == piece && AllSpaces(piece)
    requires i + |piece| == |t| || !IsSpace(t[i + |piece|])
    ensures RunEnd(t, i, Space) == i + |piece|
  {
    RunOfSlice(t, i, piece, Space);
  }

  /** A slice of class `k` followed by something outside it (or the end) is a maximal run. */
  lemma {:induction false} RunOfSlice(t: string, i: nat, piece: string, k: CharClass)
    requires i + |piece| <= |t| && t[i..i + |piece|] == piece
    requires forall m :: 0 <= m < |piece| ==> InClass(piece[m], k)
    requires i + |piece| == |t| || !InClass(t[i + |piece|], k)
    ensures RunEnd(t, i, k) == i + |piece|
  {
    assert forall m :: i <= m < i + |piece| ==> t[m] == piece[m - i];
    RunEndOf(t, i, |piece|, k);
  }

  /** Commas never matter: the text reads the same once they are all gone. */
  lemma {:induction false} ParseIntOrNullIgnoresCommas(s: string)
    ensures ParseIntOrNull(Some(s)) == ParseIntOrNull(Some(RemoveAll(s, {','})))
  {
    RemoveAllNothing(RemoveAll(s, {','}), {','});
  }

  /** Dropping the commas around a comma-free piece keeps the pieces and drops the comma. */
  lemma {:induction false} RemoveCommaBetween(x: string, y: string)
    ensures RemoveAll(x + "," + y, {','}) == RemoveAll(x, {','}) + RemoveAll(y, {','})
  {
    RemoveAllConcat(x + ",", y, {','});
    RemoveAllConcat(x, ",", {','});
    assert RemoveAll(",", {','}) == [];
  }

  /** Thousands separators are all removed: "1,234,567" reads as 1234567. */
  lemma {:induction false} ParseIntOrNullGrouped(a: string, b: string, c: string)
    requires a != [] && AllDigits(a) && AllDigits(b) && AllDigits(c)
    ensures ParseIntOrNull(Some(a + "," + b + "," + c)) == Some(DigitsValue(a + b + c))
  {
    RemoveCommaBetween(a + "," + b, c);
    RemoveCommaBetween(a, b);
    RemoveAllNothing(a, {','});
    RemoveAllNothing(b, {','});
    RemoveAllNothing(c, {','});
    DigitsConcat(a + b, c);
    DigitsConcat(a, b);
    ParseIntOrNullOfDigits(a + "," + b + "," + c, a + b + c);
  }

  lemma {:induction false} DigitsConcat(x: string, y: string)
    requires AllDigits(x) && AllDigits(y)
    ensures AllDigits(x + y)
  {
    assert forall i :: 0 <= i < |x + y| ==> (x + y)[i] == if i < |x| then x[i] else y[i - |x|];
  }

  /** A text whose commas hide a plain digit string reads as that string's value. */
  lemma {:induction false} ParseIntOrNullOfDigits(s: string, d: string)
    requires RemoveAll(s, {','}) == d && d != [] && AllDigits(d)
    ensures ParseIntOrNull(Some(s)) == Some(DigitsValue(d))
  {
    ParseIntOfDigits(d, true);
  }

  /**
   * A text that, once its commas are gone and its leading white space and sign skipped,
   * does not start with a digit is not a number: it reads as null.
   */
  lemma {:induction false} ParseIntOrNullOfNonNumeric(s: string)
    requires LeadingDigits(Unsigned(TrimStart(RemoveAll(s, {','})))) == []
    ensures ParseIntOrNull(Some(s)) == None
  {
  }

  /** "N/A", as a page shows for a missing count, reads as null. */
  lemma {:induction false} NotApplicableIsNull()
    ensures ParseIntOrNull(Some("N/A")) == None
  {
    RemoveAllNothing("N/A", {','});
    ParseIntOrNullOfNonNumeric("N/A");
  }

  const GroupedExample := "1,234,567"

  /**
   * The batch normaliser and the county scraper's square-footage reading disagree on a
   * number with two separators: the scraper removes only the first comma.
   */
  lemma {:induction false} GroupedNumbersDisagree()
    ensures ParseIntOrNull(Some(GroupedExample)) == Some(1234567)
    ensures SqftOf(GroupedExample) == Int(1234)
  {
    GroupedExampleParts();
    GroupedByNormaliser();
    GroupedByScraper();
  }

  lemma {:induction false} GroupedExampleParts()
    ensures GroupedExample == "1" + "," + "234" + "," + "567"
    ensures "1" + "234" + "567" == "1234567" && "1" + "234" == "1234"
    ensures AllDigits("1") && AllDigits("234") && AllDigits("567")
  {
  }

  lemma {:induction false} GroupedByNormaliser()
    ensures ParseIntOrNull(Some("1" + "," + "234" + "," + "567")) == Some(1234567)
  {
    GroupedExampleParts();
    ParseIntOrNullGrouped("1", "234", "567");
    SevenDigits();
  }

  lemma {:induction false} GroupedByScraper()
    ensures SqftOf("1" + "," + "234" + "," + "567") == Int(1234)
  {
    GroupedExampleParts();
    SqftStopsAtSecondComma("1", "234", "567");
    SevenDigits();
  }

  lemma {:induction false} SevenDigits()
    ensures DigitsValue("1234") == 1234 && DigitsValue("1234567") == 1234567
  {
    assert DigitsValue("12") == 12;
    assert DigitsValue("123") == 123 by { assert "123"[..2] == "12"; }
    assert DigitsValue("1234") == 1234 by { assert "1234"[..3] == "123"; }
    assert DigitsValue("12345") == 12345 by { assert "12345"[..4] == "1234"; }
    assert DigitsValue("123456") == 123456 by { assert "123456"[..5] == "12345"; }
    assert DigitsValue("1234567") == 1234567 by { assert "1234567"[..6] == "123456"; }
  }

  // ---------------------------------------------------------------------------
  // The main loop

  const TestLimit := 20

  /** A sales row that still needs details. */
  datatype Candidate = Candidate(id: int, parcelId: string, address: string)

  /** The rows the query returns: at most `TEST_LIMIT` of them in test mode. */
  function Fetched(candidates: seq<Candidate>, testMode: bool): (rows: seq<Candidate>)
    ensures |rows| <= |candidates| && rows == candidates[..|rows|]
    ensures testMode ==> |rows| == if |candidates| < TestLimit then |candidates| else TestLimit
    ensures !testMode ==> rows == candidates
  {
    if testMode && |candidates| > TestLimit then candidates[..TestLimit] else candidates
  }

  /** What `scrapeProperty(page, parcelId)` returns, given what the site shows at each URL. */
  function ScrapeOf(site: string -> Option<RawDetails>, parcelId: string): Option<Details> {
    match site(BuildUrl(parcelId))
    case None => None
    case Some(raw) => Some(Convert(raw))
  }

  /** The scrape result of every row, in order. */
  function Results(rows: seq<Candidate>, site: string -> Option<RawDetails>): (rs: seq<Option<Details>>)
    ensures |rs| == |rows|
  {
    if rows == [] then [] else [ScrapeOf(site, rows[0].parcelId)] + Results(rows[1..], site)
  }

  /** The `i`-th result is the scrape of the `i`-th row. */
  lemma {:induction false} ResultAt(rows: seq<Candidate>, site: string -> Option<RawDetails>, i: nat)
    requires i < |rows|
    ensures Results(rows, site)[i] == ScrapeOf(site, rows[i].parcelId)
  {
    if i > 0 {
      ResultAt(rows[1..], site, i - 1);
    }
  }

  datatype Outcome = Succeeded | NoData | Failed

  /** Success needs bedrooms; a result without them is "no data"; no result is a failure. */
  function OutcomeOf(d: Option<Details>): Outcome {
    if d.None? then Failed
    else if d.value.bedrooms.Some? then Succeeded
    else NoData
  }

  /** How many of the results have outcome `o`. */
  function Count(rs: seq<Option<Details>>, o: Outcome): (c: nat)
    ensures c <= |rs|
  {
    if rs == [] then 0
    else Count(rs[..|rs| - 1], o) + (if OutcomeOf(rs[|rs| - 1]) == o then 1 else 0)
  }

  /** Every result lands in exactly one counter. */
  lemma {:induction false} CountsPartition(rs: seq<Option<Details>>)
    ensures Count(rs, Succeeded) + Count(rs, NoData) + Count(rs, Failed) == |rs|
  {
    if rs != [] {
      CountsPartition(rs[..|rs| - 1]);
    }
  }

  /** A call `updateProperty(pool, id, details)`: the row id and the scraped details passed to it. */
  datatype Update = Update(id: int, details: Details)

  /** The writes for the successful rows, in order. */
  function SuccessUpdates(rows: seq<Candidate>, rs: seq<Option<Details>>): (u: seq<Update>)
    requires |rs| == |rows|
    ensures |u| == Count(rs, Succeeded)
    ensures forall k :: 0 <= k < |u| ==> u[k].details.bedrooms.Some?
  {
    if rs == [] then []
    else
      var n := |rs| - 1;
      SuccessUpdates(rows[..n], rs[..n]) + (if OutcomeOf(rs[n]) == Succeeded then [Update(rows[n].id, rs[n].value)] else [])
  }

  /** The positions of the successful results, in increasing order. */
  function Successes(rs: seq<Option<Details>>): (idx: seq<nat>)
    ensures |idx| == Count(rs, Succeeded)
    ensures forall k :: 0 <= k < |idx| ==> idx[k] < |rs| && OutcomeOf(rs[idx[k]]) == Succeeded
    ensures forall k, l :: 0 <= k < l < |idx| ==> idx[k] < idx[l]
    ensures forall i :: 0 <= i < |rs| && OutcomeOf(rs[i]) == Succeeded ==> i in idx
  {
    if rs == [] then []
    else
      var n := |rs| - 1;
      Successes(rs[..n]) + (if OutcomeOf(rs[n]) == Succeeded then [n] else [])
  }

  /** The k-th write is the k-th successful row's id with that row's details. */
  lemma {:induction false} SuccessUpdatesInOrder(rows: seq<Candidate>, rs: seq<Option<Details>>)
    requires |rs| == |rows|
    ensures var u, idx := SuccessUpdates(rows, rs), Successes(rs);
      |u| == |idx| &&
      forall k :: 0 <= k < |u| ==> u[k] == Update(rows[idx[k]].id, rs[idx[k]].value)
  {
    if rs != [] {
      var n := |rs| - 1;
      SuccessUpdatesInOrder(rows[..n], rs[..n]);
    }
  }

  lemma {:induction false} CountStep(rs: seq<Option<Details>>, i: nat, o: Outcome)
    requires i < |rs|
    ensures Count(rs[..i + 1], o) == Count(rs[..i], o) + (if OutcomeOf(rs[i]) == o then 1 else 0)
  {
    assert rs[..i + 1][..i] == rs[..i];
  }

  lemma {:induction false} UpdatesStep(rows: seq<Candidate>, rs: seq<Option<Details>>, i: nat)
    requires |rs| == |rows| && i < |rs|
    ensures SuccessUpdates(rows[..i + 1], rs[..i + 1]) == SuccessUpdates(rows[..i], rs[..i]) +
      (if OutcomeOf(rs[i]) == Succeeded then [Update(rows[i].id, rs[i].value)] else [])
  {
    assert rs[..i + 1][..i] == rs[..i];
    assert rows[..i + 1][..i] == rows[..i];
  }

  datatype Tally = Tally(success: nat, noData: nat, failed: nat)

  /** The three counters over a list of results. */
  function Tallied(rs: seq<Option<Details>>): (t: Tally)
    ensures t.success + t.noData + t.failed == |rs|
  {
    CountsPartition(rs);
    Tally(Count(rs, Succeeded), Count(rs, NoData), Count(rs, Failed))
  }

  /** One more result, counted under its outcome. */
  function Bump(t: Tally, o: Outcome): Tally {
    match o
    case Succeeded => t.(success := t.success + 1)
    case NoData => t.(noData := t.noData + 1)
    case Failed => t.(failed := t.failed + 1)
  }

  lemma {:induction false} TallyStep(rs: seq<Option<Details>>, i: nat)
    requires i < |rs|
    ensures Tallied(rs[..i + 1]) == Bump(Tallied(rs[..i]), OutcomeOf(rs[i]))
  {
    CountStep(rs, i, Succeeded);
    CountStep(rs, i, NoData);
    CountStep(rs, i, Failed);
  }

  /**
   * `main()`: scrape each fetched row in order, count it as a success, "no data" or a
   * failure, write successes to the database unless in test mode, and wait between
   * consecutive requests. With no rows nothing is scraped and no browser is started.
   */
  method RunScraper(candidates: seq<Candidate>, testMode: bool, site: string -> Option<RawDetails>)
    returns (tally: Tally, updates: seq<Update>, delays: nat, browserStarted: bool)
    ensures tally == Tallied(Results(Fetched(candidates, testMode), site))
    ensures tally.success + tally.noData + tally.failed == |Fetched(candidates, testMode)|
    ensures testMode ==> updates == [] && tally.success + tally.noData + tally.failed <= TestLimit
    ensures !testMode ==> updates == SuccessUpdates(candidates, Results(candidates, site))
    ensures !testMode ==> var rs := Results(candidates, site); var idx := Successes(rs);
      |updates| == |idx| &&
      forall k :: 0 <= k < |updates| ==> updates[k] == Update(candidates[idx[k]].id, rs[idx[k]].value)
    ensures delays == if |Fetched(candidates, testMode)| == 0 then 0 else |Fetched(candidates, testMode)| - 1
    ensures browserStarted <==> |Fetched(candidates, testMode)| > 0
  {
    var rows := Fetched(candidates, testMode);
    SuccessUpdatesInOrder(candidates, Results(candidates, site));
    if |rows| == 0 {
      return Tally(0, 0, 0), [], 0, false;
    }
    browserStarted := true;
    tally, updates, delays := ScrapeRows(rows, testMode, site);
  }

  /** The loop of `main()` over a non-empty list of rows. */
  method ScrapeRows(rows: seq<Candidate>, testMode: bool, site: string -> Option<RawDetails>)
    returns (tally: Tally, updates: seq<Update>, delays: nat)
    requires rows != []
    ensures tally == Tallied(Results(rows, site))
    ensures updates == if testMode then [] else SuccessUpdates(rows, Results(rows, site))
    ensures delays == |rows| - 1
  {
    ghost var rs := Results(rows, site);
    tally := Tally(0, 0, 0);
    updates := [];
    delays := 0;
    var i := 0;
    while i < |rows|
      invariant 0 <= i <= |rows|
      invariant tally == Tallied(rs[..i])
      invariant updates == if testMode then [] else SuccessUpdates(rows[..i], rs[..i])
      invariant delays == if i < |rows| then i else |rows| - 1
    {
      var details := ScrapeOf(site, rows[i].parcelId);
      ResultAt(rows, site, i);
      TallyStep(rs, i);
      UpdatesStep(rows, rs, i);
      if details.Some? && details.value.bedrooms.Some? && !testMode {
        updates := updates + [Update(rows[i].id, details.value)];
      }
      tally := Bump(tally, OutcomeOf(details));
      if i < |rows| - 1 {
        delays := delays + 1;
      }
      i := i + 1;
    }
    assert rs[..i] == rs && rows[..i] == rows;
  }
}
