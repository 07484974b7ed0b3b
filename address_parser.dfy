/**
 * The address parser: what it does with a geocoder answer. It finds the county (the
 * first `administrative_area_level_2` component, without its "County" suffix, in lower
 * case), builds a clean street address (number and route, without one trailing compass
 * direction) and checks the county against the supported list.
 *
 * The geocoding request is an oracle from request URL to the decoded JSON answer.
 */
module AddressParser {
  import opened Wrappers
  import opened JsText
  import opened UriComponent

  /** The counties the scrapers handle. */
  const SupportedCounties: seq<string> := [
    "fulton", "gwinnett", "cobb", "dekalb", "clayton",
    "paulding", "newton", "dougherty", "muscogee", "carroll", "hall"
  ]

  const GeocodePrefix := "https://maps.googleapis.com/maps/api/geocode/json?address="

  /** One entry of a result's `address_components`. */
  datatype Component = Component(longName: Option<string>, shortName: Option<string>, types: seq<string>)

  /** One geocoding result. */
  datatype GeoResult = GeoResult(components: seq<Component>)

  /** The decoded answer: `status`, `results` (possibly absent) and `error_message`. */
  datatype GeoResponse = GeoResponse(status: string, results: Option<seq<GeoResult>>, errorMessage: Option<string>)

  /** What `parseAddress` resolves to. */
  datatype ParsedAddress = ParsedAddress(streetAddress: string, county: Option<string>, isSupported: bool, raw: GeoResult)

  /** What `parseAddressForScraping` resolves to. */
  datatype ScrapeTarget = ScrapeTarget(streetAddress: string, county: string)

  // ---------------------------------------------------------------------------
  // The request

  /** The request URL: the address is percent-encoded, the key is not. */
  function GeocodeUrl(address: string, key: string): (url: string)
    ensures StartsWith(url, GeocodePrefix) && EndsWith(url, "&key=" + key)
    ensures |GeocodePrefix| + |"&key=" + key| <= |url|
    ensures Decode(url[|GeocodePrefix|..|url| - |"&key=" + key|]) == Some(address)
  {
    var p, m, q := GeocodePrefix, Encode(address), "&key=" + key;
    assert p + m + "&key=" + key == p + m + q;
    MiddleSlice(p, m, q);
    DecodeEncode(address);
    p + m + q
  }

  lemma {:induction false} MiddleSlice(p: string, m: string, q: string)
    ensures (p + m + q)[..|p|] == p && (p + m + q)[|p + m + q| - |q|..] == q
    ensures (p + m + q)[|p|..|p + m + q| - |q|] == m
  {
  }

  /** With the same key, different addresses make different requests. */
  lemma {:induction false} GeocodeUrlInjective(a: string, b: string, key: string)
    requires GeocodeUrl(a, key) == GeocodeUrl(b, key)
    ensures a == b
  {
    var url := GeocodeUrl(a, key);
    assert Some(a) == Decode(url[|GeocodePrefix|..|url| - |"&key=" + key|]) == Some(b);
  }

  // ---------------------------------------------------------------------------
  // Components

  /** `cs[i]` is the first component whose types include `kind`. */
  predicate FirstOfKind(cs: seq<Component>, kind: string, i: int) {
    0 <= i < |cs| && kind in cs[i].types && forall k :: 0 <= k < i ==> kind !in cs[k].types
  }

  /** `components.find(c => c.types.includes(kind))`. */
  function FindComponent(cs: seq<Component>, kind: string): (r: Option<Component>)
    ensures r.Some? ==> exists i :: FirstOfKind(cs, kind, i) && cs[i] == r.value
    ensures r.None? <==> forall k :: 0 <= k < |cs| ==> kind !in cs[k].types
  {
    if cs == [] then None
    else if kind in cs[0].types then
      assert FirstOfKind(cs, kind, 0);
      Some(cs[0])
    else
      var r := FindComponent(cs[1..], kind);
      assert r.Some? ==> exists i :: FirstOfKind(cs, kind, i) && cs[i] == r.value by {
        if r.Some? {
          var i :| FirstOfKind(cs[1..], kind, i) && cs[1..][i] == r.value;
          assert FirstOfKind(cs, kind, i + 1) by {
            forall k | 0 <= k < i + 1
              ensures kind !in cs[k].types
            {
              if k > 0 {
                assert cs[k] == cs[1..][k - 1];
              }
            }
          }
        }
      }
      r
  }

  /** `x || ''` for an optional string. */
  function OrEmpty(x: Option<string>): (r: string)
    ensures x.Some? ==> r == x.value
    ensures x.None? ==> r == []
  {
    if x.Some? then x.value else []
  }

  // ---------------------------------------------------------------------------
  // The county suffix: `replace(/\s*County$/i, '')`

  /** `\s*County$` (any case) matches from `i`: spaces up to a final "county". */
  predicate CountyTailAt(s: string, i: nat) {
    |s| >= 6 && i <= |s| - 6 && LowerStr(s[|s| - 6..]) == "county" &&
    forall m :: i <= m < |s| - 6 ==> IsSpace(s[m])
  }

  function StripCountySuffix(s: string): string {
    if |s| >= 6 && LowerStr(s[|s| - 6..]) == "county" then TrimEnd(s[..|s| - 6]) else s
  }

  /**
   * The suffix removal is the replacement of the leftmost match: when something is cut,
   * a match starts exactly at the cut and none starts earlier; when nothing is cut,
   * there is no match anywhere.
   */
  lemma {:induction false} StripCountySuffixIsLeftmostMatch(s: string)
    ensures var r := StripCountySuffix(s);
      r == s[..|r|] &&
      (r != s ==> CountyTailAt(s, |r|) && forall k :: 0 <= k < |r| ==> !CountyTailAt(s, k)) &&
      (r == s ==> forall k :: 0 <= k <= |s| ==> !CountyTailAt(s, k))
  {
    var r := StripCountySuffix(s);
    if |s| >= 6 && LowerStr(s[|s| - 6..]) == "county" {
      var t := s[..|s| - 6];
      assert r == TrimEnd(t);
      assert forall m :: |r| <= m < |s| - 6 ==> s[m] == t[m];
      assert r != s;
      forall k | 0 <= k < |r|
        ensures !CountyTailAt(s, k)
      {
        assert s[|r| - 1] == r[|r| - 1];
      }
    }
  }

  /** The county name: without a trailing "County" and the spaces before it, lower-cased. */
  function CountyName(longName: string): (r: string)
    ensures |r| == |StripCountySuffix(longName)| <= |longName|
    ensures forall i :: 0 <= i < |r| ==> r[i] == Lower(longName[i])
    ensures forall i :: 0 <= i < |r| ==> !('A' <= r[i] <= 'Z')
  {
    StripCountySuffixIsLeftmostMatch(longName);
    LowerStr(StripCountySuffix(longName))
  }

  // ---------------------------------------------------------------------------
  // The compass direction: `replace(/\s+(N|S|E|W|NE|NW|SE|SW)$/i, '')`

  /** One of the eight compass tokens, in any case. */
  predicate IsDirection(t: string) {
    || (|t| == 1 && Upper(t[0]) in {'N', 'S', 'E', 'W'})
    || (|t| == 2 && Upper(t[0]) in {'N', 'S'} && Upper(t[1]) in {'E', 'W'})
  }

  /** `\s+(N|S|...)$` matches from `i`: at least one space, then a token that ends the text. */
  predicate DirectionTailAt(s: string, i: nat) {
    i < |s| && IsSpace(s[i]) && IsDirection(TrimStart(s[i..]))
  }

  function StripDirection(s: string): (r: string)
    ensures |r| <= |s| && r == s[..|r|]
  {
    if |s| >= 2 && IsDirection(s[|s| - 1..]) && IsSpace(s[|s| - 2]) then
      var t := s[..|s| - 1];
      assert TrimEnd(t) == s[..|TrimEnd(t)|];
      TrimEnd(t)
    else if |s| >= 3 && IsDirection(s[|s| - 2..]) && IsSpace(s[|s| - 3]) then
      var t := s[..|s| - 2];
      assert TrimEnd(t) == s[..|TrimEnd(t)|];
      TrimEnd(t)
    else s
  }

  /** A compass token is one or two letters. */
  lemma {:induction false} DirectionShape(t: string)
    requires IsDirection(t)
    ensures 1 <= |t| <= 2 && forall i :: 0 <= i < |t| ==> !IsSpace(t[i])
    ensures |t| == 2 ==> !IsDirection(t[1..]) || !IsSpace(t[0])
  {
  }

  /** `TrimStart` stops at the first character that is not a space. */
  lemma {:induction false} TrimStartAt(x: string, j: nat)
    requires j <= |x| && forall m :: 0 <= m < j ==> IsSpace(x[m])
    requires j == |x| || !IsSpace(x[j])
    ensures TrimStart(x) == x[j..]
  {
  }

  /** Where a match starts, the cut is made at or before it. */
  lemma {:induction false} DirectionTailCut(s: string, k: nat)
    requires DirectionTailAt(s, k)
    ensures StripDirection(s) != s && |StripDirection(s)| <= k
  {
    TailFacts(s, k);
    if OneLetterTail(s, k) {
      OneLetterCut(s, k);
    } else {
      TwoLetterCut(s, k);
    }
  }

  /** Spaces from `k` up to a one-letter token that ends the text. */
  predicate OneLetterTail(s: string, k: nat) {
    k < |s| - 1 && IsDirection(s[|s| - 1..]) && IsSpace(s[|s| - 2]) &&
    forall m :: k <= m < |s| - 1 ==> IsSpace(s[m])
  }

  /** Spaces from `k` up to a two-letter token that ends the text. */
  predicate TwoLetterTail(s: string, k: nat) {
    k < |s| - 2 && !IsSpace(s[|s| - 2]) && IsDirection(s[|s| - 2..]) && IsSpace(s[|s| - 3]) &&
    forall m :: k <= m < |s| - 2 ==> IsSpace(s[m])
  }

  lemma {:induction false} OneLetterCut(s: string, k: nat)
    requires OneLetterTail(s, k)
    ensures StripDirection(s) != s && |StripDirection(s)| <= k
  {
    SpacesBefore(s, k, 1);
    assert StripDirection(s) == TrimEnd(s[..|s| - 1]);
  }

  lemma {:induction false} TwoLetterCut(s: string, k: nat)
    requires TwoLetterTail(s, k)
    ensures StripDirection(s) != s && |StripDirection(s)| <= k
  {
    SpacesBefore(s, k, 2);
    assert !(|s| >= 2 && IsDirection(s[|s| - 1..]) && IsSpace(s[|s| - 2]));
    assert StripDirection(s) == TrimEnd(s[..|s| - 2]);
  }

  /** With spaces from `k` to the last `n` characters, trimming what precedes them cuts at or before `k`. */
  lemma {:induction false} SpacesBefore(s: string, k: nat, n: nat)
    requires k + n <= |s| && forall m :: k <= m < |s| - n ==> IsSpace(s[m])
    ensures |TrimEnd(s[..|s| - n])| <= k
  {
    var t := s[..|s| - n];
    forall m | k <= m < |t|
      ensures IsSpace(t[m])
    {
      assert t[m] == s[m];
    }
    TrimEndBelow(t, k);
  }

  /** A match at `k`: spaces from `k` on, then a token of one or two letters ending the text. */
  lemma {:induction false} TailFacts(s: string, k: nat)
    requires DirectionTailAt(s, k)
    ensures OneLetterTail(s, k) || TwoLetterTail(s, k)
  {
    var u := TrimStart(s[k..]);
    DirectionShape(u);
    var j := |s| - |u|;
    assert u == s[j..];
    assert j > k by {
      assert s[k..][0] == s[k];
    }
    forall m | k <= m < j
      ensures IsSpace(s[m])
    {
      assert s[k..][m - k] == s[m];
    }
    if |u| == 2 {
      assert u[0] == s[|s| - 2];
      assert TwoLetterTail(s, k);
    } else {
      assert OneLetterTail(s, k);
    }
  }

  /** When everything from `k` on is space, trimming the end cuts at or before `k`. */
  lemma {:induction false} TrimEndBelow(t: string, k: nat)
    requires forall m :: k <= m < |t| ==> IsSpace(t[m])
    ensures |TrimEnd(t)| <= k
  {
    var r := TrimEnd(t);
    if |r| > k {
      assert r[|r| - 1] == t[|r| - 1];
    }
  }

  /** Where the cut is made, a match starts. */
  lemma {:induction false} DirectionCutIsTail(s: string)
    requires StripDirection(s) != s
    ensures DirectionTailAt(s, |StripDirection(s)|)
  {
    if |s| >= 2 && IsDirection(s[|s| - 1..]) && IsSpace(s[|s| - 2]) {
      assert StripDirection(s) == TrimEnd(s[..|s| - 1]);
      CutIsTail(s, 1);
    } else {
      assert |s| >= 3 && IsDirection(s[|s| - 2..]) && IsSpace(s[|s| - 3]);
      assert StripDirection(s) == TrimEnd(s[..|s| - 2]);
      CutIsTail(s, 2);
    }
  }

  /** Cutting a spaced token of `n` letters off the end leaves the start of a match. */
  lemma {:induction false} CutIsTail(s: string, n: nat)
    requires 1 <= n <= 2 && n < |s| && IsDirection(s[|s| - n..]) && IsSpace(s[|s| - n - 1])
    ensures DirectionTailAt(s, |TrimEnd(s[..|s| - n])|)
  {
    var t := s[..|s| - n];
    var r := TrimEnd(t);
    assert IsSpace(t[|t| - 1]);
    assert |r| < |t|;
    DirectionShape(s[|s| - n..]);
    var x := s[|r|..];
    assert forall m :: 0 <= m < |t| - |r| ==> IsSpace(x[m]) by {
      forall m | 0 <= m < |t| - |r|
        ensures IsSpace(x[m])
      {
        assert x[m] == t[|r| + m];
      }
    }
    assert x[|t| - |r|] == s[|s| - n];
    TrimStartAt(x, |t| - |r|);
    assert x[|t| - |r|..] == s[|s| - n..];
  }

  /**
   * The direction removal is the replacement of the leftmost match: when something is
   * cut, a match starts exactly at the cut and none starts earlier; when nothing is cut,
   * there is no match anywhere. So at most one token goes.
   */
  lemma {:induction false} StripDirectionIsLeftmostMatch(s: string)
    ensures var r := StripDirection(s);
      r == s[..|r|] &&
      (r != s ==> DirectionTailAt(s, |r|) && forall k :: 0 <= k < |r| ==> !DirectionTailAt(s, k)) &&
      (r == s ==> forall k :: 0 <= k <= |s| ==> !DirectionTailAt(s, k))
  {
    var r := StripDirection(s);
    if r != s {
      DirectionCutIsTail(s);
      forall k | 0 <= k < |r|
        ensures !DirectionTailAt(s, k)
      {
        if DirectionTailAt(s, k) {
          DirectionTailCut(s, k);
        }
      }
    } else {
      forall k | 0 <= k <= |s|
        ensures !DirectionTailAt(s, k)
      {
        if DirectionTailAt(s, k) {
          DirectionTailCut(s, k);
        }
      }
    }
  }

  /**
   * The clean street address: number and route joined by a space and trimmed, then cut
   * where the leftmost trailing-direction match starts (nothing is cut without a match).
   */
  function StreetAddress(number: string, route: string): (r: string)
    ensures var t := Trim(number + " " + route);
      |r| <= |t| && r == t[..|r|] && (r == [] || !IsSpace(r[0])) &&
      (r != t ==> DirectionTailAt(t, |r|) && forall k :: 0 <= k < |r| ==> !DirectionTailAt(t, k)) &&
      (r == t ==> forall k :: 0 <= k <= |t| ==> !DirectionTailAt(t, k))
  {
    var t := Trim(number + " " + route);
    StreetCut(t);
    StripDirection(t)
  }

  /** The direction cut of a trimmed text: a prefix, cut at the leftmost match if any. */
  lemma {:induction false} StreetCut(t: string)
    requires t == [] || !IsSpace(t[0])
    ensures var r := StripDirection(t);
      r == t[..|r|] && (r == [] || !IsSpace(r[0])) &&
      (r != t ==> DirectionTailAt(t, |r|) && forall k :: 0 <= k < |r| ==> !DirectionTailAt(t, k)) &&
      (r == t ==> forall k :: 0 <= k <= |t| ==> !DirectionTailAt(t, k))
  {
    StripDirectionIsLeftmostMatch(t);
    var r := StripDirection(t);
    if r != [] {
      assert r[0] == t[0];
    }
  }

  // ---------------------------------------------------------------------------
  // parseAddress and parseAddressForScraping

  const KeyRequired := "Google Maps API key is required"

  /** The message for an unusable geocoder answer. */
  function GeocodingFailed(data: GeoResponse): string {
    "Geocoding failed: " + data.status + " - " +
    (if data.errorMessage.Some? && data.errorMessage.value != [] then data.errorMessage.value else "No results found")
  }

  /** Reading `.replace` of a missing `long_name`. */
  const MissingLongName := "Cannot read properties of undefined (reading 'replace')"

  /** `!apiKey`. */
  predicate MissingKey(apiKey: Option<string>) {
    apiKey.None? || apiKey.value == []
  }

  /** The answer carries no usable result. */
  predicate Unusable(data: GeoResponse) {
    data.status != "OK" || data.results.None? || data.results.value == []
  }

  /** The county of a result: null without a county component. */
  function CountyOf(result: GeoResult): Result<Option<string>, string> {
    match FindComponent(result.components, "administrative_area_level_2")
    case None => Success(None)
    case Some(c) =>
      if c.longName.None? then Failure(MissingLongName) else Success(Some(CountyName(c.longName.value)))
  }

  /**
   * What `parseAddress` builds from the first result: the clean street address, the
   * county, and whether the county is supported. Fails only when the county component
   * has no `long_name`.
   */
  function ParsedFrom(result: GeoResult): (r: Result<ParsedAddress, string>)
    ensures r.Failure? <==> CountyOf(result).Failure?
    ensures r.Failure? ==> r.error == MissingLongName
    ensures r.Success? ==>
      r.value.raw == result && CountyOf(result) == Success(r.value.county) &&
      (r.value.isSupported <==> r.value.county.Some? && r.value.county.value in SupportedCounties)
    ensures r.Success? ==>
      var number := FindComponent(result.components, "street_number");
      var route := FindComponent(result.components, "route");
      r.value.streetAddress == StreetAddress(
        if number.Some? && number.value.longName.Some? then number.value.longName.value else "",
        if route.Some? && route.value.shortName.Some? then route.value.shortName.value else "")
  {
    match CountyOf(result)
    case Failure(e) => Failure(e)
    case Success(county) =>
      Success(ParsedAddress(StreetOf(result.components), county, IsSupported(county), result))
  }

  /** The street address from the `street_number` long name and the `route` short name. */
  function StreetOf(components: seq<Component>): string {
    var number := OrEmpty(match FindComponent(components, "street_number") case Some(c) => c.longName case None => None);
    var route := OrEmpty(match FindComponent(components, "route") case Some(c) => c.shortName case None => None);
    StreetAddress(number, route)
  }

  /** `county ? SUPPORTED_COUNTIES.includes(county) : false`: the empty county is never supported. */
  function IsSupported(county: Option<string>): (b: bool)
    ensures b <==> county.Some? && county.value in SupportedCounties
  {
    var none: string := [];
    assert none !in SupportedCounties;
    county.Some? && county.value != [] && county.value in SupportedCounties
  }

  /** `parseAddress(fullAddress, apiKey)`. */
  function ParseAddress(fullAddress: string, apiKey: Option<string>, geocode: string -> GeoResponse)
    : (r: Result<ParsedAddress, string>)
    ensures MissingKey(apiKey) ==> r == Failure(KeyRequired)
    ensures !MissingKey(apiKey) ==>
      var data := geocode(GeocodeUrl(fullAddress, apiKey.value));
      (Unusable(data) ==> r == Failure(GeocodingFailed(data))) &&
      (!Unusable(data) ==> r == ParsedFrom(data.results.value[0]))
  {
    if MissingKey(apiKey) then Failure(KeyRequired)
    else
      var data := geocode(GeocodeUrl(fullAddress, apiKey.value));
      if Unusable(data) then Failure(GeocodingFailed(data))
      else ParsedFrom(data.results.value[0])
  }

  /** `county || 'unknown'`. */
  function CountyOrUnknown(county: Option<string>): string {
    if county.Some? && county.value != [] then county.value else "unknown"
  }

  function UnsupportedMessage(county: Option<string>): string {
    "Address is in " + CountyOrUnknown(county) + " county. " +
    "Only these Georgia counties are supported: " + Join(SupportedCounties, ", ")
  }

  /**
   * `parseAddressForScraping(fullAddress, apiKey)`: the parsed street address and county
   * when the county is supported; otherwise an error naming the county (or "unknown").
   */
  function ParseAddressForScraping(fullAddress: string, apiKey: Option<string>, geocode: string -> GeoResponse)
    : (r: Result<ScrapeTarget, string>)
    ensures ParseAddress(fullAddress, apiKey, geocode).Failure? ==>
      r == Failure(ParseAddress(fullAddress, apiKey, geocode).error)
    ensures ParseAddress(fullAddress, apiKey, geocode).Success? ==>
      var p := ParseAddress(fullAddress, apiKey, geocode).value;
      (r.Success? <==> p.county.Some? && p.county.value in SupportedCounties) &&
      (r.Success? ==> r.value == ScrapeTarget(p.streetAddress, p.county.value)) &&
      (r.Failure? ==> r.error == UnsupportedMessage(p.county))
  {
    match ParseAddress(fullAddress, apiKey, geocode)
    case Failure(e) => Failure(e)
    case Success(parsed) =>
      if !parsed.isSupported then Failure(UnsupportedMessage(parsed.county))
      else Success(ScrapeTarget(parsed.streetAddress, parsed.county.value))
  }

  // ---------------------------------------------------------------------------
  // Examples

  /** A direction token after one space is cut, and only it. */
  lemma {:induction false} StripsOneDirection(body: string, token: string)
    requires body != [] && !IsSpace(body[|body| - 1]) && IsDirection(token)
    ensures StripDirection(body + " " + token) == body
  {
    var s := body + " " + token;
    DirectionShape(token);
    assert s[|s| - |token|..] == token;
    assert s[..|s| - |token|] == body + " ";
    if |token| == 2 {
      assert s[|s| - 2] == token[0];
    }
    TrimEndOne(body);
  }

  const WeycroftRoute := "Weycroft Cir NE"

  /** Number "2517" and route "Weycroft Cir NE" give "2517 Weycroft Cir". */
  lemma {:induction false} WeycroftExample()
    ensures StreetAddress("2517", WeycroftRoute) == "2517 Weycroft Cir"
  {
    var s := "2517" + " " + WeycroftRoute;
    assert s == "2517 Weycroft Cir" + " " + "NE";
    TrimOfPlain(s);
    assert UpperStr("NE") == "NE";
    StripsOneDirection("2517 Weycroft Cir", "NE");
  }

  const RepeatedDirection := "A N N"

  /** Only one token is removed: "A N N" becomes "A N". */
  lemma {:induction false} OnlyOneDirectionExample()
    ensures StripDirection(RepeatedDirection) == "A N"
  {
    assert RepeatedDirection == "A N" + " " + "N";
    assert UpperStr("N") == "N";
    StripsOneDirection("A N", "N");
  }

  const GwinnettLongName := "Gwinnett County"

  /** "Gwinnett County" becomes "gwinnett". */
  lemma {:induction false} GwinnettExample()
    ensures CountyName(GwinnettLongName) == "gwinnett"
  {
    var b, c := "Gwinnett", "County";
    assert GwinnettLongName == b + " " + c;
    LowerCounty(c);
    CountyNameOfSpaced(b, c);
    LowerGwinnett(b);
  }

  lemma {:induction false} LowerCounty(c: string)
    requires c == "County"
    ensures LowerStr(c) == "county"
  {
    assert Lower(c[0]) == 'c';
  }

  lemma {:induction false} LowerGwinnett(b: string)
    requires b == "Gwinnett"
    ensures LowerStr(b) == "gwinnett"
  {
    var w := "gwinnett";
    assert Lower(b[0]) == w[0];
    forall i | 1 <= i < |b|
      ensures LowerStr(b)[i] == w[i]
    {
      assert b[i] == w[i];
    }
  }

  /** A name, one space, and any-case "county": the suffix and the space go. */
  lemma {:induction false} CountyNameOfSpaced(body: string, suffix: string)
    requires body != [] && !IsSpace(body[|body| - 1])
    requires |suffix| == 6 && LowerStr(suffix) == "county"
    ensures CountyName(body + " " + suffix) == LowerStr(body)
  {
    var s := body + " " + suffix;
    assert s[|s| - 6..] == suffix;
    assert s[..|s| - 6] == body + " ";
    TrimEndOne(body);
  }

  /** A string that neither starts nor ends with a space trims to itself. */
  lemma {:induction false} TrimOfPlain(s: string)
    requires s != [] && !IsSpace(s[0]) && !IsSpace(s[|s| - 1])
    ensures Trim(s) == s
  {
  }

  /** One trailing space is trimmed off a string that does not end in one. */
  lemma {:induction false} TrimEndOne(s: string)
    requires s != [] && !IsSpace(s[|s| - 1])
    ensures TrimEnd(s + " ") == s
  {
    assert (s + " ")[..|s|] == s;
  }
}
