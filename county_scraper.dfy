/**
 * The multi-county qPublic scraper: the county table, the extraction of bedrooms,
 * bathrooms, square footage and the homestead flag from the results page's visible
 * text, the two-strategy search for the 2025 assessment-notice PDF, and the order of
 * the browser session's steps.
 *
 * The browser is abstract: a `Session` says whether the browser launches, whether the
 * context, page and init script that follow are set up, and whether the
 * search reaches the results page, and a `ResultsPage` holds what the page shows.
 */
module CountyScraper {
  import opened Wrappers
  import opened JsText
  import opened PageScan

  // ---------------------------------------------------------------------------
  // County table

  datatype CountyConfig = CountyConfig(url: string, addressInput: string, searchButton: string)

  const FultonConfig := CountyConfig(
    "https://qpublic.schneidercorp.com/Application.aspx?AppID=936&LayerID=18251&PageTypeID=2&PageID=8154",
    "#ctlBodyPane_ctl01_ctl01_txtAddress",
    "#ctlBodyPane_ctl01_ctl01_btnSearch")

  const GwinnettConfig := CountyConfig(
    "https://qpublic.schneidercorp.com/Application.aspx?AppID=1282&LayerID=43872&PageTypeID=2&PageID=16058",
    "#ctlBodyPane_ctl02_ctl01_txtAddress",
    "#ctlBodyPane_ctl02_ctl01_btnSearch")

  const CobbConfig := CountyConfig(
    "https://qpublic.schneidercorp.com/Application.aspx?AppID=1051&LayerID=23951&PageTypeID=2&PageID=9967",
    "#ctlBodyPane_ctl01_ctl01_txtAddress",
    "#ctlBodyPane_ctl01_ctl01_btnSearch")

  /** The table's keys, in declaration order. */
  const CountyKeys: seq<string> := ["fulton", "gwinnett", "cobb"]

  /**
   * What indexing the table object gives: one of its three entries, a member every plain
   * object inherits (`constructor`, `__proto__`: truthy, but without a `url`), or nothing.
   */
  datatype Lookup = Configured(config: CountyConfig) | Inherited | Missing

  /** `COUNTY_CONFIG[county.toLowerCase()]`. */
  function LookupCounty(county: string): (r: Lookup)
    ensures r.Configured? <==> LowerStr(county) in CountyKeys
    ensures r.Missing? <==> LowerStr(county) !in CountyKeys + ["constructor", "__proto__"]
  {
    var key := LowerStr(county);
    if key == "fulton" then Configured(FultonConfig)
    else if key == "gwinnett" then Configured(GwinnettConfig)
    else if key == "cobb" then Configured(CobbConfig)
    else if key == "constructor" || key == "__proto__" then Inherited
    else Missing
  }

  function UnknownCountyMessage(county: string): string {
    "Unknown county: " + county + ". Supported: " + Join(CountyKeys, ", ")
  }

  // ---------------------------------------------------------------------------
  // Extraction from the page text

  const BedroomPattern := Pattern([["bedroom"]], true, SpacesOrColons, Digits)
  const CombinedBathPattern := Pattern([["full", "bath/half", "bath"]], false, Spaces, DigitPair(false))
  const FullBathPattern := Pattern([["full", "bath"]], true, SpacesOrColons, Digits)
  const BathPattern := Pattern([["bath"]], true, SpacesOrColons, Digits)
  const ResSqFtPattern := Pattern([["res", "sq", "ft"]], false, Spaces, DigitsAndCommas)
  const GrossSqftPattern := Pattern([["grosssqft"]], false, Spaces, DigitsAndCommas)
  const HeatedPattern :=
    Pattern([["heated", "sq", "ft"], ["heated", "area"]], false, SpacesOrColons, DigitsAndCommas)
  const ExemptionPattern := Pattern([["homestead", "exemption"]], false, Spaces, OneOf(["yes", "no"], false))
  const HomesteadPattern := Pattern([["homestead"]], false, Spaces, OneOf(["y", "n"], true))

  /** `parseInt` of a captured run of digits: never NaN, and the digits' decimal value. */
  function DigitsInt(g: string): (n: nat)
    requires g != [] && AllDigits(g)
    ensures ParseInt(g) == Int(n)
  {
    ParseIntOfDigits(g, true);
    DigitsValue(g)
  }

  /** The first digits after a "Bedroom" or "Bedrooms" label, or null when there is none. */
  function Bedrooms(text: string): (r: Option<nat>)
    ensures r.None? <==> forall k :: 0 <= k <= |text| ==> MatchAt(text, k, BedroomPattern).None?
    ensures r.Some? ==> ParseInt(Find(text, BedroomPattern).value.groups[0]) == Int(r.value)
  {
    match Find(text, BedroomPattern)
    case None => None
    case Some(m) => Some(DigitsInt(m.groups[0]))
  }

  /** The count after "Full Bath(s)", else after "Bath(s)", else null. */
  function SimpleBathrooms(text: string): (r: Option<nat>)
    ensures Find(text, FullBathPattern).Some? ==>
      r == Some(DigitsInt(Find(text, FullBathPattern).value.groups[0]))
    ensures Find(text, FullBathPattern).None? ==>
      (r.Some? <==> Find(text, BathPattern).Some?) &&
      (r.Some? ==> r.value == DigitsInt(Find(text, BathPattern).value.groups[0]))
  {
    match Find(text, FullBathPattern)
    case Some(m) => Some(DigitsInt(m.groups[0]))
    case None =>
      match Find(text, BathPattern)
      case Some(m) => Some(DigitsInt(m.groups[0]))
      case None => None
  }

  /**
   * Bathrooms: "Full Bath/Half Bath N/M" gives N + M/2 and wins outright; otherwise the
   * simple count.
   */
  function Bathrooms(text: string): (r: Option<real>)
    ensures Find(text, CombinedBathPattern).Some? ==>
      var g := Find(text, CombinedBathPattern).value.groups;
      Shaped(DigitPair(false), g) && r == Some(FullPlusHalf(DigitsInt(g[0]), DigitsInt(g[1])))
    ensures Find(text, CombinedBathPattern).None? ==>
      (r.Some? <==> SimpleBathrooms(text).Some?) &&
      (r.Some? ==> r.value == SimpleBathrooms(text).value as real)
  {
    match Find(text, CombinedBathPattern)
    case Some(m) => Some(FullPlusHalf(DigitsInt(m.groups[0]), DigitsInt(m.groups[1])))
    case None =>
      match SimpleBathrooms(text)
      case Some(n) => Some(n as real)
      case None => None
  }

  /** `full + half * 0.5`: a count of half-baths, halved. */
  function FullPlusHalf(full: nat, half: nat): (b: real)
    ensures 2.0 * b == (2 * full + half) as real
  {
    full as real + half as real * 0.5
  }

  /** A whole, non-negative number of half units. */
  predicate IsHalfUnits(x: real) {
    x >= 0.0 && (2.0 * x).Floor as real == 2.0 * x
  }

  /** Bathrooms always come in whole half-baths. */
  lemma {:induction false} BathroomsInHalves(text: string)
    ensures Bathrooms(text).Some? ==> IsHalfUnits(Bathrooms(text).value)
  {
    if Find(text, CombinedBathPattern).Some? {
      var g := Find(text, CombinedBathPattern).value.groups;
      WholeHalves(Bathrooms(text).value, 2 * DigitsInt(g[0]) + DigitsInt(g[1]));
    } else if SimpleBathrooms(text).Some? {
      WholeHalves(Bathrooms(text).value, 2 * SimpleBathrooms(text).value);
    }
  }

  lemma {:induction false} WholeHalves(x: real, k: nat)
    requires 2.0 * x == k as real
    ensures IsHalfUnits(x)
  {
    assert (k as real).Floor == k;
  }

  /** The square-footage capture as the scraper reads it: only the first comma is removed. */
  function SqftOf(capture: string): JsInt {
    ParseInt(RemoveFirst(capture, ','))
  }

  /** Square footage from Res Sq Ft, else GrossSqft, else Heated Sq Ft / Heated Area. */
  function Sqft(text: string): (r: Option<JsInt>)
    ensures r.None? <==>
      Find(text, ResSqFtPattern).None? && Find(text, GrossSqftPattern).None? &&
      Find(text, HeatedPattern).None?
    ensures Find(text, ResSqFtPattern).Some? ==>
      r == Some(SqftOf(Find(text, ResSqFtPattern).value.groups[0]))
    ensures Find(text, ResSqFtPattern).None? && Find(text, GrossSqftPattern).Some? ==>
      r == Some(SqftOf(Find(text, GrossSqftPattern).value.groups[0]))
    ensures Find(text, ResSqFtPattern).None? && Find(text, GrossSqftPattern).None? && Find(text, HeatedPattern).Some? ==>
      r == Some(SqftOf(Find(text, HeatedPattern).value.groups[0]))
  {
    match Find(text, ResSqFtPattern)
    case Some(m) => Some(SqftOf(m.groups[0]))
    case None =>
      match Find(text, GrossSqftPattern)
      case Some(m) => Some(SqftOf(m.groups[0]))
      case None =>
        match Find(text, HeatedPattern)
        case Some(m) => Some(SqftOf(m.groups[0]))
        case None => None
  }

  /**
   * The homestead flag: true for Yes/Y, false for No/N, null when neither the
   * "Homestead Exemption" nor the "Homestead Y|N" pattern matches.
   */
  function Homestead(text: string): (r: Option<bool>)
    ensures r.None? <==> Find(text, ExemptionPattern).None? && Find(text, HomesteadPattern).None?
    ensures Find(text, ExemptionPattern).Some? ==>
      r == Some(LowerStr(Find(text, ExemptionPattern).value.groups[0]) == "yes")
    ensures Find(text, ExemptionPattern).None? && Find(text, HomesteadPattern).Some? ==>
      r == Some(LowerStr(Find(text, HomesteadPattern).value.groups[0]) == "y")
  {
    match Find(text, ExemptionPattern)
    case Some(m) =>
      var value := LowerStr(m.groups[0]);
      Some(value == "yes" || value == "y")
    case None =>
      match Find(text, HomesteadPattern)
      case Some(m) =>
        var value := LowerStr(m.groups[0]);
        Some(value == "yes" || value == "y")
      case None => None
  }

  // ---------------------------------------------------------------------------
  // Assessment-notice URL

  /** An anchor: its `href` attribute (what selectors test) and its resolved `href`. */
  datatype Anchor = Anchor(hrefAttribute: string, href: string)

  /** An `<input>`: its `value` attribute and its `onclick` attribute, if any. */
  datatype Input = Input(value: string, onclick: Option<string>)

  /**
   * The results page as the assessment search sees it: its text, its anchors, whether an
   * "Assessment Notices" link is present and whether clicking it throws, whether the page
   * it leads to has an "Assessment Notices" header and whether clicking that throws, and
   * the inputs of that page.
   */
  datatype ResultsPage = ResultsPage(
    text: string,
    anchors: seq<Anchor>,
    hasNoticesLink: bool,
    noticesNavigationFails: bool,
    hasExpandHeader: bool,
    expandFails: bool,
    noticeInputs: seq<Input>)

  /** Every literal space written as `%20`. */
  function EncodeSpaces(s: string): (r: string)
    ensures ' ' !in r
    ensures ' ' !in s ==> r == s
  {
    ReplaceAll(s, ' ', "%20")
  }

  /** The rewrite works piece by piece: encoding a concatenation encodes each part. */
  lemma {:induction false} EncodeSpacesConcat(a: string, b: string)
    ensures EncodeSpaces(a + b) == EncodeSpaces(a) + EncodeSpaces(b)
  {
    ReplaceAllConcat(a, b, ' ', "%20");
  }

  /** A space becomes `%20`; any other character is kept as it is. */
  lemma {:induction false} EncodeSpacesOfChar(x: char)
    ensures EncodeSpaces([x]) == if x == ' ' then "%20" else [x]
  {
    ReplaceAllOfChar(x, ' ', "%20");
  }

  /** A string value JavaScript treats as true. */
  predicate Truthy(s: Option<string>) {
    s.Some? && s.value != ""
  }

  /** `a[href*="assessmentnotice"][href*="2025"]`. */
  predicate IsNoticeLink(anchor: Anchor) {
    Contains(anchor.hrefAttribute, "assessmentnotice") && Contains(anchor.hrefAttribute, "2025")
  }

  /** `document.querySelector` picks anchor `k`: the first notice link. */
  predicate FirstNoticeLink(anchors: seq<Anchor>, k: int) {
    0 <= k < |anchors| && IsNoticeLink(anchors[k]) && forall j :: 0 <= j < k ==> !IsNoticeLink(anchors[j])
  }

  /** The first notice link's resolved `href`, with its spaces encoded; null without one. */
  function DirectLink(anchors: seq<Anchor>): (r: Option<string>)
    ensures r.Some? ==> ' ' !in r.value
    ensures r.None? <==> forall k :: 0 <= k < |anchors| ==> !IsNoticeLink(anchors[k])
    ensures forall k :: FirstNoticeLink(anchors, k) ==> r == Some(EncodeSpaces(anchors[k].href))
  {
    if anchors == [] then None
    else if IsNoticeLink(anchors[0]) then Some(EncodeSpaces(anchors[0].href))
    else
      LinkTail(anchors);
      DirectLink(anchors[1..])
  }

  /** Past a first anchor that is not a notice link, the search goes on in the rest. */
  lemma {:induction false} LinkTail(anchors: seq<Anchor>)
    requires anchors != [] && !IsNoticeLink(anchors[0])
    ensures (forall k :: 0 <= k < |anchors| ==> !IsNoticeLink(anchors[k])) <==>
      forall k :: 0 <= k < |anchors[1..]| ==> !IsNoticeLink(anchors[1..][k])
    ensures forall k :: FirstNoticeLink(anchors, k) ==> FirstNoticeLink(anchors[1..], k - 1)
  {
    var tail := anchors[1..];
    assert forall k :: 0 <= k < |tail| ==> tail[k] == anchors[k + 1];
    if forall k :: 0 <= k < |tail| ==> !IsNoticeLink(tail[k]) {
      forall k | 0 <= k < |anchors|
        ensures !IsNoticeLink(anchors[k])
      {
        if k > 0 {
          assert anchors[k] == tail[k - 1];
        }
      }
    }
    forall k | FirstNoticeLink(anchors, k)
      ensures FirstNoticeLink(tail, k - 1)
    {
      assert k != 0;
      forall j | 0 <= j < k - 1
        ensures !IsNoticeLink(tail[j])
      {
        assert tail[j] == anchors[j + 1];
      }
    }
  }

  const WindowOpen := "window.open('"

  /** The `window.open('…')` argument whose call starts at `i`, if one does. */
  function OpenArgAt(s: string, i: nat): (r: Option<string>)
    requires i <= |s|
    ensures r.Some? ==> r.value != [] && '\'' !in r.value
    ensures r.Some? ==> OccursAt(s, WindowOpen + r.value + "'", i)
  {
    if !OccursAt(s, WindowOpen, i) then None
    else
      var j := i + |WindowOpen|;
      var m := RunEnd(s, j, NotQuote);
      if m == j || m == |s| then None
      else
        assert forall k :: 0 <= k < |s[j..m]| ==> s[j..m][k] == s[j + k];
        assert s[i..m + 1] == WindowOpen + s[j..m] + "'";
        Some(s[j..m])
  }

  /** A `window.open('…'` call with an argument starts at `k`, and at no position from `i` before it. */
  predicate FirstOpenArg(s: string, i: nat, k: int) {
    i <= k <= |s| && OpenArgAt(s, k).Some? && forall j :: i <= j < k ==> OpenArgAt(s, j).None?
  }

  /** `onclick.match(/window\.open\('([^']+)'/)`, searching from `i`: the leftmost such argument. */
  function OpenArgFrom(s: string, i: nat): (r: Option<string>)
    requires i <= |s|
    ensures r.Some? ==> r.value != [] && '\'' !in r.value
    ensures r.None? <==> forall k :: i <= k <= |s| ==> OpenArgAt(s, k).None?
    ensures forall k :: FirstOpenArg(s, i, k) ==> r == OpenArgAt(s, k)
    decreases |s| - i
  {
    var here := OpenArgAt(s, i);
    if here.Some? then
      assert forall k :: FirstOpenArg(s, i, k) ==> k == i;
      here
    else if i == |s| then None
    else
      OpenArgStep(s, i);
      OpenArgFrom(s, i + 1)
  }

  /** With no argument at `i`, the search from `i` is the search from `i + 1`. */
  lemma {:induction false} OpenArgStep(s: string, i: nat)
    requires i < |s| && OpenArgAt(s, i).None?
    ensures (forall k :: i + 1 <= k <= |s| ==> OpenArgAt(s, k).None?) ==>
      forall k :: i <= k <= |s| ==> OpenArgAt(s, k).None?
    ensures forall k :: FirstOpenArg(s, i, k) ==> FirstOpenArg(s, i + 1, k)
  {
    forall k | FirstOpenArg(s, i, k)
      ensures FirstOpenArg(s, i + 1, k)
    {
      assert k != i;
    }
  }

  /** The outcome of the button strategy's page script. */
  datatype Evaluated = Returned(url: Option<string>) | Threw

  /** `input[value*="Assessment Notice"][value*="PDF"]`. */
  predicate IsPdfButton(input: Input) {
    Contains(input.value, "Assessment Notice") && Contains(input.value, "PDF")
  }

  /** `document.querySelector` picks input `k`: the first that is a PDF button. */
  predicate FirstPdfButton(inputs: seq<Input>, k: int) {
    0 <= k < |inputs| && IsPdfButton(inputs[k]) && forall j :: 0 <= j < k ==> !IsPdfButton(inputs[j])
  }

  /**
   * What the script gives once the button is found: reading `onclick.match` of a missing
   * attribute throws; otherwise the `window.open` argument with its spaces encoded, or null.
   */
  function ButtonOutcome(onclick: Option<string>): (r: Evaluated)
    ensures r == Threw <==> onclick.None?
    ensures onclick.Some? && OpenArgFrom(onclick.value, 0).None? ==> r == Returned(None)
    ensures onclick.Some? && OpenArgFrom(onclick.value, 0).Some? ==>
      r == Returned(Some(EncodeSpaces(OpenArgFrom(onclick.value, 0).value)))
    ensures r.Returned? && r.url.Some? ==> r.url.value != [] && ' ' !in r.url.value
  {
    match onclick
    case None => Threw
    case Some(o) =>
      match OpenArgFrom(o, 0)
      case None => Returned(None)
      case Some(arg) =>
        assert |ReplaceAll(arg, ' ', "%20")| >= 1;
        Returned(Some(EncodeSpaces(arg)))
  }

  /**
   * The first input whose value contains "Assessment Notice" and "PDF": its
   * `window.open` argument with spaces encoded. No such input, or no such argument,
   * returns null; an input without `onclick` makes the script throw.
   */
  function ButtonScript(inputs: seq<Input>): (r: Evaluated)
    ensures (forall k :: 0 <= k < |inputs| ==> !IsPdfButton(inputs[k])) ==> r == Returned(None)
    ensures forall k :: FirstPdfButton(inputs, k) ==> r == ButtonOutcome(inputs[k].onclick)
    ensures r.Returned? && r.url.Some? ==> r.url.value != [] && ' ' !in r.url.value
  {
    if inputs == [] then Returned(None)
    else if IsPdfButton(inputs[0]) then ButtonOutcome(inputs[0].onclick)
    else
      ButtonTail(inputs);
      ButtonScript(inputs[1..])
  }

  /** Past a first input that is not the PDF button, the search goes on in the rest. */
  lemma {:induction false} ButtonTail(inputs: seq<Input>)
    requires inputs != [] && !IsPdfButton(inputs[0])
    ensures (forall k :: 0 <= k < |inputs| ==> !IsPdfButton(inputs[k])) ==>
      forall k :: 0 <= k < |inputs[1..]| ==> !IsPdfButton(inputs[1..][k])
    ensures forall k :: FirstPdfButton(inputs, k) ==> FirstPdfButton(inputs[1..], k - 1)
  {
    var tail := inputs[1..];
    assert forall k :: 0 <= k < |tail| ==> tail[k] == inputs[k + 1];
    forall k | FirstPdfButton(inputs, k)
      ensures FirstPdfButton(tail, k - 1)
    {
      assert k != 0;
      forall j | 0 <= j < k - 1
        ensures !IsPdfButton(tail[j])
      {
        assert tail[j] == inputs[j + 1];
      }
    }
  }

  /**
   * The two-strategy outcome for `url`: a truthy direct link is kept; the button script
   * is consulted only when that link is not truthy and the notices page is reached; a
   * script that throws, like a page that is not reached, leaves the direct link's value.
   */
  predicate FoundAssessmentPdf(page: ResultsPage, url: Option<string>) {
    (Truthy(DirectLink(page.anchors)) ==> url == DirectLink(page.anchors)) &&
    (!ReachesNotices(page) ==> url == DirectLink(page.anchors)) &&
    (url != DirectLink(page.anchors) ==>
      !Truthy(DirectLink(page.anchors)) && ReachesNotices(page) &&
      ButtonScript(page.noticeInputs) == Returned(url)) &&
    ((!Truthy(DirectLink(page.anchors)) && ReachesNotices(page)
      && ButtonScript(page.noticeInputs).Returned?) ==> url == ButtonScript(page.noticeInputs).url)
  }

  /**
   * The notices page is reached: the link is there and clicking it does not throw, nor
   * does clicking the header when there is one.
   */
  predicate ReachesNotices(page: ResultsPage) {
    page.hasNoticesLink && !page.noticesNavigationFails && !(page.hasExpandHeader && page.expandFails)
  }

  const NoticesLinkSelector := "a:has-text(\"Assessment Notices\")"
  const ExpandSelector := "text=Assessment Notices"

  /**
   * The clicks of the second strategy: the "Assessment Notices" link when the direct link
   * is not truthy and the link is there, then the header when the first click did not
   * throw and the header is there.
   */
  function NoticeClicks(page: ResultsPage): (r: seq<Action>)
    ensures r == [] <==> Truthy(DirectLink(page.anchors)) || !page.hasNoticesLink
    ensures r != [] ==> |r| <= 2 && r[0] == Click(NoticesLinkSelector)
    ensures |r| == 2 <==> r != [] && !page.noticesNavigationFails && page.hasExpandHeader
    ensures |r| == 2 ==> r[1] == Click(ExpandSelector)
  {
    if Truthy(DirectLink(page.anchors)) || !page.hasNoticesLink then []
    else if page.noticesNavigationFails || !page.hasExpandHeader then [Click(NoticesLinkSelector)]
    else [Click(NoticesLinkSelector), Click(ExpandSelector)]
  }

  /**
   * The assessment-notice URL: the direct anchor first; only when that yields nothing
   * truthy, the "Assessment Notices" page and its PDF button. A failure on the way leaves
   * the URL as the first strategy left it.
   */
  method LocateAssessmentPdf(page: ResultsPage) returns (url: Option<string>, clicks: seq<Action>)
    ensures url.Some? ==> ' ' !in url.value
    ensures FoundAssessmentPdf(page, url)
    ensures clicks == NoticeClicks(page)
  {
    url := DirectLink(page.anchors);
    clicks := [];
    if !Truthy(url) && page.hasNoticesLink {
      clicks := [Click(NoticesLinkSelector)];
      if !page.noticesNavigationFails {
        if page.hasExpandHeader {
          clicks := clicks + [Click(ExpandSelector)];
        }
        if !(page.hasExpandHeader && page.expandFails) {
          var evaluated := ButtonScript(page.noticeInputs);
          if evaluated.Returned? {
            url := evaluated.url;
          }
        }
      }
    }
  }

  // ---------------------------------------------------------------------------
  // The scrape

  /**
   * Where the search inside the `try` throws: at `goto`, while waiting for the address
   * input (before `fill`), at `fill`, at the click on the search button, or after that
   * click (the wait or the read of the page text).
   */
  datatype SearchStep = AtGoto | BeforeFill | AtFill | AtClick | AfterClick

  /**
   * The browser session: whether the browser launches, whether the context, the page and
   * the init script are then set up (both before the `try`), where the search throws, if
   * it does, and the results page it reaches.
   */
  datatype Session = Session(launches: bool, setupSucceeds: bool, searchFailure: Option<SearchStep>, page: ResultsPage)

  /** The browser and its page are ready when the session's `try` is entered. */
  predicate Started(session: Session) {
    session.launches && session.setupSucceeds
  }

  /** The search reaches the results page and reads its text. */
  predicate SearchSucceeds(session: Session) {
    session.searchFailure.None?
  }

  /** The browser actions the scrape performs, in order; one that throws is still listed. */
  datatype Action = Launch | Goto(url: string) | Fill(selector: string, value: string) | Click(selector: string) | Close

  /**
   * The search actions attempted: navigation, filling the address and clicking the
   * search button, up to the one that throws. Modal dismissal is not listed.
   */
  function SearchTrace(config: CountyConfig, address: string, failure: Option<SearchStep>): (r: seq<Action>)
    ensures 1 <= |r| <= 3
    ensures r == [Goto(config.url), Fill(config.addressInput, address), Click(config.searchButton)][..|r|]
    ensures |r| == 1 <==> failure == Some(AtGoto) || failure == Some(BeforeFill)
    ensures |r| == 2 <==> failure == Some(AtFill)
  {
    var all := [Goto(config.url), Fill(config.addressInput, address), Click(config.searchButton)];
    match failure
    case Some(AtGoto) => all[..1]
    case Some(BeforeFill) => all[..1]
    case Some(AtFill) => all[..2]
    case _ => all
  }

  /** What the scrape throws: an unknown county, or a failure while starting the browser. */
  datatype ScrapeError = UnknownCounty(message: string) | StartFailed

  datatype PropertyRecord = PropertyRecord(
    address: string,
    county: string,
    bedrooms: Option<nat>,
    bathrooms: Option<real>,
    sqft: Option<JsInt>,
    homesteadExemption: Option<bool>,
    assessment2025Pdf: Option<string>)

  /**
   * The record built from the results page: the address and county as given, the four
   * fields extracted from the page text, and the URL of the two-strategy search.
   */
  predicate ExtractedFrom(record: PropertyRecord, address: string, county: string, page: ResultsPage) {
    record.address == address && record.county == county &&
    record.bedrooms == Bedrooms(page.text) && record.bathrooms == Bathrooms(page.text) &&
    record.sqft == Sqft(page.text) && record.homesteadExemption == Homestead(page.text) &&
    FoundAssessmentPdf(page, record.assessment2025Pdf)
  }

  /**
   * `scrapeProperty(address, county = 'fulton')`. An unknown county throws before any
   * browser is launched. A failure while launching, or while setting up the context and
   * page, throws too; the latter leaves the launched browser open, since the `finally`
   * that closes it belongs to the later `try`. Once that `try` is entered, a failed search
   * gives a null result after the actions it attempted, and the browser is closed last in
   * every case.
   */
  method ScrapeProperty(address: string, session: Session, county: string := "fulton")
    returns (r: Result<Option<PropertyRecord>, ScrapeError>, actions: seq<Action>)
    ensures LookupCounty(county).Missing? <==> r == Failure(UnknownCounty(UnknownCountyMessage(county)))
    ensures LookupCounty(county).Missing? || !session.launches ==> actions == []
    ensures r == Failure(StartFailed) <==> !LookupCounty(county).Missing? && !Started(session)
    ensures r.Failure? <==> LookupCounty(county).Missing? || !Started(session)
    ensures r == Failure(StartFailed) && session.launches ==> actions == [Launch]
    ensures r.Success? <==> Close in actions
    ensures r.Success? ==> |actions| >= 2 && actions[0] == Launch && actions[|actions| - 1] == Close
    ensures r.Success? && LookupCounty(county).Inherited? ==> r.value.None? && actions == [Launch, Close]
    ensures r.Success? && LookupCounty(county).Configured? ==> actions[1] == Goto(LookupCounty(county).config.url)
    ensures r.Success? && r.value.Some? <==>
      LookupCounty(county).Configured? && Started(session) && SearchSucceeds(session)
    ensures r.Success? && LookupCounty(county).Configured? && !SearchSucceeds(session) ==>
      actions == [Launch] + SearchTrace(LookupCounty(county).config, address, session.searchFailure) + [Close]
    ensures r.Success? && r.value.Some? ==>
      var config := LookupCounty(county).config;
      actions == [Launch, Goto(config.url), Fill(config.addressInput, address), Click(config.searchButton)]
        + NoticeClicks(session.page) + [Close] &&
      ExtractedFrom(r.value.value, address, county, session.page)
  {
    var lookup := LookupCounty(county);
    if lookup.Missing? {
      return Failure(UnknownCounty(UnknownCountyMessage(county))), [];
    }
    r, actions := ScrapeKnownCounty(address, county, lookup, session);
  }

  /** The scrape once the county's entry is found: the browser's start, then the `try`. */
  method ScrapeKnownCounty(address: string, county: string, lookup: Lookup, session: Session)
    returns (r: Result<Option<PropertyRecord>, ScrapeError>, actions: seq<Action>)
    requires !lookup.Missing?
    ensures !session.launches ==> actions == []
    ensures r.Failure? <==> !Started(session)
    ensures r.Failure? ==> r.error == StartFailed
    ensures r == Failure(StartFailed) && session.launches ==> actions == [Launch]
    ensures r.Success? <==> Close in actions
    ensures r.Success? ==> |actions| >= 2 && actions[0] == Launch && actions[|actions| - 1] == Close
    ensures r.Success? && lookup.Inherited? ==> r.value.None? && actions == [Launch, Close]
    ensures r.Success? && lookup.Configured? ==> actions[1] == Goto(lookup.config.url)
    ensures r.Success? && r.value.Some? <==> lookup.Configured? && Started(session) && SearchSucceeds(session)
    ensures r.Success? && lookup.Configured? && !SearchSucceeds(session) ==>
      actions == [Launch] + SearchTrace(lookup.config, address, session.searchFailure) + [Close]
    ensures r.Success? && r.value.Some? ==>
      actions == [Launch, Goto(lookup.config.url), Fill(lookup.config.addressInput, address),
        Click(lookup.config.searchButton)] + NoticeClicks(session.page) + [Close] &&
      ExtractedFrom(r.value.value, address, county, session.page)
  {
    if !session.launches {
      return Failure(StartFailed), [];
    }
    if !session.setupSucceeds {
      // `newContext`, `newPage` or `addInitScript` threw before the `try`: no close.
      return Failure(StartFailed), [Launch];
    }
    if lookup.Inherited? {
      // `page.goto(undefined)` is refused before any navigation, inside the try.
      return Success(None), [Launch, Close];
    }
    var record;
    record, actions := ScrapeConfigured(address, county, lookup.config, session);
    r := Success(record);
  }

  /** A started browser on a configured county: the search and extraction, then the `finally` close. */
  method ScrapeConfigured(address: string, county: string, config: CountyConfig, session: Session)
    returns (record: Option<PropertyRecord>, actions: seq<Action>)
    ensures Close in actions
    ensures |actions| >= 2 && actions[0] == Launch && actions[|actions| - 1] == Close
    ensures actions[1] == Goto(config.url)
    ensures record.Some? <==> SearchSucceeds(session)
    ensures !SearchSucceeds(session) ==> actions == [Launch] + SearchTrace(config, address, session.searchFailure) + [Close]
    ensures record.Some? ==>
      actions == [Launch, Goto(config.url), Fill(config.addressInput, address),
        Click(config.searchButton)] + NoticeClicks(session.page) + [Close] &&
      ExtractedFrom(record.value, address, county, session.page)
  {
    var trace;
    record, trace := SearchAndExtract(address, county, config, session);
    actions := [Launch] + trace + [Close];
    BrowserBracket(trace);
    if record.Some? {
      SearchThenClicks(config, address, NoticeClicks(session.page));
    }
  }

  /** The browser's launch and close bracket the search's own actions. */
  lemma BrowserBracket(trace: seq<Action>)
    requires Close !in trace && trace != []
    ensures var actions := [Launch] + trace + [Close];
      Close in actions && actions[0] == Launch && actions[1] == trace[0] && actions[|actions| - 1] == Close
  {
  }

  /** The launch, then the three search steps and the notice clicks, then the close, as one list. */
  lemma SearchThenClicks(config: CountyConfig, address: string, clicks: seq<Action>)
    ensures [Launch] + ([Goto(config.url), Fill(config.addressInput, address), Click(config.searchButton)] + clicks) + [Close]
      == [Launch, Goto(config.url), Fill(config.addressInput, address), Click(config.searchButton)] + clicks + [Close]
  {
    var search := [Goto(config.url), Fill(config.addressInput, address), Click(config.searchButton)];
    assert [Launch] + (search + clicks) == [Launch] + search + clicks;
    assert [Launch] + search == [Launch, Goto(config.url), Fill(config.addressInput, address), Click(config.searchButton)];
  }

  /**
   * The `try` block for a configured county: the search, then the extraction from the
   * results page; a search that throws leaves no record. Gives the actions attempted.
   */
  method SearchAndExtract(address: string, county: string, config: CountyConfig, session: Session)
    returns (record: Option<PropertyRecord>, trace: seq<Action>)
    ensures Close !in trace
    ensures trace != [] && trace[0] == Goto(config.url)
    ensures record.Some? <==> SearchSucceeds(session)
    ensures record.None? ==> trace == SearchTrace(config, address, session.searchFailure)
    ensures record.Some? ==>
      trace == [Goto(config.url), Fill(config.addressInput, address), Click(config.searchButton)]
        + NoticeClicks(session.page) &&
      ExtractedFrom(record.value, address, county, session.page)
  {
    var search := SearchTrace(config, address, session.searchFailure);
    assert Close !in search && search[0] == Goto(config.url);
    if session.searchFailure.Some? {
      return None, search;
    }
    var text := session.page.text;
    var pdf, clicks := LocateAssessmentPdf(session.page);
    record := Some(PropertyRecord(address, county, Bedrooms(text), Bathrooms(text), Sqft(text), Homestead(text), pdf));
    assert Close !in clicks;
    trace := search + clicks;
  }

  /** Without a county argument the Fulton entry is used. */
  method ScrapeDefaultCounty(address: string, session: Session)
    returns (r: Result<Option<PropertyRecord>, ScrapeError>, actions: seq<Action>)
    requires Started(session)
    ensures r.Success? && (r.value.Some? <==> SearchSucceeds(session))
    ensures r.value.Some? ==> r.value.value.county == "fulton"
    ensures |actions| >= 2 && actions[1] == Goto(FultonConfig.url)
  {
    assert LowerStr("fulton") == "fulton";
    assert LookupCounty("fulton") == Configured(FultonConfig);
    r, actions := ScrapeProperty(address, session);
  }

  // ---------------------------------------------------------------------------
  // Properties

  /** The lookup ignores case: "Fulton", "FULTON" and "fulton" name the same entry. */
  lemma {:induction false} LookupIgnoresCase(a: string, b: string)
    requires LowerStr(a) == LowerStr(b)
    ensures LookupCounty(a) == LookupCounty(b)
  {
  }

  /** Removing the first `c` from `d + [c] + rest`, when `d` has none, glues `rest` onto `d`. */
  lemma {:induction false} RemoveFirstAfter(d: string, c: char, rest: string)
    requires c !in d
    ensures RemoveFirst(d + [c] + rest, c) == d + rest
  {
    RemoveFirstPast(d, [c] + rest, c);
    assert d + [c] + rest == d + ([c] + rest);
  }

  /** A digit run followed by a comma: removing the first comma glues on the next run. */
  lemma {:induction false} RemoveFirstAfterDigits(d: string, rest: string)
    requires AllDigits(d)
    ensures RemoveFirst(d + "," + rest, ',') == d + rest
  {
    assert ',' !in d by {
      assert forall i :: 0 <= i < |d| ==> d[i] != ',';
    }
    RemoveFirstAfter(d, ',', rest);
  }

  /** "1,234" reads as 1234: with one comma the whole number survives. */
  lemma {:induction false} SqftOneComma(a: string, b: string)
    requires a != [] && AllDigits(a) && AllDigits(b)
    ensures SqftOf(a + "," + b) == Int(DigitsValue(a + b))
  {
    RemoveFirstAfterDigits(a, b);
    assert AllDigits(a + b);
    assert a + b == (a + b) + [];
    ParseIntOfDigitsThen(a + b, []);
  }

  /**
   * "1,234,567" reads as 1234: only the first comma is removed, so parsing stops at the
   * second one.
   */
  lemma {:induction false} SqftStopsAtSecondComma(a: string, b: string, c: string)
    requires a != [] && AllDigits(a) && AllDigits(b)
    ensures SqftOf(a + "," + b + "," + c) == Int(DigitsValue(a + b))
  {
    RemoveFirstAfterDigits(a, b + "," + c);
    assert a + "," + b + "," + c == a + "," + (b + "," + c);
    assert a + (b + "," + c) == (a + b) + ("," + c);
    assert AllDigits(a + b);
    ParseIntOfDigitsThen(a + b, "," + c);
  }

  /** A capture that is only a comma reads as NaN. */
  lemma {:induction false} SqftOfLoneComma()
    ensures SqftOf(",") == NaN
  {
    assert RemoveFirst(",", ',') == [];
    assert LeadingDigits([]) == [];
  }

  // ---------------------------------------------------------------------------
  // Examples

  /** "Bedrooms: 3" gives 3 bedrooms. */
  lemma {:induction false} BedroomsExample()
    ensures Bedrooms("Bedrooms: 3") == Some(3)
  {
    var t := "Bedrooms: 3";
    assert WordAt(t, 0, "bedroom");
    assert LabelEnd(t, 0, ["bedroom"]) == Some(7);
    assert RunEnd(t, 11, Digit) == 11;
    assert RunEnd(t, 10, Digit) == 11;
    assert RunEnd(t, 8, SpaceOrColon) == 10;
    assert t[10..11] == "3";
    assert ValueAt(t, 10, Digits) == Some(["3"]);
    assert TailAt(t, 8, BedroomPattern) == Some(["3"]);
    assert Lower(t[7]) == 's';
    assert MatchWith(t, 0, BedroomPattern, [["bedroom"]]) == Some(["3"]);
    assert DigitsValue("3") == 3;
  }

  const CombinedExample := "Full Bath/Half Bath 3/1"

  /** "Full Bath/Half Bath 3/1" gives 3.5 bathrooms. */
  lemma {:induction false} CombinedBathExample()
    ensures Bathrooms(CombinedExample) == Some(3.5)
  {
    CombinedExampleLabel();
    CombinedExampleValue();
    assert MatchAt(CombinedExample, 0, CombinedBathPattern) == Some(["3", "1"]);
    assert Find(CombinedExample, CombinedBathPattern) == Some(Match(0, ["3", "1"]));
    assert DigitsValue("3") == 3 && DigitsValue("1") == 1;
    assert FullPlusHalf(3, 1) == 3.5;
  }

  lemma {:induction false} CombinedExampleLabel()
    ensures LabelEnd(CombinedExample, 0, ["full", "bath/half", "bath"]) == Some(19)
  {
    CombinedExampleStart();
    CombinedExampleLabelTail();
  }

  lemma {:induction false} CombinedExampleStart()
    ensures WordAt(CombinedExample, 0, "full") && RunEnd(CombinedExample, 4, Space) == 5
  {
    var t, w := CombinedExample, "full";
    assert Lower(t[0]) == w[0] && Lower(t[1]) == w[1] && Lower(t[2]) == w[2] && Lower(t[3]) == w[3];
    assert t[4] == ' ' && t[5] == 'B';
  }

  lemma {:induction false} CombinedExampleLabelTail()
    ensures LabelEnd(CombinedExample, 5, ["bath/half", "bath"]) == Some(19)
  {
    var t, ws := CombinedExample, ["bath/half", "bath"];
    CombinedExampleWords();
    assert ws[1..] == ["bath"];
  }

  /** The label words of the combined example, and the single space between them. */
  lemma {:induction false} CombinedExampleWords()
    ensures WordAt(CombinedExample, 5, "bath/half")
    ensures RunEnd(CombinedExample, 14, Space) == 15
    ensures WordAt(CombinedExample, 15, "bath")
  {
    CombinedExampleFirstWord();
    CombinedExampleSecondWord();
    var t := CombinedExample;
    assert t[14] == ' ' && t[15] == 'B';
  }

  lemma {:induction false} CombinedExampleFirstWord()
    ensures WordAt(CombinedExample, 5, "bath/half")
  {
    var t := CombinedExample;
    var w := "bath/half";
    assert Lower(t[5]) == w[0] && Lower(t[6]) == w[1] && Lower(t[7]) == w[2];
    assert Lower(t[8]) == w[3] && Lower(t[9]) == w[4] && Lower(t[10]) == w[5];
    assert Lower(t[11]) == w[6] && Lower(t[12]) == w[7] && Lower(t[13]) == w[8];
  }

  lemma {:induction false} CombinedExampleSecondWord()
    ensures WordAt(CombinedExample, 15, "bath")
  {
    var t := CombinedExample;
    assert t[15..19] == "Bath";
    WordAtOfSlice(t, 15, "bath");
  }

  /** A word is at `i` when the text there lower-cases to it. */
  lemma {:induction false} WordAtOfSlice(text: string, i: nat, w: string)
    requires i + |w| <= |text| && LowerStr(text[i..i + |w|]) == w
    ensures WordAt(text, i, w)
  {
    forall k | 0 <= k < |w|
      ensures Lower(text[i + k]) == w[k]
    {
      assert text[i..i + |w|][k] == text[i + k];
    }
  }

  lemma {:induction false} CombinedExampleValue()
    ensures TailAt(CombinedExample, 19, CombinedBathPattern) == Some(["3", "1"])
  {
    var t := CombinedExample;
    assert RunEnd(t, 19, Space) == 20;
    assert RunEnd(t, 20, Digit) == 21;
    assert RunEnd(t, 22, Digit) == 23;
    assert t[20..21] == "3" && t[22..23] == "1";
    assert ValueAt(t, 20, DigitPair(false)) == Some(["3", "1"]);
  }
}
