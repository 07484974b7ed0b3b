/**
 * The older, Fulton-only scraper: one fixed search URL, bathrooms from the simple
 * patterns only, and square footage from "Res Sq Ft" then "Heated Sq Ft/Area". It shares
 * the patterns (and the bedroom extraction) with the multi-county scraper.
 */
module FultonScraper {
  import opened Wrappers
  import opened JsText
  import opened PageScan
  import opened CountyScraper

  const FultonSearchUrl := "https://qpublic.schneidercorp.com/Application.aspx?AppID=936&LayerID=18251&PageTypeID=2&PageID=8154"
  const AddressInput := "#ctlBodyPane_ctl01_ctl01_txtAddress"
  const SearchButton := "#ctlBodyPane_ctl01_ctl01_btnSearch"

  datatype FultonRecord = FultonRecord(
    address: string,
    bedrooms: Option<nat>,
    bathrooms: Option<nat>,
    sqft: Option<JsInt>)

  /** Square footage from "Res Sq Ft", else "Heated Sq Ft" / "Heated Area"; no GrossSqft. */
  function FultonSqft(text: string): (r: Option<JsInt>)
    ensures r.None? <==> Find(text, ResSqFtPattern).None? && Find(text, HeatedPattern).None?
    ensures Find(text, ResSqFtPattern).Some? ==>
      r == Some(SqftOf(Find(text, ResSqFtPattern).value.groups[0]))
    ensures Find(text, ResSqFtPattern).None? && Find(text, HeatedPattern).Some? ==>
      r == Some(SqftOf(Find(text, HeatedPattern).value.groups[0]))
  {
    match Find(text, ResSqFtPattern)
    case Some(m) => Some(SqftOf(m.groups[0]))
    case None =>
      match Find(text, HeatedPattern)
      case Some(m) => Some(SqftOf(m.groups[0]))
      case None => None
  }

  /** The fixed search target. */
  const FultonTarget := CountyConfig(FultonSearchUrl, AddressInput, SearchButton)

  /**
   * `scrapeProperty(address)`: a failure while launching or setting up throws, leaving a
   * launched browser open; a failed search inside the `try` gives a null result after the
   * actions it attempted, and the browser is closed last.
   */
  method ScrapeFulton(address: string, session: Session)
    returns (r: Result<Option<FultonRecord>, ScrapeError>, actions: seq<Action>)
    ensures r.Failure? <==> !Started(session)
    ensures r.Failure? ==> r.error == StartFailed && actions == (if session.launches then [Launch] else [])
    ensures r.Success? <==> Close in actions
    ensures r.Success? ==>
      |actions| >= 2 && actions[0] == Launch && actions[1] == Goto(FultonSearchUrl) &&
      actions[|actions| - 1] == Close
    ensures r.Success? ==> (r.value.Some? <==> SearchSucceeds(session))
    ensures r.Success? ==> actions == [Launch] + SearchTrace(FultonTarget, address, session.searchFailure) + [Close]
    ensures r.Success? && r.value.Some? ==>
      var text := session.page.text;
      actions == [Launch, Goto(FultonSearchUrl), Fill(AddressInput, address), Click(SearchButton), Close] &&
      r.value.value == FultonRecord(address, Bedrooms(text), SimpleBathrooms(text), FultonSqft(text))
  {
    if !session.launches {
      return Failure(StartFailed), [];
    }
    if !session.setupSucceeds {
      return Failure(StartFailed), [Launch];
    }
    actions := [Launch] + SearchTrace(FultonTarget, address, session.searchFailure) + [Close];
    FultonActions(address, session.searchFailure);
    if session.searchFailure.Some? {
      return Success(None), actions;
    }
    var text := session.page.text;
    r := Success(Some(FultonRecord(address, Bedrooms(text), SimpleBathrooms(text), FultonSqft(text))));
  }

  /** The launch and close bracket the search steps, which open on the Fulton search page. */
  lemma FultonActions(address: string, failure: Option<SearchStep>)
    ensures var actions := [Launch] + SearchTrace(FultonTarget, address, failure) + [Close];
      |actions| >= 2 && actions[0] == Launch && actions[1] == Goto(FultonSearchUrl) &&
      actions[|actions| - 1] == Close && Close in actions &&
      (failure.None? ==> actions == [Launch, Goto(FultonSearchUrl), Fill(AddressInput, address), Click(SearchButton), Close])
  {
    var search := SearchTrace(FultonTarget, address, failure);
    assert search[0] == Goto(FultonSearchUrl) && Close !in search;
    if failure.None? {
      assert search == [Goto(FultonSearchUrl), Fill(AddressInput, address), Click(SearchButton)];
    }
  }

  // ---------------------------------------------------------------------------
  // Agreement with the multi-county scraper

  /** The fixed URL and selectors are the multi-county table's Fulton entry. */
  lemma {:induction false} SameFultonTarget()
    ensures LookupCounty("Fulton") == Configured(FultonTarget)
  {
    assert LowerStr("Fulton") == "fulton";
  }

  /** Without a combined "Full Bath/Half Bath" entry both scrapers read the same count. */
  lemma {:induction false} SameSimpleBathrooms(text: string)
    requires Find(text, CombinedBathPattern).None?
    ensures Bathrooms(text) == (match SimpleBathrooms(text) case Some(n) => Some(n as real) case None => None)
  {
  }

  /** Without a GrossSqft entry both scrapers read the same square footage. */
  lemma {:induction false} SameSqftWithoutGross(text: string)
    requires Find(text, GrossSqftPattern).None?
    ensures FultonSqft(text) == Sqft(text)
  {
  }
}
