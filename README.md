# Property-data back end, modelled in Dafny

This project models the core of a small real-estate back end for Georgia counties. It verifies the model with Dafny 4.11. Nine source files are modelled:

- **Page scrapers.**
  - The multi-county qPublic scraper (`scripts/county-scraper.js`) looks a county up in its configuration table. It reads bedrooms, bathrooms, square footage and the homestead flag from the results page's visible text with first-match-wins pattern chains, and it looks for the 2025 assessment-notice PDF with a two-strategy cascade.
  - The older Fulton-only scraper (`scripts/fulton-scraper.js`) runs the same kind of chains with fewer patterns.
- **Property-details batch scraper** (`scripts/scrapePropertyDetails.js`): the parcel URL, the normalisers `parseBathrooms` and `parseIntOrNull`, and the main loop. That loop sorts every fetched row into exactly one of three counters and writes only the successes.
- **Address parser** (`src/scrapers/address-parser.js`): what `parseAddress` does with a geocoder answer. It finds the county, builds the clean street address and checks it against the supported list. `parseAddressForScraping` is modelled too.
- **Sales importer** (`scripts/importSales.js`): the per-county column mappings and price parsing. Also the rule for whether a sale is a valid comparable, keep-last deduplication of spreadsheet rows by parcel and sale date, and batched inserts of at most 100 rows with consecutive `$k` placeholders.
- **Property controller** (`src/controllers/propertyController.js`): the request handlers over the in-memory `Map` of properties, with 400/403/404 outcomes.
- **Mock SQL pools** (`tests/utils/mockDatabase.ts` and `tests/utils/mockDatabase.js`): the statement dispatch of `query` over the `Map`-backed table. The TypeScript pool also keeps a per-property assessment table.
- **Environment validator** (`src/config/env.js`): `validateEnv` collects every problem with the environment and throws them together. Otherwise it returns the configuration with its defaults.

## Layout

Shared modules:

| file | module | what it models |
|---|---|---|
| `wrappers.dfy` | `Wrappers` | `Option` and `Result` |
| `js_text.dfy` | `JsText` | the string and number built-ins the scripts use: the `\s` set, `trim`, ASCII case mapping, the `replace` forms, `parseInt`, `parseFloat` |
| `js_value.dfy` | `JsValues` | dynamically typed field values, truthiness, `===` and the `or` operator |
| `insertion_order.dfy` | `InsertionOrder` | the key order of a JavaScript `Map` |
| `uri_component.dfy` | `UriComponent` | `encodeURIComponent` and `decodeURIComponent` of ECMA-262 (section 19.2.6), over UTF-8 |
| `page_scan.dfy` | `PageScan` | the label-then-value patterns, with the leftmost-match semantics of `String.prototype.match` |

One module per source file:

| file | module | source |
|---|---|---|
| `county_scraper.dfy` | `CountyScraper` | `scripts/county-scraper.js` |
| `fulton_scraper.dfy` | `FultonScraper` | `scripts/fulton-scraper.js` |
| `property_details.dfy` | `PropertyDetails` | `scripts/scrapePropertyDetails.js` |
| `address_parser.dfy` | `AddressParser` | `src/scrapers/address-parser.js` |
| `import_sales.dfy` | `ImportSales` | `scripts/importSales.js` |
| `property_controller.dfy` | `PropertyController` | `src/controllers/propertyController.js` |
| `mock_rows.dfy` | `MockRows` | behaviour shared by both mock pools |
| `mock_database.dfy` | `MockDatabase` | `tests/utils/mockDatabase.ts` |
| `mock_database_legacy.dfy` | `LegacyMockDatabase` | `tests/utils/mockDatabase.js` |
| `env_config.dfy` | `EnvConfig` | `src/config/env.js` |

Imperative code is modelled imperatively; everything else is modelled as functions:

- **Classes.** State the source updates in place is a class with `modifies` clauses: the controller's `Map` is `PropertyStore`, and each pool's `mockData` is a `MockPool`.
- **Methods with loops.** The source's loops are methods with invariants: the details loop, the batch loop, the missing-variable loop and the placeholder loop.
- **Specification functions.** Each method is proved against a function, and the properties are lemmas about those functions.
- **Oracles.** The outside world becomes parameters:
  - the browser session and page contents;
  - the geocoder answer;
  - `new Date(…)` and the clock;
  - fresh ids;
  - whether each database insert succeeds;
  - `String(n)` of a number cell;
  - whether the part of a URL after its scheme parses.

Numbers are exact: `int` and `real`, with NaN and the infinities as explicit cases.

## Model

| member | source | states |
|---|---|---|
| CountyScraper.LookupCounty | scripts/county-scraper.js:3-25 | the table is indexed by the lower-cased county: one of fulton/gwinnett/cobb gives its entry; the two inherited object members are truthy but have no entry; anything else is missing |
| CountyScraper.LookupIgnoresCase | scripts/county-scraper.js:22 | two names that lower-case alike look up the same entry |
| CountyScraper.DigitsInt | scripts/county-scraper.js:72-73 | `parseInt` of a captured digit run is never NaN and is the run's decimal value |
| CountyScraper.Bedrooms | scripts/county-scraper.js:66 | null exactly when the Bedroom(s) pattern matches nowhere; otherwise `parseInt` of the leftmost match's digits |
| CountyScraper.SimpleBathrooms | scripts/county-scraper.js:76-77 | the count after "Full Bath(s)" when that matches anywhere, else after "Bath(s)", else null |
| CountyScraper.Bathrooms | scripts/county-scraper.js:69-78 | a "Full Bath/Half Bath N/M" match gives N + M/2 and the simple patterns are not consulted; otherwise the simple count |
| CountyScraper.FullPlusHalf | scripts/county-scraper.js:74 | twice the result is 2·full + half, exactly |
| CountyScraper.BathroomsInHalves | scripts/county-scraper.js:69-78 | a bathroom count is always a whole number of half-baths |
| CountyScraper.Sqft | scripts/county-scraper.js:80-82 | null exactly when none of Res Sq Ft, GrossSqft, Heated Sq Ft/Area matches; otherwise the first of them in that order, with only its first comma removed (converted at line 142) |
| CountyScraper.SqftOneComma | scripts/county-scraper.js:142 | "1,234" style captures read as the digits without the comma |
| CountyScraper.SqftStopsAtSecondComma | scripts/county-scraper.js:142 | with a second comma only the digits before it survive, since `replace(',', '')` removes one comma |
| CountyScraper.SqftOfLoneComma | scripts/county-scraper.js:142 | a capture that is just "," reads as NaN, not null |
| CountyScraper.RemoveFirstAfterDigits | scripts/county-scraper.js:142 | removing the first comma after a digit run glues on what follows |
| CountyScraper.Homestead | scripts/county-scraper.js:85-91 | null exactly when neither pattern matches; "Homestead Exemption Yes/No" is tried first, then "Homestead Y/N"; yes/y give true and no/n false, in any case |
| CountyScraper.EncodeSpaces | scripts/county-scraper.js:100 | the result contains no space, and a text without spaces is unchanged |
| CountyScraper.EncodeSpacesConcat | scripts/county-scraper.js:100 | the `/ /g` rewrite works piece by piece: encoding a concatenation encodes each part (likewise line 126) |
| CountyScraper.EncodeSpacesOfChar | scripts/county-scraper.js:100 | a space becomes `%20` and every other character is kept; with the previous row this fixes the result of every text (likewise line 126) |
| CountyScraper.DirectLink | scripts/county-scraper.js:97-103 | a link is found exactly when some anchor's href attribute contains both "assessmentnotice" and "2025"; the URL is then the first such anchor's resolved href with every space encoded as `%20`, and contains no space |
| CountyScraper.OpenArgAt | scripts/county-scraper.js:124 | a found argument is non-empty, has no quote, and `window.open('arg'` occurs at that position |
| CountyScraper.OpenArgFrom | scripts/county-scraper.js:124 | null exactly when no position from the start on has a `window.open('…'` argument; otherwise the argument at the leftmost position that has one |
| CountyScraper.ButtonScript | scripts/county-scraper.js:120-130 | no input whose value holds "Assessment Notice" and "PDF" gives null; otherwise the outcome is that of the first such input; a returned URL is non-empty and contains no space |
| CountyScraper.ButtonOutcome | scripts/county-scraper.js:122-128 | the script throws exactly when the button has no `onclick`; otherwise the leftmost `window.open('…'` argument with its spaces encoded, or null when there is none |
| CountyScraper.LocateAssessmentPdf | scripts/county-scraper.js:94-135 | a truthy direct link is kept; the button strategy runs only when the link is not truthy and the notices page is reached, and then its returned value is the URL; a script that throws, like a page not reached, keeps what the first strategy gave; a URL never contains a space; the clicks made are exactly those of `NoticeClicks` |
| CountyScraper.NoticeClicks | scripts/county-scraper.js:105-116 | no click when the direct link is truthy or the page has no "Assessment Notices" link; otherwise that link is clicked first, and the expand header second exactly when the navigation succeeded and the header is present; nothing else is clicked |
| CountyScraper.SearchTrace | scripts/county-scraper.js:44-60 | the search's actions up to and including the one that throws: always the goto; then the fill unless the goto or the wait for the address input failed; then the click unless the fill failed; always a prefix of goto, fill, click |
| CountyScraper.ScrapeProperty | scripts/county-scraper.js:21-157 | an unknown county throws before any browser action; a failed launch throws with no action; a failure while setting up context, page or init script throws after the launch and never closes the browser; after that, a failed search gives null and a result echoes address and county with the four extracted fields and the PDF URL the two-strategy cascade gives; the browser is closed exactly when no error is thrown, and then last; it throws exactly for an unknown county or a browser that does not start; the actions are the launch, the search steps up to the one that throws, the notice clicks when the search succeeded, then the close |
| CountyScraper.ScrapeKnownCounty | scripts/county-scraper.js:27-157 | for a county with a table entry: the same launch, set-up, search and close outcomes as the row above; an inherited member gives null after a launch and a close |
| CountyScraper.ScrapeConfigured | scripts/county-scraper.js:43-157 | with the browser started on a configured county: the launch and close bracket the search steps, a failed search gives null after the steps it attempted, and a result comes with the goto, fill, click and notice clicks |
| CountyScraper.SearchAndExtract | scripts/county-scraper.js:43-145 | a record exactly when the search succeeds, holding the address, the county, the four extracted fields and the cascade's PDF URL; the recorded actions are the search steps attempted, starting with the goto to the entry's URL, followed on success by the notice clicks, and never a close |
| CountyScraper.ScrapeDefaultCounty | scripts/county-scraper.js:21-30 | called without a county on a started browser, the scrape uses the Fulton entry: it does not throw, gives a record exactly when the search succeeds, the record names "fulton", and the Fulton search page is the first page visited |
| CountyScraper.BedroomsExample | scripts/county-scraper.js:66 | "Bedrooms: 3" gives 3 |
| CountyScraper.CombinedBathExample | scripts/county-scraper.js:69-74 | "Full Bath/Half Bath 3/1" gives 3.5 |
| FultonScraper.FultonSqft | scripts/fulton-scraper.js:48-55 | null exactly when neither Res Sq Ft nor Heated matches; GrossSqft is never tried |
| FultonScraper.ScrapeFulton | scripts/fulton-scraper.js:5-68 | a failure to launch or to set up context, page or init script throws, after a launch never followed by a close; otherwise the fixed Fulton URL is visited, a failed search gives null, a result holds the address, the bedrooms, the simple bath count and the square footage, and the browser is closed last; the actions are the launch, the search steps up to the one that throws, then the close |
| FultonScraper.FultonActions | scripts/fulton-scraper.js:22-67 | the launch and close bracket the search steps, which start at the fixed Fulton URL; a full search is goto, fill, click |
| FultonScraper.SameFultonTarget | scripts/fulton-scraper.js:3-40 | the fixed URL and selectors are the multi-county table's Fulton entry |
| FultonScraper.SameSimpleBathrooms | scripts/fulton-scraper.js:47-54 | without a combined half-bath entry the two scrapers read the same bath count |
| FultonScraper.SameSqftWithoutGross | scripts/fulton-scraper.js:48-49 | without a GrossSqft entry the two scrapers read the same square footage |
| PropertyDetails.BuildUrl | scripts/scrapePropertyDetails.js:22-25 | the URL is the fixed prefix plus a `KeyValue` that decodes back to the parcel id exactly |
| PropertyDetails.BuildUrlInjective | scripts/scrapePropertyDetails.js:22-25 | different parcels get different URLs |
| PropertyDetails.IntOrZeroOfDigits | scripts/scrapePropertyDetails.js:34-35 | `parseInt(g)`, or 0 when that is falsy, of a captured digit run is the run's value |
| PropertyDetails.ParseBathrooms | scripts/scrapePropertyDetails.js:30-41 | never NaN; null for a missing or empty text; an N/M pair gives N + M/2; otherwise the `parseFloat` value, or null when that is NaN |
| PropertyDetails.ParseBathroomsPair | scripts/scrapePropertyDetails.js:32-36 | "N/M" with any spaces around the slash gives N + M/2 |
| PropertyDetails.NormalisersOfNothing | scripts/scrapePropertyDetails.js:30-31 | both normalisers give null for a missing or empty text (likewise line 47) |
| PropertyDetails.ParseIntOrNullIgnoresCommas | scripts/scrapePropertyDetails.js:46-50 | `parseIntOrNull` reads a text as it reads the text without its commas |
| PropertyDetails.ParseIntOrNullGrouped | scripts/scrapePropertyDetails.js:48 | "a,b,c" of digit groups reads as the digits of a, b and c together |
| PropertyDetails.ParseIntOrNullOfNonNumeric | scripts/scrapePropertyDetails.js:46-50 | a text that, without its commas, its leading white space and its sign, does not start with a digit reads as null |
| PropertyDetails.NotApplicableIsNull | scripts/scrapePropertyDetails.js:46-50 | "N/A" reads as null |
| PropertyDetails.GroupedNumbersDisagree | scripts/scrapePropertyDetails.js:48 | "1,234,567" is 1234567 to `parseIntOrNull` but 1234 to the county scraper, which removes only the first comma (likewise line 142 of `scripts/county-scraper.js`) |
| PropertyDetails.Convert | scripts/scrapePropertyDetails.js:110-117 | bedrooms, year built, stories and square feet go through `parseIntOrNull`, bathrooms through `parseBathrooms`; `style` is kept exactly when it is a non-empty text |
| PropertyDetails.Fetched | scripts/scrapePropertyDetails.js:127-138 | a prefix of the candidates: at most 20 in test mode, all of them otherwise (the limit is chosen at line 171) |
| PropertyDetails.Results | scripts/scrapePropertyDetails.js:191-195 | one scrape result per row |
| PropertyDetails.ResultAt | scripts/scrapePropertyDetails.js:195 | the i-th result is the scrape of the i-th row's parcel |
| PropertyDetails.Count | scripts/scrapePropertyDetails.js:187-210 | a counter never exceeds the number of results |
| PropertyDetails.CountsPartition | scripts/scrapePropertyDetails.js:197-210 | success + noData + failed equals the number of results |
| PropertyDetails.SuccessUpdates | scripts/scrapePropertyDetails.js:197-203 | one write per success, each with non-null bedrooms |
| PropertyDetails.Successes | scripts/scrapePropertyDetails.js:187-203 | the positions of the successful results: each is a success, they increase strictly, and every success is among them |
| PropertyDetails.SuccessUpdatesInOrder | scripts/scrapePropertyDetails.js:187-203 | the k-th `updateProperty` call is the k-th successful row's id with that row's scraped details, so the calls follow the row order |
| PropertyDetails.Tallied | scripts/scrapePropertyDetails.js:187-210 | the three counters add up to the number of results |
| PropertyDetails.RunScraper | scripts/scrapePropertyDetails.js:160-226 | the counters are the tally of the fetched rows' results; test mode writes nothing and handles at most 20 rows; otherwise the k-th `updateProperty` call is the k-th successful row's id with its details; one delay between consecutive rows; the browser starts only when there are rows |
| PropertyDetails.ScrapeRows | scripts/scrapePropertyDetails.js:187-216 | the loop's counters, writes and delays equal the tally, the success writes and one less than the row count |
| UriComponent.Encode | scripts/scrapePropertyDetails.js:23 | the encoding holds only unescaped characters and `%` (likewise line 23 of `src/scrapers/address-parser.js`) |
| UriComponent.DecodeEncode | scripts/scrapePropertyDetails.js:23 | decoding the encoding of any string gives the string back (likewise line 23 of `src/scrapers/address-parser.js`) |
| UriComponent.EncodeHasNoSpace | scripts/scrapePropertyDetails.js:23 | the encoding never contains a space |
| AddressParser.GeocodeUrl | src/scrapers/address-parser.js:23-24 | the request URL is the fixed prefix, the percent-encoded address and the key, and the address decodes back exactly |
| AddressParser.GeocodeUrlInjective | src/scrapers/address-parser.js:23-24 | with one key, different addresses make different requests |
| AddressParser.FindComponent | src/scrapers/address-parser.js:38-42 | the first component whose types include the kind; none only when no component has it |
| AddressParser.StripCountySuffixIsLeftmostMatch | src/scrapers/address-parser.js:47 | the cut is where the leftmost match of `\s*County$` starts, or there is no cut when nothing matches |
| AddressParser.CountyName | src/scrapers/address-parser.js:47 | the county name is the component's name up to the leftmost `\s*County$` match, each character lower-cased: as long as that cut, with no upper-case ASCII letter |
| AddressParser.StripDirection | src/scrapers/address-parser.js:56 | the result is a prefix of the street address |
| AddressParser.StripDirectionIsLeftmostMatch | src/scrapers/address-parser.js:56 | the cut is where the leftmost match of the trailing-direction pattern (spaces, then one of N, S, E, W, NE, NW, SE, SW in any case, at the end) starts, or there is no cut when nothing matches |
| AddressParser.StripsOneDirection | src/scrapers/address-parser.js:56 | a name, one space and a direction token lose exactly the space and the token |
| AddressParser.StreetAddress | src/scrapers/address-parser.js:53-56 | the street address is a prefix of the trimmed "number route" text that does not start with white space; it is cut where the leftmost trailing-direction match starts, and uncut only when no position matches |
| AddressParser.IsSupported | src/scrapers/address-parser.js:61 | supported exactly when the county is non-null and one of the eleven names (the names are lines 7-10) |
| AddressParser.ParsedFrom | src/scrapers/address-parser.js:33-63 | fails only when the county component has no long name; otherwise the street address built from the first street_number's long name and the first route's short name ('' when missing), the county and its support flag |
| AddressParser.ParseAddress | src/scrapers/address-parser.js:18-64 | a missing key throws before any request; an answer with a status other than OK, or with no results, throws "Geocoding failed"; otherwise the first result is parsed |
| AddressParser.ParseAddressForScraping | src/scrapers/address-parser.js:73-88 | throws exactly when parsing throws or the county is unsupported, naming the county or 'unknown'; otherwise the street address and county unchanged |
| AddressParser.WeycroftExample | src/scrapers/address-parser.js:53-56 | number "2517" and route "Weycroft Cir NE" give "2517 Weycroft Cir" |
| AddressParser.OnlyOneDirectionExample | src/scrapers/address-parser.js:56 | "A N N" loses only its last token |
| AddressParser.GwinnettExample | src/scrapers/address-parser.js:47 | "Gwinnett County" gives "gwinnett" |
| ImportSales.MappingFor | scripts/importSales.js:102-108 | Fulton and Cobb have column mappings; an inherited object member is a mapping without columns; any other county has none (the table is lines 57-76) |
| ImportSales.ValueIn | scripts/importSales.js:107-108 | the cell under the field's column, or null when the mapping has no column for the field |
| ImportSales.GetValue | scripts/importSales.js:102-109 | throws exactly for a county without a mapping; otherwise the mapped cell or null |
| ImportSales.CobbHasNoYearBuilt | scripts/importSales.js:68-75 | Cobb's `year_built` is null whatever the row holds (read through lines 102-108) |
| ImportSales.UnknownCountyFails | scripts/importSales.js:103-106 | a county outside the table makes every read throw |
| ImportSales.ParsePrice | scripts/importSales.js:35-40 | never NaN; null for a falsy input; otherwise null exactly when the text without `$` and `,` parses as NaN |
| ImportSales.PriceExampleValue | scripts/importSales.js:32-40 | "$45,000.00" is 45000 |
| ImportSales.ParseDollarAmount | scripts/importSales.js:37-38 | a "$w,f" amount reads as its decimal value with the dollar sign and comma gone |
| ImportSales.IsValidComp | scripts/importSales.js:81-97 | Fulton: exactly when "Qualified Sales" is "Qualified" and "Sales Validity" is "Valid Sale", whatever the price; any other county: exactly when the price is non-null and above 1000 |
| ImportSales.Fields | scripts/importSales.js:151-163 | a prepared row is eleven query parameters |
| ImportSales.TrimmedOrNull | scripts/importSales.js:162 | a number cell throws (it has no `trim`); a text with non-blank content gives its trimmed text; a missing, null or blank cell gives null |
| ImportSales.IntOrNull | scripts/importSales.js:159-160 | null exactly when the cell is falsy; otherwise `parseInt` of its string form |
| ImportSales.Prepare | scripts/importSales.js:144-163 | the stored row holds the parcel, the address, the sale date, the county and state, the parsed price, the validity rule's verdict, the square feet and year built through `IntOrNull`, the acreage when truthy else null, and the trimmed-or-null property class; preparing fails exactly when the property class is a number |
| ImportSales.ParseDate | scripts/importSales.js:47-51 | a falsy value is no date |
| ImportSales.Upsert | scripts/importSales.js:145-163 | a key's last row wins; a new key goes last and an existing key keeps its place |
| ImportSales.UpsertKeepsValid | scripts/importSales.js:151 | the map stays well formed: each key once, the same keys in both parts |
| ImportSales.ValidRows | scripts/importSales.js:166 | the rows in key insertion order, one per distinct key |
| ImportSales.ScanBounds | scripts/importSales.js:134-167 | after any prefix of the rows the map is well formed and skipped + distinct keys never exceed the rows read, so dupes is never negative |
| ImportSales.UndatedRowSkipped | scripts/importSales.js:138-142 | a row without a usable date is counted as skipped and changes nothing else |
| ImportSales.InheritedSkipsAll | scripts/importSales.js:137-142 | under an inherited member every row is skipped (the mapping is looked up at lines 103-108) |
| ImportSales.ScanFailureSticks | scripts/importSales.js:137-164 | the first row that throws decides the scan's error |
| ImportSales.Placeholders | scripts/importSales.js:184-185 | row idx gets `$(11·idx+1)` to `$(11·idx+11)` |
| ImportSales.BuildBatch | scripts/importSales.js:181-187 | one placeholder group per row; 11 parameters per row; column j of row idx is parameter 11·idx+j |
| ImportSales.AllFieldsAt | scripts/importSales.js:186 | column j of row k sits at parameter position 11·k+j |
| ImportSales.PlaceholderOfParam | scripts/importSales.js:184-186 | every parameter position is the placeholder of exactly one row and column |
| ImportSales.OkRows | scripts/importSales.js:205 | the imported count never exceeds the rows sent |
| ImportSales.SendBatches | scripts/importSales.js:173-210 | the batches cover the valid rows once, in order; each holds 1 to 100 rows and all but the last exactly 100; each batch's placeholders and parameters are those of its rows; imported counts the rows of successful batches; imported + errors is the number of valid rows |
| ImportSales.ImportFile | scripts/importSales.js:114-218 | exits with the no-mapping message naming the county and sends nothing when the county has no mapping; stops with the error of a row that throws; otherwise skipped, dupes = rows − skipped − distinct keys ≥ 0, and the batches and counters are as `SendBatches` states |
| PropertyController.Owned | src/controllers/propertyController.js:13-15 | every listed property is the caller's, and the listing is no longer than the store |
| PropertyController.OwnedExactly | src/controllers/propertyController.js:13-15 | a property is listed exactly when it is stored and its userId is the caller's |
| PropertyController.OwnedAfterInsert | src/controllers/propertyController.js:68 | a property stored under a new key is appended to its owner's listing; no other listing changes (the listing is lines 13-15) |
| PropertyController.NewProperty | src/controllers/propertyController.js:54-66 | the new property has the fresh id, the caller's userId, the address and both timestamps; each of city, state and zipCode is the given value when truthy and '' otherwise; lat and lng the given value when truthy and null otherwise |
| PropertyController.ZeroCoordinateIsNull | src/controllers/propertyController.js:62-63 | a latitude or longitude of 0 is stored as null |
| PropertyController.Patched | src/controllers/propertyController.js:92-101 | id, userId and createdAt are kept and updatedAt is the new time; each of the six body fields replaces the stored one unless it is `undefined`, which keeps it |
| PropertyController.EmptyStringReplaces | src/controllers/propertyController.js:95 | an empty string is a provided value and replaces the stored one |
| PropertyController.Access | src/controllers/propertyController.js:27-36 | 404 for an unknown id; 403 for another user's property; no refusal exactly when the property is the caller's (likewise lines 80-89 and 115-124) |
| PropertyController.PropertyStore.constructor | src/controllers/propertyController.js:2 | the store starts empty |
| PropertyController.PropertyStore.Reset | src/controllers/propertyController.js:5-7 | the store is emptied |
| PropertyController.PropertyStore.GetProperties | src/controllers/propertyController.js:10-21 | 200 with the caller's properties in insertion order, and exactly those |
| PropertyController.PropertyStore.GetProperty | src/controllers/propertyController.js:24-43 | 404, 403, or 200 with the stored property |
| PropertyController.PropertyStore.Create | src/controllers/propertyController.js:46-74 | a falsy address gives 400 and leaves the store unchanged; otherwise the new property is stored under the fresh id and returned with 201 |
| PropertyController.PropertyStore.Update | src/controllers/propertyController.js:77-109 | a refusal changes nothing; otherwise the patched property replaces the stored one in place and is returned |
| PropertyController.PropertyStore.Delete | src/controllers/propertyController.js:112-132 | a refusal changes nothing; otherwise exactly that id is removed and the message returned |
| PropertyController.DeleteThenGet | src/controllers/propertyController.js:112-127 | after a successful delete, getting the same id answers 404 (the later lookup is lines 24-31) |
| PropertyController.CreateThenList | src/controllers/propertyController.js:46-69 | a created property appears in its owner's listing (the listing is lines 13-15) |
| MockRows.Classify | tests/utils/mockDatabase.ts:34-112 | the clear branch is taken exactly for a `DELETE FROM PROPERTIES` statement without params; delete-by-id exactly for `… WHERE` with params; an unrecognised statement matches none of the branch tests (likewise lines 8-70 of `tests/utils/mockDatabase.js`) |
| MockRows.DeleteWhereWithoutParamsClears | tests/utils/mockDatabase.ts:37-47 | without params even a `DELETE … WHERE` statement clears the table, since the clear test comes first |
| MockRows.InsertedRow | tests/utils/mockDatabase.ts:51-64 | id and userId are params 0 and 1; the seven editable fields are params 2 to 8 in order, `undefined` past the end; both timestamps are now (likewise lines 25-38 of `tests/utils/mockDatabase.js`) |
| MockRows.UpdateKey | tests/utils/mockDatabase.ts:113 | the id is the last param, or `undefined` when there are none (likewise line 71 of `tests/utils/mockDatabase.js`) |
| MockRows.UpdatedRow | tests/utils/mockDatabase.ts:119-130 | id, userId and createdAt are kept and updatedAt is now; each of the seven editable fields keeps its value when its param is `null` and takes the param (`undefined` past the end) otherwise (likewise lines 77-88 of `tests/utils/mockDatabase.js`) |
| MockRows.ShortUpdateClears | tests/utils/mockDatabase.ts:119-128 | with fewer than seven params the missing fields become `undefined`, since only `null` keeps |
| MockRows.ForUser | tests/utils/mockDatabase.ts:72-73 | every listed row's userId is `===` the given one (likewise lines 46-48 of `tests/utils/mockDatabase.js`) |
| MockRows.ForUserExactly | tests/utils/mockDatabase.ts:72-73 | a row is listed exactly when it is stored and its userId is `===` the given one (likewise lines 46-48 of `tests/utils/mockDatabase.js`) |
| MockRows.NaNUserListsNothing | tests/utils/mockDatabase.ts:73 | a NaN user id lists nothing, since NaN is `===` to nothing |
| MockRows.RowById | tests/utils/mockDatabase.ts:95-99 | the stored row when there is one, else no rows; rowCount 1 exactly when it exists (likewise lines 53-57 of `tests/utils/mockDatabase.js`) |
| MockRows.OwnerById | tests/utils/mockDatabase.ts:102-109 | `[{ user_id }]` when the row exists, else no rows (likewise lines 60-67 of `tests/utils/mockDatabase.js`) |
| MockRows.Columns | tests/utils/mockDatabase.ts:79-88 | every assessment column is truthy or null; a missing assessment gives all nulls; a present one gives each truthy field or null |
| MockRows.AssessmentOf | tests/utils/mockDatabase.ts:75 | only a string id can name a registered assessment |
| MockRows.Delete | tests/utils/mockDatabase.ts:45 | the row under the id is removed and the table stays well formed |
| MockRows.Store | tests/utils/mockDatabase.ts:65-131 | the row is stored under its id and the table stays well formed |
| MockRows.Listing | tests/utils/mockDatabase.ts:70-92 | one output row per listed row, in order: joined with its assessment columns in the TypeScript pool, as stored in the older one (likewise lines 44-50 of `tests/utils/mockDatabase.js`) |
| MockRows.Respond | tests/utils/mockDatabase.ts:32-137 | the table stays well formed after every call (likewise lines 6-95 of `tests/utils/mockDatabase.js`) |
| MockRows.UnrecognisedChangesNothing | tests/utils/mockDatabase.ts:136 | an unrecognised statement returns no rows and changes nothing (likewise line 94 of `tests/utils/mockDatabase.js`) |
| MockRows.ClearEmpties | tests/utils/mockDatabase.ts:37-40 | a DELETE without params empties the table and returns no rows (likewise lines 11-14 of `tests/utils/mockDatabase.js`) |
| MockRows.DeleteRemovesOnlyThatRow | tests/utils/mockDatabase.ts:43-47 | DELETE … WHERE removes `params[0]` and nothing else; rowCount is 1 exactly when it existed (likewise lines 17-21 of `tests/utils/mockDatabase.js`) |
| MockRows.InsertStoresRow | tests/utils/mockDatabase.ts:50-67 | INSERT stores the row under `params[0]`, replacing any row with that id, keeps the key order of an existing id, and returns the row (likewise lines 24-41 of `tests/utils/mockDatabase.js`) |
| MockRows.UpdateOfUnknownIdChangesNothing | tests/utils/mockDatabase.ts:113-117 | UPDATE of an unknown id returns no rows and changes nothing (likewise lines 71-75 of `tests/utils/mockDatabase.js`) |
| MockRows.UpdateChangesOnlyThatRow | tests/utils/mockDatabase.ts:112-133 | UPDATE changes only the named row: id, userId and createdAt kept, updatedAt now, each editable field kept by a null param and replaced by any other; key order unchanged; the updated row is returned (likewise lines 70-91 of `tests/utils/mockDatabase.js`) |
| MockRows.ListingIsThatUsersRows | tests/utils/mockDatabase.ts:70-92 | every listed row is stored and belongs to that user (likewise lines 44-50 of `tests/utils/mockDatabase.js`) |
| MockDatabase.MockPool.constructor | tests/utils/mockDatabase.ts:4-5 | both tables start empty |
| MockDatabase.MockPool.AddAssessment | tests/utils/mockDatabase.ts:21-23 | one assessment per property; a later one replaces an earlier one; the rows are untouched |
| MockDatabase.MockPool.ClearAssessments | tests/utils/mockDatabase.ts:26-28 | the assessments are emptied; the rows are untouched |
| MockDatabase.MockPool.Query | tests/utils/mockDatabase.ts:32-137 | the answer and the new rows are what `Respond` gives for the old rows with the assessment join; the assessments never change |
| LegacyMockDatabase.MockPool.constructor | tests/utils/mockDatabase.js:2 | the table starts empty |
| LegacyMockDatabase.MockPool.Query | tests/utils/mockDatabase.js:6-95 | the answer and the new rows are what `Respond` gives for the old rows, with the plain listing |
| EnvConfig.MissingErrors | src/config/env.js:17-21 | at most one message per required key |
| EnvConfig.MissingErrorsNameMissingKeys | src/config/env.js:17-21 | a missing-variable message is reported exactly for each key that is unset or empty |
| EnvConfig.CollectMissing | src/config/env.js:15-21 | the loop's messages are the missing-variable messages, in key order |
| EnvConfig.SchemeOfSpelled | src/config/env.js:55-58 | a URL that starts with a scheme and ':' has that scheme, lower-cased |
| EnvConfig.UrlErrors | src/config/env.js:24-26 | at most the one DATABASE_URL message |
| EnvConfig.PortErrors | src/config/env.js:29-34 | at most the one PORT message |
| EnvConfig.ValidateEnv | src/config/env.js:11-48 | throws exactly when some error was collected, with the header and one line per error; otherwise both required variables are set and the configuration with its defaults is returned |
| EnvConfig.AllRequiredPresent | src/config/env.js:15-43 | with no errors both required variables are set |
| EnvConfig.MissingIsReported | src/config/env.js:15-21 | each required variable's own message is reported exactly when it is unset or empty |
| EnvConfig.MissingMessageInjective | src/config/env.js:19 | different keys give different messages |
| EnvConfig.DatabaseUrlIsChecked | src/config/env.js:24-62 | the URL message is reported exactly when DATABASE_URL is set and not a `postgres:`/`postgresql:` URL |
| EnvConfig.PortIsChecked | src/config/env.js:29-34 | the PORT message is reported exactly when PORT is set and does not parse to 1..65535 |
| EnvConfig.ValidPortInRange | src/config/env.js:29-44 | a configuration that validates has a port in 1..65535: 3001 when PORT is unset or empty, the parsed value otherwise |
| InsertionOrder.Put | tests/utils/mockDatabase.ts:65 | `Map.set` appends a new key and leaves an existing key in place; keys stay distinct (likewise line 68 of `src/controllers/propertyController.js`) |
| InsertionOrder.Without | tests/utils/mockDatabase.ts:45 | `Map.delete` removes exactly that key and keeps the others distinct (likewise line 126 of `src/controllers/propertyController.js`) |
| InsertionOrder.WithoutKeepsOrder | tests/utils/mockDatabase.ts:45 | deleting the key at position i leaves the keys before it and after it, in their order (likewise line 126 of `src/controllers/propertyController.js`) |
| JsText.RemoveFirst | scripts/county-scraper.js:142 | removes exactly one character when the character occurs, and nothing otherwise |
| JsText.RemoveAll | scripts/scrapePropertyDetails.js:48 | no removed character is left (likewise line 37 of `scripts/importSales.js`) |
| JsText.RemoveAllOfChar | scripts/scrapePropertyDetails.js:48 | on one character, it is dropped exactly when it is one of the removed characters (likewise line 37 of `scripts/importSales.js`) |
| JsText.ReplaceAllConcat | scripts/county-scraper.js:100 | a global single-character replace of a concatenation is the concatenation of the replaces (likewise line 126) |
| JsText.ReplaceAllOfChar | scripts/county-scraper.js:100 | on one character, the searched character becomes the replacement and any other is kept (likewise line 126) |
| JsText.ParseFloat | scripts/scrapePropertyDetails.js:39 | NaN exactly when the trimmed text, after its sign, starts with neither `Infinity`, nor a digit, nor a point followed by a digit (likewise line 38 of `scripts/importSales.js`) |
| JsText.ParseFloatDecimal | scripts/importSales.js:38 | "w.f" reads as its digits over 10 to the number of fraction digits |
| PageScan.Find | scripts/county-scraper.js:66-86 | the match starts at the leftmost position where the pattern matches; none only when it matches nowhere (likewise lines 46-49 of `scripts/fulton-scraper.js`) |

## Left out

- Browser automation is abstract. Not modelled: launch options, the user agent, the effect of the init script, waits and timeouts, modal dismissal and the console output. A failure of the wait for the address input counts as a failure before the fill; one after the click (the wait, or reading the page text) is a search failure with no further action. `Session` says whether the browser launches, whether the context, page and init script are then set up, and at which step, if any, the search throws. The trace lists the goto, fill and click of the search and the clicks on the notices page, in order, including the one that throws; the modal's dismissal click is not listed. For the two inherited table members, `page.goto(undefined)` is taken to throw before navigating, so no goto is listed. `ResultsPage` holds the visible text, the anchors, whether the notices link and the expand header are present and whether clicking each fails, and the notice-page inputs.
- The regular expressions are label-then-value scanners (`PageScan`). They are argued, not proved, to agree with the JavaScript engine's backtracking, because every greedy part is followed by a character outside its class. Case-insensitive matching is ASCII lower-casing; under the `i` flag without `u` no non-ASCII character folds onto an ASCII one.
- Non-ASCII case mapping in `toLowerCase`/`toUpperCase` is not modelled. Only A–Z and a–z are mapped.
- Numbers are exact. IEEE rounding of `parseFloat`, `parseInt` results beyond 2^53 and `full + half * 0.5` is not modelled.
- `scripts/scrapePropertyDetails.js`:
  - `getField` (the DOM search for a labelled cell) is an oracle: the site gives each page's trimmed field texts, or nothing when the page throws.
  - Which rows the SQL query selects, and their order, is the `candidates` parameter.
  - The pg pool and the UPDATE statement are a list of writes.
  - PropertyDetails.RunScraper: a write records the `updateProperty` call (lines 144-148), with the row id and all the scraped details; its UPDATE sets only bedrooms, bathrooms, year_built, stories and style, so the scraped square footage is never stored.
  - PropertyDetails.RunScraper: every write is taken to succeed. A failing `updateProperty` (line 201) is not caught inside the loop and would end the whole run; that path is not modelled.
- The geocoding `fetch` is an oracle from request URL to decoded answer. `address_components` is taken to be present in the first result.
- XLSX reading is not modelled: the spreadsheet arrives as rows of cells.
  - `new Date(v)` is an oracle `dateOf` from cell to ISO string.
  - `String(n)` of a number cell is an oracle `show`.
  - Boolean and date cell types are not modelled; a cell is absent, null, text or a number.
  - The duplicate count is only logged by the script; the model returns it.
- The importer's `process.exit(1)` and thrown errors are `Failure` results. For a county without a mapping the result carries the first error line; the second line, listing the available counties, is not modelled. The batch insert's outcome is an oracle by batch number. The INSERT … ON CONFLICT text and its database-side merge are not modelled.
- `Date.now()`/`Math.random()` (the property id) and `new Date().toISOString()` are parameters `freshId` and `now`.
- PropertyController.NewProperty: `createdAt` and `updatedAt` come from two separate `new Date()` reads (lines 64-65 of `src/controllers/propertyController.js`); the model takes both reads to give the same instant `now`.
- MockRows.InsertedRow: `createdAt` and `updatedAt` come from two separate `new Date()` reads (lines 62-63 of `tests/utils/mockDatabase.ts`, lines 36-37 of `tests/utils/mockDatabase.js`); the model takes both reads to give the same instant `now`.
- The controllers' `catch` branches answering 500 are not modelled: the caller's user id, the route id and the body are parameters, so no modelled statement inside a `try` can throw. `async`/`await` is sequential.
- The mock pools' `on` and `end` are no-ops and are not modelled. The thrown TypeError for an absent `params` is `Thrown.TypeError`, without its message text.
- `new URL(url)` is modelled only up to its scheme. Whether the rest of the URL parses is the oracle `restParses`.
- Console logging of every script is not modelled. That includes the placeholder text of the VALUES clause, which is modelled as the list of placeholder numbers per row.
- PropertyDetails.ParseIntOrNull has no ensures of its own; its properties are ParseIntOrNullIgnoresCommas, ParseIntOrNullGrouped, NormalisersOfNothing and GroupedNumbersDisagree.
- UriComponent.Encode: strings are sequences of Unicode scalar values, so lone surrogates, which make `encodeURIComponent` throw, cannot occur.
- ImportSales.ParseDate states only the falsy case; validity of a date is the `dateOf` oracle.
