/**
 * The sales importer: the per-county column mappings, the price and validity rules, the
 * deduplication of spreadsheet rows by parcel and sale date, and the batched insert with
 * its numbered placeholders.
 *
 * The spreadsheet arrives as rows of cells. Three things the script asks of the runtime
 * are parameters: `String(n)` of a number cell (`show`), the ISO date `new Date(v)` gives
 * for a value (`dateOf`, nothing for an invalid date) and whether each batch insert
 * succeeds (`batchOk`, by batch number).
 */
module ImportSales {
  import opened Wrappers
  import opened JsText

  /** A value read from a row: absent, null, a text cell or a number cell. */
  datatype Val = Undefined | Null | Text(s: string) | Number(x: real)

  type Row = map<string, Val>

  /** JavaScript truthiness of a value. */
  predicate Truthy(v: Val) {
    match v
    case Undefined => false
    case Null => false
    case Text(s) => s != []
    case Number(x) => x != 0.0
  }

  /** `String(v)` and template-literal `${v}`. */
  function StringOf(v: Val, show: real -> string): string {
    match v
    case Undefined => "undefined"
    case Null => "null"
    case Text(s) => s
    case Number(x) => show(x)
  }

  /** `row[column]`. */
  function Cell(row: Row, column: string): Val {
    if column in row then row[column] else Undefined
  }

  // ---------------------------------------------------------------------------
  // Column mappings

  const FultonColumns: map<string, string> := map[
    "parcel_id" := "Parcel ID",
    "address" := "Address",
    "sale_date" := "Sale Date",
    "sale_price" := "Sale Price",
    "square_ft" := "Square Ft ",
    "year_built" := "Year  Built ",
    "acres" := "Acres",
    "property_class" := "Parcel  Class "]

  const CobbColumns: map<string, string> := map[
    "parcel_id" := "Parcel ID",
    "address" := "Street Name",
    "sale_date" := "Sale Date",
    "sale_price" := "Sale Price",
    "square_ft" := "Square Ft ",
    "acres" := "Acres"]

  /** The members every plain object inherits from `Object.prototype`. */
  const ObjectMembers: seq<string> := [
    "constructor", "__proto__", "hasOwnProperty", "isPrototypeOf", "propertyIsEnumerable",
    "toString", "valueOf", "toLocaleString", "__defineGetter__", "__defineSetter__",
    "__lookupGetter__", "__lookupSetter__"]

  /**
   * `COLUMN_MAPPINGS[county]`: a county's columns, an inherited member (truthy, but with
   * none of the schema fields), or nothing.
   */
  datatype Mapping = Columns(columns: map<string, string>) | InheritedMember | NoMapping

  function MappingFor(county: string): (m: Mapping)
    ensures m.Columns? <==> county == "Fulton" || county == "Cobb"
    ensures m.NoMapping? <==> county !in ["Fulton", "Cobb"] + ObjectMembers
  {
    if county == "Fulton" then Columns(FultonColumns)
    else if county == "Cobb" then Columns(CobbColumns)
    else if county in ObjectMembers then InheritedMember
    else NoMapping
  }

  /** A field's value under a mapping that exists: null when the field has no column. */
  function ValueIn(row: Row, mapping: Mapping, field: string): (v: Val)
    requires !mapping.NoMapping?
    ensures mapping.Columns? && field in mapping.columns ==> v == Cell(row, mapping.columns[field])
    ensures !(mapping.Columns? && field in mapping.columns) ==> v == Null
  {
    if mapping.Columns? && field in mapping.columns then Cell(row, mapping.columns[field]) else Null
  }

  function NoMappingMessage(county: string): string {
    "No column mapping defined for county: " + county
  }

  /** `getValue(row, field, county)`. */
  function GetValue(row: Row, field: string, county: string): (r: Result<Val, string>)
    ensures r.Failure? <==> MappingFor(county).NoMapping?
    ensures r.Failure? ==> r.error == NoMappingMessage(county)
    ensures r.Success? ==> r.value == ValueIn(row, MappingFor(county), field)
  {
    var mapping := MappingFor(county);
    if mapping.NoMapping? then Failure(NoMappingMessage(county)) else Success(ValueIn(row, mapping, field))
  }

  /** Cobb has no year-built column: its value is null whatever the row holds. */
  lemma {:induction false} CobbHasNoYearBuilt(row: Row)
    ensures GetValue(row, "year_built", "Cobb") == Success(Null)
  {
  }

  /** A county that is not in the table makes every read fail. */
  lemma {:induction false} UnknownCountyFails(row: Row, field: string, county: string)
    requires county !in ["Fulton", "Cobb"] + ObjectMembers
    ensures GetValue(row, field, county) == Failure(NoMappingMessage(county))
  {
  }

  // ---------------------------------------------------------------------------
  // Price and validity

  /**
   * `parsePrice(v)`: null for a falsy value; otherwise every `$` and `,` is stripped from
   * its string form and the rest goes to `parseFloat`; NaN becomes null.
   */
  function ParsePrice(v: Val, show: real -> string): (r: Option<JsFloat>)
    ensures r != Some(FloatNaN)
    ensures !Truthy(v) ==> r.None?
    ensures Truthy(v) ==> (r.None? <==> ParseFloat(RemoveAll(StringOf(v, show), {'$', ','})) == FloatNaN)
  {
    if !Truthy(v) then None
    else
      var num := ParseFloat(RemoveAll(StringOf(v, show), {'$', ','}));
      if num == FloatNaN then None else Some(num)
  }

  const PriceExample := "$45,000.00"

  /** "$45,000.00" is a price of 45000. */
  lemma {:induction false} PriceExampleValue(show: real -> string)
    ensures ParsePrice(Text(PriceExample), show) == Some(Finite(45000.0))
  {
    var a, b, w, f := "45", "000.00", "45000", "00";
    PriceExampleParts();
    assert a + b == w + "." + f;
    ParseDollarAmount(a, b, w, f, show);
    PriceExampleDecimal();
  }

  lemma {:induction false} PriceExampleParts()
    ensures PriceExample == "$" + "45" + "," + "000.00"
  {
  }

  /**
   * A price written with a leading '$' and one thousands ',' reads as the decimal number
   * left once both are removed.
   */
  lemma {:induction false} ParseDollarAmount(a: string, b: string, w: string, f: string, show: real -> string)
    requires '$' !in a && ',' !in a && '$' !in b && ',' !in b
    requires w != [] && AllDigits(w) && f != [] && AllDigits(f) && a + b == w + "." + f
    ensures AllDigits(w + f)
    ensures ParsePrice(Text("$" + a + "," + b), show) == Some(Finite(DecimalValue(w + f, |f|, 0)))
  {
    StripDollarAndComma(a, b);
    ParseFloatDecimal(w, f);
  }

  /** Dropping a leading '$' and one ',' from text that holds neither. */
  lemma {:induction false} StripDollarAndComma(a: string, b: string)
    requires '$' !in a && ',' !in a && '$' !in b && ',' !in b
    ensures RemoveAll("$" + a + "," + b, {'$', ','}) == a + b
  {
    var cs := {'$', ','};
    assert "$" + a + "," + b == "$" + (a + ("," + b));
    RemoveAllConcat("$", a + ("," + b), cs);
    RemoveAllConcat(a, "," + b, cs);
    RemoveAllConcat(",", b, cs);
    RemoveAllNothing(a, cs);
    RemoveAllNothing(b, cs);
    assert RemoveAll("$", cs) == [] by { assert "$"[1..] == []; }
    assert RemoveAll(",", cs) == [] by { assert ","[1..] == []; }
    calc {
      RemoveAll("$" + a + "," + b, cs);
      RemoveAll("$", cs) + (RemoveAll(a, cs) + (RemoveAll(",", cs) + RemoveAll(b, cs)));
      [] + (a + ([] + b));
      { assert [] + b == b; }
      [] + (a + b);
      { assert [] + (a + b) == a + b; }
      a + b;
    }
  }

  /** The digits 4500000 with two of them after the point are 45000. */
  lemma {:induction false} PriceExampleDecimal()
    ensures AllDigits("45000" + "00")
    ensures DecimalValue("45000" + "00", |"00"|, 0) == 45000.0
  {
    var w, f := "45000", "00";
    assert |f| == 2 && w + f == "4500000";
    SevenDigitPrice();
    var d, p := DigitsValue(w + f), Pow10(|f|);
    assert d == 4500000 && p == 100.0;
  }

  lemma {:induction false} SevenDigitPrice()
    ensures DigitsValue("4500000") == 4500000
  {
    assert DigitsValue("45") == 45;
    assert DigitsValue("450") == 450 by { assert "450"[..2] == "45"; }
    assert DigitsValue("4500") == 4500 by { assert "4500"[..3] == "450"; }
    assert DigitsValue("45000") == 45000 by { assert "45000"[..4] == "4500"; }
    assert DigitsValue("450000") == 450000 by { assert "450000"[..5] == "45000"; }
    assert DigitsValue("4500000") == 4500000 by { assert "4500000"[..6] == "450000"; }
  }

  /** `price !== null && price > 1000`. */
  predicate Above1000(price: Option<JsFloat>) {
    price.Some? &&
    match price.value
    case Finite(x) => x > 1000.0
    case Infinity(negative) => !negative
    case FloatNaN => false
  }

  /**
   * `isValidComp(row, county)`: for Fulton the two validity columns decide, whatever the
   * price; elsewhere the sale price must be above 1000.
   */
  function IsValidComp(row: Row, county: string, show: real -> string): (b: bool)
    ensures county == "Fulton" ==>
      (b <==> Cell(row, "Qualified Sales") == Text("Qualified") && Cell(row, "Sales Validity") == Text("Valid Sale"))
    ensures county != "Fulton" ==> (b <==> Above1000(ParsePrice(Cell(row, "Sale Price"), show)))
  {
    var price := ParsePrice(Cell(row, "Sale Price"), show);
    if county == "Fulton" then
      Cell(row, "Qualified Sales") == Text("Qualified") && Cell(row, "Sales Validity") == Text("Valid Sale")
    else
      Above1000(price)
  }

  // ---------------------------------------------------------------------------
  // One prepared row

  /** The eleven values inserted for one sale, in column order. */
  datatype SaleRow = SaleRow(
    parcelId: Val,
    address: Val,
    county: string,
    state: string,
    saleDate: string,
    salePrice: Option<JsFloat>,
    validComp: bool,
    squareFt: Option<JsInt>,
    yearBuilt: Option<JsInt>,
    acres: Val,
    propertyClass: Option<string>)

  datatype Param =
    | PValue(v: Val)
    | PText(s: string)
    | PPrice(price: Option<JsFloat>)
    | PFlag(b: bool)
    | PInt(n: Option<JsInt>)
    | PClass(c: Option<string>)

  /** The query parameters of one row. */
  function Fields(r: SaleRow): (ps: seq<Param>)
    ensures |ps| == 11
  {
    [PValue(r.parcelId), PValue(r.address), PText(r.county), PText(r.state), PText(r.saleDate),
     PPrice(r.salePrice), PFlag(r.validComp), PInt(r.squareFt), PInt(r.yearBuilt),
     PValue(r.acres), PClass(r.propertyClass)]
  }

  /** `v ? parseInt(v) : null`. */
  function IntOrNull(v: Val, show: real -> string): (r: Option<JsInt>)
    ensures r.None? <==> !Truthy(v)
    ensures Truthy(v) ==> r == Some(ParseInt(StringOf(v, show)))
  {
    if Truthy(v) then Some(ParseInt(StringOf(v, show))) else None
  }

  /** Calling `trim` on a number cell. */
  const TrimOfNumber := "getValue(...)?.trim is not a function"

  /** `v?.trim() || null`; a number has no `trim`. */
  function TrimmedOrNull(v: Val): (r: Result<Option<string>, string>)
    ensures r.Failure? <==> v.Number?
    ensures r.Success? && r.value.Some? ==> v.Text? && r.value.value == Trim(v.s) && r.value.value != []
    ensures v.Text? && Trim(v.s) != [] ==> r == Success(Some(Trim(v.s)))
    ensures v.Undefined? || v.Null? || (v.Text? && Trim(v.s) == []) ==> r == Success(None)
  {
    match v
    case Undefined => Success(None)
    case Null => Success(None)
    case Text(s) => if Trim(s) == [] then Success(None) else Success(Some(Trim(s)))
    case Number(_) => Failure(TrimOfNumber)
  }

  /** The row the script stores for a sale with a valid date. */
  function Prepare(row: Row, mapping: Mapping, county: string, state: string, iso: string, show: real -> string)
    : (r: Result<SaleRow, string>)
    requires !mapping.NoMapping?
    ensures r.Failure? <==> ValueIn(row, mapping, "property_class").Number?
    ensures r.Success? ==>
      r.value.parcelId == ValueIn(row, mapping, "parcel_id") && r.value.saleDate == iso &&
      r.value.county == county && r.value.state == state &&
      r.value.validComp == IsValidComp(row, county, show) &&
      r.value.address == ValueIn(row, mapping, "address") &&
      r.value.salePrice == ParsePrice(ValueIn(row, mapping, "sale_price"), show) &&
      r.value.squareFt == IntOrNull(ValueIn(row, mapping, "square_ft"), show) &&
      r.value.yearBuilt == IntOrNull(ValueIn(row, mapping, "year_built"), show) &&
      (Truthy(ValueIn(row, mapping, "acres")) ==> r.value.acres == ValueIn(row, mapping, "acres")) &&
      (!Truthy(ValueIn(row, mapping, "acres")) ==> r.value.acres == Null) &&
      Success(r.value.propertyClass) == TrimmedOrNull(ValueIn(row, mapping, "property_class"))
  {
    var yearBuilt := ValueIn(row, mapping, "year_built");
    var squareFt := ValueIn(row, mapping, "square_ft");
    var acres := ValueIn(row, mapping, "acres");
    match TrimmedOrNull(ValueIn(row, mapping, "property_class"))
    case Failure(e) => Failure(e)
    case Success(propertyClass) =>
      Success(SaleRow(
        ValueIn(row, mapping, "parcel_id"),
        ValueIn(row, mapping, "address"),
        county,
        state,
        iso,
        ParsePrice(ValueIn(row, mapping, "sale_price"), show),
        IsValidComp(row, county, show),
        IntOrNull(squareFt, show),
        IntOrNull(yearBuilt, show),
        if Truthy(acres) then acres else Null,
        propertyClass))
  }

  /** `parseDate(v)`: null for a falsy value, else the date's ISO form if it is valid. */
  function ParseDate(v: Val, dateOf: Val -> Option<string>): (r: Option<string>)
    ensures !Truthy(v) ==> r.None?
  {
    if !Truthy(v) then None else dateOf(v)
  }

  /** The dedup key `${parcelId}|${saleDate.toISOString()}`. */
  function Key(parcelId: Val, iso: string, show: real -> string): string {
    StringOf(parcelId, show) + "|" + iso
  }

  // ---------------------------------------------------------------------------
  // Deduplication: the `seen` map

  /** A `Map` from key to row: its keys in insertion order, and its contents. */
  datatype Seen = Seen(keys: seq<string>, rows: map<string, SaleRow>, skipped: nat)

  predicate SeenValid(s: Seen) {
    (forall i, j :: 0 <= i < j < |s.keys| ==> s.keys[i] != s.keys[j]) &&
    s.rows.Keys == set k | k in s.keys
  }

  /**
   * `seen.set(key, row)`: a new key goes to the end; an existing key keeps its place and
   * takes the new row.
   */
  function Upsert(s: Seen, key: string, row: SaleRow): (t: Seen)
    ensures t.rows == s.rows[key := row] && t.skipped == s.skipped
    ensures key in s.rows ==> t.keys == s.keys
    ensures key !in s.rows ==> t.keys == s.keys + [key]
  {
    Seen(if key in s.rows then s.keys else s.keys + [key], s.rows[key := row], s.skipped)
  }

  lemma {:induction false} UpsertKeepsValid(s: Seen, key: string, row: SaleRow)
    requires SeenValid(s)
    ensures SeenValid(Upsert(s, key, row))
  {
  }

  /** `Array.from(seen.values())`. */
  function ValidRows(s: Seen): (rows: seq<SaleRow>)
    requires SeenValid(s)
    ensures |rows| == |s.keys|
    ensures forall i :: 0 <= i < |rows| ==> rows[i] == s.rows[s.keys[i]]
  {
    seq(|s.keys|, i requires 0 <= i < |s.keys| => s.rows[s.keys[i]])
  }

  /** One loop step of the preparation: skip, or prepare and store under the key. */
  function Step(s: Seen, row: Row, mapping: Mapping, county: string, state: string,
                show: real -> string, dateOf: Val -> Option<string>): (r: Result<Seen, string>)
    requires !mapping.NoMapping?
  {
    match ParseDate(ValueIn(row, mapping, "sale_date"), dateOf)
    case None => Success(Seen(s.keys, s.rows, s.skipped + 1))
    case Some(iso) =>
      match Prepare(row, mapping, county, state, iso, show)
      case Failure(e) => Failure(e)
      case Success(prepared) => Success(Upsert(s, Key(ValueIn(row, mapping, "parcel_id"), iso, show), prepared))
  }

  /** The `seen` map after the first `n` rows, or the error that stopped the loop. */
  function Scan(rows: seq<Row>, n: nat, mapping: Mapping, county: string, state: string,
                show: real -> string, dateOf: Val -> Option<string>): Result<Seen, string>
    requires !mapping.NoMapping? && n <= |rows|
  {
    if n == 0 then Success(Seen([], map[], 0))
    else
      match Scan(rows, n - 1, mapping, county, state, show, dateOf)
      case Failure(e) => Failure(e)
      case Success(s) => Step(s, rows[n - 1], mapping, county, state, show, dateOf)
  }

  /**
   * The map stays well formed, and every row is either skipped, a new key or a
   * duplicate: `dupes = rows - skipped - distinct keys` is never negative.
   */
  lemma {:induction false} ScanBounds(rows: seq<Row>, n: nat, mapping: Mapping, county: string, state: string,
                                      show: real -> string, dateOf: Val -> Option<string>)
    requires !mapping.NoMapping? && n <= |rows|
    ensures var r := Scan(rows, n, mapping, county, state, show, dateOf);
      r.Success? ==> SeenValid(r.value) && r.value.skipped + |r.value.keys| <= n
  {
    if n > 0 {
      ScanBounds(rows, n - 1, mapping, county, state, show, dateOf);
      var prev := Scan(rows, n - 1, mapping, county, state, show, dateOf);
      if prev.Success? {
        var row := rows[n - 1];
        match ParseDate(ValueIn(row, mapping, "sale_date"), dateOf)
        case None =>
        case Some(iso) =>
          match Prepare(row, mapping, county, state, iso, show)
          case Failure(_) =>
          case Success(prepared) =>
            UpsertKeepsValid(prev.value, Key(ValueIn(row, mapping, "parcel_id"), iso, show), prepared);
      }
    }
  }

  /** A row without a usable date is only counted: the map does not change. */
  lemma {:induction false} UndatedRowSkipped(s: Seen, row: Row, mapping: Mapping, county: string, state: string,
                          show: real -> string, dateOf: Val -> Option<string>)
    requires !mapping.NoMapping?
    requires ParseDate(ValueIn(row, mapping, "sale_date"), dateOf).None?
    ensures Step(s, row, mapping, county, state, show, dateOf) == Success(Seen(s.keys, s.rows, s.skipped + 1))
  {
  }

  /** Under an inherited member every field reads null, so every row is skipped. */
  lemma {:induction false} InheritedSkipsAll(rows: seq<Row>, n: nat, county: string, state: string,
                                             show: real -> string, dateOf: Val -> Option<string>)
    requires n <= |rows|
    ensures Scan(rows, n, InheritedMember, county, state, show, dateOf) == Success(Seen([], map[], n))
  {
    if n > 0 {
      InheritedSkipsAll(rows, n - 1, county, state, show, dateOf);
    }
  }

  // ---------------------------------------------------------------------------
  // Batches

  const BatchSize := 100

  /** The placeholder numbers of row `idx` of a batch: `$(11·idx+1)` to `$(11·idx+11)`. */
  function Placeholders(idx: nat): (ps: seq<nat>)
    ensures |ps| == 11
    ensures forall j :: 0 <= j < 11 ==> ps[j] == 11 * idx + j + 1
  {
    seq(11, j => 11 * idx + j + 1)
  }

  /** One insert statement: its rows, the placeholder numbers of each row, and the parameters. */
  datatype Batch = Batch(rows: seq<SaleRow>, values: seq<seq<nat>>, params: seq<Param>)

  /**
   * The `forEach` that fills one batch's `values` and `params`: row `idx` gets the
   * placeholders `11·idx+1 … 11·idx+11`, and its eleven parameters sit at exactly those
   * positions (counting from 1).
   */
  method BuildBatch(batch: seq<SaleRow>) returns (values: seq<seq<nat>>, params: seq<Param>)
    ensures |values| == |batch| && |params| == 11 * |batch|
    ensures params == AllFields(batch)
    ensures forall idx :: 0 <= idx < |batch| ==> values[idx] == Placeholders(idx)
    ensures forall idx, j :: 0 <= idx < |batch| && 0 <= j < 11 ==> params[11 * idx + j] == Fields(batch[idx])[j]
  {
    values := [];
    params := [];
    var idx := 0;
    while idx < |batch|
      invariant 0 <= idx <= |batch|
      invariant |values| == idx
      invariant forall k :: 0 <= k < idx ==> values[k] == Placeholders(k)
      invariant params == AllFields(batch[..idx])
    {
      assert batch[..idx + 1][..idx] == batch[..idx];
      values := values + [Placeholders(idx)];
      params := params + Fields(batch[idx]);
      idx := idx + 1;
    }
    assert batch[..idx] == batch;
    forall k, j | 0 <= k < |batch| && 0 <= j < 11
      ensures params[11 * k + j] == Fields(batch[k])[j]
    {
      AllFieldsAt(batch, k, j);
    }
  }

  /** The parameters of several rows, one row after the other. */
  function AllFields(rows: seq<SaleRow>): (ps: seq<Param>)
    ensures |ps| == 11 * |rows|
  {
    if rows == [] then [] else AllFields(rows[..|rows| - 1]) + Fields(rows[|rows| - 1])
  }

  /** Column `j` of row `k` sits at position `11·k + j`. */
  lemma {:induction false} AllFieldsAt(rows: seq<SaleRow>, k: nat, j: nat)
    requires k < |rows| && j < 11
    ensures AllFields(rows)[11 * k + j] == Fields(rows[k])[j]
  {
    var n := |rows| - 1;
    if k < n {
      assert rows[..n][k] == rows[k];
      AllFieldsAt(rows[..n], k, j);
    }
  }

  /** Every parameter position `p` (from 1) is the placeholder of exactly one row and column. */
  lemma {:induction false} PlaceholderOfParam(n: nat, p: nat)
    requires 1 <= p <= 11 * n
    ensures (p - 1) / 11 < n && Placeholders((p - 1) / 11)[(p - 1) % 11] == p
  {
  }

  /**
   * A batch as the `forEach` fills it: row `idx` has the placeholders `11·idx+1 … 11·idx+11`
   * and the parameters are the rows' eleven values, one row after the other.
   */
  predicate WellBuilt(b: Batch) {
    |b.values| == |b.rows| &&
    (forall idx :: 0 <= idx < |b.rows| ==> b.values[idx] == Placeholders(idx)) &&
    b.params == AllFields(b.rows)
  }

  /** The rows of a list of batches, in order. */
  function Flatten(batches: seq<Batch>): seq<SaleRow> {
    if batches == [] then [] else Flatten(batches[..|batches| - 1]) + batches[|batches| - 1].rows
  }

  /** How many rows the successful batches hold. */
  function OkRows(batches: seq<Batch>, batchOk: nat -> bool): (n: nat)
    ensures n <= |Flatten(batches)|
  {
    if batches == [] then 0
    else
      var k := |batches| - 1;
      OkRows(batches[..k], batchOk) + (if batchOk(k) then |batches[k].rows| else 0)
  }

  /**
   * `sent` splits `rows` into well-built batches of 1 to 100 rows, in order, all of them
   * full except perhaps the last.
   */
  predicate Batched(sent: seq<Batch>, rows: seq<SaleRow>) {
    Flatten(sent) == rows &&
    (forall k :: 0 <= k < |sent| ==> 1 <= |sent[k].rows| <= BatchSize && WellBuilt(sent[k])) &&
    (forall k :: 0 <= k < |sent| - 1 ==> |sent[k].rows| == BatchSize)
  }

  /** Every batch holds exactly 100 rows. */
  predicate AllFull(sent: seq<Batch>) {
    forall k :: 0 <= k < |sent| ==> |sent[k].rows| == BatchSize
  }

  /** One more well-built batch after full ones extends the split by its rows. */
  lemma {:induction false} BatchedAppend(sent: seq<Batch>, rows: seq<SaleRow>, b: Batch)
    requires Batched(sent, rows) && AllFull(sent)
    requires 1 <= |b.rows| <= BatchSize && WellBuilt(b)
    ensures Batched(sent + [b], rows + b.rows)
  {
    var more := sent + [b];
    assert more[..|sent|] == sent;
    assert Flatten(more) == rows + b.rows;
    forall k | 0 <= k < |more|
      ensures 1 <= |more[k].rows| <= BatchSize && WellBuilt(more[k])
    {
      if k < |sent| {
        assert more[k] == sent[k];
      }
    }
    forall k | 0 <= k < |more| - 1
      ensures |more[k].rows| == BatchSize
    {
      assert more[k] == sent[k];
    }
  }

  /**
   * One turn of the batch loop: the slice from `i` (at most 100 rows) extends the split of
   * the rows before `i`; it is full unless it reaches the end of the rows.
   */
  lemma {:induction false} BatchStep(sent: seq<Batch>, rows: seq<SaleRow>, i: nat, b: Batch)
    requires i < |rows| && Batched(sent, rows[..i]) && AllFull(sent)
    requires b.rows == rows[i..if i + BatchSize <= |rows| then i + BatchSize else |rows|] && WellBuilt(b)
    ensures i + BatchSize <= |rows| ==> Batched(sent + [b], rows[..i + BatchSize]) && AllFull(sent + [b])
    ensures i + BatchSize > |rows| ==> Batched(sent + [b], rows)
  {
    var end := if i + BatchSize <= |rows| then i + BatchSize else |rows|;
    BatchedAppend(sent, rows[..i], b);
    assert rows[..i] + b.rows == rows[..end];
    if i + BatchSize > |rows| {
      assert rows[..end] == rows;
    } else {
      var more := sent + [b];
      forall k | 0 <= k < |more|
        ensures |more[k].rows| == BatchSize
      {
        if k < |sent| {
          assert more[k] == sent[k];
        }
      }
    }
  }

  /** One more batch adds its rows to the imported count exactly when its insert succeeds. */
  lemma {:induction false} OkRowsAppend(sent: seq<Batch>, b: Batch, batchOk: nat -> bool)
    ensures OkRows(sent + [b], batchOk) == OkRows(sent, batchOk) + (if batchOk(|sent|) then |b.rows| else 0)
  {
    assert (sent + [b])[..|sent|] == sent;
  }

  /** The insert for one slice of rows: its placeholders and parameters. */
  method MakeBatch(rows: seq<SaleRow>) returns (b: Batch)
    ensures b.rows == rows && WellBuilt(b)
  {
    var values, params := BuildBatch(rows);
    b := Batch(rows, values, params);
  }

  /**
   * The batch loop of `importFile`: slices of at most 100 rows, in order, each turned into
   * one insert; a batch whose insert succeeds counts as imported, one that fails as errors.
   */
  method SendBatches(validRows: seq<SaleRow>, batchOk: nat -> bool)
    returns (sent: seq<Batch>, imported: nat, errors: nat)
    ensures Flatten(sent) == validRows
    ensures forall k :: 0 <= k < |sent| ==> 1 <= |sent[k].rows| <= BatchSize && WellBuilt(sent[k])
    ensures forall k :: 0 <= k < |sent| - 1 ==> |sent[k].rows| == BatchSize
    ensures imported == OkRows(sent, batchOk)
    ensures imported + errors == |validRows|
  {
    sent, imported, errors := [], 0, 0;
    var i := 0;
    while i < |validRows|
      invariant i == BatchSize * |sent|
      invariant i <= |validRows| ==> Batched(sent, validRows[..i]) && AllFull(sent)
      invariant i > |validRows| ==> Batched(sent, validRows)
      invariant imported == OkRows(sent, batchOk)
      invariant imported + errors == if i <= |validRows| then i else |validRows|
      decreases |validRows| - i
    {
      var end := if i + BatchSize <= |validRows| then i + BatchSize else |validRows|;
      var batch := validRows[i..end];
      var b := MakeBatch(batch);
      BatchStep(sent, validRows, i, b);
      OkRowsAppend(sent, b, batchOk);
      if batchOk(|sent|) {
        imported := imported + |batch|;
      } else {
        errors := errors + |batch|;
      }
      sent := sent + [b];
      i := i + BatchSize;
    }
    assert validRows[..|validRows|] == validRows;
  }

  /** What `importFile` reports before `process.exit(1)` for a county without a mapping. */
  function NoMappingExit(county: string): string {
    "Error: No column mapping defined for county \"" + county + "\""
  }

  datatype Summary = Summary(imported: nat, skipped: nat, errors: nat, dupes: int)

  /**
   * `importFile(rows, county, state)`: exits for a county without a mapping; stops with
   * the error of a row that cannot be prepared; otherwise inserts the deduplicated rows
   * in batches of at most 100, in order, and counts each batch as imported or as errors.
   */
  method ImportFile(rows: seq<Row>, county: string, state: string, show: real -> string,
                    dateOf: Val -> Option<string>, batchOk: nat -> bool)
    returns (r: Result<Summary, string>, sent: seq<Batch>)
    ensures MappingFor(county).NoMapping? ==> r == Failure(NoMappingExit(county)) && sent == []
    ensures !MappingFor(county).NoMapping? ==>
      var scan := Scan(rows, |rows|, MappingFor(county), county, state, show, dateOf);
      (scan.Failure? ==> r == Failure(scan.error) && sent == []) &&
      (scan.Success? ==>
        SeenValid(scan.value) &&
        r.Success? && r.value.skipped == scan.value.skipped &&
        r.value.dupes == |rows| - scan.value.skipped - |scan.value.keys| && r.value.dupes >= 0 &&
        Flatten(sent) == ValidRows(scan.value) &&
        (forall k :: 0 <= k < |sent| ==> 1 <= |sent[k].rows| <= BatchSize && WellBuilt(sent[k])) &&
        (forall k :: 0 <= k < |sent| - 1 ==> |sent[k].rows| == BatchSize) &&
        r.value.imported == OkRows(sent, batchOk) &&
        r.value.imported + r.value.errors == |scan.value.keys|)
  {
    sent := [];
    var mapping := MappingFor(county);
    if mapping.NoMapping? {
      return Failure(NoMappingExit(county)), [];
    }
    var seen := Seen([], map[], 0);
    var i := 0;
    while i < |rows|
      invariant 0 <= i <= |rows|
      invariant Scan(rows, i, mapping, county, state, show, dateOf) == Success(seen)
    {
      var step := Step(seen, rows[i], mapping, county, state, show, dateOf);
      if step.Failure? {
        ScanFailureSticks(rows, i + 1, mapping, county, state, show, dateOf);
        return Failure(step.error), [];
      }
      seen := step.value;
      i := i + 1;
    }
    ScanBounds(rows, |rows|, mapping, county, state, show, dateOf);
    var validRows := ValidRows(seen);
    var dupes := |rows| - seen.skipped - |validRows|;
    var imported, errors;
    sent, imported, errors := SendBatches(validRows, batchOk);
    r := Success(Summary(imported, seen.skipped, errors, dupes));
  }

  /** Once a row fails, the scan fails from then on: the first failure is the scan's. */
  lemma {:induction false} ScanFailureSticks(rows: seq<Row>, n: nat, mapping: Mapping, county: string, state: string,
                          show: real -> string, dateOf: Val -> Option<string>)
    requires !mapping.NoMapping? && 0 < n <= |rows|
    requires Scan(rows, n - 1, mapping, county, state, show, dateOf).Success?
    requires Step(Scan(rows, n - 1, mapping, county, state, show, dateOf).value, rows[n - 1],
                  mapping, county, state, show, dateOf).Failure?
    ensures Scan(rows, |rows|, mapping, county, state, show, dateOf) ==
      Failure(Step(Scan(rows, n - 1, mapping, county, state, show, dateOf).value, rows[n - 1],
                   mapping, county, state, show, dateOf).error)
    decreases |rows| - n
  {
    if n < |rows| {
      ScanFailureSticksFrom(rows, n, |rows|, mapping, county, state, show, dateOf);
    }
  }

  lemma {:induction false} ScanFailureSticksFrom(rows: seq<Row>, n: nat, m: nat, mapping: Mapping, county: string,
                                                 state: string, show: real -> string, dateOf: Val -> Option<string>)
    requires !mapping.NoMapping? && 0 < n <= m <= |rows|
    requires Scan(rows, n, mapping, county, state, show, dateOf).Failure?
    ensures Scan(rows, m, mapping, county, state, show, dateOf) == Scan(rows, n, mapping, county, state, show, dateOf)
    decreases m - n
  {
    if m > n {
      ScanFailureSticksFrom(rows, n, m - 1, mapping, county, state, show, dateOf);
    }
  }
}
