/**
 * The in-memory SQL pools used by the tests, `tests/utils/mockDatabase.ts` and its older
 * `tests/utils/mockDatabase.js`: the stored row, the dispatch of a statement on its trimmed,
 * upper-cased text, and `Respond`, what one call of `query` answers and leaves in the table.
 * The two pools differ only in the per-user listing, which the `Dialect` selects.
 */
module MockRows {
  import opened Wrappers
  import opened JsText
  import opened JsValues
  import opened InsertionOrder

  /** A stored property row; `createdAt`/`updatedAt` come from `new Date().toISOString()`. */
  datatype Row = Row(
    id: JsValue, userId: JsValue,
    address: JsValue, city: JsValue, state: JsValue, zipCode: JsValue, country: JsValue,
    lat: JsValue, lng: JsValue,
    createdAt: string, updatedAt: string)

  /** The fields of a registered assessment; an absent optional field is `Undefined`. */
  datatype Assessment = Assessment(
    id: JsValue, year: JsValue,
    appraisedValue: JsValue, annualTax: JsValue,
    estimatedAppraisedValue: JsValue, estimatedAnnualTax: JsValue,
    reportUrl: JsValue, status: JsValue, createdAt: JsValue, updatedAt: JsValue)

  /** A result row: a stored row, `{ user_id }`, or a stored row with its assessment columns. */
  datatype OutRow = Stored(row: Row) | Owner(userId: JsValue) | Joined(row: Row, assessment: Assessment)

  datatype QueryResult = QueryResult(rows: seq<OutRow>, rowCount: nat)

  const NoRows := QueryResult([], 0)

  /** Indexing or destructuring `params` when it is `undefined` throws a TypeError. */
  datatype Thrown = TypeError

  /** The branch of `query` a statement takes. */
  datatype Command = ClearAll | DeleteById | Insert | SelectForUser | SelectById | SelectOwner | UpdateById | Unrecognised

  const DeletePrefix := "DELETE FROM PROPERTIES"
  const DeleteWherePrefix := "DELETE FROM PROPERTIES WHERE"
  const InsertPrefix := "INSERT INTO PROPERTIES"
  const UserOrder := "ORDER BY CREATED_AT DESC"
  const AliasedUserOrder := "ORDER BY P.CREATED_AT DESC"
  const SelectByIdPrefix := "SELECT ID, USER_ID"
  const SelectOwnerPrefix := "SELECT USER_ID FROM PROPERTIES"
  const UpdatePrefix := "UPDATE PROPERTIES"

  /** `sql.trim().toUpperCase()`. */
  function Normalised(sql: string): string {
    UpperStr(Trim(sql))
  }

  /** Whether the statement lists one user's rows; `aliased` also accepts the `p.`-qualified order. */
  predicate ListsForUser(u: string, aliased: bool) {
    (aliased && Contains(u, AliasedUserOrder)) || Contains(u, UserOrder)
  }

  /**
   * The checks of `query`, in order; the first that holds decides. `paramsGiven` is
   * `!!params`; `aliased` is whether the `p.created_at` ordering is recognised.
   */
  function Classify(u: string, paramsGiven: bool, aliased: bool): (c: Command)
    ensures c == ClearAll <==> StartsWith(u, DeletePrefix) && !paramsGiven
    ensures c == DeleteById <==> StartsWith(u, DeleteWherePrefix) && paramsGiven
    ensures c == Unrecognised ==>
      !StartsWith(u, DeleteWherePrefix) && !StartsWith(u, InsertPrefix) && !ListsForUser(u, aliased) &&
      !StartsWith(u, SelectByIdPrefix) && !StartsWith(u, SelectOwnerPrefix) && !StartsWith(u, UpdatePrefix)
  {
    WhereExtendsDelete(u);
    if StartsWith(u, DeletePrefix) && !paramsGiven then ClearAll
    else if StartsWith(u, DeleteWherePrefix) then DeleteById
    else if StartsWith(u, InsertPrefix) then Insert
    else if ListsForUser(u, aliased) then SelectForUser
    else if StartsWith(u, SelectByIdPrefix) then SelectById
    else if StartsWith(u, SelectOwnerPrefix) then SelectOwner
    else if StartsWith(u, UpdatePrefix) then UpdateById
    else Unrecognised
  }

  /** A statement that starts with `DELETE FROM PROPERTIES WHERE` starts with `DELETE FROM PROPERTIES`. */
  lemma {:induction false} WhereExtendsDelete(u: string)
    ensures StartsWith(u, DeleteWherePrefix) ==> StartsWith(u, DeletePrefix)
  {
    var d, w := DeletePrefix, DeleteWherePrefix;
    if StartsWith(u, w) {
      assert w == d + " WHERE";
      assert u[..|d|] == w[..|d|];
    }
  }

  /** Without parameters even a `DELETE … WHERE` statement clears every row. */
  lemma {:induction false} DeleteWhereWithoutParamsClears(u: string, aliased: bool)
    requires StartsWith(u, DeleteWherePrefix)
    ensures Classify(u, false, aliased) == ClearAll
  {
    WhereExtendsDelete(u);
  }

  /** The seven fields an INSERT sets after the id and owner, and an UPDATE may change. */
  function Editable(r: Row): (fields: seq<JsValue>)
    ensures |fields| == 7
  {
    [r.address, r.city, r.state, r.zipCode, r.country, r.lat, r.lng]
  }

  /** The row an INSERT stores: the nine parameters in order, `undefined` past the end. */
  function InsertedRow(params: seq<JsValue>, now: string): (r: Row)
    ensures r.id == At(params, 0) && r.userId == At(params, 1)
    ensures r.createdAt == now && r.updatedAt == now
    ensures forall i :: 0 <= i < 7 ==> Editable(r)[i] == At(params, i + 2)
    ensures |params| >= 9 ==> Editable(r) == params[2..9]
  {
    Row(At(params, 0), At(params, 1), At(params, 2), At(params, 3), At(params, 4),
        At(params, 5), At(params, 6), At(params, 7), At(params, 8), now, now)
  }

  /** `given !== null ? given : current`: only `null` keeps the stored value. */
  function UnlessNull(given: JsValue, current: JsValue): (r: JsValue)
    ensures given != Null ==> r == given
    ensures given == Null ==> r == current
  {
    if given != Null then given else current
  }

  /** One field of an UPDATE: a `null` parameter keeps the stored value, any other value replaces it. */
  predicate NullKeeps(given: JsValue, current: JsValue, stored: JsValue) {
    (given == Null ==> stored == current) && (given != Null ==> stored == given)
  }

  /** The id an UPDATE names: its last parameter (`undefined` when there are none). */
  function UpdateKey(params: seq<JsValue>): (k: JsValue)
    ensures params != [] ==> k == params[|params| - 1]
    ensures params == [] ==> k == Undefined
  {
    At(params, |params| - 1)
  }

  /**
   * The row an UPDATE stores: the first seven parameters replace address, city, state,
   * zipCode, country, lat and lng unless they are `null`; the identity and `createdAt` stay.
   */
  function UpdatedRow(row: Row, params: seq<JsValue>, now: string): (r: Row)
    ensures r.id == row.id && r.userId == row.userId && r.createdAt == row.createdAt && r.updatedAt == now
    ensures forall i :: 0 <= i < 7 ==> NullKeeps(At(params, i), Editable(row)[i], Editable(r)[i])
    ensures (forall i :: 0 <= i < 7 ==> At(params, i) == Null) ==> r == row.(updatedAt := now)
  {
    row.(address := UnlessNull(At(params, 0), row.address),
         city := UnlessNull(At(params, 1), row.city),
         state := UnlessNull(At(params, 2), row.state),
         zipCode := UnlessNull(At(params, 3), row.zipCode),
         country := UnlessNull(At(params, 4), row.country),
         lat := UnlessNull(At(params, 5), row.lat),
         lng := UnlessNull(At(params, 6), row.lng),
         updatedAt := now)
  }

  /** A parameter list shorter than seven replaces the missing fields with `undefined`, since only `null` keeps. */
  lemma {:induction false} ShortUpdateClears(row: Row, params: seq<JsValue>, now: string)
    requires |params| <= 6
    ensures UpdatedRow(row, params, now).lng == Undefined
  {
  }

  /** The stored rows, in key order, whose `userId` is `===` the given one. */
  function ForUser(order: seq<JsValue>, rows: map<JsValue, Row>, userId: JsValue): (r: seq<Row>)
    requires forall k :: k in order ==> k in rows
    ensures |r| <= |order|
    ensures forall p :: p in r ==> StrictEquals(p.userId, userId)
  {
    if order == [] then []
    else
      var p := rows[order[0]];
      (if StrictEquals(p.userId, userId) then [p] else []) + ForUser(order[1..], rows, userId)
  }

  /** The listing holds exactly the stored rows of that user. */
  lemma {:induction false} ForUserExactly(order: seq<JsValue>, rows: map<JsValue, Row>, userId: JsValue, p: Row)
    requires forall k :: k in order ==> k in rows
    ensures p in ForUser(order, rows, userId) <==>
      StrictEquals(p.userId, userId) && exists k :: k in order && rows[k] == p
  {
    if order != [] {
      ForUserExactly(order[1..], rows, userId, p);
      if StrictEquals(p.userId, userId) && rows[order[0]] != p {
        assert (exists k :: k in order && rows[k] == p) ==> exists k :: k in order[1..] && rows[k] == p;
      }
    }
  }

  /** Nothing is `===` NaN, so a NaN user id lists no rows. */
  lemma {:induction false} NaNUserListsNothing(order: seq<JsValue>, rows: map<JsValue, Row>)
    requires forall k :: k in order ==> k in rows
    ensures ForUser(order, rows, NotANumber) == []
  {
    if order != [] {
      NaNUserListsNothing(order[1..], rows);
    }
  }

  /** The rows `SELECT ID, USER_ID …` returns: the row under that id, if any. */
  function RowById(rows: map<JsValue, Row>, id: JsValue): (r: QueryResult)
    ensures id in rows <==> r.rowCount == 1
    ensures id in rows ==> r.rows == [Stored(rows[id])]
    ensures id !in rows ==> r == NoRows
  {
    if id in rows then QueryResult([Stored(rows[id])], 1) else NoRows
  }

  /** The rows `SELECT USER_ID FROM PROPERTIES …` returns: `[{ user_id }]` when the row exists. */
  function OwnerById(rows: map<JsValue, Row>, id: JsValue): (r: QueryResult)
    ensures id in rows <==> r.rowCount == 1
    ensures id in rows ==> r.rows == [Owner(rows[id].userId)]
    ensures id !in rows ==> r == NoRows
  {
    if id in rows then QueryResult([Owner(rows[id].userId)], 1) else NoRows
  }

  // ---------------------------------------------------------------------------
  // The assessment join of the TypeScript pool

  /** The ten assessment fields, in declaration order. */
  function Fields(a: Assessment): (r: seq<JsValue>)
    ensures |r| == 10
  {
    [a.id, a.year, a.appraisedValue, a.annualTax, a.estimatedAppraisedValue, a.estimatedAnnualTax,
     a.reportUrl, a.status, a.createdAt, a.updatedAt]
  }

  /**
   * The assessment columns of a listed row, each `assessment?.field || null`: null without an
   * assessment, and a falsy field (0, '', …) becomes null too.
   */
  function Columns(a: Option<Assessment>): (c: Assessment)
    ensures forall i :: 0 <= i < 10 ==> Fields(c)[i] == Null || Truthy(Fields(c)[i])
    ensures a.None? ==> forall i :: 0 <= i < 10 ==> Fields(c)[i] == Null
    ensures a.Some? ==> forall i :: 0 <= i < 10 ==>
      (Truthy(Fields(a.value)[i]) ==> Fields(c)[i] == Fields(a.value)[i]) &&
      (!Truthy(Fields(a.value)[i]) ==> Fields(c)[i] == Null)
  {
    match a
    case None => Assessment(Null, Null, Null, Null, Null, Null, Null, Null, Null, Null)
    case Some(x) =>
      Assessment(Or(x.id, Null), Or(x.year, Null), Or(x.appraisedValue, Null), Or(x.annualTax, Null),
        Or(x.estimatedAppraisedValue, Null), Or(x.estimatedAnnualTax, Null), Or(x.reportUrl, Null),
        Or(x.status, Null), Or(x.createdAt, Null), Or(x.updatedAt, Null))
  }

  /** `mockAssessments.get(p.id)`: only a string id can name a registered assessment. */
  function AssessmentOf(assessments: map<string, Assessment>, id: JsValue): (r: Option<Assessment>)
    ensures r.Some? <==> id.Str? && id.s in assessments
    ensures r.Some? ==> r.value == assessments[id.s]
  {
    if id.Str? && id.s in assessments then Some(assessments[id.s]) else None
  }

  // ---------------------------------------------------------------------------
  // One call of `query`

  /** The rows `mockData` holds: its keys in insertion order and its entries. */
  datatype Table = Table(order: seq<JsValue>, rows: map<JsValue, Row>)

  /** Each key once, the same keys in both, and every row stored under its own id. */
  ghost predicate WellFormed(t: Table) {
    NoDuplicates(t.order) &&
    (forall k :: k in t.order <==> k in t.rows) &&
    (forall k :: k in t.rows ==> t.rows[k].id == k)
  }

  const Empty := Table([], map[])

  /** `mockData.delete(id)`. */
  function Delete(t: Table, id: JsValue): (r: Table)
    requires WellFormed(t)
    ensures WellFormed(r) && r.rows == t.rows - {id}
  {
    Table(Without(t.order, id), t.rows - {id})
  }

  /** `mockData.set(row.id, row)`. */
  function Store(t: Table, row: Row): (r: Table)
    requires WellFormed(t)
    ensures WellFormed(r) && r.rows == t.rows[row.id := row]
  {
    Table(Put(t.order, row.id), t.rows[row.id := row])
  }

  /** Which pool: the TypeScript one with its assessments, or the older JavaScript one. */
  datatype Dialect = WithAssessments(assessments: map<string, Assessment>) | Legacy

  /** The per-user listing: that user's rows in key order, joined with their assessments or as stored. */
  function Listing(t: Table, dialect: Dialect, userId: JsValue): (r: seq<OutRow>)
    requires WellFormed(t)
    ensures |r| == |ForUser(t.order, t.rows, userId)|
    ensures forall i :: 0 <= i < |r| ==> var p := ForUser(t.order, t.rows, userId)[i];
      r[i] == (if dialect.Legacy? then Stored(p) else Joined(p, Columns(AssessmentOf(dialect.assessments, p.id))))
  {
    var owned := ForUser(t.order, t.rows, userId);
    match dialect
    case Legacy => seq(|owned|, i requires 0 <= i < |owned| => Stored(owned[i]))
    case WithAssessments(a) => seq(|owned|, i requires 0 <= i < |owned| => Joined(owned[i], Columns(AssessmentOf(a, owned[i].id))))
  }

  /** What a call answers, and the table it leaves. */
  datatype Reply = Reply(result: Result<QueryResult, Thrown>, after: Table)

  /** One call of `query(sql, params)`: the branch `Classify` picks, acting on the table. */
  function Respond(t: Table, dialect: Dialect, sql: string, params: Option<seq<JsValue>>, now: string): (r: Reply)
    requires WellFormed(t)
    ensures WellFormed(r.after)
  {
    Dispatch(t, dialect, Classify(Normalised(sql), params.Some?, dialect.WithAssessments?), params, now)
  }

  /** What the branch `c` does; every branch but the clear reads `params` and throws without it. */
  function Dispatch(t: Table, dialect: Dialect, c: Command, params: Option<seq<JsValue>>, now: string): (r: Reply)
    requires WellFormed(t)
    requires c == ClearAll ==> params.None?
    ensures WellFormed(r.after)
  {
    if c == ClearAll then Reply(Success(NoRows), Empty)
    else if c == Unrecognised then Reply(Success(NoRows), t)
    else if params.None? then Reply(Failure(TypeError), t)
    else
      var ps := params.value;
      match c
      case DeleteById => DeleteReply(t, At(ps, 0))
      case Insert => InsertReply(t, InsertedRow(ps, now))
      case SelectForUser =>
        var listed := Listing(t, dialect, At(ps, 0));
        Reply(Success(QueryResult(listed, |listed|)), t)
      case SelectById => Reply(Success(RowById(t.rows, At(ps, 0))), t)
      case SelectOwner => Reply(Success(OwnerById(t.rows, At(ps, 0))), t)
      case UpdateById => UpdateReply(t, ps, now)
  }

  /** DELETE by id: the row goes; the count says whether it was there. */
  function DeleteReply(t: Table, id: JsValue): (r: Reply)
    requires WellFormed(t)
    ensures WellFormed(r.after)
  {
    Reply(Success(QueryResult([], if id in t.rows then 1 else 0)), Delete(t, id))
  }

  /** INSERT: the row is stored under its id, replacing any row with that id, and returned. */
  function InsertReply(t: Table, row: Row): (r: Reply)
    requires WellFormed(t)
    ensures WellFormed(r.after)
  {
    Reply(Success(QueryResult([Stored(row)], 1)), Store(t, row))
  }

  /** UPDATE: nothing for an unknown id; otherwise the updated row replaces the stored one and is returned. */
  function UpdateReply(t: Table, ps: seq<JsValue>, now: string): (r: Reply)
    requires WellFormed(t)
    ensures WellFormed(r.after)
  {
    var id := UpdateKey(ps);
    if id !in t.rows then Reply(Success(NoRows), t)
    else
      var row := UpdatedRow(t.rows[id], ps, now);
      Reply(Success(QueryResult([Stored(row)], 1)), Store(t, row))
  }

  // ---------------------------------------------------------------------------
  // What `query` promises

  /** A statement no branch recognises returns no rows and changes nothing. */
  lemma {:induction false} UnrecognisedChangesNothing(t: Table, dialect: Dialect, sql: string, params: Option<seq<JsValue>>, now: string)
    requires WellFormed(t)
    requires Classify(Normalised(sql), params.Some?, dialect.WithAssessments?) == Unrecognised
    ensures Respond(t, dialect, sql, params, now) == Reply(Success(NoRows), t)
  {
  }

  /** A DELETE without parameters empties the table, whatever follows the table name, and returns nothing. */
  lemma {:induction false} ClearEmpties(t: Table, dialect: Dialect, sql: string, now: string)
    requires WellFormed(t) && StartsWith(Normalised(sql), DeletePrefix)
    ensures Respond(t, dialect, sql, None, now) == Reply(Success(NoRows), Empty)
  {
  }

  /** A DELETE by id removes that row and no other; the count says whether it was there. */
  lemma {:induction false} DeleteRemovesOnlyThatRow(t: Table, dialect: Dialect, sql: string, ps: seq<JsValue>, now: string)
    requires WellFormed(t) && StartsWith(Normalised(sql), DeleteWherePrefix)
    ensures var r := Respond(t, dialect, sql, Some(ps), now);
      r.result.Success? && r.result.value.rows == [] &&
      (r.result.value.rowCount == 1 <==> At(ps, 0) in t.rows) &&
      (forall k :: k in r.after.rows <==> k in t.rows && k != At(ps, 0)) &&
      (forall k :: k in r.after.rows ==> r.after.rows[k] == t.rows[k])
  {
  }

  /** An INSERT stores its row under the first parameter, replacing any row with that id, and returns it. */
  lemma {:induction false} InsertStoresRow(t: Table, dialect: Dialect, sql: string, ps: seq<JsValue>, now: string)
    requires WellFormed(t) && Classify(Normalised(sql), true, dialect.WithAssessments?) == Insert
    ensures var r, row := Respond(t, dialect, sql, Some(ps), now), InsertedRow(ps, now);
      r.result == Success(QueryResult([Stored(row)], 1)) &&
      r.after.rows == t.rows[At(ps, 0) := row] &&
      (At(ps, 0) in t.rows ==> r.after.order == t.order) &&
      (At(ps, 0) !in t.rows ==> r.after.order == t.order + [At(ps, 0)])
  {
  }

  /** An UPDATE of an unknown id returns no rows and changes nothing. */
  lemma {:induction false} UpdateOfUnknownIdChangesNothing(t: Table, dialect: Dialect, sql: string, ps: seq<JsValue>, now: string)
    requires WellFormed(t) && Classify(Normalised(sql), true, dialect.WithAssessments?) == UpdateById
    requires UpdateKey(ps) !in t.rows
    ensures Respond(t, dialect, sql, Some(ps), now) == Reply(Success(NoRows), t)
  {
  }

  /**
   * An UPDATE of a stored id changes only that row: a null parameter keeps a field, any other
   * value replaces it, and the id, owner and creation time stay; the key order is unchanged.
   */
  lemma {:induction false} UpdateChangesOnlyThatRow(t: Table, dialect: Dialect, sql: string, ps: seq<JsValue>, now: string)
    requires WellFormed(t) && Classify(Normalised(sql), true, dialect.WithAssessments?) == UpdateById
    requires UpdateKey(ps) in t.rows
    ensures var id, r := UpdateKey(ps), Respond(t, dialect, sql, Some(ps), now);
      r.after.order == t.order && r.after.rows.Keys == t.rows.Keys &&
      (forall k :: k in t.rows && k != id ==> r.after.rows[k] == t.rows[k]) &&
      id in r.after.rows &&
      var prior, updated := t.rows[id], r.after.rows[id];
      updated.id == prior.id && updated.userId == prior.userId && updated.createdAt == prior.createdAt &&
      updated.updatedAt == now &&
      (forall i :: 0 <= i < 7 ==> NullKeeps(At(ps, i), Editable(prior)[i], Editable(updated)[i])) &&
      r.result == Success(QueryResult([Stored(updated)], 1))
  {
    assert Respond(t, dialect, sql, Some(ps), now) == UpdateReply(t, ps, now);
    var id := UpdateKey(ps);
    assert UpdateReply(t, ps, now).after.rows[id] == UpdatedRow(t.rows[id], ps, now);
  }

  /** The per-user listing returns exactly that user's stored rows. */
  lemma {:induction false} ListingIsThatUsersRows(t: Table, dialect: Dialect, userId: JsValue, i: nat)
    requires WellFormed(t) && i < |Listing(t, dialect, userId)|
    ensures var o := Listing(t, dialect, userId)[i];
      StrictEquals(o.row.userId, userId) && (exists k :: k in t.rows && t.rows[k] == o.row)
  {
    var owned := ForUser(t.order, t.rows, userId);
    assert owned[i] in owned;
    ForUserExactly(t.order, t.rows, userId, owned[i]);
  }
}
