/**
 * The older pool of `tests/utils/mockDatabase.js`: only `mockData`, the property rows keyed by
 * id in insertion order. Its per-user listing is recognised only by `ORDER BY CREATED_AT DESC`
 * and returns the rows as stored. `new Date()` is the `now` parameter.
 */
module LegacyMockDatabase {
  import opened Wrappers
  import opened JsValues
  import opened InsertionOrder
  import opened MockRows

  class MockPool {
    /** The keys of `mockData`, in insertion order. */
    var order: seq<JsValue>
    /** `mockData`. */
    var rows: map<JsValue, Row>

    ghost predicate Valid()
      reads this
    {
      WellFormed(Table(order, rows))
    }

    constructor ()
      ensures Valid() && order == [] && rows == map[]
    {
      order := [];
      rows := map[];
    }

    /**
     * `query(sql, params)`: the branch the statement selects acts on `mockData` in place,
     * as `Respond` describes.
     */
    method Query(sql: string, params: Option<seq<JsValue>>, now: string) returns (r: Result<QueryResult, Thrown>)
      requires Valid()
      modifies this
      ensures Valid()
      ensures Reply(r, Table(order, rows)) == Respond(Table(old(order), old(rows)), Legacy, sql, params, now)
    {
      var c := Classify(Normalised(sql), params.Some?, false);
      if c == ClearAll {
        order, rows := [], map[];
        r := Success(NoRows);
        return;
      }
      if c == Unrecognised {
        r := Success(NoRows);
        return;
      }
      if params.None? {
        r := Failure(TypeError);
        return;
      }
      var ps := params.value;
      match c {
        case DeleteById =>
          r := DeleteRow(At(ps, 0));
        case Insert =>
          r := InsertRow(InsertedRow(ps, now));
        case SelectForUser =>
          var listed := Listing(Table(order, rows), Legacy, At(ps, 0));
          r := Success(QueryResult(listed, |listed|));
        case SelectById =>
          r := Success(RowById(rows, At(ps, 0)));
        case SelectOwner =>
          r := Success(OwnerById(rows, At(ps, 0)));
        case UpdateById =>
          r := UpdateRow(ps, now);
      }
    }

    /** `mockData.delete(id)`, answering whether the row was there. */
    method DeleteRow(id: JsValue) returns (r: Result<QueryResult, Thrown>)
      requires Valid()
      modifies this
      ensures Valid()
      ensures Reply(r, Table(order, rows)) == DeleteReply(Table(old(order), old(rows)), id)
    {
      r := Success(QueryResult([], if id in rows then 1 else 0));
      order, rows := Without(order, id), rows - {id};
    }

    /** `mockData.set(row.id, row)`, answering with the row. */
    method InsertRow(row: Row) returns (r: Result<QueryResult, Thrown>)
      requires Valid()
      modifies this
      ensures Valid()
      ensures Reply(r, Table(order, rows)) == InsertReply(Table(old(order), old(rows)), row)
    {
      order, rows := Put(order, row.id), rows[row.id := row];
      r := Success(QueryResult([Stored(row)], 1));
    }

    /** The UPDATE branch: the row named by the last parameter, if stored, is updated in place. */
    method UpdateRow(ps: seq<JsValue>, now: string) returns (r: Result<QueryResult, Thrown>)
      requires Valid()
      modifies this
      ensures Valid()
      ensures Reply(r, Table(order, rows)) == UpdateReply(Table(old(order), old(rows)), ps, now)
    {
      var id := UpdateKey(ps);
      if id !in rows {
        r := Success(NoRows);
      } else {
        var row := UpdatedRow(rows[id], ps, now);
        order, rows := Put(order, row.id), rows[row.id := row];
        r := Success(QueryResult([Stored(row)], 1));
      }
    }
  }
}
