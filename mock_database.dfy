/**
 * The pool of `tests/utils/mockDatabase.ts`: `mockData`, the property rows keyed by id in
 * insertion order, and `mockAssessments`, one assessment per property id. Its per-user
 * listing also accepts `ORDER BY p.created_at DESC` and joins each row with its assessment.
 * `new Date()` is the `now` parameter.
 */
module MockDatabase {
  import opened Wrappers
  import opened JsValues
  import opened InsertionOrder
  import opened MockRows

  class MockPool {
    /** The keys of `mockData`, in insertion order. */
    var order: seq<JsValue>
    /** `mockData`. */
    var rows: map<JsValue, Row>
    /** `mockAssessments`. */
    var assessments: map<string, Assessment>

    ghost predicate Valid()
      reads this
    {
      WellFormed(Table(order, rows))
    }

    constructor ()
      ensures Valid() && order == [] && rows == map[] && assessments == map[]
    {
      order := [];
      rows := map[];
      assessments := map[];
    }

    /** `addMockAssessment`: one assessment per property; a later one replaces an earlier one. */
    method AddAssessment(propertyId: string, a: Assessment)
      modifies this
      ensures assessments == old(assessments)[propertyId := a]
      ensures order == old(order) && rows == old(rows)
    {
      assessments := assessments[propertyId := a];
    }

    /** `clearMockAssessments`. */
    method ClearAssessments()
      modifies this
      ensures assessments == map[]
      ensures order == old(order) && rows == old(rows)
    {
      assessments := map[];
    }

    /**
     * `query(sql, params)`: the branch the statement selects acts on `mockData` in place,
     * as `Respond` describes. The assessments are never changed by a query.
     */
    method Query(sql: string, params: Option<seq<JsValue>>, now: string) returns (r: Result<QueryResult, Thrown>)
      requires Valid()
      modifies this
      ensures Valid() && assessments == old(assessments)
      ensures Reply(r, Table(order, rows)) == Respond(Table(old(order), old(rows)), WithAssessments(assessments), sql, params, now)
    {
      var c := Classify(Normalised(sql), params.Some?, true);
      if c == ClearAll {
        order, rows := [], map[];
        r := Success(NoRows);
        return;
      }
      if c == Unrecognised {
        r := Success(NoRows);
        return;
      }
      if params.None? {
        r := Failure(TypeError);
        return;
      }
      var ps := params.value;
      match c {
        case DeleteById =>
          r := DeleteRow(At(ps, 0));
        case Insert =>
          r := InsertRow(InsertedRow(ps, now));
        case SelectForUser =>
          var listed := Listing(Table(order, rows), WithAssessments(assessments), At(ps, 0));
          r := Success(QueryResult(listed, |listed|));
        case SelectById =>
          r := Success(RowById(rows, At(ps, 0)));
        case SelectOwner =>
          r := Success(OwnerById(rows, At(ps, 0)));
        case UpdateById =>
          r := UpdateRow(ps, now);
      }
    }

    /** `mockData.delete(id)`, answering whether the row was there. */
    method DeleteRow(id: JsValue) returns (r: Result<QueryResult, Thrown>)
      requires Valid()
      modifies this
      ensures Valid() && assessments == old(assessments)
      ensures Reply(r, Table(order, rows)) == DeleteReply(Table(old(order), old(rows)), id)
    {
      r := Success(QueryResult([], if id in rows then 1 else 0));
      order, rows := Without(order, id), rows - {id};
    }

    /** `mockData.set(row.id, row)`, answering with the row. */
    method InsertRow(row: Row) returns (r: Result<QueryResult, Thrown>)
      requires Valid()
      modifies this
      ensures Valid() && assessments == old(assessments)
      ensures Reply(r, Table(order, rows)) == InsertReply(Table(old(order), old(rows)), row)
    {
      order, rows := Put(order, row.id), rows[row.id := row];
      r := Success(QueryResult([Stored(row)], 1));
    }

    /** The UPDATE branch: the row named by the last parameter, if stored, is updated in place. */
    method UpdateRow(ps: seq<JsValue>, now: string) returns (r: Result<QueryResult, Thrown>)
      requires Valid()
      modifies this
      ensures Valid() && assessments == old(assessments)
      ensures Reply(r, Table(order, rows)) == UpdateReply(Table(old(order), old(rows)), ps, now)
    {
      var id := UpdateKey(ps);
      if id !in rows {
        r := Success(NoRows);
      } else {
        var row := UpdatedRow(rows[id], ps, now);
        order, rows := Put(order, row.id), rows[row.id := row];
        r := Success(QueryResult([Stored(row)], 1));
      }
    }
  }
}
