/** The `/rfps` routes: create (directly or from natural language), list newest
    first, get, partial update and delete. Each route is one request handled
    against the shared database; a route that raises leaves it unchanged. */
module RfpsRouter {
  import opened Common
  import opened Records
  import opened Tables
  import opened Store
  import opened AiService

  const RfpNotFound := HttpError(404, "RFP not found")
  const FromTextPrefix := "Failed to create RFP: "

  // ---------------------------------------------------------------------------
  // POST /rfps/from-text
  // ---------------------------------------------------------------------------

  /** What `create_rfp_from_text` inserts, or the detail of its 400: the AI step's
      error (already prefixed by the helper) or the validation error of
      `RFPCreate(**parsed_data)`, both behind "Failed to create RFP: ". */
  function FromTextOutcome<J>(reply: Result<string, string>, loads: string -> Result<J, string>,
                              validate: J -> Result<RfpCreate, string>): (r: Result<RfpCreate, string>)
    ensures r.Err? ==> StartsWith(r.error, FromTextPrefix)
    ensures reply.Err? ==> r == Err(FromTextPrefix + (ParseRfpPrefix + reply.error))
    ensures r.Ok? ==> (ParseNaturalLanguageToRfp(reply, loads).Ok?
      && validate(ParseNaturalLanguageToRfp(reply, loads).value) == Ok(r.value))
  {
    match ParseNaturalLanguageToRfp(reply, loads)
    case Err(e) => Err(FromTextPrefix + e)
    case Ok(j) =>
      match validate(j)
      case Err(e) => Err(FromTextPrefix + e)
      case Ok(c) => Ok(c)
  }

  /** `create_rfp_from_text`: `reply` is the completion for the prompt built from
      the request text; `loads` and `validate` are `json.loads` and the schema. */
  method CreateRfpFromText<J>(db: Database, reply: Result<string, string>, loads: string -> Result<J, string>,
                              validate: J -> Result<RfpCreate, string>, now: int)
    returns (r: Result<Rfp, HttpError>)
    requires db.Valid()
    modifies db
    ensures db.Valid()
    ensures FromTextOutcome(reply, loads, validate).Err? ==>
      && r == Err(HttpError(400, FromTextOutcome(reply, loads, validate).error))
      && unchanged(db)
    ensures FromTextOutcome(reply, loads, validate).Ok? ==>
      && r == Ok(NewRfp(old(db.nextRfpId), FromTextOutcome(reply, loads, validate).value, now))
      && db.rfps == old(db.rfps)[r.value.id := r.value]
      && old(db.nextRfpId) !in old(db.rfps)
      && db.vendors == old(db.vendors) && db.proposals == old(db.proposals)
  {
    var outcome := FromTextOutcome(reply, loads, validate);
    if outcome.Err? {
      return Err(HttpError(400, outcome.error));
    }
    var row := db.AddRfp(outcome.value, now);
    r := Ok(row);
  }

  // ---------------------------------------------------------------------------
  // POST /rfps, GET /rfps, GET /rfps/{id}
  // ---------------------------------------------------------------------------

  /** `create_rfp`: exactly one new row holding the given fields, status "draft". */
  method CreateRfp(db: Database, c: RfpCreate, now: int) returns (row: Rfp)
    requires db.Valid()
    modifies db
    ensures db.Valid()
    ensures row == NewRfp(old(db.nextRfpId), c, now) && old(db.nextRfpId) !in old(db.rfps)
    ensures db.rfps == old(db.rfps)[row.id := row]
    ensures db.vendors == old(db.vendors) && db.proposals == old(db.proposals)
  {
    row := db.AddRfp(c, now);
  }

  function AllRfps(r: Rfp): bool { true }

  /** `list_rfps`: every row exactly once, newest `created_at` first. */
  method ListRfps(db: Database) returns (rows: seq<Rfp>)
    requires db.Valid()
    ensures NewestFirst(rows)
    ensures |rows| == |db.rfps|
    ensures forall k :: k in db.rfps ==> db.rfps[k] in rows
    ensures forall r :: r in rows ==> r.id in db.rfps && db.rfps[r.id] == r
  {
    var ids := Scan(db.rfps, AllRfps, 1, db.nextRfpId);
    var table := RowsAt(db.rfps, ids);
    rows := SortNewestFirst(table);
    ScanCoversTable(db.rfps, AllRfps, db.nextRfpId);
    TableRows(db.rfps, ids, table);
    SameElements(table, rows);
  }

  /** The rows read back from a full scan are exactly the table's rows. */
  lemma TableRows(m: map<int, Rfp>, ids: seq<int>, table: seq<Rfp>)
    requires forall k :: k in m ==> m[k].id == k
    requires forall k :: k in ids <==> k in m
    requires forall i :: 0 <= i < |ids| ==> ids[i] in m
    requires table == RowsAt(m, ids)
    ensures forall k :: k in m ==> m[k] in table
    ensures forall r :: r in table ==> r.id in m && m[r.id] == r
  {
    forall k | k in m ensures m[k] in table {
      var i :| 0 <= i < |ids| && ids[i] == k;
      assert table[i] == m[k];
    }
    forall r | r in table ensures r.id in m && m[r.id] == r {
      var i :| 0 <= i < |table| && table[i] == r;
      var k := ids[i];
      assert k in m && r == m[k];
      assert m[k].id == k;
    }
  }

  /** `get_rfp`. */
  method GetRfp(db: Database, id: int) returns (r: Result<Rfp, HttpError>)
    ensures id in db.rfps ==> r == Ok(db.rfps[id])
    ensures id !in db.rfps ==> r == Err(RfpNotFound)
  {
    var found := db.RfpAt(id);
    if found.None? {
      return Err(RfpNotFound);
    }
    r := Ok(found.value);
  }

  // ---------------------------------------------------------------------------
  // PUT /rfps/{id}, DELETE /rfps/{id}
  // ---------------------------------------------------------------------------

  /** `for field, value in update_data.items(): setattr(rfp, field, value)`. */
  method ApplyRfpUpdate(row: Rfp, data: seq<RfpAssign>) returns (out: Rfp)
    ensures out == RfpPatched(row, data)
    ensures out.id == row.id && out.createdAt == row.createdAt
  {
    out := row;
    for i := 0 to |data|
      invariant out == RfpPatched(row, data[..i])
      invariant out.id == row.id && out.createdAt == row.createdAt
    {
      assert data[..i + 1][..i] == data[..i];
      out := SetRfpColumn(out, data[i]);
    }
    assert data[..|data|] == data;
  }

  /** `update_rfp`: a missing id is a 404; otherwise the named columns change and
      the commit stores the row, unless it would leave `title` NULL. */
  method UpdateRfp(db: Database, id: int, data: seq<RfpAssign>) returns (r: Result<Rfp, HttpError>)
    requires db.Valid()
    modifies db
    ensures db.Valid()
    ensures id !in old(db.rfps) ==> r == Err(RfpNotFound) && unchanged(db)
    ensures id in old(db.rfps) && !Storable(RfpPatched(old(db.rfps[id]), data)) ==>
      r == Err(CommitRejected) && unchanged(db)
    ensures id in old(db.rfps) && Storable(RfpPatched(old(db.rfps[id]), data)) ==>
      && r == Ok(RfpPatched(old(db.rfps[id]), data))
      && db.rfps == old(db.rfps)[id := r.value]
      && db.vendors == old(db.vendors) && db.proposals == old(db.proposals)
      && db.nextRfpId == old(db.nextRfpId)
  {
    var found := db.RfpAt(id);
    if found.None? {
      return Err(RfpNotFound);
    }
    var row := ApplyRfpUpdate(found.value, data);
    if !Storable(row) {
      return Err(CommitRejected);
    }
    db.rfps := db.rfps[id := row];
    r := Ok(row);
  }

  /** `delete_rfp`: a missing id is a 404; an RFP that proposals still reference
      cannot be deleted (the ORM would null their NOT NULL `rfp_id`); otherwise
      exactly that row goes. */
  method DeleteRfp(db: Database, id: int) returns (r: Result<string, HttpError>)
    requires db.Valid()
    modifies db
    ensures db.Valid()
    ensures id !in old(db.rfps) ==> r == Err(RfpNotFound) && unchanged(db)
    ensures id in old(db.rfps) && old(db.RfpReferenced(id)) ==> r == Err(CommitRejected) && unchanged(db)
    ensures id in old(db.rfps) && !old(db.RfpReferenced(id)) ==>
      && r == Ok("RFP deleted successfully")
      && db.rfps == old(db.rfps) - {id}
      && db.vendors == old(db.vendors) && db.proposals == old(db.proposals)
      && db.nextRfpId == old(db.nextRfpId)
  {
    var found := db.RfpAt(id);
    if found.None? {
      return Err(RfpNotFound);
    }
    if db.RfpReferenced(id) {
      return Err(CommitRejected);
    }
    db.rfps := db.rfps - {id};
    r := Ok("RFP deleted successfully");
  }
}
