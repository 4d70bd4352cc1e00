/** The `/vendors` routes: create, list, get, partial update and delete. */
module VendorsRouter {
  import opened Common
  import opened Records
  import opened Tables
  import opened Store

  const VendorNotFound := HttpError(404, "Vendor not found")

  /** `create_vendor`: exactly one new row holding the given fields. */
  method CreateVendor(db: Database, c: VendorCreate) returns (row: Vendor)
    requires db.Valid()
    modifies db
    ensures db.Valid()
    ensures row == NewVendor(old(db.nextVendorId), c) && old(db.nextVendorId) !in old(db.vendors)
    ensures db.vendors == old(db.vendors)[row.id := row]
    ensures db.rfps == old(db.rfps) && db.proposals == old(db.proposals)
  {
    row := db.AddVendor(c);
  }

  function AllVendors(v: Vendor): bool { true }

  /** `list_vendors`: every vendor exactly once, in key order. */
  method ListVendors(db: Database) returns (rows: seq<Vendor>)
    requires db.Valid()
    ensures |rows| == |db.vendors|
    ensures forall i, j :: 0 <= i < j < |rows| ==> rows[i].id < rows[j].id
    ensures forall k :: k in db.vendors ==> db.vendors[k] in rows
    ensures forall v :: v in rows ==> v.id in db.vendors && db.vendors[v.id] == v
  {
    var ids := Scan(db.vendors, AllVendors, 1, db.nextVendorId);
    ScanCoversTable(db.vendors, AllVendors, db.nextVendorId);
    rows := RowsAt(db.vendors, ids);
    VendorRows(db.vendors, ids, rows);
  }

  /** The rows read back from a full scan: the table's rows, in key order. */
  lemma VendorRows(m: map<int, Vendor>, ids: seq<int>, rows: seq<Vendor>)
    requires forall k :: k in m ==> m[k].id == k
    requires forall k :: k in ids <==> k in m
    requires Ascending(ids)
    requires forall i :: 0 <= i < |ids| ==> ids[i] in m
    requires rows == RowsAt(m, ids)
    ensures forall i, j :: 0 <= i < j < |rows| ==> rows[i].id < rows[j].id
    ensures forall k :: k in m ==> m[k] in rows
    ensures forall v :: v in rows ==> v.id in m && m[v.id] == v
  {
    forall k | k in m ensures m[k] in rows {
      var i :| 0 <= i < |ids| && ids[i] == k;
      assert rows[i] == m[k];
    }
    forall v | v in rows ensures v.id in m && m[v.id] == v {
      var i :| 0 <= i < |rows| && rows[i] == v;
      var k := ids[i];
      assert k in m && v == m[k];
      assert m[k].id == k;
    }
    forall i, j | 0 <= i < j < |rows| ensures rows[i].id < rows[j].id {
      assert rows[i].id == ids[i] && rows[j].id == ids[j];
    }
  }

  /** `get_vendor`. */
  method GetVendor(db: Database, id: int) returns (r: Result<Vendor, HttpError>)
    ensures id in db.vendors ==> r == Ok(db.vendors[id])
    ensures id !in db.vendors ==> r == Err(VendorNotFound)
  {
    var found := db.VendorAt(id);
    if found.None? {
      return Err(VendorNotFound);
    }
    r := Ok(found.value);
  }

  /** `for field, value in update_data.items(): setattr(vendor, field, value)`. */
  method ApplyVendorUpdate(row: Vendor, data: seq<VendorAssign>) returns (out: Vendor)
    ensures out == VendorPatched(row, data)
    ensures out.id == row.id
  {
    out := row;
    for i := 0 to |data|
      invariant out == VendorPatched(row, data[..i])
      invariant out.id == row.id
    {
      assert data[..i + 1][..i] == data[..i];
      out := SetVendorColumn(out, data[i]);
    }
    assert data[..|data|] == data;
  }

  /** `update_vendor`: a missing id is a 404; otherwise the named columns change
      and the commit stores the row, unless `name` or `email` would become NULL. */
  method UpdateVendor(db: Database, id: int, data: seq<VendorAssign>) returns (r: Result<Vendor, HttpError>)
    requires db.Valid()
    modifies db
    ensures db.Valid()
    ensures id !in old(db.vendors) ==> r == Err(VendorNotFound) && unchanged(db)
    ensures id in old(db.vendors) && !VendorStorable(VendorPatched(old(db.vendors[id]), data)) ==>
      r == Err(CommitRejected) && unchanged(db)
    ensures id in old(db.vendors) && VendorStorable(VendorPatched(old(db.vendors[id]), data)) ==>
      && r == Ok(VendorPatched(old(db.vendors[id]), data))
      && db.vendors == old(db.vendors)[id := r.value]
      && db.rfps == old(db.rfps) && db.proposals == old(db.proposals)
      && db.nextVendorId == old(db.nextVendorId)
  {
    var found := db.VendorAt(id);
    if found.None? {
      return Err(VendorNotFound);
    }
    var row := ApplyVendorUpdate(found.value, data);
    if !VendorStorable(row) {
      return Err(CommitRejected);
    }
    db.vendors := db.vendors[id := row];
    r := Ok(row);
  }

  /** `delete_vendor`: a missing id is a 404 and nothing is removed; a vendor
      that proposals still reference cannot be deleted; otherwise exactly that
      row goes. */
  method DeleteVendor(db: Database, id: int) returns (r: Result<string, HttpError>)
    requires db.Valid()
    modifies db
    ensures db.Valid()
    ensures id !in old(db.vendors) ==> r == Err(VendorNotFound) && unchanged(db)
    ensures id in old(db.vendors) && old(db.VendorReferenced(id)) ==>
      r == Err(CommitRejected) && unchanged(db)
    ensures id in old(db.vendors) && !old(db.VendorReferenced(id)) ==>
      && r == Ok("Vendor deleted successfully")
      && db.vendors == old(db.vendors) - {id}
      && db.rfps == old(db.rfps) && db.proposals == old(db.proposals)
      && db.nextVendorId == old(db.nextVendorId)
  {
    var found := db.VendorAt(id);
    if found.None? {
      return Err(VendorNotFound);
    }
    if db.VendorReferenced(id) {
      return Err(CommitRejected);
    }
    db.vendors := db.vendors - {id};
    r := Ok("Vendor deleted successfully");
  }
}
