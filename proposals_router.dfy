/** The `/proposals` routes: create with existence checks, list (optionally for
    one RFP), get, partial update, and the comparison that feeds every proposal
    of an RFP to the AI helper. */
module ProposalsRouter {
  import opened Common
  import opened Records
  import opened Tables
  import opened Store
  import opened AiService

  const RfpNotFound := HttpError(404, "RFP not found")
  const VendorNotFound := HttpError(404, "Vendor not found")
  const ProposalNotFound := HttpError(404, "Proposal not found")
  const NoProposals := HttpError(404, "No proposals found for this RFP")

  /** `create_proposal`: the RFP is checked first, then the vendor; only when both
      exist is exactly one row added. */
  method CreateProposal(db: Database, c: ProposalCreate, now: int) returns (r: Result<Proposal, HttpError>)
    requires db.Valid()
    modifies db
    ensures db.Valid()
    ensures c.rfpId !in old(db.rfps) ==> r == Err(RfpNotFound) && unchanged(db)
    ensures c.rfpId in old(db.rfps) && c.vendorId !in old(db.vendors) ==> r == Err(VendorNotFound) && unchanged(db)
    ensures c.rfpId in old(db.rfps) && c.vendorId in old(db.vendors) ==>
      && r == Ok(NewProposal(old(db.nextProposalId), c, now))
      && old(db.nextProposalId) !in old(db.proposals)
      && db.proposals == old(db.proposals)[r.value.id := r.value]
      && db.rfps == old(db.rfps) && db.vendors == old(db.vendors)
  {
    if db.RfpAt(c.rfpId).None? {
      return Err(RfpNotFound);
    }
    if db.VendorAt(c.vendorId).None? {
      return Err(VendorNotFound);
    }
    var row := db.AddProposal(NewProposal(0, c, now));
    r := Ok(row);
  }

  /** The filter `list_proposals` applies: none unless `rfp_id` is truthy. */
  function ForRfp(rfpId: Option<int>): Proposal -> bool
  {
    (p: Proposal) => rfpId.None? || rfpId.value == 0 || p.rfpId == rfpId.value
  }

  /** `list_proposals`: the proposals that pass the filter, in key order. */
  method ListProposals(db: Database, rfpId: Option<int>) returns (rows: seq<Proposal>)
    requires db.Valid()
    ensures forall k :: k in db.proposals ==>
      (db.proposals[k] in rows <==> rfpId.None? || rfpId.value == 0 || db.proposals[k].rfpId == rfpId.value)
    ensures forall p :: p in rows ==> p.id in db.proposals && db.proposals[p.id] == p
    ensures forall i, j :: 0 <= i < j < |rows| ==> rows[i].id < rows[j].id
  {
    var ids := Scan(db.proposals, ForRfp(rfpId), 1, db.nextProposalId);
    rows := RowsAt(db.proposals, ids);
    ProposalRows(db.proposals, ForRfp(rfpId), ids, rows);
  }

  /** The rows read back from a filtered scan: exactly the matching rows, in key order. */
  lemma ProposalRows(m: map<int, Proposal>, p: Proposal -> bool, ids: seq<int>, rows: seq<Proposal>)
    requires forall k :: k in m ==> m[k].id == k
    requires forall k :: k in ids <==> k in m && p(m[k])
    requires Ascending(ids)
    requires forall i :: 0 <= i < |ids| ==> ids[i] in m
    requires rows == RowsAt(m, ids)
    ensures forall k :: k in m ==> (m[k] in rows <==> p(m[k]))
    ensures forall q :: q in rows ==> q.id in m && m[q.id] == q && p(q)
    ensures forall i, j :: 0 <= i < j < |rows| ==> rows[i].id < rows[j].id
  {
    forall q | q in rows ensures q.id in m && m[q.id] == q && p(q) {
      var i :| 0 <= i < |rows| && rows[i] == q;
      var k := ids[i];
      assert k in m && q == m[k];
      assert m[k].id == k;
    }
    forall k | k in m ensures m[k] in rows <==> p(m[k]) {
      if p(m[k]) {
        var i :| 0 <= i < |ids| && ids[i] == k;
        assert rows[i] == m[k];
      }
    }
    forall i, j | 0 <= i < j < |rows| ensures rows[i].id < rows[j].id {
      assert rows[i].id == ids[i] && rows[j].id == ids[j];
    }
  }

  /** `get_proposal`. */
  method GetProposal(db: Database, id: int) returns (r: Result<Proposal, HttpError>)
    ensures id in db.proposals ==> r == Ok(db.proposals[id])
    ensures id !in db.proposals ==> r == Err(ProposalNotFound)
  {
    var found := db.ProposalAt(id);
    if found.None? {
      return Err(ProposalNotFound);
    }
    r := Ok(found.value);
  }

  /** The columns `ProposalUpdate` lets a client set. */
  predicate ClientEditable(a: ProposalAssign)
  {
    a.SetTotalPrice? || a.SetDeliveryDays? || a.SetPaymentTerms? || a.SetWarranty?
    || a.SetItems? || a.SetTermsConditions?
  }

  /** `for field, value in update_data.items(): setattr(proposal, field, value)`. */
  method ApplyProposalUpdate(row: Proposal, data: seq<ProposalAssign>) returns (out: Proposal)
    ensures out == ProposalPatched(row, data)
    ensures out.id == row.id && out.receivedAt == row.receivedAt
  {
    out := row;
    for i := 0 to |data|
      invariant out == ProposalPatched(row, data[..i])
      invariant out.id == row.id && out.receivedAt == row.receivedAt
    {
      assert data[..i + 1][..i] == data[..i];
      out := SetProposalColumn(out, data[i]);
    }
    assert data[..|data|] == data;
  }

  /** `update_proposal`: a missing id is a 404 and nothing changes; otherwise the
      named columns change and nothing else. */
  method UpdateProposal(db: Database, id: int, data: seq<ProposalAssign>) returns (r: Result<Proposal, HttpError>)
    requires db.Valid()
    requires forall a :: a in data ==> ClientEditable(a)
    modifies db
    ensures db.Valid()
    ensures id !in old(db.proposals) ==> r == Err(ProposalNotFound) && unchanged(db)
    ensures id in old(db.proposals) ==>
      && r == Ok(ProposalPatched(old(db.proposals[id]), data))
      && db.proposals == old(db.proposals)[id := r.value]
      && db.rfps == old(db.rfps) && db.vendors == old(db.vendors)
      && db.nextProposalId == old(db.nextProposalId)
  {
    var found := db.ProposalAt(id);
    if found.None? {
      return Err(ProposalNotFound);
    }
    var row := ApplyProposalUpdate(found.value, data);
    db.proposals := db.proposals[id := row];
    r := Ok(row);
  }

  /** A client update never moves a proposal to another RFP or vendor. */
  lemma {:induction false} ClientUpdateKeepsKeys(row: Proposal, data: seq<ProposalAssign>)
    requires forall a :: a in data ==> ClientEditable(a)
    ensures ProposalPatched(row, data).rfpId == row.rfpId
    ensures ProposalPatched(row, data).vendorId == row.vendorId
  {
    if data != [] {
      var init := data[..|data| - 1];
      assert forall a :: a in init ==> a in data;
      assert data[|data| - 1] in data;
      ClientUpdateKeepsKeys(row, init);
    }
  }

  // ---------------------------------------------------------------------------
  // GET /proposals/rfp/{rfp_id}/compare
  // ---------------------------------------------------------------------------

  /** One element of `proposals_data`: the vendor's name or "Unknown", and
      `completeness_score or 0`, `items or []`. */
  function ComparisonEntry(p: Proposal, vendor: Option<Vendor>): ProposalDict
  {
    ProposalDict(
      Present(if vendor.Some? then vendor.value.name else Some("Unknown")),
      Present(p.totalPrice), Present(p.deliveryDays), Present(p.paymentTerms), Present(p.warranty),
      Present(Some(if p.completenessScore.Some? then p.completenessScore.value else 0.0)),
      Present(Some(if p.items.Some? then p.items.value else [])))
  }

  /** The loop that builds `proposals_data`: one entry per proposal, same order,
      each with the vendor looked up by key. */
  method BuildComparisonInput(db: Database, props: seq<Proposal>) returns (data: seq<ProposalDict>)
    ensures |data| == |props|
    ensures forall i :: 0 <= i < |props| ==> data[i] == ComparisonEntry(props[i], db.VendorAt(props[i].vendorId))
  {
    data := [];
    for i := 0 to |props|
      invariant |data| == i
      invariant forall k :: 0 <= k < i ==> data[k] == ComparisonEntry(props[k], db.VendorAt(props[k].vendorId))
    {
      var vendor := db.VendorAt(props[i].vendorId);
      data := data + [ComparisonEntry(props[i], vendor)];
    }
  }

  /** The router's entries carry every key, so the AI helper's defaults never
      apply to them: the summary holds exactly the router's values. */
  lemma ComparisonEntrySummary(p: Proposal, vendor: Option<Vendor>)
    ensures Summarize(ComparisonEntry(p, vendor)) == ProposalSummary(
      if vendor.Some? then vendor.value.name else Some("Unknown"),
      p.totalPrice, p.deliveryDays, p.paymentTerms, p.warranty,
      Some(if p.completenessScore.Some? then p.completenessScore.value else 0.0),
      Some(if p.items.Some? then p.items.value else []))
  {
    SummarizeComplete(ComparisonEntry(p, vendor));
  }

  /** What `compare_proposals` answers once the RFP and its proposals exist: the
      helper's result, or a 500 whose detail adds a second copy of the helper's
      prefix. */
  function CompareOutcome(reply: Result<string, string>, loads: string -> Result<ComparisonResult, string>)
    : (r: Result<ComparisonResult, HttpError>)
    ensures r.Err? ==> r.error.status == 500 && StartsWith(r.error.detail, ComparePrefix + ComparePrefix)
    ensures r.Ok? <==> AiCall(ComparePrefix, reply, loads).Ok?
  {
    match AiCall(ComparePrefix, reply, loads)
    case Ok(c) => Ok(c)
    case Err(e) =>
      assert e[..|ComparePrefix|] == ComparePrefix;
      assert e == ComparePrefix + e[|ComparePrefix|..];
      assert ComparePrefix + e == (ComparePrefix + ComparePrefix) + e[|ComparePrefix|..];
      Err(HttpError(500, ComparePrefix + e))
  }

  /** `compare_proposals`. `props` is the RFP's proposals as the query returns
      them and `data` the `proposals_data` list built from them. */
  method CompareProposals(db: Database, rfpId: int, reply: Result<string, string>,
                          loads: string -> Result<ComparisonResult, string>)
    returns (props: seq<Proposal>, data: seq<ProposalDict>, r: Result<ComparisonResult, HttpError>)
    requires db.Valid()
    ensures rfpId !in db.rfps ==> r == Err(RfpNotFound) && props == [] && data == []
    ensures rfpId in db.rfps ==>
      && (forall k :: k in db.proposals ==> (db.proposals[k] in props <==> db.proposals[k].rfpId == rfpId))
      && (forall q :: q in props ==> q.id in db.proposals && db.proposals[q.id] == q)
      && (forall i, j :: 0 <= i < j < |props| ==> props[i].id < props[j].id)
    ensures rfpId in db.rfps && !db.RfpReferenced(rfpId) ==> r == Err(NoProposals) && props == [] && data == []
    ensures rfpId in db.rfps && db.RfpReferenced(rfpId) ==>
      && r == CompareOutcome(reply, loads)
      && props != []
      && |data| == |props|
      && (forall i :: 0 <= i < |props| ==> data[i] == ComparisonEntry(props[i], db.VendorAt(props[i].vendorId)))
  {
    props, data := [], [];
    if db.RfpAt(rfpId).None? {
      return [], [], Err(RfpNotFound);
    }
    var ofRfp := (p: Proposal) => p.rfpId == rfpId;
    var ids := Scan(db.proposals, ofRfp, 1, db.nextProposalId);
    props := RowsAt(db.proposals, ids);
    ProposalRows(db.proposals, ofRfp, ids, props);
    if props == [] {
      assert !db.RfpReferenced(rfpId);
      return [], [], Err(NoProposals);
    }
    assert ids[0] in db.proposals && db.proposals[ids[0]].rfpId == rfpId;
    data := BuildComparisonInput(db, props);
    var summaries, comparison := CompareProposalsAndRecommend(data, reply, loads);
    match comparison
    case Ok(c) => r := Ok(c);
    case Err(e) => r := Err(HttpError(500, ComparePrefix + e));
  }
}
