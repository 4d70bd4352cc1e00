/** The database session the routes share: the `rfps`, `vendors` and `proposals`
    tables, each a map from primary key to row, plus a per-table counter that
    supplies keys never used before in that table. A route that fails before `commit` leaves all three
    maps as they were. */
module Store {
  import opened Common
  import opened Records
  import opened Tables

  /** The response FastAPI sends for an exception no handler catches; here the
      integrity error a commit raises when a NOT NULL column would become NULL. */
  const CommitRejected := HttpError(500, "Internal Server Error")

  class Database {
    var rfps: map<int, Rfp>
    var vendors: map<int, Vendor>
    var proposals: map<int, Proposal>
    var nextRfpId: int
    var nextVendorId: int
    var nextProposalId: int

    /** Keys are positive and below the counter, every row carries its own key,
        and every stored row satisfies its table's NOT NULL columns. */
    ghost predicate Valid()
      reads this
    {
      && nextRfpId >= 1 && nextVendorId >= 1 && nextProposalId >= 1
      && (forall k :: k in rfps ==> 1 <= k < nextRfpId && rfps[k].id == k && Storable(rfps[k]))
      && (forall k :: k in vendors ==> 1 <= k < nextVendorId && vendors[k].id == k && VendorStorable(vendors[k]))
      && (forall k :: k in proposals ==> 1 <= k < nextProposalId && proposals[k].id == k)
    }

    constructor ()
      ensures Valid()
      ensures rfps == map[] && vendors == map[] && proposals == map[]
    {
      rfps, vendors, proposals := map[], map[], map[];
      nextRfpId, nextVendorId, nextProposalId := 1, 1, 1;
    }

    /** `filter(RFP.id == k).first()`. */
    function RfpAt(k: int): (r: Option<Rfp>)
      reads this
      ensures r.Some? <==> k in rfps
      ensures r.Some? ==> r.value == rfps[k]
    {
      if k in rfps then Some(rfps[k]) else None
    }

    function VendorAt(k: int): (v: Option<Vendor>)
      reads this
      ensures v.Some? <==> k in vendors
      ensures v.Some? ==> v.value == vendors[k]
    {
      if k in vendors then Some(vendors[k]) else None
    }

    function ProposalAt(k: int): (p: Option<Proposal>)
      reads this
      ensures p.Some? <==> k in proposals
      ensures p.Some? ==> p.value == proposals[k]
    {
      if k in proposals then Some(proposals[k]) else None
    }

    /** True when some proposal references RFP `k`. Deleting such an RFP makes
        the ORM null the proposals' NOT NULL `rfp_id`, which the commit rejects. */
    predicate RfpReferenced(k: int)
      reads this
    {
      exists p :: p in proposals && proposals[p].rfpId == k
    }

    predicate VendorReferenced(k: int)
      reads this
    {
      exists p :: p in proposals && proposals[p].vendorId == k
    }

    /** Insert a new RFP under the counter's key. */
    method AddRfp(c: RfpCreate, now: int) returns (r: Rfp)
      requires Valid()
      modifies this
      ensures Valid()
      ensures r == NewRfp(old(nextRfpId), c, now) && old(nextRfpId) !in old(rfps)
      ensures rfps == old(rfps)[r.id := r] && nextRfpId == old(nextRfpId) + 1
      ensures unchanged(this`vendors, this`proposals, this`nextVendorId, this`nextProposalId)
    {
      r := NewRfp(nextRfpId, c, now);
      rfps := rfps[nextRfpId := r];
      nextRfpId := nextRfpId + 1;
    }

    method AddVendor(c: VendorCreate) returns (v: Vendor)
      requires Valid()
      modifies this
      ensures Valid()
      ensures v == NewVendor(old(nextVendorId), c) && old(nextVendorId) !in old(vendors)
      ensures vendors == old(vendors)[v.id := v] && nextVendorId == old(nextVendorId) + 1
      ensures unchanged(this`rfps, this`proposals, this`nextRfpId, this`nextProposalId)
    {
      v := NewVendor(nextVendorId, c);
      vendors := vendors[nextVendorId := v];
      nextVendorId := nextVendorId + 1;
    }

    /** Insert a proposal row built elsewhere; it receives the counter's key. */
    method AddProposal(p: Proposal) returns (q: Proposal)
      requires Valid()
      modifies this
      ensures Valid()
      ensures q == p.(id := old(nextProposalId)) && old(nextProposalId) !in old(proposals)
      ensures proposals == old(proposals)[q.id := q] && nextProposalId == old(nextProposalId) + 1
      ensures unchanged(this`rfps, this`vendors, this`nextRfpId, this`nextVendorId)
    {
      q := p.(id := nextProposalId);
      proposals := proposals[nextProposalId := q];
      nextProposalId := nextProposalId + 1;
    }
  }
}
