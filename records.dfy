/** The rows of the three tables (`rfps`, `vendors`, `proposals`), the request and
    response shapes the routes exchange, and the single-column assignment
    (`setattr(row, field, value)`) that the partial-update routes and the proposal
    upsert repeat field by field. */
module Records {
  import opened Common

  /** Prices and budgets are whole hundredths (the model's stand-in for `Float`). */
  type Money = nat

  /** One line item, the JSON object `{"name", "quantity", "specifications"}`;
      `specifications` keeps the dictionary's order, its values already rendered. */
  datatype Item = Item(name: Slot<string>, quantity: Option<int>, specifications: seq<(string, string)>)

  /** A row of `rfps`. `title` is declared NOT NULL; the row may hold `None` in
      memory, and `Storable` is what a commit accepts. */
  datatype Rfp = Rfp(
    id: int,
    title: Option<string>,
    description: Option<string>,
    budget: Option<Money>,
    deliveryDays: Option<int>,
    paymentTerms: Option<string>,
    warrantyRequired: Option<string>,
    items: Option<seq<Item>>,
    requirements: Option<seq<string>>,
    status: Option<string>,
    createdAt: int)

  /** A row of `vendors`; `name` and `email` are NOT NULL. */
  datatype Vendor = Vendor(
    id: int,
    name: Option<string>,
    email: Option<string>,
    phone: Option<string>,
    address: Option<string>,
    contactPerson: Option<string>,
    notes: Option<string>)

  /** The JSON object the AI extraction returns for a vendor's reply. */
  datatype Extracted = Extracted(
    totalPrice: Slot<Money>,
    deliveryDays: Slot<int>,
    paymentTerms: Slot<string>,
    warranty: Slot<string>,
    items: Slot<seq<Item>>,
    termsConditions: Slot<string>,
    completenessScore: Slot<real>)

  /** A row of `proposals`. */
  datatype Proposal = Proposal(
    id: int,
    rfpId: int,
    vendorId: int,
    totalPrice: Option<Money>,
    deliveryDays: Option<int>,
    paymentTerms: Option<string>,
    warranty: Option<string>,
    items: Option<seq<Item>>,
    termsConditions: Option<string>,
    rawResponse: Option<string>,
    extractedData: Option<Extracted>,
    completenessScore: Option<real>,
    receivedAt: int)

  /** Request body of `POST /rfps` (`RFPCreate`). */
  datatype RfpCreate = RfpCreate(
    title: string,
    description: Option<string>,
    budget: Option<Money>,
    deliveryDays: Option<int>,
    paymentTerms: Option<string>,
    warrantyRequired: Option<string>,
    items: Option<seq<Item>>,
    requirements: Option<seq<string>>)

  /** Request body of `POST /vendors` (`VendorCreate`). */
  datatype VendorCreate = VendorCreate(
    name: string,
    email: string,
    phone: Option<string>,
    address: Option<string>,
    contactPerson: Option<string>,
    notes: Option<string>)

  /** Request body of `POST /proposals` (`ProposalCreate`). */
  datatype ProposalCreate = ProposalCreate(
    rfpId: int,
    vendorId: int,
    totalPrice: Option<Money>,
    deliveryDays: Option<int>,
    paymentTerms: Option<string>,
    warranty: Option<string>,
    items: Option<seq<Item>>,
    termsConditions: Option<string>,
    rawResponse: Option<string>)

  /** The AI comparison (`ComparisonResult`, `VendorComparison`, `Recommendation`). */
  datatype VendorComparison = VendorComparison(
    vendorName: string, score: real, strengths: seq<string>, weaknesses: seq<string>,
    priceRank: int, deliveryRank: int)

  datatype Recommendation = Recommendation(recommendedVendor: string, reason: string, summary: string)

  datatype ComparisonResult = ComparisonResult(comparison: seq<VendorComparison>, recommendation: Recommendation)

  // ---------------------------------------------------------------------------
  // New rows
  // ---------------------------------------------------------------------------

  /** `RFPModel(**rfp.dict())` after the insert: the given columns, status "draft". */
  function NewRfp(id: int, c: RfpCreate, now: int): (r: Rfp)
    ensures Storable(r) && r.id == id && r.status == Some("draft")
  {
    Rfp(id, Some(c.title), c.description, c.budget, c.deliveryDays, c.paymentTerms,
        c.warrantyRequired, c.items, c.requirements, Some("draft"), now)
  }

  function NewVendor(id: int, c: VendorCreate): (v: Vendor)
    ensures VendorStorable(v) && v.id == id
  {
    Vendor(id, Some(c.name), Some(c.email), c.phone, c.address, c.contactPerson, c.notes)
  }

  function NewProposal(id: int, c: ProposalCreate, now: int): (p: Proposal)
    ensures p.id == id && p.rfpId == c.rfpId && p.vendorId == c.vendorId
  {
    Proposal(id, c.rfpId, c.vendorId, c.totalPrice, c.deliveryDays, c.paymentTerms, c.warranty,
             c.items, c.termsConditions, c.rawResponse, None, None, now)
  }

  /** The NOT NULL constraints a commit enforces. */
  predicate Storable(r: Rfp)
  {
    r.title.Some?
  }

  predicate VendorStorable(v: Vendor)
  {
    v.name.Some? && v.email.Some?
  }

  // ---------------------------------------------------------------------------
  // RFP column assignment
  // ---------------------------------------------------------------------------

  /** One entry of `rfp_update.dict(exclude_unset=True)`: a column and its new value. */
  datatype RfpAssign =
    | SetTitle(title: Option<string>)
    | SetDescription(description: Option<string>)
    | SetBudget(budget: Option<Money>)
    | SetDeliveryDays(deliveryDays: Option<int>)
    | SetPaymentTerms(paymentTerms: Option<string>)
    | SetWarrantyRequired(warrantyRequired: Option<string>)
    | SetItems(items: Option<seq<Item>>)
    | SetRequirements(requirements: Option<seq<string>>)
    | SetStatus(status: Option<string>)

  /** The column an assignment names, numbered in declaration order. */
  function RfpColumn(a: RfpAssign): nat
  {
    match a
    case SetTitle(_) => 0
    case SetDescription(_) => 1
    case SetBudget(_) => 2
    case SetDeliveryDays(_) => 3
    case SetPaymentTerms(_) => 4
    case SetWarrantyRequired(_) => 5
    case SetItems(_) => 6
    case SetRequirements(_) => 7
    case SetStatus(_) => 8
  }

  /** `setattr(rfp, field, value)`. */
  function SetRfpColumn(r: Rfp, a: RfpAssign): Rfp
  {
    match a
    case SetTitle(v) => r.(title := v)
    case SetDescription(v) => r.(description := v)
    case SetBudget(v) => r.(budget := v)
    case SetDeliveryDays(v) => r.(deliveryDays := v)
    case SetPaymentTerms(v) => r.(paymentTerms := v)
    case SetWarrantyRequired(v) => r.(warrantyRequired := v)
    case SetItems(v) => r.(items := v)
    case SetRequirements(v) => r.(requirements := v)
    case SetStatus(v) => r.(status := v)
  }

  /** Row `r` holds the value assignment `a` writes. */
  predicate RfpHolds(r: Rfp, a: RfpAssign)
  {
    match a
    case SetTitle(v) => r.title == v
    case SetDescription(v) => r.description == v
    case SetBudget(v) => r.budget == v
    case SetDeliveryDays(v) => r.deliveryDays == v
    case SetPaymentTerms(v) => r.paymentTerms == v
    case SetWarrantyRequired(v) => r.warrantyRequired == v
    case SetItems(v) => r.items == v
    case SetRequirements(v) => r.requirements == v
    case SetStatus(v) => r.status == v
  }

  /** Rows `r` and `s` agree on column number `c`. */
  predicate RfpSameOn(r: Rfp, s: Rfp, c: nat)
  {
    && (c == 0 ==> r.title == s.title)
    && (c == 1 ==> r.description == s.description)
    && (c == 2 ==> r.budget == s.budget)
    && (c == 3 ==> r.deliveryDays == s.deliveryDays)
    && (c == 4 ==> r.paymentTerms == s.paymentTerms)
    && (c == 5 ==> r.warrantyRequired == s.warrantyRequired)
    && (c == 6 ==> r.items == s.items)
    && (c == 7 ==> r.requirements == s.requirements)
    && (c == 8 ==> r.status == s.status)
  }

  /** A dictionary names every column at most once. */
  predicate RfpColumnsDistinct(data: seq<RfpAssign>)
  {
    forall i, j :: 0 <= i < j < |data| ==> RfpColumn(data[i]) != RfpColumn(data[j])
  }

  /** The row after `for field, value in data: setattr(row, field, value)`. */
  function RfpPatched(r: Rfp, data: seq<RfpAssign>): Rfp
  {
    if data == [] then r else SetRfpColumn(RfpPatched(r, data[..|data| - 1]), data[|data| - 1])
  }

  /** A partial update writes exactly the columns it names: each named column
      holds its new value, every other column and the id and timestamp are kept. */
  lemma {:induction false} RfpPatchedExactly(r: Rfp, data: seq<RfpAssign>)
    requires RfpColumnsDistinct(data)
    ensures forall a :: a in data ==> RfpHolds(RfpPatched(r, data), a)
    ensures forall c: nat :: (forall a :: a in data ==> RfpColumn(a) != c) ==> RfpSameOn(RfpPatched(r, data), r, c)
    ensures RfpPatched(r, data).id == r.id && RfpPatched(r, data).createdAt == r.createdAt
  {
    if data != [] {
      var init, last := data[..|data| - 1], data[|data| - 1];
      assert RfpColumnsDistinct(init);
      RfpPatchedExactly(r, init);
      forall a | a in data ensures RfpHolds(RfpPatched(r, data), a) {
        if a == last {
          SetRfpColumnHolds(RfpPatched(r, init), a, a);
        } else {
          var i :| 0 <= i < |data| && data[i] == a;
          assert i < |data| - 1;
          assert a == init[i];
          SetRfpColumnHolds(RfpPatched(r, init), last, a);
        }
      }
      forall c: nat | (forall a :: a in data ==> RfpColumn(a) != c)
        ensures RfpSameOn(RfpPatched(r, data), r, c)
      {
        assert last in data;
        assert forall a :: a in init ==> a in data;
        assert RfpSameOn(RfpPatched(r, init), r, c);
        SetRfpColumnKeeps(RfpPatched(r, init), last, c);
      }
    }
  }

  /** Applying the same partial update twice is the same as applying it once. */
  lemma {:induction false} RfpPatchedIdempotent(r: Rfp, data: seq<RfpAssign>)
    requires RfpColumnsDistinct(data)
    ensures RfpPatched(RfpPatched(r, data), data) == RfpPatched(r, data)
  {
    var once := RfpPatched(r, data);
    var twice := RfpPatched(once, data);
    RfpPatchedExactly(r, data);
    RfpPatchedExactly(once, data);
    forall c: nat ensures RfpSameOn(twice, once, c) {
      if a :| a in data && RfpColumn(a) == c {
        assert RfpHolds(twice, a) && RfpHolds(once, a);
      }
    }
    RfpExtensional(twice, once);
  }

  lemma SetRfpColumnHolds(r: Rfp, a: RfpAssign, b: RfpAssign)
    requires a == b || (RfpColumn(a) != RfpColumn(b) && RfpHolds(r, b))
    ensures RfpHolds(SetRfpColumn(r, a), b)
  {
  }

  lemma SetRfpColumnKeeps(r: Rfp, a: RfpAssign, c: nat)
    requires RfpColumn(a) != c
    ensures RfpSameOn(SetRfpColumn(r, a), r, c)
  {
  }

  lemma RfpExtensional(r: Rfp, s: Rfp)
    requires forall c: nat :: RfpSameOn(r, s, c)
    requires r.id == s.id && r.createdAt == s.createdAt
    ensures r == s
  {
    assert RfpSameOn(r, s, 0) && RfpSameOn(r, s, 1) && RfpSameOn(r, s, 2);
    assert RfpSameOn(r, s, 3) && RfpSameOn(r, s, 4) && RfpSameOn(r, s, 5);
    assert RfpSameOn(r, s, 6) && RfpSameOn(r, s, 7) && RfpSameOn(r, s, 8);
  }

  // ---------------------------------------------------------------------------
  // Vendor column assignment
  // ---------------------------------------------------------------------------

  /** One entry of `vendor_update.dict(exclude_unset=True)`. */
  datatype VendorAssign =
    | SetName(name: Option<string>)
    | SetEmail(email: Option<string>)
    | SetPhone(phone: Option<string>)
    | SetAddress(address: Option<string>)
    | SetContactPerson(contactPerson: Option<string>)
    | SetNotes(notes: Option<string>)

  function VendorColumn(a: VendorAssign): nat
  {
    match a
    case SetName(_) => 0
    case SetEmail(_) => 1
    case SetPhone(_) => 2
    case SetAddress(_) => 3
    case SetContactPerson(_) => 4
    case SetNotes(_) => 5
  }

  /** `setattr(vendor, field, value)`. */
  function SetVendorColumn(w: Vendor, a: VendorAssign): Vendor
  {
    match a
    case SetName(v) => w.(name := v)
    case SetEmail(v) => w.(email := v)
    case SetPhone(v) => w.(phone := v)
    case SetAddress(v) => w.(address := v)
    case SetContactPerson(v) => w.(contactPerson := v)
    case SetNotes(v) => w.(notes := v)
  }

  predicate VendorHolds(w: Vendor, a: VendorAssign)
  {
    match a
    case SetName(v) => w.name == v
    case SetEmail(v) => w.email == v
    case SetPhone(v) => w.phone == v
    case SetAddress(v) => w.address == v
    case SetContactPerson(v) => w.contactPerson == v
    case SetNotes(v) => w.notes == v
  }

  predicate VendorSameOn(w: Vendor, s: Vendor, c: nat)
  {
    && (c == 0 ==> w.name == s.name)
    && (c == 1 ==> w.email == s.email)
    && (c == 2 ==> w.phone == s.phone)
    && (c == 3 ==> w.address == s.address)
    && (c == 4 ==> w.contactPerson == s.contactPerson)
    && (c == 5 ==> w.notes == s.notes)
  }

  predicate VendorColumnsDistinct(data: seq<VendorAssign>)
  {
    forall i, j :: 0 <= i < j < |data| ==> VendorColumn(data[i]) != VendorColumn(data[j])
  }

  /** The row after `for field, value in data: setattr(vendor, field, value)`. */
  function VendorPatched(w: Vendor, data: seq<VendorAssign>): Vendor
  {
    if data == [] then w else SetVendorColumn(VendorPatched(w, data[..|data| - 1]), data[|data| - 1])
  }

  /** A partial update writes exactly the columns it names: each named column
      holds its new value, every other column is kept. */
  lemma {:induction false} VendorPatchedExactly(w: Vendor, data: seq<VendorAssign>)
    requires VendorColumnsDistinct(data)
    ensures forall a :: a in data ==> VendorHolds(VendorPatched(w, data), a)
    ensures forall c: nat :: (forall a :: a in data ==> VendorColumn(a) != c) ==> VendorSameOn(VendorPatched(w, data), w, c)
    ensures VendorPatched(w, data).id == w.id
  {
    if data != [] {
      var init, last := data[..|data| - 1], data[|data| - 1];
      assert VendorColumnsDistinct(init);
      VendorPatchedExactly(w, init);
      forall a | a in data ensures VendorHolds(VendorPatched(w, data), a) {
        if a == last {
          SetVendorColumnHolds(VendorPatched(w, init), a, a);
        } else {
          var i :| 0 <= i < |data| && data[i] == a;
          assert i < |data| - 1;
          assert a == init[i];
          SetVendorColumnHolds(VendorPatched(w, init), last, a);
        }
      }
      forall c: nat | (forall a :: a in data ==> VendorColumn(a) != c)
        ensures VendorSameOn(VendorPatched(w, data), w, c)
      {
        assert last in data;
        assert forall a :: a in init ==> a in data;
        assert VendorSameOn(VendorPatched(w, init), w, c);
        SetVendorColumnKeeps(VendorPatched(w, init), last, c);
      }
    }
  }

  lemma SetVendorColumnHolds(w: Vendor, a: VendorAssign, b: VendorAssign)
    requires a == b || (VendorColumn(a) != VendorColumn(b) && VendorHolds(w, b))
    ensures VendorHolds(SetVendorColumn(w, a), b)
  {
  }

  lemma SetVendorColumnKeeps(w: Vendor, a: VendorAssign, c: nat)
    requires VendorColumn(a) != c
    ensures VendorSameOn(SetVendorColumn(w, a), w, c)
  {
  }

  // ---------------------------------------------------------------------------
  // Proposal column assignment
  // ---------------------------------------------------------------------------

  /** One column and value of a proposal dictionary: an entry of `proposal_update.dict(exclude_unset=True)` or of the upsert's `proposal_data`. */
  datatype ProposalAssign =
    | SetRfpId(rfpId: int)
    | SetVendorId(vendorId: int)
    | SetTotalPrice(totalPrice: Option<Money>)
    | SetDeliveryDays(deliveryDays: Option<int>)
    | SetPaymentTerms(paymentTerms: Option<string>)
    | SetWarranty(warranty: Option<string>)
    | SetItems(items: Option<seq<Item>>)
    | SetTermsConditions(termsConditions: Option<string>)
    | SetRawResponse(rawResponse: Option<string>)
    | SetExtractedData(extractedData: Option<Extracted>)
    | SetCompletenessScore(completenessScore: Option<real>)

  function ProposalColumn(a: ProposalAssign): nat
  {
    match a
    case SetRfpId(_) => 0
    case SetVendorId(_) => 1
    case SetTotalPrice(_) => 2
    case SetDeliveryDays(_) => 3
    case SetPaymentTerms(_) => 4
    case SetWarranty(_) => 5
    case SetItems(_) => 6
    case SetTermsConditions(_) => 7
    case SetRawResponse(_) => 8
    case SetExtractedData(_) => 9
    case SetCompletenessScore(_) => 10
  }

  /** `setattr(proposal, field, value)`. */
  function SetProposalColumn(p: Proposal, a: ProposalAssign): Proposal
  {
    match a
    case SetRfpId(v) => p.(rfpId := v)
    case SetVendorId(v) => p.(vendorId := v)
    case SetTotalPrice(v) => p.(totalPrice := v)
    case SetDeliveryDays(v) => p.(deliveryDays := v)
    case SetPaymentTerms(v) => p.(paymentTerms := v)
    case SetWarranty(v) => p.(warranty := v)
    case SetItems(v) => p.(items := v)
    case SetTermsConditions(v) => p.(termsConditions := v)
    case SetRawResponse(v) => p.(rawResponse := v)
    case SetExtractedData(v) => p.(extractedData := v)
    case SetCompletenessScore(v) => p.(completenessScore := v)
  }

  predicate ProposalHolds(p: Proposal, a: ProposalAssign)
  {
    match a
    case SetRfpId(v) => p.rfpId == v
    case SetVendorId(v) => p.vendorId == v
    case SetTotalPrice(v) => p.totalPrice == v
    case SetDeliveryDays(v) => p.deliveryDays == v
    case SetPaymentTerms(v) => p.paymentTerms == v
    case SetWarranty(v) => p.warranty == v
    case SetItems(v) => p.items == v
    case SetTermsConditions(v) => p.termsConditions == v
    case SetRawResponse(v) => p.rawResponse == v
    case SetExtractedData(v) => p.extractedData == v
    case SetCompletenessScore(v) => p.completenessScore == v
  }

  predicate ProposalSameOn(p: Proposal, s: Proposal, c: nat)
  {
    && (c == 0 ==> p.rfpId == s.rfpId)
    && (c == 1 ==> p.vendorId == s.vendorId)
    && (c == 2 ==> p.totalPrice == s.totalPrice)
    && (c == 3 ==> p.deliveryDays == s.deliveryDays)
    && (c == 4 ==> p.paymentTerms == s.paymentTerms)
    && (c == 5 ==> p.warranty == s.warranty)
    && (c == 6 ==> p.items == s.items)
    && (c == 7 ==> p.termsConditions == s.termsConditions)
    && (c == 8 ==> p.rawResponse == s.rawResponse)
    && (c == 9 ==> p.extractedData == s.extractedData)
    && (c == 10 ==> p.completenessScore == s.completenessScore)
  }

  predicate ProposalColumnsDistinct(data: seq<ProposalAssign>)
  {
    forall i, j :: 0 <= i < j < |data| ==> ProposalColumn(data[i]) != ProposalColumn(data[j])
  }

  /** The row after `for field, value in data: setattr(proposal, field, value)`. */
  function ProposalPatched(p: Proposal, data: seq<ProposalAssign>): Proposal
  {
    if data == [] then p else SetProposalColumn(ProposalPatched(p, data[..|data| - 1]), data[|data| - 1])
  }

  /** A partial update writes exactly the columns it names: each named column
      holds its new value, every other column is kept. */
  lemma {:induction false} ProposalPatchedExactly(p: Proposal, data: seq<ProposalAssign>)
    requires ProposalColumnsDistinct(data)
    ensures forall a :: a in data ==> ProposalHolds(ProposalPatched(p, data), a)
    ensures forall c: nat :: (forall a :: a in data ==> ProposalColumn(a) != c) ==> ProposalSameOn(ProposalPatched(p, data), p, c)
    ensures ProposalPatched(p, data).id == p.id && ProposalPatched(p, data).receivedAt == p.receivedAt
  {
    if data != [] {
      var init, last := data[..|data| - 1], data[|data| - 1];
      assert ProposalColumnsDistinct(init);
      ProposalPatchedExactly(p, init);
      forall a | a in data ensures ProposalHolds(ProposalPatched(p, data), a) {
        if a == last {
          SetProposalColumnHolds(ProposalPatched(p, init), a, a);
        } else {
          var i :| 0 <= i < |data| && data[i] == a;
          assert i < |data| - 1;
          assert a == init[i];
          SetProposalColumnHolds(ProposalPatched(p, init), last, a);
        }
      }
      forall c: nat | (forall a :: a in data ==> ProposalColumn(a) != c)
        ensures ProposalSameOn(ProposalPatched(p, data), p, c)
      {
        assert last in data;
        assert forall a :: a in init ==> a in data;
        assert ProposalSameOn(ProposalPatched(p, init), p, c);
        SetProposalColumnKeeps(ProposalPatched(p, init), last, c);
      }
    }
  }

  lemma SetProposalColumnHolds(p: Proposal, a: ProposalAssign, b: ProposalAssign)
    requires a == b || (ProposalColumn(a) != ProposalColumn(b) && ProposalHolds(p, b))
    ensures ProposalHolds(SetProposalColumn(p, a), b)
  {
  }

  lemma SetProposalColumnKeeps(p: Proposal, a: ProposalAssign, c: nat)
    requires ProposalColumn(a) != c
    ensures ProposalSameOn(SetProposalColumn(p, a), p, c)
  {
  }
}
