/** The `/email` routes: send an RFP to the selected vendors, and receive a
    vendor's reply, extract its terms with the AI helper and store them as that
    vendor's proposal for the RFP. */
module EmailRouter {
  import opened Common
  import opened Records
  import opened Tables
  import opened Store
  import opened AiService
  import opened EmailService

  const RfpNotFound := HttpError(404, "RFP not found")
  const VendorsMissing := HttpError(404, "One or more vendors not found")
  const SendCompleted := "RFP sending completed"
  const NoRfpId := HttpError(400, "RFP ID not found in email. Please specify rfp_id.")
  const ParseEmailPrefix := "Failed to parse email: "

  // ---------------------------------------------------------------------------
  // POST /email/send-rfp
  // ---------------------------------------------------------------------------

  /** One entry of the `results` list. */
  datatype SendResult = SendResult(vendorId: int, vendorName: Option<string>, status: string, error: Option<string>)

  datatype SendReport = SendReport(message: string, results: seq<SendResult>)

  /** The `rfp_data` dictionary `send_rfp` builds: every key present, and the
      item and requirement lists replaced by `[]` when empty or NULL. */
  function RfpDataOf(r: Rfp): (d: RfpData)
    ensures d.title == Present(r.title) && d.budget == Present(r.budget)
    ensures d.items.Present? && d.items.entry.Some? && d.requirements.Present? && d.requirements.entry.Some?
    ensures r.items.Some? ==> d.items.entry.value == r.items.value
    ensures r.requirements.Some? ==> d.requirements.entry.value == r.requirements.value
  {
    RfpData(Present(r.title), Present(r.description), Present(r.budget), Present(r.deliveryDays),
            Present(r.paymentTerms), Present(r.warrantyRequired),
            Present(Some(if r.items.Some? then r.items.value else [])),
            Present(Some(if r.requirements.Some? then r.requirements.value else [])))
  }

  /** A stored RFP is mailed under its own title. */
  lemma SentSubject(r: Rfp)
    requires Storable(r)
    ensures Subject(RfpDataOf(r)) == SubjectPrefix + r.title.value
  {
  }

  /** The entry for one vendor given how its delivery went: "sent", or "failed"
      with the message of the exception `send_rfp_email` raised. */
  function Entry(v: Vendor, outcome: Result<(), string>): (d: SendResult)
    ensures d.vendorId == v.id && d.vendorName == v.name
    ensures d.status == "sent" <==> outcome.Ok?
    ensures d.status == "sent" || d.status == "failed"
    ensures d.status == "failed" <==> d.error.Some?
    ensures d.error.Some? ==> d.error.value == outcome.error
  {
    match outcome
    case Ok(_) => SendResult(v.id, v.name, "sent", None)
    case Err(e) => SendResult(v.id, v.name, "failed", Some(e))
  }

  /** The entry recorded for one vendor when the mail is sent to its address. */
  function Delivery(config: SmtpConfig, v: Vendor, data: RfpData, transport: Email -> Option<string>): (d: SendResult)
    requires v.email.Some?
  {
    Entry(v, EmailOutcome(config, v.email.value, v.name, data, transport))
  }

  /** Without SMTP credentials every vendor's entry fails with the same message. */
  lemma UnconfiguredFailsAll(config: SmtpConfig, v: Vendor, data: RfpData, transport: Email -> Option<string>)
    requires v.email.Some? && !Configured(config)
    ensures Delivery(config, v, data, transport) == SendResult(v.id, v.name, "failed", Some(CredentialsError))
  {
    EmailOutcomeCases(config, v.email.value, v.name, data, transport);
  }

  /** One pass of the loop body: mail the vendor and record how it went. */
  method SendOne(config: SmtpConfig, v: Vendor, data: RfpData, transport: Email -> Option<string>)
    returns (entry: SendResult)
    requires v.email.Some?
    ensures entry == Delivery(config, v, data, transport)
  {
    var outcome := SendRfpEmail(config, v.email.value, v.name, data, transport);
    entry := Entry(v, outcome);
  }

  /** `for vendor in vendors: try: await send_rfp_email(...)`: one entry per
      vendor, in order; a failure does not stop the loop. */
  method SendAll(config: SmtpConfig, vendors: seq<Vendor>, data: RfpData, transport: Email -> Option<string>)
    returns (results: seq<SendResult>)
    requires forall i :: 0 <= i < |vendors| ==> vendors[i].email.Some?
    ensures |results| == |vendors|
    ensures forall i :: 0 <= i < |vendors| ==> results[i] == Delivery(config, vendors[i], data, transport)
  {
    results := [];
    for i := 0 to |vendors|
      invariant |results| == i
      invariant forall k :: 0 <= k < i ==> results[k] == Delivery(config, vendors[k], data, transport)
    {
      var entry := SendOne(config, vendors[i], data, transport);
      DeliveredPrefix(config, vendors, data, transport, results, entry);
      results := results + [entry];
    }
  }

  /** The loop step: one more entry, for the next vendor, extends the record. */
  lemma DeliveredPrefix(config: SmtpConfig, vendors: seq<Vendor>, data: RfpData,
                        transport: Email -> Option<string>, done: seq<SendResult>, entry: SendResult)
    requires |done| < |vendors| && forall i :: 0 <= i < |vendors| ==> vendors[i].email.Some?
    requires forall k :: 0 <= k < |done| ==> done[k] == Delivery(config, vendors[k], data, transport)
    requires entry == Delivery(config, vendors[|done|], data, transport)
    ensures forall k :: 0 <= k < |done| + 1 ==> (done + [entry])[k] == Delivery(config, vendors[k], data, transport)
  {
    forall k | 0 <= k < |done| + 1 ensures (done + [entry])[k] == Delivery(config, vendors[k], data, transport) {
      if k < |done| {
        assert (done + [entry])[k] == done[k];
      }
    }
  }

  /** `VendorModel.id.in_(vendor_ids)`. */
  function Selected(ids: seq<int>): Vendor -> bool
  {
    (v: Vendor) => v.id in ids
  }

  /** `len(vendors) != len(vendor_ids)` rejects the request exactly when an id is
      unknown or listed twice. */
  lemma SelectionComplete(m: map<int, Vendor>, ids: seq<int>, next: int)
    requires forall k :: k in m ==> 1 <= k < next && m[k].id == k
    ensures |Scan(m, Selected(ids), 1, next)| == |ids| <==> Distinct(ids) && forall i :: i in ids ==> i in m
  {
    var found := Scan(m, Selected(ids), 1, next);
    var asked := set x | x in ids;
    var hit := set x | x in found;
    AscendingDistinct(found);
    DistinctIffCardinality(found);
    DistinctIffCardinality(ids);
    assert hit == asked * m.Keys by {
      forall x | x in asked * m.Keys ensures x in hit {
        assert m[x].id == x;
      }
    }
    SubsetCardinality(hit, asked);
    assert hit <= asked by {
      forall k | k in hit ensures k in asked {
        assert m[k].id == k;
      }
    }
    if |found| == |ids| {
      assert |hit| == |asked| == |ids|;
      assert hit == asked;
      forall i | i in ids ensures i in m {
        assert i in asked;
      }
    }
    if Distinct(ids) && forall i :: i in ids ==> i in m {
      assert hit == asked;
    }
  }

  /** The delivery loop over the vendors a complete selection found: one entry
      per selected id, in key order, each the outcome for that vendor's row. */
  method SendToSelected(db: Database, vendorIds: seq<int>, data: RfpData, config: SmtpConfig,
                        transport: Email -> Option<string>)
    returns (results: seq<SendResult>)
    requires db.Valid()
    requires Distinct(vendorIds) && forall i :: i in vendorIds ==> i in db.vendors
    ensures |results| == |vendorIds|
    ensures forall i :: 0 <= i < |results| ==>
      && results[i].vendorId in vendorIds && results[i].vendorId in db.vendors
      && results[i] == Delivery(config, db.vendors[results[i].vendorId], data, transport)
    ensures forall i, j :: 0 <= i < j < |results| ==> results[i].vendorId < results[j].vendorId
  {
    var ids := Scan(db.vendors, Selected(vendorIds), 1, db.nextVendorId);
    SelectionComplete(db.vendors, vendorIds, db.nextVendorId);
    var vendors := RowsAt(db.vendors, ids);
    SelectedRows(db.vendors, vendorIds, ids, vendors);
    results := SendAll(config, vendors, data, transport);
    SelectedEntries(db.vendors, vendorIds, ids, vendors, results, config, data, transport);
  }

  /** The rows a selection reads back carry their own ids and have an address. */
  lemma SelectedRows(m: map<int, Vendor>, vendorIds: seq<int>, ids: seq<int>, vendors: seq<Vendor>)
    requires forall k :: k in m ==> m[k].id == k && m[k].email.Some?
    requires forall i :: 0 <= i < |ids| ==> ids[i] in m
    requires vendors == RowsAt(m, ids)
    ensures forall i :: 0 <= i < |vendors| ==> vendors[i].email.Some? && vendors[i].id == ids[i]
  {
    forall i | 0 <= i < |vendors| ensures vendors[i].email.Some? && vendors[i].id == ids[i] {
      var k := ids[i];
      assert k in m && vendors[i] == m[k];
      assert m[k].id == k && m[k].email.Some?;
    }
  }

  /** Entries made for the rows of an ascending selection follow the selection. */
  lemma SelectedEntries(m: map<int, Vendor>, vendorIds: seq<int>, ids: seq<int>, vendors: seq<Vendor>,
                        results: seq<SendResult>, config: SmtpConfig, data: RfpData,
                        transport: Email -> Option<string>)
    requires forall k :: k in m ==> m[k].id == k && m[k].email.Some?
    requires Ascending(ids) && forall k :: k in ids <==> k in m && k in vendorIds
    requires forall i :: 0 <= i < |ids| ==> ids[i] in m
    requires vendors == RowsAt(m, ids)
    requires |results| == |vendors|
    requires forall i :: 0 <= i < |vendors| ==> vendors[i].email.Some?
    requires forall i :: 0 <= i < |vendors| ==> results[i] == Delivery(config, vendors[i], data, transport)
    ensures forall i :: 0 <= i < |results| ==>
      && results[i].vendorId in vendorIds && results[i].vendorId in m
      && results[i] == Delivery(config, m[results[i].vendorId], data, transport)
    ensures forall i, j :: 0 <= i < j < |results| ==> results[i].vendorId < results[j].vendorId
  {
    forall i | 0 <= i < |results|
      ensures results[i].vendorId == ids[i]
      ensures results[i].vendorId in vendorIds && results[i].vendorId in m
      ensures results[i] == Delivery(config, m[results[i].vendorId], data, transport)
    {
      assert vendors[i] == m[ids[i]];
      assert ids[i] in ids;
    }
  }

  /** `send_rfp`. A missing RFP or vendor is a 404 and nothing changes.
      Otherwise each selected vendor, in key order, gets one entry, and the RFP's
      status becomes "sent" even when every delivery failed. */
  method SendRfp(db: Database, rfpId: int, vendorIds: seq<int>, config: SmtpConfig,
                 transport: Email -> Option<string>)
    returns (r: Result<SendReport, HttpError>)
    requires db.Valid()
    modifies db
    ensures db.Valid()
    ensures rfpId !in old(db.rfps) ==> r == Err(RfpNotFound) && unchanged(db)
    ensures rfpId in old(db.rfps) && !(Distinct(vendorIds) && forall i :: i in vendorIds ==> i in old(db.vendors)) ==>
      r == Err(VendorsMissing) && unchanged(db)
    ensures rfpId in old(db.rfps) && Distinct(vendorIds) && (forall i :: i in vendorIds ==> i in old(db.vendors)) ==>
      && r.Ok? && r.value.message == SendCompleted
      && |r.value.results| == |vendorIds|
      && (forall i :: 0 <= i < |r.value.results| ==>
            && r.value.results[i].vendorId in vendorIds && r.value.results[i].vendorId in db.vendors
            && r.value.results[i] == Delivery(config, db.vendors[r.value.results[i].vendorId],
                                              RfpDataOf(old(db.rfps)[rfpId]), transport))
      && (forall i, j :: 0 <= i < j < |r.value.results| ==> r.value.results[i].vendorId < r.value.results[j].vendorId)
      && db.rfps == old(db.rfps)[rfpId := old(db.rfps)[rfpId].(status := Some("sent"))]
      && db.vendors == old(db.vendors) && db.proposals == old(db.proposals)
  {
    var found := db.RfpAt(rfpId);
    if found.None? {
      return Err(RfpNotFound);
    }
    var ids := Scan(db.vendors, Selected(vendorIds), 1, db.nextVendorId);
    SelectionComplete(db.vendors, vendorIds, db.nextVendorId);
    if |ids| != |vendorIds| {
      return Err(VendorsMissing);
    }
    var results := SendToSelected(db, vendorIds, RfpDataOf(found.value), config, transport);
    db.rfps := db.rfps[rfpId := found.value.(status := Some("sent"))];
    r := Ok(SendReport(SendCompleted, results));
  }

  // ---------------------------------------------------------------------------
  // The subject pattern `RFP[:\s#]*(\d+)`, searched case-insensitively
  // ---------------------------------------------------------------------------

  /** ASCII case folding, which is all the letters of "RFP" need. */
  function Lower(c: char): char
  {
    if 'A' <= c <= 'Z' then (c as int + 32) as char else c
  }

  /** The class `[:\s#]`. */
  predicate IsRfpSep(c: char)
  {
    c == ':' || c == '#' || IsPySpace(c)
  }

  /** End of the longest run of separators starting at `j`. */
  function SepEnd(s: string, j: nat): (k: nat)
    requires j <= |s|
    ensures j <= k <= |s|
    ensures k == |s| || !IsRfpSep(s[k])
    decreases |s| - j
  {
    if j < |s| && IsRfpSep(s[j]) then SepEnd(s, j + 1) else j
  }

  /** End of the longest run of digits starting at `j`. */
  function DigitEnd(s: string, j: nat): (k: nat)
    requires j <= |s|
    ensures j <= k <= |s|
    ensures AllDigits(s[j..k])
    ensures k == |s| || !IsDigit(s[k])
    decreases |s| - j
  {
    if j < |s| && IsDigit(s[j]) then
      var k := DigitEnd(s, j + 1);
      assert s[j..k] == [s[j]] + s[j + 1..k];
      k
    else j
  }

  /** "rfp" in any letter case, at `i`. */
  predicate TagAt(s: string, i: nat)
  {
    i + 3 <= |s| && Lower(s[i]) == 'r' && Lower(s[i + 1]) == 'f' && Lower(s[i + 2]) == 'p'
  }

  /** The pattern matches at `i`: the tag, the longest separator run (shorter
      runs end on a separator, never on a digit), then at least one digit. */
  predicate MatchesAt(s: string, i: nat)
  {
    TagAt(s, i) && SepEnd(s, i + 3) < |s| && IsDigit(s[SepEnd(s, i + 3)])
  }

  /** The value of group 1 of a match at `i`: the longest digit run. */
  function GroupValue(s: string, i: nat): nat
    requires MatchesAt(s, i)
  {
    var a := SepEnd(s, i + 3);
    DigitsValue(s[a..DigitEnd(s, a)])
  }

  /** `re.search`: the leftmost position at or after `i` where the pattern matches. */
  function SearchFrom(s: string, i: nat): (r: Option<nat>)
    requires i <= |s|
    ensures r.Some? ==> i <= r.value < |s| && MatchesAt(s, r.value)
    ensures r.Some? ==> forall j :: i <= j < r.value ==> !MatchesAt(s, j)
    ensures r.None? <==> forall j :: i <= j < |s| ==> !MatchesAt(s, j)
    decreases |s| - i
  {
    if i == |s| then None
    else if MatchesAt(s, i) then Some(i)
    else SearchFrom(s, i + 1)
  }

  /** `int(match.group(1))` of the leftmost match, if any. */
  function ExtractRfpId(subject: string): (r: Option<nat>)
    ensures r.None? <==> forall i :: 0 <= i < |subject| ==> !MatchesAt(subject, i)
  {
    match SearchFrom(subject, 0)
    case None => None
    case Some(i) => Some(GroupValue(subject, i))
  }

  /** The digit run starting at `j` ends at the first non-digit. */
  lemma {:induction false} DigitEndAt(s: string, j: nat, k: nat)
    requires j <= k <= |s|
    requires forall t :: j <= t < k ==> IsDigit(s[t])
    requires k == |s| || !IsDigit(s[k])
    ensures DigitEnd(s, j) == k
    decreases k - j
  {
    if j < k {
      DigitEndAt(s, j + 1, k);
    }
  }

  /** A run of digits followed by a non-digit (or the end) is exactly the run
      the pattern's group takes. */
  lemma DigitRun(pre: string, d: string, rest: string)
    requires AllDigits(d) && (rest == [] || !IsDigit(rest[0]))
    ensures DigitEnd(pre + d + rest, |pre|) == |pre| + |d|
    ensures (pre + d + rest)[|pre|..|pre| + |d|] == d
  {
    var s := pre + d + rest;
    var j, k := |pre|, |pre| + |d|;
    forall t | j <= t < k ensures IsDigit(s[t]) {
      assert s[t] == d[t - j];
    }
    assert k < |s| ==> s[k] == rest[0];
    DigitEndAt(s, j, k);
    assert s[j..k] == d;
  }

  /** A subject that starts "RFP #<n>" yields `n`, whatever follows the number. */
  lemma ExtractFromTaggedSubject(n: nat, rest: string)
    requires rest == [] || !IsDigit(rest[0])
    ensures ExtractRfpId("RFP #" + NatToString(n) + rest) == Some(n)
  {
    var d := NatToString(n);
    var s := "RFP #" + d + rest;
    DigitRun("RFP #", d, rest);
    assert s[3] == ' ' && s[4] == '#' && s[5] == d[0];
    assert SepEnd(s, 5) == 5;
    assert SepEnd(s, 3) == 5;
    assert MatchesAt(s, 0);
    NatToStringRoundTrip(n);
  }

  /** No position of `p` can start "rfp", even with text appended after `p`. */
  predicate NoTagStart(p: string)
  {
    forall i :: 0 <= i < |p| ==> !TagPrefixAt(p, i)
  }

  /** What of "rfp" fits in `p` from `i` on matches. */
  predicate TagPrefixAt(p: string, i: nat)
    requires i < |p|
  {
    Lower(p[i]) == 'r' && (i + 1 >= |p| || Lower(p[i + 1]) == 'f') && (i + 2 >= |p| || Lower(p[i + 2]) == 'p')
  }

  lemma {:induction false} SepEndShift(p: string, t: string, j: nat)
    requires j <= |t|
    ensures SepEnd(p + t, |p| + j) == |p| + SepEnd(t, j)
    decreases |t| - j
  {
    if j < |t| {
      assert (p + t)[|p| + j] == t[j];
      if IsRfpSep(t[j]) {
        SepEndShift(p, t, j + 1);
      }
    }
  }

  lemma {:induction false} DigitEndShift(p: string, t: string, j: nat)
    requires j <= |t|
    ensures DigitEnd(p + t, |p| + j) == |p| + DigitEnd(t, j)
    decreases |t| - j
  {
    if j < |t| {
      assert (p + t)[|p| + j] == t[j];
      if IsDigit(t[j]) {
        DigitEndShift(p, t, j + 1);
      }
    }
  }

  /** Text in front of the subject moves a match but does not change it. */
  lemma MatchShift(p: string, t: string, j: nat)
    requires j <= |t|
    ensures MatchesAt(p + t, |p| + j) <==> MatchesAt(t, j)
  {
    var s := p + t;
    if j + 3 <= |t| {
      assert s[|p| + j] == t[j] && s[|p| + j + 1] == t[j + 1] && s[|p| + j + 2] == t[j + 2];
      SepEndShift(p, t, j + 3);
      var a := SepEnd(t, j + 3);
      if a < |t| {
        assert s[|p| + a] == t[a];
      }
    }
  }

  /** ... and the number it captures. */
  lemma GroupShift(p: string, t: string, j: nat)
    requires j <= |t| && MatchesAt(t, j)
    ensures MatchesAt(p + t, |p| + j)
    ensures GroupValue(p + t, |p| + j) == GroupValue(t, j)
  {
    MatchShift(p, t, j);
    var s := p + t;
    SepEndShift(p, t, j + 3);
    var a := SepEnd(t, j + 3);
    DigitEndShift(p, t, a);
    assert s[|p| + a..|p| + DigitEnd(t, a)] == t[a..DigitEnd(t, a)];
  }

  /** No match can start inside an opening that cannot start the tag. */
  lemma NoMatchInOpening(p: string, t: string, i: nat)
    requires NoTagStart(p) && i < |p|
    ensures !MatchesAt(p + t, i)
  {
    var s := p + t;
    assert s[i] == p[i];
    assert i + 1 < |p| ==> s[i + 1] == p[i + 1];
    assert i + 2 < |p| ==> s[i + 2] == p[i + 2];
    assert !TagPrefixAt(p, i);
  }

  lemma ExtractAt(s: string, i: nat)
    requires SearchFrom(s, 0) == Some(i)
    ensures MatchesAt(s, i) && ExtractRfpId(s) == Some(GroupValue(s, i))
  {
  }

  /** A subject whose opening cannot start the tag yields whatever the rest yields. */
  lemma ExtractAfterUntagged(p: string, t: string)
    requires NoTagStart(p)
    ensures ExtractRfpId(p + t) == ExtractRfpId(t)
  {
    if SearchFrom(t, 0).Some? {
      LeftmostAfterUntagged(p, t, SearchFrom(t, 0).value);
    } else {
      NoneAfterUntagged(p, t);
    }
  }

  /** The leftmost match in `p + t` is the leftmost match in `t`, moved. */
  lemma LeftmostShift(p: string, t: string, i: nat)
    requires NoTagStart(p) && SearchFrom(t, 0) == Some(i)
    ensures SearchFrom(p + t, 0) == Some(|p| + i)
  {
    var s := p + t;
    var b := SearchFrom(s, 0);
    MatchShift(p, t, i);
    assert b.Some?;
    var m := b.value;
    assert m >= |p| by {
      if m < |p| {
        NoMatchInOpening(p, t, m);
      }
    }
    MatchShift(p, t, m - |p|);
    assert MatchesAt(t, m - |p|);
    assert m - |p| >= i;
    assert m <= |p| + i;
  }

  lemma LeftmostAfterUntagged(p: string, t: string, i: nat)
    requires NoTagStart(p) && SearchFrom(t, 0) == Some(i)
    ensures ExtractRfpId(p + t) == ExtractRfpId(t)
  {
    LeftmostShift(p, t, i);
    ExtractAt(t, i);
    GroupShift(p, t, i);
    ExtractAt(p + t, |p| + i);
  }

  lemma NoneAfterUntagged(p: string, t: string)
    requires NoTagStart(p) && SearchFrom(t, 0).None?
    ensures ExtractRfpId(p + t).None?
  {
    var s := p + t;
    forall k | 0 <= k < |s| ensures !MatchesAt(s, k) {
      if k < |p| {
        NoMatchInOpening(p, t, k);
      } else {
        MatchShift(p, t, k - |p|);
      }
    }
  }

  /** A reply to the message `send_rfp` mails ("Re: Request for Proposal: <title>")
      names an RFP only when the title itself carries "RFP <n>": the outgoing
      subject does not include the RFP's id. */
  lemma ExtractFromReplySubject(title: string)
    ensures ExtractRfpId("Re: " + SubjectPrefix + title) == ExtractRfpId(title)
  {
    var p := "Re: " + SubjectPrefix;
    assert NoTagStart(p);
    ExtractAfterUntagged(p, title);
  }

  // ---------------------------------------------------------------------------
  // POST /email/receive
  // ---------------------------------------------------------------------------

  datatype ReceiveRequest = ReceiveRequest(fromEmail: string, subject: string, body: string, rfpId: Option<int>)

  /** The RFP the reply is for: a truthy `rfp_id` in the request, otherwise the
      number in the subject, otherwise a 400. */
  function TargetRfp(req: ReceiveRequest): (r: Result<int, HttpError>)
    ensures req.rfpId.Some? && req.rfpId.value != 0 ==> r == Ok(req.rfpId.value)
    ensures (req.rfpId.None? || req.rfpId.value == 0) ==>
      (r.Err? <==> ExtractRfpId(req.subject).None?) && (r.Err? ==> r.error == NoRfpId)
    ensures (req.rfpId.None? || req.rfpId.value == 0) && r.Ok? ==> r.value >= 0
  {
    if req.rfpId.Some? && req.rfpId.value != 0 then Ok(req.rfpId.value)
    else
      match ExtractRfpId(req.subject)
      case Some(n) => Ok(n)
      case None => Err(NoRfpId)
  }

  /** `VendorModel.email == from_email`, first match. */
  function SenderOf(vendors: map<int, Vendor>, next: int, from: string): Option<int>
  {
    First(vendors, (v: Vendor) => v.email == Some(from), next)
  }

  /** The proposal this vendor already has for this RFP, first match. */
  function PriorReply(proposals: map<int, Proposal>, next: int, rfpId: int, vendorId: int): Option<int>
  {
    First(proposals, (p: Proposal) => p.rfpId == rfpId && p.vendorId == vendorId, next)
  }

  /** The `proposal_data` dictionary, in its key order: the two keys, then the
      columns taken from the reply. */
  function ProposalData(rfpId: int, vendorId: int, body: string, x: Extracted): seq<ProposalAssign>
  {
    [SetRfpId(rfpId), SetVendorId(vendorId)] + ReplyColumns(body, x)
  }

  /** The columns `proposal_data` takes from the reply and its extraction:
      `.get` gives `None` for a missing key, and the score defaults to 0. */
  function ReplyColumns(body: string, x: Extracted): seq<ProposalAssign>
  {
    [ SetTotalPrice(x.totalPrice.Get()), ProposalAssign.SetDeliveryDays(x.deliveryDays.Get()),
      ProposalAssign.SetPaymentTerms(x.paymentTerms.Get()), SetWarranty(x.warranty.Get()),
      ProposalAssign.SetItems(x.items.Get()), SetTermsConditions(x.termsConditions.Get()),
      SetRawResponse(Some(body)), SetExtractedData(Some(x)),
      SetCompletenessScore(x.completenessScore.GetOr(0.0)) ]
  }

  /** The row a reply leaves behind, apart from its key and arrival time. */
  function ReplyRow(id: int, receivedAt: int, rfpId: int, vendorId: int, body: string, x: Extracted): (p: Proposal)
    ensures p.rawResponse == Some(body) && p.extractedData == Some(x)
    ensures x.completenessScore.Absent? ==> p.completenessScore == Some(0.0)
    ensures x.totalPrice.Absent? ==> p.totalPrice == None
  {
    Proposal(id, rfpId, vendorId, x.totalPrice.Get(), x.deliveryDays.Get(), x.paymentTerms.Get(),
             x.warranty.Get(), x.items.Get(), x.termsConditions.Get(), Some(body), Some(x),
             x.completenessScore.GetOr(0.0), receivedAt)
  }

  predicate NonKey(a: ProposalAssign)
  {
    !a.SetRfpId? && !a.SetVendorId?
  }

  /** `if field not in ["rfp_id", "vendor_id"]`: the assignments an update keeps. */
  function WithoutKeys(data: seq<ProposalAssign>): (r: seq<ProposalAssign>)
    ensures forall a :: a in r <==> a in data && NonKey(a)
  {
    if data == [] then []
    else
      var last := data[|data| - 1];
      assert data == data[..|data| - 1] + [last];
      WithoutKeys(data[..|data| - 1]) + (if NonKey(last) then [last] else [])
  }

  /** Dropping assignments distributes over concatenation. */
  lemma {:induction false} WithoutKeysAppend(a: seq<ProposalAssign>, b: seq<ProposalAssign>)
    ensures WithoutKeys(a + b) == WithoutKeys(a) + WithoutKeys(b)
  {
    if b != [] {
      var init := b[..|b| - 1];
      assert (a + b)[..|a + b| - 1] == a + init;
      WithoutKeysAppend(a, init);
    } else {
      assert a + b == a;
    }
  }

  /** Setting columns in two batches is setting them in one. */
  lemma {:induction false} PatchedAppend(p: Proposal, a: seq<ProposalAssign>, b: seq<ProposalAssign>)
    ensures ProposalPatched(p, a + b) == ProposalPatched(ProposalPatched(p, a), b)
  {
    if b != [] {
      var init := b[..|b| - 1];
      assert (a + b)[..|a + b| - 1] == a + init;
      PatchedAppend(p, a, init);
    } else {
      assert a + b == a;
    }
  }

  /** The reply's columns come in table order and none of them is a key. */
  lemma ReplyColumnsInOrder(body: string, x: Extracted)
    ensures var e := ReplyColumns(body, x);
      forall i :: 0 <= i < |e| ==> ProposalColumn(e[i]) == i + 2 && NonKey(e[i])
  {
    ColumnsInOrder(x.totalPrice.Get(), x.deliveryDays.Get(), x.paymentTerms.Get(), x.warranty.Get(),
                   x.items.Get(), x.termsConditions.Get(), Some(body), Some(x), x.completenessScore.GetOr(0.0));
  }

  lemma ColumnsInOrder(price: Option<Money>, days: Option<int>, payment: Option<string>, warranty: Option<string>,
                       items: Option<seq<Item>>, terms: Option<string>, raw: Option<string>,
                       extracted: Option<Extracted>, score: Option<real>)
    ensures var e := [ SetTotalPrice(price), ProposalAssign.SetDeliveryDays(days),
                       ProposalAssign.SetPaymentTerms(payment), SetWarranty(warranty),
                       ProposalAssign.SetItems(items), SetTermsConditions(terms),
                       SetRawResponse(raw), SetExtractedData(extracted), SetCompletenessScore(score) ];
      forall i :: 0 <= i < |e| ==> ProposalColumn(e[i]) == i + 2 && NonKey(e[i])
  {
  }

  /** Every column the reply names is overwritten; the keys, the id and the
      arrival time stay. */
  lemma ReplyColumnsWrite(p: Proposal, body: string, x: Extracted)
    ensures ProposalPatched(p, ReplyColumns(body, x)) == ReplyRow(p.id, p.receivedAt, p.rfpId, p.vendorId, body, x)
  {
    var e := ReplyColumns(body, x);
    var q := ProposalPatched(p, e);
    ReplyColumnsInOrder(body, x);
    ProposalPatchedExactly(p, e);
    assert ProposalHolds(q, e[0]) && ProposalHolds(q, e[1]) && ProposalHolds(q, e[2]);
    assert ProposalHolds(q, e[3]) && ProposalHolds(q, e[4]) && ProposalHolds(q, e[5]);
    assert ProposalHolds(q, e[6]) && ProposalHolds(q, e[7]) && ProposalHolds(q, e[8]);
    assert ProposalSameOn(q, p, 0) && ProposalSameOn(q, p, 1);
  }

  /** `ProposalModel(**proposal_data)` writes every column the dictionary names;
      only the key and arrival time survive from the row it starts from. */
  lemma ProposalDataWrites(p: Proposal, rfpId: int, vendorId: int, body: string, x: Extracted)
    ensures ProposalPatched(p, ProposalData(rfpId, vendorId, body, x))
      == ReplyRow(p.id, p.receivedAt, rfpId, vendorId, body, x)
  {
    var keys: seq<ProposalAssign> := [SetRfpId(rfpId), SetVendorId(vendorId)];
    PatchedAppend(p, keys, ReplyColumns(body, x));
    var one := keys[..1];
    assert one[..0] == [];
    assert ProposalPatched(p, one) == SetProposalColumn(p, SetRfpId(rfpId));
    assert ProposalPatched(p, keys) == SetProposalColumn(ProposalPatched(p, one), SetVendorId(vendorId));
    ReplyColumnsWrite(p.(rfpId := rfpId, vendorId := vendorId), body, x);
  }

  /** The update path never writes the keys, and ends with the same row as the
      insert path would have built, because it only runs on a row with these keys. */
  lemma ReplyUpdate(p: Proposal, rfpId: int, vendorId: int, body: string, x: Extracted)
    requires p.rfpId == rfpId && p.vendorId == vendorId
    ensures ProposalPatched(p, WithoutKeys(ProposalData(rfpId, vendorId, body, x)))
      == ReplyRow(p.id, p.receivedAt, rfpId, vendorId, body, x)
  {
    ReplyDataKept(rfpId, vendorId, body, x);
    ReplyColumnsWrite(p, body, x);
  }

  /** Of the whole dictionary the update loop keeps exactly the reply's columns. */
  lemma ReplyDataKept(rfpId: int, vendorId: int, body: string, x: Extracted)
    ensures WithoutKeys(ProposalData(rfpId, vendorId, body, x)) == ReplyColumns(body, x)
  {
    var keys: seq<ProposalAssign> := [SetRfpId(rfpId), SetVendorId(vendorId)];
    var e := ReplyColumns(body, x);
    WithoutKeysAppend(keys, e);
    KeysDropped(rfpId, vendorId);
    ReplyColumnsInOrder(body, x);
    WithoutKeysOfNonKeys(e);
    assert [] + e == e;
  }

  lemma KeysDropped(rfpId: int, vendorId: int)
    ensures WithoutKeys([SetRfpId(rfpId), SetVendorId(vendorId)]) == []
  {
    var keys: seq<ProposalAssign> := [SetRfpId(rfpId), SetVendorId(vendorId)];
    assert keys[..1][..0] == [];
    assert WithoutKeys(keys[..1]) == [];
  }

  lemma {:induction false} WithoutKeysOfNonKeys(e: seq<ProposalAssign>)
    requires forall i :: 0 <= i < |e| ==> NonKey(e[i])
    ensures WithoutKeys(e) == e
  {
    if e != [] {
      WithoutKeysOfNonKeys(e[..|e| - 1]);
      assert e == e[..|e| - 1] + [e[|e| - 1]];
    }
  }

  /** `for field, value in proposal_data.items(): if field not in [...]: setattr(...)`. */
  method ApplyReply(row: Proposal, data: seq<ProposalAssign>) returns (out: Proposal)
    ensures out == ProposalPatched(row, WithoutKeys(data))
  {
    out := row;
    for i := 0 to |data|
      invariant out == ProposalPatched(row, WithoutKeys(data[..i]))
    {
      var a := data[i];
      var kept := WithoutKeys(data[..i]);
      assert data[..i + 1] == data[..i] + [a];
      WithoutKeysAppend(data[..i], [a]);
      assert [a][..0] == [];
      if NonKey(a) {
        assert WithoutKeys([a]) == [a];
        PatchedAppend(row, kept, [a]);
        assert ProposalPatched(out, [a]) == SetProposalColumn(out, a);
        out := SetProposalColumn(out, a);
      } else {
        assert WithoutKeys([a]) == [];
        assert kept + [] == kept;
      }
    }
    assert data[..|data|] == data;
  }

  /** The blank row `ProposalModel(...)` starts from before its columns are set. */
  function Blank(now: int): Proposal
  {
    Proposal(0, 0, 0, None, None, None, None, None, None, None, None, None, now)
  }

  /** At most one proposal per (RFP, vendor) pair. */
  predicate OnePerPair(proposals: map<int, Proposal>)
  {
    forall a, b ::
      (a in proposals && b in proposals && proposals[a].rfpId == proposals[b].rfpId
       && proposals[a].vendorId == proposals[b].vendorId) ==> a == b
  }

  /** Replacing a row by one with the same keys keeps one proposal per pair. */
  lemma OnePerPairReplace(m: map<int, Proposal>, k: int, row: Proposal)
    requires OnePerPair(m) && k in m
    requires row.rfpId == m[k].rfpId && row.vendorId == m[k].vendorId
    ensures OnePerPair(m[k := row])
  {
  }

  /** Adding a row for a pair no row has keeps one proposal per pair. */
  lemma OnePerPairInsert(m: map<int, Proposal>, k: int, row: Proposal)
    requires OnePerPair(m) && k !in m
    requires forall j :: j in m ==> !(m[j].rfpId == row.rfpId && m[j].vendorId == row.vendorId)
    ensures OnePerPair(m[k := row])
  {
  }

  /** The commit at the end of `receive_vendor_email`: overwrite the vendor's
      earlier proposal for this RFP, or insert a new one. */
  method StoreReply(db: Database, rid: int, vid: int, body: string, x: Extracted, now: int) returns (row: Proposal)
    requires db.Valid()
    modifies db
    ensures db.Valid()
    ensures db.rfps == old(db.rfps) && db.vendors == old(db.vendors)
    ensures OnePerPair(old(db.proposals)) ==> OnePerPair(db.proposals)
    ensures row.id in db.proposals && db.proposals[row.id] == row
    ensures match PriorReply(old(db.proposals), old(db.nextProposalId), rid, vid)
      case Some(k) =>
        && row == ReplyRow(k, old(db.proposals)[k].receivedAt, rid, vid, body, x)
        && db.proposals == old(db.proposals)[k := row]
      case None =>
        && row == ReplyRow(old(db.nextProposalId), now, rid, vid, body, x)
        && old(db.nextProposalId) !in old(db.proposals)
        && db.proposals == old(db.proposals)[row.id := row]
  {
    var prior := PriorReply(db.proposals, db.nextProposalId, rid, vid);
    if prior.Some? {
      row := OverwriteReply(db, prior.value, rid, vid, body, x);
    } else {
      row := InsertReply(db, rid, vid, body, x, now);
    }
  }

  /** The update path: the existing row gets the reply's columns. */
  method OverwriteReply(db: Database, k: int, rid: int, vid: int, body: string, x: Extracted) returns (row: Proposal)
    requires db.Valid() && k in db.proposals
    requires db.proposals[k].rfpId == rid && db.proposals[k].vendorId == vid
    modifies db
    ensures db.Valid()
    ensures db.rfps == old(db.rfps) && db.vendors == old(db.vendors)
    ensures OnePerPair(old(db.proposals)) ==> OnePerPair(db.proposals)
    ensures row == ReplyRow(k, old(db.proposals)[k].receivedAt, rid, vid, body, x)
    ensures db.proposals == old(db.proposals)[k := row]
  {
    row := ApplyReply(db.proposals[k], ProposalData(rid, vid, body, x));
    ReplyUpdate(db.proposals[k], rid, vid, body, x);
    if OnePerPair(db.proposals) {
      OnePerPairReplace(db.proposals, k, row);
    }
    db.proposals := db.proposals[k := row];
  }

  /** The insert path: a new row built from the dictionary, under the next key. */
  method InsertReply(db: Database, rid: int, vid: int, body: string, x: Extracted, now: int) returns (row: Proposal)
    requires db.Valid() && PriorReply(db.proposals, db.nextProposalId, rid, vid).None?
    modifies db
    ensures db.Valid()
    ensures db.rfps == old(db.rfps) && db.vendors == old(db.vendors)
    ensures OnePerPair(old(db.proposals)) ==> OnePerPair(db.proposals)
    ensures row == ReplyRow(old(db.nextProposalId), now, rid, vid, body, x)
    ensures old(db.nextProposalId) !in old(db.proposals)
    ensures db.proposals == old(db.proposals)[row.id := row]
  {
    var built := ProposalPatched(Blank(now), ProposalData(rid, vid, body, x));
    ProposalDataWrites(Blank(now), rid, vid, body, x);
    if OnePerPair(db.proposals) {
      OnePerPairInsert(db.proposals, db.nextProposalId, built.(id := db.nextProposalId));
    }
    row := db.AddProposal(built);
  }

  /** `receive_vendor_email`: `reply` and `loads` are the completion for the
      extraction prompt and `json.loads`; `now` is the insert time. */
  method ReceiveVendorEmail(db: Database, req: ReceiveRequest, reply: Result<string, string>,
                            loads: string -> Result<Extracted, string>, now: int)
    returns (r: Result<Proposal, HttpError>)
    requires db.Valid()
    modifies db
    ensures db.Valid()
    ensures db.rfps == old(db.rfps) && db.vendors == old(db.vendors)
    ensures OnePerPair(old(db.proposals)) ==> OnePerPair(db.proposals)
    ensures TargetRfp(req).Err? ==> r == Err(NoRfpId) && unchanged(db)
    ensures TargetRfp(req).Ok? && TargetRfp(req).value !in old(db.rfps) ==> r == Err(RfpNotFound) && unchanged(db)
    ensures TargetRfp(req).Ok? && TargetRfp(req).value in old(db.rfps)
            && SenderOf(old(db.vendors), old(db.nextVendorId), req.fromEmail).None? ==>
      r == Err(HttpError(404, "Vendor with email " + req.fromEmail + " not found")) && unchanged(db)
    ensures TargetRfp(req).Ok? && TargetRfp(req).value in old(db.rfps)
            && SenderOf(old(db.vendors), old(db.nextVendorId), req.fromEmail).Some?
            && ExtractProposalDetails(reply, loads).Err? ==>
      r == Err(HttpError(500, ParseEmailPrefix + ExtractProposalDetails(reply, loads).error)) && unchanged(db)
    ensures r.Ok? <==> && TargetRfp(req).Ok? && TargetRfp(req).value in old(db.rfps)
                       && SenderOf(old(db.vendors), old(db.nextVendorId), req.fromEmail).Some?
                       && ExtractProposalDetails(reply, loads).Ok?
    ensures r.Ok? ==>
      var rid := TargetRfp(req).value;
      var vid := SenderOf(old(db.vendors), old(db.nextVendorId), req.fromEmail).value;
      var x := ExtractProposalDetails(reply, loads).value;
      && TargetRfp(req).Ok? && SenderOf(old(db.vendors), old(db.nextVendorId), req.fromEmail).Some?
      && ExtractProposalDetails(reply, loads).Ok?
      && r.value.id in db.proposals && db.proposals[r.value.id] == r.value
      && match PriorReply(old(db.proposals), old(db.nextProposalId), rid, vid)
         case Some(k) =>
           && r.value == ReplyRow(k, old(db.proposals)[k].receivedAt, rid, vid, req.body, x)
           && db.proposals == old(db.proposals)[k := r.value]
         case None =>
           && r.value == ReplyRow(old(db.nextProposalId), now, rid, vid, req.body, x)
           && old(db.nextProposalId) !in old(db.proposals)
           && db.proposals == old(db.proposals)[r.value.id := r.value]
    ensures r.Err? ==> unchanged(db)
  {
    var target := TargetRfp(req);
    if target.Err? {
      return Err(NoRfpId);
    }
    var rid := target.value;
    if db.RfpAt(rid).None? {
      return Err(RfpNotFound);
    }
    var sender := SenderOf(db.vendors, db.nextVendorId, req.fromEmail);
    if sender.None? {
      return Err(HttpError(404, "Vendor with email " + req.fromEmail + " not found"));
    }
    var vid := sender.value;
    var extracted := ExtractProposalDetails(reply, loads);
    if extracted.Err? {
      return Err(HttpError(500, ParseEmailPrefix + extracted.error));
    }
    var row := StoreReply(db, rid, vid, req.body, extracted.value, now);
    r := Ok(row);
  }
}
