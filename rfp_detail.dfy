/** The RFP detail page (`RFPDetail`): a snapshot of one RFP with the vendors and
    its proposals, a vendor selection, three busy flags, an error and a success
    notification, and a cached AI comparison. Each handler is one atomic step:
    the outcome of every awaited call is a parameter, and the requests a handler
    issues are returned together with the state the page was in when it issued
    them. */
module RfpDetail {
  import opened Common
  import opened Records

  // ---------------------------------------------------------------------------
  // State, fields and requests
  // ---------------------------------------------------------------------------

  /** The component's state variables; `id` is `Number(id)` of the route parameter. */
  datatype ViewState = ViewState(
    id: int,
    rfp: Option<Rfp>,
    vendors: seq<Vendor>,
    proposals: seq<Proposal>,
    comparison: Option<ComparisonResult>,
    showComparison: bool,
    selectedVendors: seq<int>,
    loading: bool,
    sending: bool,
    loadingComparison: bool,
    error: Option<string>,
    success: Option<string>)

  /** The names of the state variables, for saying which of them a step may change. */
  datatype Field =
    | RfpField | VendorsField | ProposalsField | ComparisonField | ShowComparisonField
    | SelectedField | LoadingField | SendingField | LoadingComparisonField
    | ErrorField | SuccessField

  /** Going from `a` to `b` touches no state variable outside `fs`. */
  predicate ChangesOnly(a: ViewState, b: ViewState, fs: set<Field>)
  {
    && a.id == b.id
    && (RfpField !in fs ==> a.rfp == b.rfp)
    && (VendorsField !in fs ==> a.vendors == b.vendors)
    && (ProposalsField !in fs ==> a.proposals == b.proposals)
    && (ComparisonField !in fs ==> a.comparison == b.comparison)
    && (ShowComparisonField !in fs ==> a.showComparison == b.showComparison)
    && (SelectedField !in fs ==> a.selectedVendors == b.selectedVendors)
    && (LoadingField !in fs ==> a.loading == b.loading)
    && (SendingField !in fs ==> a.sending == b.sending)
    && (LoadingComparisonField !in fs ==> a.loadingComparison == b.loadingComparison)
    && (ErrorField !in fs ==> a.error == b.error)
    && (SuccessField !in fs ==> a.success == b.success)
  }

  /** The HTTP requests the page makes through its API wrappers. */
  datatype Request =
    | GetRfp(rfpId: int)
    | ListVendors
    | ListProposals(filter: Option<int>)
    | SendRfpRequest(rfpId: int, vendorIds: seq<int>)
    | CompareRequest(rfpId: int)

  /** A request together with the page state at the moment it was issued. */
  datatype Call = Call(request: Request, at: ViewState)

  /** The state a handler leaves and the requests it issued, in order. */
  datatype Step = Step(after: ViewState, calls: seq<Call>)

  /** The replies to the three requests `loadData` awaits together. */
  datatype LoadReplies = LoadReplies(rfp: Remote<Rfp>, vendors: Remote<seq<Vendor>>, proposals: Remote<seq<Proposal>>)

  predicate AllDone(o: LoadReplies)
  {
    o.rfp.Done? && o.vendors.Done? && o.proposals.Done?
  }

  const LoadFailed := "Failed to load RFP details"
  const NoVendorSelected := "Please select at least one vendor"
  const SendFailed := "Failed to send RFP"
  const NeedTwoProposals := "Need at least 2 proposals to compare"
  const CompareFailed := "Failed to compare proposals"

  /** The state before the first load: only `loading` is set. */
  function Initial(id: int): (s: ViewState)
    ensures s.id == id && s.loading && !s.sending && !s.loadingComparison
    ensures s.rfp.None? && s.vendors == [] && s.proposals == [] && s.selectedVendors == []
    ensures s.comparison.None? && !s.showComparison && s.error.None? && s.success.None?
  {
    ViewState(id, None, [], [], None, false, [], true, false, false, None, None)
  }

  // ---------------------------------------------------------------------------
  // Vendor selection
  // ---------------------------------------------------------------------------

  /** `sel.filter((id) => id !== v)`. */
  function Without(sel: seq<int>, v: int): (r: seq<int>)
    ensures |r| <= |sel|
    ensures forall w :: w in r <==> w in sel && w != v
    ensures Distinct(sel) ==> Distinct(r)
    ensures v !in sel ==> r == sel
  {
    if sel == [] then []
    else if sel[0] == v then Without(sel[1..], v)
    else
      var rest := Without(sel[1..], v);
      DistinctCons(sel[0], sel[1..], rest);
      assert [sel[0]] + sel[1..] == sel;
      [sel[0]] + rest
  }

  /** Putting `x` in front of `tail` keeps it duplicate-free exactly when `x` is new;
      the same then holds for any `rest` whose elements come from `tail`. */
  lemma DistinctCons(x: int, tail: seq<int>, rest: seq<int>)
    requires forall w :: w in rest ==> w in tail
    requires Distinct(tail) ==> Distinct(rest)
    ensures Distinct([x] + tail) ==> Distinct([x] + rest)
  {
    if Distinct([x] + tail) {
      assert Distinct(tail) by {
        forall i, j | 0 <= i < j < |tail| ensures tail[i] != tail[j] {
          assert tail[i] == ([x] + tail)[i + 1] && tail[j] == ([x] + tail)[j + 1];
        }
      }
      forall j | 0 <= j < |tail| ensures tail[j] != x {
        assert ([x] + tail)[0] == x && ([x] + tail)[j + 1] == tail[j];
      }
      forall i, j | 0 <= i < j < |[x] + rest| ensures ([x] + rest)[i] != ([x] + rest)[j] {
        if i == 0 {
          assert ([x] + rest)[j] == rest[j - 1];
          assert rest[j - 1] in rest;
        } else {
          assert ([x] + rest)[i] == rest[i - 1] && ([x] + rest)[j] == rest[j - 1];
        }
      }
    }
  }

  /** `toggleVendorSelection`'s update: drop `v` when it is selected, append it otherwise. */
  function Toggled(sel: seq<int>, v: int): (r: seq<int>)
    ensures v in r <==> v !in sel
    ensures forall w :: w != v ==> (w in r <==> w in sel)
    ensures Distinct(sel) ==> Distinct(r)
    ensures v !in sel ==> r == sel + [v]
  {
    if v in sel then Without(sel, v) else sel + [v]
  }

  /** Toggling the same vendor twice restores every id's membership, and restores
      the list itself when the vendor was not selected. */
  lemma ToggleTwice(sel: seq<int>, v: int)
    ensures forall w :: w in Toggled(Toggled(sel, v), v) <==> w in sel
    ensures v !in sel ==> Toggled(Toggled(sel, v), v) == sel
  {
    if v !in sel {
      assert Toggled(sel, v) == sel + [v];
      WithoutLast(sel, v);
    }
  }

  /** Filtering out an id that was appended to a list without it gives the list back. */
  lemma {:induction false} WithoutLast(sel: seq<int>, v: int)
    requires v !in sel
    ensures Without(sel + [v], v) == sel
  {
    if sel != [] {
      assert (sel + [v])[1..] == sel[1..] + [v];
      WithoutLast(sel[1..], v);
    }
  }

  // ---------------------------------------------------------------------------
  // The handlers as steps
  // ---------------------------------------------------------------------------

  /** `proposalsApi.getAll(Number(id))` sends `rfp_id` only when the id is truthy. */
  function ProposalFilter(id: int): (f: Option<int>)
    ensures f.None? <==> id == 0
    ensures f.Some? ==> f.value == id
  {
    if id != 0 then Some(id) else None
  }

  /** The three requests `Promise.all` starts together. */
  function LoadRequests(id: int): seq<Request>
  {
    [GetRfp(id), ListVendors, ListProposals(ProposalFilter(id))]
  }

  /** `loadData`: all three replies replace the snapshot together, or none of them
      does and the error is set; `loading` ends false either way. A success does
      not clear an earlier error. */
  function LoadStep(s: ViewState, o: LoadReplies): (t: Step)
    ensures |t.calls| == 3
    ensures forall i :: 0 <= i < 3 ==> t.calls[i] == Call(LoadRequests(s.id)[i], s)
    ensures !t.after.loading
    ensures AllDone(o) ==>
      && ChangesOnly(s, t.after, {RfpField, VendorsField, ProposalsField, LoadingField})
      && t.after.rfp == Some(o.rfp.value)
      && t.after.vendors == o.vendors.value
      && t.after.proposals == o.proposals.value
    ensures !AllDone(o) ==>
      && ChangesOnly(s, t.after, {ErrorField, LoadingField})
      && t.after.error == Some(LoadFailed)
  {
    var calls := [Call(GetRfp(s.id), s), Call(ListVendors, s), Call(ListProposals(ProposalFilter(s.id)), s)];
    if AllDone(o) then
      Step(s.(rfp := Some(o.rfp.value), vendors := o.vendors.value, proposals := o.proposals.value,
              loading := false), calls)
    else
      Step(s.(error := Some(LoadFailed), loading := false), calls)
  }

  /** `RFP sent successfully to N vendor(s)`. */
  function SentMessage(n: nat): (m: string)
    ensures StartsWith(m, "RFP sent successfully to ")
  {
    "RFP sent successfully to " + NatToString(n) + " vendor(s)"
  }

  /** `handleSendRFP`: an empty selection only sets the error. Otherwise `sending`
      is set and both notifications are cleared before the request; a success
      then reports the selection's size, empties the selection and reloads once;
      a failure reports the server's detail and keeps the selection; `sending`
      ends false. */
  function SendStep(s: ViewState, sent: Remote<()>, reload: LoadReplies): (t: Step)
    ensures s.selectedVendors == [] ==>
      && t.calls == []
      && ChangesOnly(s, t.after, {ErrorField})
      && t.after.error == Some(NoVendorSelected)
    ensures s.selectedVendors != [] ==>
      && 1 <= |t.calls|
      && t.calls[0].request == SendRfpRequest(s.id, s.selectedVendors)
      && t.calls[0].at == s.(sending := true, error := None, success := None)
      && !t.after.sending
    ensures s.selectedVendors != [] && sent.Done? ==>
      && |t.calls| == 4
      && (forall i :: 1 <= i < 4 ==> t.calls[i].request == LoadRequests(s.id)[i - 1])
      && t.calls[1].at.success == Some(SentMessage(|s.selectedVendors|))
      && t.calls[1].at.selectedVendors == []
      && t.after.selectedVendors == []
      && t.after.success == Some(SentMessage(|s.selectedVendors|))
      && ChangesOnly(s, t.after, {RfpField, VendorsField, ProposalsField, SelectedField, LoadingField, SendingField, ErrorField, SuccessField})
      && !t.after.loading
    ensures s.selectedVendors != [] && sent.Done? && AllDone(reload) ==>
      && t.after.error.None?
      && t.after.rfp == Some(reload.rfp.value)
      && t.after.vendors == reload.vendors.value
      && t.after.proposals == reload.proposals.value
    ensures s.selectedVendors != [] && sent.Done? && !AllDone(reload) ==>
      && t.after.error == Some(LoadFailed)
      && t.after.rfp == s.rfp && t.after.vendors == s.vendors && t.after.proposals == s.proposals
    ensures s.selectedVendors != [] && sent.Failed? ==>
      && |t.calls| == 1
      && ChangesOnly(s, t.after, {ErrorField, SuccessField, SendingField})
      && t.after.error == Some(DetailOr(sent.detail, SendFailed))
      && t.after.success.None?
  {
    if s.selectedVendors == [] then
      Step(s.(error := Some(NoVendorSelected)), [])
    else
      var call := Call(SendRfpRequest(s.id, s.selectedVendors), Sending(s));
      if sent.Done? then
        var l := LoadStep(Sent(s), reload);
        Step(l.after.(sending := false), [call] + l.calls)
      else
        Step(Sending(s).(error := Some(DetailOr(sent.detail, SendFailed)), sending := false), [call])
  }

  /** The state while the send request is outstanding. */
  function Sending(s: ViewState): ViewState
  {
    s.(sending := true, error := None, success := None)
  }

  /** The state the reload starts from after a successful send. */
  function Sent(s: ViewState): ViewState
  {
    Sending(s).(success := Some(SentMessage(|s.selectedVendors|)), selectedVendors := [])
  }

  /** `handleCompare`: fewer than two proposals only sets the error. Otherwise
      `loadingComparison` is set and the error (not the success message) is
      cleared before the request; a success caches and shows the result, a
      failure sets the error and keeps the cached result; `loadingComparison`
      ends false. */
  function CompareStep(s: ViewState, res: Remote<ComparisonResult>): (t: Step)
    ensures |s.proposals| < 2 ==>
      && t.calls == []
      && ChangesOnly(s, t.after, {ErrorField})
      && t.after.error == Some(NeedTwoProposals)
    ensures |s.proposals| >= 2 ==>
      && t.calls == [Call(CompareRequest(s.id), s.(loadingComparison := true, error := None))]
      && !t.after.loadingComparison
    ensures |s.proposals| >= 2 && res.Done? ==>
      && ChangesOnly(s, t.after, {ComparisonField, ShowComparisonField, ErrorField, LoadingComparisonField})
      && t.after.comparison == Some(res.value)
      && t.after.showComparison
      && t.after.error.None?
    ensures |s.proposals| >= 2 && res.Failed? ==>
      && ChangesOnly(s, t.after, {ErrorField, LoadingComparisonField})
      && t.after.error == Some(DetailOr(res.detail, CompareFailed))
  {
    if |s.proposals| < 2 then
      Step(s.(error := Some(NeedTwoProposals)), [])
    else
      var busy := s.(loadingComparison := true, error := None);
      var call := Call(CompareRequest(s.id), busy);
      match res
      case Done(c) =>
        Step(busy.(comparison := Some(c), showComparison := true, loadingComparison := false), [call])
      case Failed(d) =>
        Step(busy.(error := Some(DetailOr(d, CompareFailed)), loadingComparison := false), [call])
  }

  // ---------------------------------------------------------------------------
  // What the page renders and which controls are live
  // ---------------------------------------------------------------------------

  datatype Screen = LoadingScreen | NotFoundScreen | DetailScreen

  /** The early returns before the main markup. */
  function ScreenOf(s: ViewState): (sc: Screen)
    ensures sc == LoadingScreen <==> s.loading
    ensures sc == NotFoundScreen <==> !s.loading && s.rfp.None?
    ensures sc == DetailScreen <==> !s.loading && s.rfp.Some?
  {
    if s.loading then LoadingScreen else if s.rfp.None? then NotFoundScreen else DetailScreen
  }

  /** The "Send RFP to Vendors" card: only for a draft. */
  predicate SendSectionShown(s: ViewState)
  {
    ScreenOf(s) == DetailScreen && s.rfp.value.status == Some("draft")
  }

  /** The vendor checkboxes and the send button, when there is a vendor to pick. */
  predicate VendorListShown(s: ViewState)
  {
    SendSectionShown(s) && |s.vendors| > 0
  }

  /** The send button's `disabled` attribute, negated. */
  predicate SendEnabled(s: ViewState)
  {
    VendorListShown(s) && !s.sending && |s.selectedVendors| > 0
  }

  predicate ProposalsShown(s: ViewState)
  {
    ScreenOf(s) == DetailScreen && |s.proposals| > 0
  }

  /** The compare button is rendered only with two proposals or more. */
  predicate CompareShown(s: ViewState)
  {
    ProposalsShown(s) && |s.proposals| >= 2
  }

  predicate CompareEnabled(s: ViewState)
  {
    CompareShown(s) && !s.loadingComparison
  }

  predicate ComparisonShown(s: ViewState)
  {
    ProposalsShown(s) && s.showComparison && s.comparison.Some?
  }

  /** Pressing an enabled send button always issues the send request, and the
      button is disabled while that request is outstanding. */
  lemma EnabledSendIssuesRequest(s: ViewState, sent: Remote<()>, reload: LoadReplies)
    requires SendEnabled(s)
    ensures var t := SendStep(s, sent, reload);
      && t.calls != [] && t.calls[0].request == SendRfpRequest(s.id, s.selectedVendors)
      && !SendEnabled(t.calls[0].at)
  {
  }

  /** Pressing an enabled compare button always issues the comparison request,
      and the button is disabled while it is outstanding. */
  lemma EnabledCompareIssuesRequest(s: ViewState, res: Remote<ComparisonResult>)
    requires CompareEnabled(s)
    ensures var t := CompareStep(s, res);
      && |t.calls| == 1 && t.calls[0].request == CompareRequest(s.id)
      && !CompareEnabled(t.calls[0].at)
  {
  }

  /** A send that succeeds but whose reload fails leaves both notifications set. */
  lemma SendThenReloadFails(s: ViewState, reload: LoadReplies)
    requires s.selectedVendors != [] && !AllDone(reload)
    ensures var a := SendStep(s, Done(()), reload).after;
      && a.success == Some(SentMessage(|s.selectedVendors|))
      && a.error == Some(LoadFailed)
      && a.rfp == s.rfp && a.vendors == s.vendors && a.proposals == s.proposals
  {
  }

  /** After a successful comparison on a loaded page the result is on screen. */
  lemma ComparedIsShown(s: ViewState, c: ComparisonResult)
    requires CompareShown(s)
    ensures ComparisonShown(CompareStep(s, Done(c)).after)
  {
  }

  // ---------------------------------------------------------------------------
  // Mounting
  // ---------------------------------------------------------------------------

  /** What one render of the component body does with `loadData`: the effect's
      dependency list `[id, loadData]` reads it, and `const loadData = useCallback(...)`
      binds it. */
  datatype RenderAction = ReadLoadData | BindLoadData

  /** The body as written: the effect (lines 41-43) comes before the binding (line 46). */
  const AsWrittenBody := [ReadLoadData, BindLoadData]

  /** The body with the `loadData` declaration moved above the effect. */
  const ReorderedBody := [BindLoadData, ReadLoadData]

  const LoadDataUninitialized := "ReferenceError: Cannot access 'loadData' before initialization"

  /** Some `BindLoadData` occurs in `body` before position `i`. */
  predicate BoundBefore(body: seq<RenderAction>, i: int)
  {
    exists j :: 0 <= j < i && j < |body| && body[j] == BindLoadData
  }

  /** Runs a render body; `bound` says whether the binding has already happened.
      Reading a `const` before its binding throws, so the render succeeds exactly
      when every read comes after a binding. */
  function Render(body: seq<RenderAction>, bound: bool): (r: Result<(), string>)
    ensures r.Ok? <==> forall i :: 0 <= i < |body| && body[i] == ReadLoadData ==> bound || BoundBefore(body, i)
    ensures r.Err? ==> r.error == LoadDataUninitialized
  {
    if body == [] then Ok(())
    else if body[0] == ReadLoadData && !bound then
      assert !BoundBefore(body, 0);
      Err(LoadDataUninitialized)
    else
      var r := Render(body[1..], bound || body[0] == BindLoadData);
      RenderShift(body, bound, r.Ok?);
      r
  }

  /** How the success condition of a body relates to that of its tail. */
  lemma RenderShift(body: seq<RenderAction>, bound: bool, tailOk: bool)
    requires body != [] && (body[0] == BindLoadData || bound || body[0] != ReadLoadData)
    requires tailOk <==> forall i :: 0 <= i < |body[1..]| && body[1..][i] == ReadLoadData ==>
      (bound || body[0] == BindLoadData) || BoundBefore(body[1..], i)
    ensures tailOk <==> forall i :: 0 <= i < |body| && body[i] == ReadLoadData ==> bound || BoundBefore(body, i)
  {
    forall i | 1 <= i < |body| ensures BoundBefore(body, i) <==> body[0] == BindLoadData || BoundBefore(body[1..], i - 1) {
      if BoundBefore(body[1..], i - 1) {
        var j :| 0 <= j < i - 1 && j < |body[1..]| && body[1..][j] == BindLoadData;
        assert body[j + 1] == BindLoadData;
      }
      if BoundBefore(body, i) && body[0] != BindLoadData {
        var j :| 0 <= j < i && j < |body| && body[j] == BindLoadData;
        assert body[1..][j - 1] == BindLoadData;
      }
    }
    if tailOk {
      forall i | 0 <= i < |body| && body[i] == ReadLoadData ensures bound || BoundBefore(body, i) {
        if i > 0 {
          assert body[1..][i - 1] == ReadLoadData;
        }
      }
    }
  }

  /** The effect of the first render: load with the initial state. After it the
      page shows the RFP exactly when all three replies arrived, and otherwise
      the not-found screen under the load error. */
  function MountStep(id: int, o: LoadReplies): (t: Step)
    ensures |t.calls| == 3 && t.calls[0].request == GetRfp(id)
    ensures ScreenOf(t.after) == DetailScreen <==> AllDone(o)
    ensures !AllDone(o) ==> ScreenOf(t.after) == NotFoundScreen && t.after.error == Some(LoadFailed)
    ensures AllDone(o) ==> t.after.error.None? && t.after.selectedVendors == []
  {
    LoadStep(Initial(id), o)
  }

  /** Mounting a component whose body is `body`: the first render either throws,
      and then no request is made, or succeeds and runs the effect's load. */
  function Mount(body: seq<RenderAction>, id: int, o: LoadReplies): (r: Result<Step, string>)
    ensures Render(body, false).Ok? ==> r == Ok(MountStep(id, o))
    ensures Render(body, false).Err? ==> r == Err(LoadDataUninitialized)
  {
    match Render(body, false)
    case Err(e) => Err(e)
    case Ok(_) => Ok(MountStep(id, o))
  }

  /** As written, every mount fails with the uninitialised-binding error. */
  lemma MountAsWrittenThrows(id: int, o: LoadReplies)
    ensures Mount(AsWrittenBody, id, o) == Err(LoadDataUninitialized)
  {
    assert !BoundBefore(AsWrittenBody, 0);
  }

  /** With the declaration first, the render succeeds and the mount loads. */
  lemma ReorderedMountLoads(id: int, o: LoadReplies)
    ensures Render(ReorderedBody, false) == Ok(())
    ensures Mount(ReorderedBody, id, o) == Ok(MountStep(id, o))
  {
    assert BoundBefore(ReorderedBody, 1) by { assert ReorderedBody[0] == BindLoadData; }
  }

  // ---------------------------------------------------------------------------
  // The component
  // ---------------------------------------------------------------------------

  class RfpDetailView {
    const id: int
    var rfp: Option<Rfp>
    var vendors: seq<Vendor>
    var proposals: seq<Proposal>
    var comparison: Option<ComparisonResult>
    var showComparison: bool
    var selectedVendors: seq<int>
    var loading: bool
    var sending: bool
    var loadingComparison: bool
    var error: Option<string>
    var success: Option<string>

    function Snapshot(): (s: ViewState)
      reads this
      ensures s.id == id && s.selectedVendors == selectedVendors
    {
      ViewState(id, rfp, vendors, proposals, comparison, showComparison, selectedVendors,
                loading, sending, loadingComparison, error, success)
    }

    /** The state the `useState` initialisers give. */
    constructor (id: int)
      ensures Snapshot() == Initial(id)
    {
      this.id := id;
      rfp, vendors, proposals := None, [], [];
      comparison, showComparison := None, false;
      selectedVendors := [];
      loading, sending, loadingComparison := true, false, false;
      error, success := None, None;
    }

    method Toggle(v: int)
      modifies this
      ensures Snapshot() == old(Snapshot()).(selectedVendors := Toggled(old(selectedVendors), v))
    {
      selectedVendors := Toggled(selectedVendors, v);
    }

    method Load(o: LoadReplies) returns (calls: seq<Call>)
      modifies this
      ensures Snapshot() == LoadStep(old(Snapshot()), o).after
      ensures calls == LoadStep(old(Snapshot()), o).calls
    {
      calls := [Call(GetRfp(id), Snapshot()), Call(ListVendors, Snapshot()),
                Call(ListProposals(ProposalFilter(id)), Snapshot())];
      if AllDone(o) {
        rfp := Some(o.rfp.value);
        vendors := o.vendors.value;
        proposals := o.proposals.value;
      } else {
        error := Some(LoadFailed);
      }
      loading := false;
    }

    method SendRfp(sent: Remote<()>, reload: LoadReplies) returns (calls: seq<Call>)
      modifies this
      ensures Snapshot() == SendStep(old(Snapshot()), sent, reload).after
      ensures calls == SendStep(old(Snapshot()), sent, reload).calls
    {
      if |selectedVendors| == 0 {
        error := Some(NoVendorSelected);
        return [];
      }
      ghost var s := Snapshot();
      sending := true;
      error := None;
      success := None;
      assert Snapshot() == Sending(s);
      calls := [Call(SendRfpRequest(id, selectedVendors), Snapshot())];
      if sent.Done? {
        success := Some(SentMessage(|selectedVendors|));
        selectedVendors := [];
        assert Snapshot() == Sent(s);
        var more := Load(reload);
        calls := calls + more;
        sending := false;
      } else {
        error := Some(DetailOr(sent.detail, SendFailed));
        sending := false;
      }
    }

    method Compare(res: Remote<ComparisonResult>) returns (calls: seq<Call>)
      modifies this
      ensures Snapshot() == CompareStep(old(Snapshot()), res).after
      ensures calls == CompareStep(old(Snapshot()), res).calls
    {
      if |proposals| < 2 {
        error := Some(NeedTwoProposals);
        return [];
      }
      loadingComparison := true;
      error := None;
      calls := [Call(CompareRequest(id), Snapshot())];
      match res {
        case Done(c) =>
          comparison := Some(c);
          showComparison := true;
        case Failed(d) =>
          error := Some(DetailOr(d, CompareFailed));
      }
      loadingComparison := false;
    }
  }
}
