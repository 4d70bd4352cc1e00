/** The deterministic part of the AI helpers: cleaning the model's reply before it
    is parsed as JSON, wrapping every failure in a helper-specific message, and
    the per-proposal summary that the comparison prompt embeds. The chat
    completion itself and `json.loads` are parameters: `reply` is the reply text
    or the message of the exception the call raised, and `loads` is the parser. */
module AiService {
  import opened Common
  import opened Records

  const Fence := "```"
  const JsonFence := "```json"

  // ---------------------------------------------------------------------------
  // Code-fence stripping
  // ---------------------------------------------------------------------------

  /** How many characters the opening-fence steps remove from an already
      stripped reply: 7 for "```json", then 3 more if "```" still leads. */
  function OpeningLength(t: string): (n: nat)
    ensures n <= 10 && n <= |t|
  {
    var a := if StartsWith(t, JsonFence) then 7 else 0;
    a + (if StartsWith(t[a..], Fence) then 3 else 0)
  }

  /** On an already stripped reply: drop a leading "```json", then a leading
      "```", then a trailing "```". */
  function Unfence(t: string): (content: string)
    ensures OpeningLength(t) + |content| <= |t|
    ensures content == t[OpeningLength(t)..OpeningLength(t) + |content|]
    ensures |t| - |content| <= 13
    ensures |t| - OpeningLength(t) - |content| == (if EndsWith(t[OpeningLength(t)..], Fence) then 3 else 0)
    ensures !StartsWith(t, Fence) && !EndsWith(t, Fence) ==> content == t
  {
    var n := OpeningLength(t);
    var c2 := t[n..];
    assert StartsWith(t, JsonFence) ==> StartsWith(t, Fence) by {
      if StartsWith(t, JsonFence) {
        assert t[..3] == JsonFence[..3];
      }
    }
    if EndsWith(c2, Fence) then c2[..|c2| - 3] else c2
  }

  /** `content.strip()` followed by the three fence steps. */
  function StripFence(raw: string): (content: string)
    ensures var t := Trim(raw, IsPySpace); var n := OpeningLength(t);
      && n + |content| <= |t|
      && content == t[n..n + |content|]
      && |t| - |content| <= 13
    ensures var t := Trim(raw, IsPySpace);
      !StartsWith(t, Fence) && !EndsWith(t, Fence) ==> content == t
  {
    TrimSpec(raw, IsPySpace);
    Unfence(Trim(raw, IsPySpace))
  }

  /** A fenced JSON reply comes back as the JSON text between the fences. */
  lemma StripFenceOfFencedReply(json: string)
    requires json != [] && json[0] != '`'
    ensures StripFence(JsonFence + json + Fence) == json
  {
    var s := JsonFence + json + Fence;
    assert s[0] == '`' && s[|s| - 1] == '`';
    TrimKeepsUnpadded(s, IsPySpace);
    UnfenceOfFenced(json);
  }

  lemma UnfenceOfFenced(json: string)
    requires json != [] && json[0] != '`'
    ensures Unfence(JsonFence + json + Fence) == json
  {
    var s := JsonFence + json + Fence;
    assert s[..7] == JsonFence;
    var c1 := s[7..];
    assert c1 == json + Fence;
    assert c1[0] == json[0];
    assert !StartsWith(c1, Fence);
    assert c1[|c1| - 3..] == Fence;
    assert c1[..|c1| - 3] == json;
  }

  // ---------------------------------------------------------------------------
  // The three helpers: one shared cleanup, one error prefix each
  // ---------------------------------------------------------------------------

  /** Run the shared cleanup and parser on a reply; any failure, from the call or
      from the parser, becomes `prefix` followed by the original message. */
  function AiCall<T>(prefix: string, reply: Result<string, string>, loads: string -> Result<T, string>): (r: Result<T, string>)
    ensures r.Err? ==> StartsWith(r.error, prefix)
    ensures reply.Err? ==> r == Err(prefix + reply.error)
    ensures reply.Ok? ==> r == match loads(StripFence(reply.value))
                              case Ok(v) => Ok(v)
                              case Err(e) => Err(prefix + e)
  {
    match reply
    case Err(e) => Err(prefix + e)
    case Ok(raw) =>
      match loads(StripFence(raw))
      case Ok(v) => Ok(v)
      case Err(e) => Err(prefix + e)
  }

  const ParseRfpPrefix := "Failed to parse RFP: "
  const ExtractPrefix := "Failed to extract proposal details: "
  const ComparePrefix := "Failed to compare proposals: "

  /** `parse_natural_language_to_rfp`: the parsed dictionary, or the wrapped error. */
  function ParseNaturalLanguageToRfp<J>(reply: Result<string, string>, loads: string -> Result<J, string>): (r: Result<J, string>)
    ensures r.Err? ==> StartsWith(r.error, ParseRfpPrefix)
    ensures r.Ok? <==> reply.Ok? && loads(StripFence(reply.value)).Ok?
  {
    AiCall(ParseRfpPrefix, reply, loads)
  }

  /** `extract_proposal_details`. */
  function ExtractProposalDetails(reply: Result<string, string>, loads: string -> Result<Extracted, string>): (r: Result<Extracted, string>)
    ensures r.Err? ==> StartsWith(r.error, ExtractPrefix)
    ensures r.Ok? <==> reply.Ok? && loads(StripFence(reply.value)).Ok?
  {
    AiCall(ExtractPrefix, reply, loads)
  }

  // ---------------------------------------------------------------------------
  // Proposal summaries for the comparison prompt
  // ---------------------------------------------------------------------------

  /** One element of the `proposals` list handed to the comparison helper. */
  datatype ProposalDict = ProposalDict(
    vendorName: Slot<string>,
    totalPrice: Slot<Money>,
    deliveryDays: Slot<int>,
    paymentTerms: Slot<string>,
    warranty: Slot<string>,
    completenessScore: Slot<real>,
    items: Slot<seq<Item>>)

  /** One element of `proposals_summary`. */
  datatype ProposalSummary = ProposalSummary(
    vendorName: Option<string>,
    totalPrice: Option<Money>,
    deliveryDays: Option<int>,
    paymentTerms: Option<string>,
    warranty: Option<string>,
    completenessScore: Option<real>,
    items: Option<seq<Item>>)

  function Summarize(p: ProposalDict): ProposalSummary
  {
    ProposalSummary(
      p.vendorName.GetOr("Unknown"), p.totalPrice.Get(), p.deliveryDays.Get(),
      p.paymentTerms.Get(), p.warranty.Get(), p.completenessScore.GetOr(0.0), p.items.GetOr([]))
  }

  /** Defaults fill in only for keys that are missing; a key present with `None`
      stays `None`. */
  lemma SummarizeDefaults(p: ProposalDict)
    ensures var s := Summarize(p);
      && (s.vendorName == if p.vendorName.Absent? then Some("Unknown") else p.vendorName.entry)
      && (s.completenessScore == if p.completenessScore.Absent? then Some(0.0) else p.completenessScore.entry)
      && (s.items == if p.items.Absent? then Some([]) else p.items.entry)
      && (p.totalPrice.Present? ==> s.totalPrice == p.totalPrice.entry)
      && (p.totalPrice.Absent? ==> s.totalPrice == None)
  {
  }

  /** A dictionary that carries every key is summarized to exactly its values. */
  lemma SummarizeComplete(p: ProposalDict)
    requires p.vendorName.Present? && p.totalPrice.Present? && p.deliveryDays.Present?
    requires p.paymentTerms.Present? && p.warranty.Present? && p.completenessScore.Present? && p.items.Present?
    ensures Summarize(p) == ProposalSummary(
      p.vendorName.entry, p.totalPrice.entry, p.deliveryDays.entry, p.paymentTerms.entry,
      p.warranty.entry, p.completenessScore.entry, p.items.entry)
  {
  }

  /** The loop that builds `proposals_summary`: one summary per proposal, same order. */
  method SummarizeProposals(proposals: seq<ProposalDict>) returns (summary: seq<ProposalSummary>)
    ensures |summary| == |proposals|
    ensures forall i :: 0 <= i < |proposals| ==> summary[i] == Summarize(proposals[i])
  {
    summary := [];
    for i := 0 to |proposals|
      invariant |summary| == i
      invariant forall k :: 0 <= k < i ==> summary[k] == Summarize(proposals[k])
    {
      summary := summary + [Summarize(proposals[i])];
    }
  }

  /** `compare_proposals_and_recommend`: the summaries the prompt embeds, and the
      parsed comparison or the wrapped error. */
  method CompareProposalsAndRecommend(proposals: seq<ProposalDict>, reply: Result<string, string>,
                                      loads: string -> Result<ComparisonResult, string>)
    returns (summary: seq<ProposalSummary>, r: Result<ComparisonResult, string>)
    ensures |summary| == |proposals|
    ensures forall i :: 0 <= i < |proposals| ==> summary[i] == Summarize(proposals[i])
    ensures r.Err? ==> StartsWith(r.error, ComparePrefix)
    ensures r == AiCall(ComparePrefix, reply, loads)
  {
    summary := SummarizeProposals(proposals);
    r := AiCall(ComparePrefix, reply, loads);
  }
}
