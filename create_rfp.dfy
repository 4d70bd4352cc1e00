/** The natural-language RFP page (`CreateRFP`): a chat whose `messages` list only
    grows, the input `text`, a `loading` flag and an `error` slot. Submitting
    sends the trimmed text to the RFP-from-text endpoint; the reply, given here as
    a parameter, adds one assistant message. */
module CreateRfp {
  import opened Common
  import opened Records

  datatype Role = User | Assistant

  datatype Message = Message(role: Role, content: string)

  /** The component's state variables. */
  datatype ChatState = ChatState(text: string, loading: bool, error: Option<string>, messages: seq<Message>)

  /** A `rfpsApi.createFromText(text)` request and the state when it was issued. */
  datatype ChatCall = ChatCall(text: string, at: ChatState)

  /** The state a submit leaves and the requests it issued. */
  datatype ChatStep = ChatStep(after: ChatState, calls: seq<ChatCall>)

  const Greeting := "I've created an RFP for you:"
  const ReviewQuestion := "\nWould you like to review and send it to vendors?"
  const CreateFailed := "Failed to create RFP. Please try again."
  const ErrorReply := "I encountered an error processing your request. Please try rephrasing or providing more details."

  function Initial(): (s: ChatState)
    ensures s.text == "" && !s.loading && s.error.None? && s.messages == []
  {
    ChatState("", false, None, [])
  }

  // ---------------------------------------------------------------------------
  // The assistant's summary of a created RFP
  // ---------------------------------------------------------------------------

  /** `${rfp.title}`: a null title renders as "null". */
  function TitleText(title: Option<string>): string
  {
    if title.Some? then title.value else "null"
  }

  /** The description line, present only for a non-empty description. */
  function DescriptionLine(description: Option<string>): (line: string)
    ensures line != "" <==> description.Some? && description.value != ""
  {
    if description.Some? && description.value != "" then "Description: " + description.value + "\n" else ""
  }

  /** The budget line, present only for a non-zero budget, in en-US grouping. */
  function BudgetLine(budget: Option<Money>): (line: string)
    ensures line != "" <==> budget.Some? && budget.value != 0
    ensures line != "" ==> StartsWith(line, "Budget: $") && EndsWith(line, "\n")
  {
    if budget.Some? && budget.value != 0 then "Budget: $" + LocaleMoney(budget.value) + "\n" else ""
  }

  /** The delivery line, present only for a non-zero number of days. */
  function DeliveryLine(days: Option<int>): (line: string)
    ensures line != "" <==> days.Some? && days.value != 0
  {
    if days.Some? && days.value != 0 then "Delivery: " + IntToString(days.value) + " days\n" else ""
  }

  /** The item-count line, present only for a non-empty item list. */
  function ItemsLine(items: Option<seq<Item>>): (line: string)
    ensures line != "" <==> items.Some? && |items.value| > 0
  {
    if items.Some? && |items.value| > 0 then "Items: " + NatToString(|items.value|) + " item(s)\n" else ""
  }

  /** The assistant message for a created RFP: the greeting, the title, the
      optional lines in a fixed order, and the closing question. */
  function Summary(r: Rfp): (m: string)
    ensures StartsWith(m, Greeting)
    ensures StartsWith(m, Greeting + "\n\nTitle: " + TitleText(r.title) + "\n")
    ensures EndsWith(m, ReviewQuestion)
  {
    var head := Greeting + "\n\nTitle: " + TitleText(r.title) + "\n";
    var lines := DescriptionLine(r.description) + BudgetLine(r.budget) + DeliveryLine(r.deliveryDays) + ItemsLine(r.items);
    var m := head + lines + ReviewQuestion;
    PrefixOfAppend(Greeting, "\n\nTitle: ");
    KeepsPrefix(Greeting + "\n\nTitle: ", TitleText(r.title), Greeting);
    KeepsPrefix(Greeting + "\n\nTitle: " + TitleText(r.title), "\n", Greeting);
    PrefixOfAppend(head, lines);
    KeepsPrefix(head + lines, ReviewQuestion, head);
    StartsWithTrans(m, head, Greeting);
    SuffixOfAppend(head + lines, ReviewQuestion);
    m
  }

  // ---------------------------------------------------------------------------
  // Submitting
  // ---------------------------------------------------------------------------

  /** `text.trim()`. */
  function Trimmed(text: string): string
  {
    Trim(text, IsJsSpace)
  }

  /** The assistant message a reply produces: the summary of the created RFP, or
      a fixed apology. */
  function Answer(reply: Remote<Rfp>): (m: Message)
    ensures m.role == Assistant
    ensures reply.Done? ==> m.content == Summary(reply.value) && StartsWith(m.content, Greeting)
    ensures reply.Failed? ==> m.content == ErrorReply
  {
    match reply
    case Done(r) => Message(Assistant, Summary(r))
    case Failed(_) => Message(Assistant, ErrorReply)
  }

  /** `handleSubmit`: blank text changes nothing. Otherwise the trimmed text is
      appended as a user message, the input is cleared, `loading` is set and the
      error cleared before the request; the reply appends exactly one assistant
      message and `loading` ends false; a failure sets the error to the server's
      detail or the fixed message. */
  function SubmitStep(s: ChatState, reply: Remote<Rfp>): (t: ChatStep)
    ensures Trimmed(s.text) == "" ==> t.after == s && t.calls == []
    ensures Trimmed(s.text) != "" ==>
      && t.calls == [ChatCall(Trimmed(s.text),
           ChatState("", true, None, s.messages + [Message(User, Trimmed(s.text))]))]
      && t.after.messages == s.messages + [Message(User, Trimmed(s.text)), Answer(reply)]
      && t.after.text == "" && !t.after.loading
      && (reply.Done? ==> t.after.error.None?)
      && (reply.Failed? ==> t.after.error == Some(DetailOr(reply.detail, CreateFailed)))
  {
    var u := Trimmed(s.text);
    if u == "" then ChatStep(s, [])
    else
      var sent := Pending(s, u);
      var error := if reply.Failed? then Some(DetailOr(reply.detail, CreateFailed)) else None;
      ChatStep(ChatState("", false, error, sent.messages + [Answer(reply)]), [ChatCall(u, sent)])
  }

  /** The state while the request for user message `u` is outstanding. */
  function Pending(s: ChatState, u: string): ChatState
  {
    ChatState("", true, None, s.messages + [Message(User, u)])
  }

  /** The submit button's `disabled={loading || !text.trim()}`, negated. */
  predicate SubmitEnabled(s: ChatState)
  {
    !s.loading && Trimmed(s.text) != ""
  }

  /** An enabled button issues exactly one request, and the button is disabled
      while it is outstanding; an idle page with blank text ignores a submit. */
  lemma SubmitEnabledIssues(s: ChatState, reply: Remote<Rfp>)
    ensures SubmitEnabled(s) ==>
      |SubmitStep(s, reply).calls| == 1 && !SubmitEnabled(SubmitStep(s, reply).calls[0].at)
    ensures !s.loading && !SubmitEnabled(s) ==> SubmitStep(s, reply).after == s
  {
  }

  // ---------------------------------------------------------------------------
  // Sessions
  // ---------------------------------------------------------------------------

  /** What the user can do: type into the input, or submit and get a reply. */
  datatype Event = Typed(text: string) | Submitted(reply: Remote<Rfp>)

  function Apply(s: ChatState, e: Event): ChatState
  {
    match e
    case Typed(text) => s.(text := text)
    case Submitted(reply) => SubmitStep(s, reply).after
  }

  function Run(s: ChatState, events: seq<Event>): ChatState
    decreases |events|
  {
    if events == [] then s else Run(Apply(s, events[0]), events[1..])
  }

  /** The history alternates: a user message, then the assistant's answer to it. */
  predicate Paired(ms: seq<Message>)
    decreases |ms|
  {
    ms == [] || (|ms| >= 2 && ms[0].role == User && ms[1].role == Assistant && Paired(ms[2..]))
  }

  lemma {:induction false} PairedAppend(ms: seq<Message>, u: Message, a: Message)
    requires Paired(ms) && u.role == User && a.role == Assistant
    ensures Paired(ms + [u, a])
    decreases |ms|
  {
    if ms != [] {
      assert (ms + [u, a])[2..] == ms[2..] + [u, a];
      PairedAppend(ms[2..], u, a);
    }
  }

  /** One event keeps the earlier history as a prefix and keeps it paired. */
  lemma ApplyExtends(s: ChatState, e: Event)
    ensures |s.messages| <= |Apply(s, e).messages|
    ensures Apply(s, e).messages[..|s.messages|] == s.messages
    ensures Paired(s.messages) ==> Paired(Apply(s, e).messages)
  {
    if e.Submitted? && Trimmed(s.text) != "" {
      var ms := Apply(s, e).messages;
      assert ms == s.messages + [Message(User, Trimmed(s.text)), Answer(e.reply)];
      assert ms[..|s.messages|] == s.messages;
      if Paired(s.messages) {
        PairedAppend(s.messages, Message(User, Trimmed(s.text)), Answer(e.reply));
      }
    }
  }

  /** Over any session the history only grows at its end, and it stays paired. */
  lemma {:induction false} RunAppendOnly(s: ChatState, events: seq<Event>)
    ensures |s.messages| <= |Run(s, events).messages|
    ensures Run(s, events).messages[..|s.messages|] == s.messages
    ensures Paired(s.messages) ==> Paired(Run(s, events).messages)
    decreases |events|
  {
    if events != [] {
      var next := Apply(s, events[0]);
      ApplyExtends(s, events[0]);
      RunAppendOnly(next, events[1..]);
      var last := Run(next, events[1..]).messages;
      assert last[..|s.messages|] == last[..|next.messages|][..|s.messages|];
    }
  }

  // ---------------------------------------------------------------------------
  // The component
  // ---------------------------------------------------------------------------

  class ChatView {
    var text: string
    var loading: bool
    var error: Option<string>
    var messages: seq<Message>

    function Snapshot(): (s: ChatState)
      reads this
      ensures s.messages == messages
    {
      ChatState(text, loading, error, messages)
    }

    constructor ()
      ensures Snapshot() == Initial()
    {
      text, loading, error, messages := "", false, None, [];
    }

    /** The input's `onChange`. */
    method Type(t: string)
      modifies this
      ensures Snapshot() == old(Snapshot()).(text := t)
    {
      text := t;
    }

    method Submit(reply: Remote<Rfp>) returns (calls: seq<ChatCall>)
      modifies this
      ensures Snapshot() == SubmitStep(old(Snapshot()), reply).after
      ensures calls == SubmitStep(old(Snapshot()), reply).calls
    {
      ghost var s := Snapshot();
      var userMessage := Trimmed(text);
      if userMessage == "" {
        return [];
      }
      messages := messages + [Message(User, userMessage)];
      text := "";
      loading := true;
      error := None;
      assert Snapshot() == Pending(s, userMessage);
      calls := [ChatCall(userMessage, Snapshot())];
      Respond(reply);
    }

    /** The `try`/`catch`/`finally` around the request: one assistant message,
        the error on a failure, and `loading` back to false. */
    method Respond(reply: Remote<Rfp>)
      modifies this
      ensures Snapshot() == old(Snapshot()).(loading := false, messages := old(messages) + [Answer(reply)],
                                             error := if reply.Failed? then Some(DetailOr(reply.detail, CreateFailed))
                                                      else old(error))
    {
      var content: string;
      match reply {
        case Done(r) =>
          content := Summary(r);
        case Failed(d) =>
          error := Some(DetailOr(d, CreateFailed));
          content := ErrorReply;
      }
      messages := messages + [Message(Assistant, content)];
      loading := false;
    }
  }
}
