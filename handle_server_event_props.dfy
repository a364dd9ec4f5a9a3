/**
 * What the dispatcher promises, stated over the step functions of
 * `HandleServerEvent` (and therefore over every `Session` run, whose methods
 * are proved equal to them).
 */
module HandleServerEventProps {
  import opened Wrappers
  import opened JsValues
  import opened Transcript
  import opened HandleServerEvent

  /** The arguments a parsable call is handled with. */
  function Args(call: FunctionCall, parse: Parser): Value
    requires !Unparsable(call, parse)
  {
    NormalizeArgs(parse(call.arguments).value, call.name)
  }

  /**
   * The calls that end without any outbound event: arguments that do not
   * parse, a tool of the active agent that throws, or a `transferAgents`
   * call whose arguments are `null`.
   */
  predicate Aborts(agents: Option<seq<Agent>>, closure: Closure, call: FunctionCall, parse: Parser) {
    || Unparsable(call, parse)
    || (var own := OwnTool(agents, closure, call.name);
        || (own.Some? && own.value(Args(call, parse), closure.transcriptItems).Threw?)
        || (own.None? && call.name == "transferAgents" && Nullish(Args(call, parse))))
  }

  /** One `function_call_output` for the call, first, and a `response.create`, last. */
  predicate Acknowledges(d: seq<ClientEvent>, callId: Option<string>) {
    && |d| >= 2
    && d[0].FunctionCallOutput? && d[0].callId == callId
    && d[|d| - 1] == ResponseCreate
    && forall i :: 1 <= i < |d| ==> !d[i].FunctionCallOutput?
  }

  predicate Known(agents: Option<seq<Agent>>, name: string) {
    agents.Some? && exists i :: 0 <= i < |agents.value| && agents.value[i].name == name
  }

  /** The events one call sends, read off the three branches. */
  function CallEvents(agents: Option<seq<Agent>>, closure: Closure, call: FunctionCall, parse: Parser, uuid: string): seq<ClientEvent> {
    if Unparsable(call, parse) then []
    else
      var args := Args(call, parse);
      var own := OwnTool(agents, closure, call.name);
      if own.Some? then
        var outcome := own.value(args, closure.transcriptItems);
        if outcome.Threw? then [] else [FunctionCallOutput(call.callId, outcome.value), ResponseCreate]
      else if call.name == "transferAgents" then
        if Nullish(args) then []
        else
          var destination := Get(args, "destination_agent");
          var target := if destination.Str? then FindAgent(agents, destination.s) else None;
          [FunctionCallOutput(call.callId, TransferOutput(destination, target.Some?)), UserText(GreetingId(uuid), "hi"), ResponseCreate]
      else [FunctionCallOutput(call.callId, FallbackResult), ResponseCreate]
  }

  /** A call whose arguments do not parse, or parse to `null`, changes nothing: no breadcrumb, no event, no state. */
  lemma UnparsableChangesNothing(st: State, agents: Option<seq<Agent>>, closure: Closure, call: FunctionCall, parse: Parser, uuid: string)
    requires Unparsable(call, parse)
    ensures CallStep(st, agents, closure, call, parse, uuid) == st
  {
  }

  /** A call only appends to the transcript: every item already shown stays, in place and unchanged. */
  lemma CallOnlyAppendsToTranscript(st: State, agents: Option<seq<Agent>>, closure: Closure, call: FunctionCall, parse: Parser, uuid: string)
    ensures IsPrefix(st.transcript, CallStep(st, agents, closure, call, parse, uuid).transcript)
  {
    if !Unparsable(call, parse) {
      var args := Args(call, parse);
      var s1 := AddBreadcrumb(st, "function call: " + call.name, args);
      AppendIsPrefix(st.transcript, [Breadcrumb("function call: " + call.name, Some(args))]);
      var own := OwnTool(agents, closure, call.name);
      var r := if own.Some? then ToolBranch(s1, call, args, own.value, closure)
               else if call.name == "transferAgents" then TransferBranch(s1, agents, call, args, uuid)
               else FallbackBranch(s1, call);
      assert r == CallStep(st, agents, closure, call, parse, uuid);
      var tail := r.transcript[|s1.transcript|..];
      assert r.transcript == s1.transcript + tail;
      AppendIsPrefix(s1.transcript, tail);
      PrefixTransitive(st.transcript, s1.transcript, r.transcript);
    }
  }

  /** `a` is an initial segment of `b`. */
  predicate IsPrefix<T(==)>(a: seq<T>, b: seq<T>) {
    |a| <= |b| && b[..|a|] == a
  }

  lemma AppendIsPrefix<T>(a: seq<T>, b: seq<T>)
    ensures IsPrefix(a, a + b)
  {
    assert (a + b)[..|a|] == a;
  }

  lemma PrefixTransitive<T>(a: seq<T>, b: seq<T>, c: seq<T>)
    requires IsPrefix(a, b) && IsPrefix(b, c)
    ensures IsPrefix(a, c)
  {
    assert c[..|a|] == c[..|b|][..|a|];
  }

  /** A call appends its events to the outbound channel and sends nothing else. */
  lemma CallSends(st: State, agents: Option<seq<Agent>>, closure: Closure, call: FunctionCall, parse: Parser, uuid: string)
    ensures CallStep(st, agents, closure, call, parse, uuid).outbox == st.outbox + CallEvents(agents, closure, call, parse, uuid)
  {
    if Unparsable(call, parse) {
      assert st.outbox + [] == st.outbox;
    } else {
      var own := OwnTool(agents, closure, call.name);
      var args := Args(call, parse);
      if own.None? && call.name == "transferAgents" && !Nullish(args) {
        var destination := Get(args, "destination_agent");
        var target := if destination.Str? then FindAgent(agents, destination.s) else None;
        var e1 := [FunctionCallOutput(call.callId, TransferOutput(destination, target.Some?))];
        var e2 := [UserText(GreetingId(uuid), "hi"), ResponseCreate];
        assert e1 + e2 == CallEvents(agents, closure, call, parse, uuid);
        assert st.outbox + e1 + e2 == st.outbox + (e1 + e2);
      } else if own.Some? || call.name == "transferAgents" {
        assert st.outbox + [] == st.outbox;
      }
    }
  }

  /**
   * Every call either changes nothing on the outbound channel or answers its
   * call id exactly once and then asks for a new response; which of the two
   * happens depends only on the call and the closure. Outbound events are
   * only ever appended.
   */
  lemma CallIsAnswered(st: State, agents: Option<seq<Agent>>, closure: Closure, call: FunctionCall, parse: Parser, uuid: string)
    ensures var r := CallStep(st, agents, closure, call, parse, uuid);
      && |st.outbox| <= |r.outbox| && r.outbox[..|st.outbox|] == st.outbox
      && (Aborts(agents, closure, call, parse) <==> r.outbox == st.outbox)
      && (!Aborts(agents, closure, call, parse) ==> Acknowledges(r.outbox[|st.outbox|..], call.callId))
  {
    CallSends(st, agents, closure, call, parse, uuid);
    CallEventsShape(agents, closure, call, parse, uuid);
    var e := CallEvents(agents, closure, call, parse, uuid);
    var r := CallStep(st, agents, closure, call, parse, uuid);
    assert r.outbox[..|st.outbox|] == st.outbox;
    assert r.outbox[|st.outbox|..] == e;
  }

  /** A call sends nothing exactly when it aborts, and otherwise acknowledges its call id. */
  lemma CallEventsShape(agents: Option<seq<Agent>>, closure: Closure, call: FunctionCall, parse: Parser, uuid: string)
    ensures var e := CallEvents(agents, closure, call, parse, uuid);
      && (Aborts(agents, closure, call, parse) <==> e == [])
      && (!Aborts(agents, closure, call, parse) ==> Acknowledges(e, call.callId))
  {
  }

  /**
   * Arguments wrapped as `{name, arguments}` under the call's own name are
   * handled exactly as the inner arguments sent directly.
   */
  lemma EnvelopeIsTransparent(st: State, agents: Option<seq<Agent>>, closure: Closure, name: string, callId: Option<string>,
                              wrapped: string, direct: string, parse: Parser, uuid: string)
    requires parse(wrapped).Parsed? && IsEnvelope(parse(wrapped).value, name)
    requires parse(direct) == Parsed(Get(parse(wrapped).value, "arguments"))
    requires !Nullish(parse(direct).value) && !IsEnvelope(parse(direct).value, name)
    ensures CallStep(st, agents, closure, FunctionCall(name, callId, wrapped), parse, uuid)
         == CallStep(st, agents, closure, FunctionCall(name, callId, direct), parse, uuid)
  {
    assert Args(FunctionCall(name, callId, wrapped), parse) == Args(FunctionCall(name, callId, direct), parse);
  }

  /**
   * When the active agent implements the called tool and it returns, the
   * tool's result is the answer, even for a tool named `transferAgents`; the
   * active agent does not change, and a string `reportFileId` in the result
   * becomes the current report and opens the viewer.
   */
  lemma OwnToolTakesPrecedence(st: State, agents: Option<seq<Agent>>, closure: Closure, call: FunctionCall, parse: Parser, uuid: string, result: Value)
    requires !Unparsable(call, parse)
    requires OwnTool(agents, closure, call.name).Some?
    requires OwnTool(agents, closure, call.name).value(Args(call, parse), closure.transcriptItems) == Returned(result)
    ensures var r := CallStep(st, agents, closure, call, parse, uuid);
      && r.outbox == st.outbox + [FunctionCallOutput(call.callId, result), ResponseCreate]
      && r.transcript == st.transcript + [Breadcrumb("function call: " + call.name, Some(Args(call, parse))),
                                          Breadcrumb("function call result: " + call.name, Some(result))]
      && r.selectedAgentName == st.selectedAgentName && r.justTransferred == st.justTransferred
      && r.sessionStatus == st.sessionStatus
      && (ReportFileIdOf(result).Some? ==> r.currentReportFileId == ReportFileIdOf(result) && r.previewVisible)
      && (ReportFileIdOf(result).None? ==> r.currentReportFileId == st.currentReportFileId && r.previewVisible == st.previewVisible)
  {
  }

  /**
   * A `transferAgents` call the active agent does not implement switches to
   * the named agent exactly when the set has an agent of that name, reports
   * the attempted name and the outcome, then injects a hidden "hi" from the
   * user before asking for a new response.
   */
  lemma TransferOutcome(st: State, agents: Option<seq<Agent>>, closure: Closure, call: FunctionCall, parse: Parser, uuid: string)
    requires !Unparsable(call, parse) && !Nullish(Args(call, parse))
    requires OwnTool(agents, closure, call.name).None? && call.name == "transferAgents"
    ensures var r := CallStep(st, agents, closure, call, parse, uuid);
      var destination := Get(Args(call, parse), "destination_agent");
      var found := destination.Str? && Known(agents, destination.s);
      && r.selectedAgentName == (if found then destination.s else st.selectedAgentName)
      && r.justTransferred == (found || st.justTransferred)
      && r.outbox == st.outbox + [FunctionCallOutput(call.callId, TransferOutput(destination, found)),
                                  UserText(GreetingId(uuid), "hi"), ResponseCreate]
      && r.transcript == st.transcript + [Breadcrumb("function call: transferAgents", Some(Args(call, parse))),
                                          Message(GreetingId(uuid), "user", "hi", true, InProgress),
                                          Breadcrumb("function call: transferAgents response", Some(TransferOutput(destination, found)))]
      && r.currentReportFileId == st.currentReportFileId && r.previewVisible == st.previewVisible
  {
    var args := Args(call, parse);
    var s1 := AddBreadcrumb(st, "function call: " + call.name, args);
    assert CallStep(st, agents, closure, call, parse, uuid) == TransferBranch(s1, agents, call, args, uuid);
    TransferBranchFacts(s1, agents, call, args, uuid);
    var destination := Get(args, "destination_agent");
    var found := destination.Str? && Known(agents, destination.s);
    var b1 := Breadcrumb("function call: transferAgents", Some(args));
    var m := Message(GreetingId(uuid), "user", "hi", true, InProgress);
    var b2 := Breadcrumb("function call: transferAgents response", Some(TransferOutput(destination, found)));
    assert "function call: " + call.name == "function call: transferAgents";
    assert s1.transcript == st.transcript + [b1];
    assert s1.transcript + [m, b2] == st.transcript + [b1, m, b2];
  }

  /** The transfer branch on its own, after the "function call" breadcrumb. */
  lemma TransferBranchFacts(s1: State, agents: Option<seq<Agent>>, call: FunctionCall, args: Value, uuid: string)
    requires !Nullish(args) && call.name == "transferAgents"
    ensures var r := TransferBranch(s1, agents, call, args, uuid);
      var destination := Get(args, "destination_agent");
      var found := destination.Str? && Known(agents, destination.s);
      && r.selectedAgentName == (if found then destination.s else s1.selectedAgentName)
      && r.justTransferred == (found || s1.justTransferred)
      && r.outbox == s1.outbox + [FunctionCallOutput(call.callId, TransferOutput(destination, found)),
                                  UserText(GreetingId(uuid), "hi"), ResponseCreate]
      && r.transcript == s1.transcript + [Message(GreetingId(uuid), "user", "hi", true, InProgress),
                                          Breadcrumb("function call: transferAgents response", Some(TransferOutput(destination, found)))]
      && r.currentReportFileId == s1.currentReportFileId && r.previewVisible == s1.previewVisible
  {
    var destination := Get(args, "destination_agent");
    var target := if destination.Str? then FindAgent(agents, destination.s) else None;
    assert target.Some? <==> destination.Str? && Known(agents, destination.s);
    assert target.Some? ==> target.value.name == destination.s;
    assert "function call: " + call.name + " response" == "function call: transferAgents response";
    var found := destination.Str? && Known(agents, destination.s);
    var r := TransferBranch(s1, agents, call, args, uuid);
    var o := FunctionCallOutput(call.callId, TransferOutput(destination, found));
    assert r.outbox == s1.outbox + [o] + [UserText(GreetingId(uuid), "hi"), ResponseCreate];
    var m := Message(GreetingId(uuid), "user", "hi", true, InProgress);
    var b2 := Breadcrumb("function call: transferAgents response", Some(TransferOutput(destination, found)));
    assert r.transcript == s1.transcript + [m] + [b2];
  }

  /** A call that is neither an own tool nor a transfer is answered `{result: true}`. */
  lemma FallbackOutcome(st: State, agents: Option<seq<Agent>>, closure: Closure, call: FunctionCall, parse: Parser, uuid: string)
    requires !Unparsable(call, parse)
    requires OwnTool(agents, closure, call.name).None? && call.name != "transferAgents"
    ensures var r := CallStep(st, agents, closure, call, parse, uuid);
      && r.outbox == st.outbox + [FunctionCallOutput(call.callId, Obj(map["result" := Bool(true)])), ResponseCreate]
      && r.transcript == st.transcript + [Breadcrumb("function call: " + call.name, Some(Args(call, parse))),
                                          Breadcrumb("function call fallback: " + call.name, Some(FallbackResult))]
      && r.selectedAgentName == st.selectedAgentName && r.justTransferred == st.justTransferred
  {
  }

  /**
   * The active agent changes only through a successful transfer, which also
   * raises `justTransferred`; the agent switched to is always one of the set.
   */
  lemma AgentChangesOnlyByTransfer(st: State, agents: Option<seq<Agent>>, closure: Closure, call: FunctionCall, parse: Parser, uuid: string)
    ensures var r := CallStep(st, agents, closure, call, parse, uuid);
      && (r.selectedAgentName == st.selectedAgentName || (r.justTransferred && Known(agents, r.selectedAgentName)))
      && (r.justTransferred == st.justTransferred || (call.name == "transferAgents" && Known(agents, r.selectedAgentName)))
  {
    if !Unparsable(call, parse) && OwnTool(agents, closure, call.name).None? && call.name == "transferAgents" && !Nullish(Args(call, parse)) {
      TransferOutcome(st, agents, closure, call, parse, uuid);
    }
  }

  /** The call ids answered by the `function_call_output` events of `d`, in order. */
  function OutputIds(d: seq<ClientEvent>): seq<Option<string>> {
    if |d| == 0 then []
    else OutputIds(d[..|d| - 1]) + (if d[|d| - 1].FunctionCallOutput? then [d[|d| - 1].callId] else [])
  }

  lemma {:induction false} OutputIdsAppend(a: seq<ClientEvent>, b: seq<ClientEvent>)
    ensures OutputIds(a + b) == OutputIds(a) + OutputIds(b)
    decreases |b|
  {
    if |b| == 0 {
      assert a + b == a;
    } else {
      assert (a + b)[..|a + b| - 1] == a + b[..|b| - 1];
      OutputIdsAppend(a, b[..|b| - 1]);
    }
  }

  lemma {:induction false} AcknowledgedIds(d: seq<ClientEvent>, callId: Option<string>)
    requires Acknowledges(d, callId)
    ensures OutputIds(d) == [callId]
    decreases |d|
  {
    if |d| == 2 {
      assert d[..1][..0] == [];
      assert OutputIds(d[..1]) == [callId];
      assert d[..|d| - 1] == d[..1];
    } else {
      assert d[..|d| - 1] == [d[0]] + d[1..|d| - 1];
      OutputIdsAppend([d[0]], d[1..|d| - 1]);
      NoOutputs(d[1..|d| - 1]);
      assert [d[0]][..0] == [];
    }
  }

  lemma {:induction false} NoOutputs(d: seq<ClientEvent>)
    requires forall i :: 0 <= i < |d| ==> !d[i].FunctionCallOutput?
    ensures OutputIds(d) == []
    decreases |d|
  {
    if |d| > 0 {
      NoOutputs(d[..|d| - 1]);
    }
  }

  /** The call ids of the first `n` output items that are calls the dispatcher answers, in order. */
  function AnsweredIds(agents: Option<seq<Agent>>, closure: Closure, items: seq<OutputItem>, n: nat, parse: Parser): seq<Option<string>>
    requires n <= |items|
  {
    if n == 0 then []
    else
      var call := CallOf(items[n - 1]);
      AnsweredIds(agents, closure, items, n - 1, parse)
        + (if call.Some? && !Aborts(agents, closure, call.value, parse) then [call.value.callId] else [])
  }

  /** The events the dispatcher sends for one output item. */
  function ItemEvents(agents: Option<seq<Agent>>, closure: Closure, item: OutputItem, parse: Parser, uuid: string): seq<ClientEvent> {
    var call := CallOf(item);
    if call.Some? then CallEvents(agents, closure, call.value, parse, uuid) else []
  }

  /** The call id an output item gets answered with, if it is answered. */
  function ItemAnswer(agents: Option<seq<Agent>>, closure: Closure, item: OutputItem, parse: Parser): seq<Option<string>> {
    var call := CallOf(item);
    if call.Some? && !Aborts(agents, closure, call.value, parse) then [call.value.callId] else []
  }

  lemma DoneStep(st: State, agents: Option<seq<Agent>>, closure: Closure, items: seq<OutputItem>, n: nat, parse: Parser, uuidFor: nat -> string)
    requires 0 < n <= |items|
    ensures DoneCalls(st, agents, closure, items, n, parse, uuidFor).outbox
         == DoneCalls(st, agents, closure, items, n - 1, parse, uuidFor).outbox + ItemEvents(agents, closure, items[n - 1], parse, uuidFor(n - 1))
    ensures AnsweredIds(agents, closure, items, n, parse) == AnsweredIds(agents, closure, items, n - 1, parse) + ItemAnswer(agents, closure, items[n - 1], parse)
  {
    var prev := DoneCalls(st, agents, closure, items, n - 1, parse, uuidFor);
    var call := CallOf(items[n - 1]);
    if call.Some? {
      CallSends(prev, agents, closure, call.value, parse, uuidFor(n - 1));
    } else {
      assert prev.outbox + [] == prev.outbox;
    }
  }

  lemma ItemIds(agents: Option<seq<Agent>>, closure: Closure, item: OutputItem, parse: Parser, uuid: string)
    ensures OutputIds(ItemEvents(agents, closure, item, parse, uuid)) == ItemAnswer(agents, closure, item, parse)
  {
    var call := CallOf(item);
    if call.Some? {
      CallEventsShape(agents, closure, call.value, parse, uuid);
      if !Aborts(agents, closure, call.value, parse) {
        AcknowledgedIds(CallEvents(agents, closure, call.value, parse, uuid), call.value.callId);
      }
    }
  }

  /**
   * A `response.done` answers its calls in the order the model emitted them,
   * each exactly once, and sends nothing for the calls that abort; nothing
   * sent earlier is touched.
   */
  lemma {:induction false} ResponseAnswersEachCall(st: State, agents: Option<seq<Agent>>, closure: Closure, items: seq<OutputItem>, n: nat, parse: Parser, uuidFor: nat -> string)
    requires n <= |items|
    ensures var r := DoneCalls(st, agents, closure, items, n, parse, uuidFor);
      && |st.outbox| <= |r.outbox| && r.outbox[..|st.outbox|] == st.outbox
      && OutputIds(r.outbox) == OutputIds(st.outbox) + AnsweredIds(agents, closure, items, n, parse)
    decreases n, 1
  {
    if n == 0 {
      assert OutputIds(st.outbox) + [] == OutputIds(st.outbox);
    } else {
      AnswersStep(st, agents, closure, items, n, parse, uuidFor);
    }
  }

  /** One more output item: the ids answered so far grow by that item's answer. */
  lemma {:induction false} AnswersStep(st: State, agents: Option<seq<Agent>>, closure: Closure, items: seq<OutputItem>, n: nat, parse: Parser, uuidFor: nat -> string)
    requires 0 < n <= |items|
    ensures var r := DoneCalls(st, agents, closure, items, n, parse, uuidFor);
      && |st.outbox| <= |r.outbox| && r.outbox[..|st.outbox|] == st.outbox
      && OutputIds(r.outbox) == OutputIds(st.outbox) + AnsweredIds(agents, closure, items, n, parse)
    decreases n, 0
  {
    ResponseAnswersEachCall(st, agents, closure, items, n - 1, parse, uuidFor);
    var prev := DoneCalls(st, agents, closure, items, n - 1, parse, uuidFor).outbox;
    var e := ItemEvents(agents, closure, items[n - 1], parse, uuidFor(n - 1));
    DoneStep(st, agents, closure, items, n, parse, uuidFor);
    ItemIds(agents, closure, items[n - 1], parse, uuidFor(n - 1));
    OutputIdsAppend(prev, e);
    PrefixOfAppend(prev, e, |st.outbox|);
    IdsStep(OutputIds(st.outbox), AnsweredIds(agents, closure, items, n - 1, parse), ItemAnswer(agents, closure, items[n - 1], parse),
            OutputIds(prev), OutputIds(prev + e));
  }

  /** Answering one more item extends the answered ids by that item's answer. */
  lemma IdsStep(start: seq<Option<string>>, answered: seq<Option<string>>, answer: seq<Option<string>>,
                before: seq<Option<string>>, after: seq<Option<string>>)
    requires before == start + answered && after == before + answer
    ensures after == start + (answered + answer)
  {
  }

  lemma PrefixOfAppend<T>(a: seq<T>, b: seq<T>, k: nat)
    requires k <= |a|
    ensures (a + b)[..k] == a[..k]
  {
  }

  /** The active agent stays a member of the agent set through the calls of a response. */
  lemma {:induction false} ResponseKeepsAgentKnown(st: State, agents: Option<seq<Agent>>, closure: Closure, items: seq<OutputItem>, n: nat, parse: Parser, uuidFor: nat -> string)
    requires n <= |items| && Known(agents, st.selectedAgentName)
    ensures Known(agents, DoneCalls(st, agents, closure, items, n, parse, uuidFor).selectedAgentName)
  {
    if n > 0 {
      ResponseKeepsAgentKnown(st, agents, closure, items, n - 1, parse, uuidFor);
      var prev := DoneCalls(st, agents, closure, items, n - 1, parse, uuidFor);
      var call := CallOf(items[n - 1]);
      if call.Some? {
        AgentChangesOnlyByTransfer(prev, agents, closure, call.value, parse, uuidFor(n - 1));
      }
    }
  }

  /** No event makes the active agent one that is not in the set, and outbound events are only appended. */
  lemma EventKeepsInvariants(st: State, agents: Option<seq<Agent>>, ev: ServerEvent, parse: Parser, uuidFor: nat -> string, now: string)
    requires Known(agents, st.selectedAgentName)
    ensures var r := EventStep(st, agents, ev, parse, uuidFor, now);
      && Known(agents, r.selectedAgentName)
      && |st.outbox| <= |r.outbox| && r.outbox[..|st.outbox|] == st.outbox
  {
    if ev.ResponseDone? && ev.output.Some? {
      ResponseKeepsAgentKnown(st, agents, Capture(st), ev.output.value, |ev.output.value|, parse, uuidFor);
      ResponseAnswersEachCall(st, agents, Capture(st), ev.output.value, |ev.output.value|, parse, uuidFor);
    }
  }

  /** A `response.done` with one output item does what that item's call does, in the closure of the arriving event. */
  lemma SingleItemResponse(st: State, agents: Option<seq<Agent>>, item: OutputItem, parse: Parser, uuidFor: nat -> string, now: string)
    ensures EventStep(st, agents, ResponseDone(Some([item])), parse, uuidFor, now)
         == if CallOf(item).Some? then CallStep(st, agents, Capture(st), CallOf(item).value, parse, uuidFor(0)) else st
  {
    assert DoneCalls(st, agents, Capture(st), [item], 0, parse, uuidFor) == st;
  }

  /** Only `response.done` sends anything or changes the agent, the transfer flag or the report viewer. */
  lemma OnlyResponseDoneActs(st: State, agents: Option<seq<Agent>>, ev: ServerEvent, parse: Parser, uuidFor: nat -> string, now: string)
    requires !ev.ResponseDone?
    ensures var r := EventStep(st, agents, ev, parse, uuidFor, now);
      && r.outbox == st.outbox && r.selectedAgentName == st.selectedAgentName
      && r.justTransferred == st.justTransferred
      && r.currentReportFileId == st.currentReportFileId && r.previewVisible == st.previewVisible
      && (!ev.SessionCreated? ==> r.sessionStatus == st.sessionStatus)
      && (ev.Other? ==> r == st)
  {
  }

  /** A `conversation.item.created` for an id already in the transcript changes nothing. */
  lemma DuplicateItemIgnored(st: State, agents: Option<seq<Agent>>, id: string, role: Option<string>, text: Option<string>, transcript: Option<string>,
                             parse: Parser, uuidFor: nat -> string, now: string)
    requires id != "" && HasItem(st.transcript, id)
    ensures EventStep(st, agents, ItemCreated(Some(id), role, text, transcript), parse, uuidFor, now) == st
  {
  }

  /** Delivering the same `conversation.item.created` twice has the effect of delivering it once. */
  lemma ItemCreatedIdempotent(st: State, agents: Option<seq<Agent>>, ev: ServerEvent, parse: Parser, uuidFor: nat -> string, now: string)
    requires ev.ItemCreated?
    ensures var once := EventStep(st, agents, ev, parse, uuidFor, now);
      EventStep(once, agents, ev, parse, uuidFor, now) == once
  {
    var once := EventStep(st, agents, ev, parse, uuidFor, now);
    if Present(ev.itemId) && !HasItem(st.transcript, ev.itemId.value) && Present(ev.role) {
      var last := |once.transcript| - 1;
      assert once.transcript[last].Message? && once.transcript[last].itemId == ev.itemId.value;
      assert HasItem(once.transcript, ev.itemId.value);
    }
  }

  /**
   * A new item with an id and a role is appended, visible and in progress;
   * a user item with no text yet shows the placeholder "[Transcribing...]".
   */
  lemma NewItemAppended(st: State, agents: Option<seq<Agent>>, id: string, role: string, text: Option<string>, transcript: Option<string>,
                        parse: Parser, uuidFor: nat -> string, now: string)
    requires id != "" && role != "" && !HasItem(st.transcript, id)
    ensures var r := EventStep(st, agents, ItemCreated(Some(id), Some(role), text, transcript), parse, uuidFor, now);
      && |r.transcript| == |st.transcript| + 1 && r.transcript[..|st.transcript|] == st.transcript
      && var m := r.transcript[|st.transcript|];
      && m.Message? && m.itemId == id && m.role == role && !m.hidden && m.status == InProgress
      && (Present(text) ==> m.text == text.value)
      && (!Present(text) && Present(transcript) ==> m.text == transcript.value)
      && (!Present(text) && !Present(transcript) ==> m.text == (if role == "user" then "[Transcribing...]" else ""))
  {
    var r := EventStep(st, agents, ItemCreated(Some(id), Some(role), text, transcript), parse, uuidFor, now);
    assert r.transcript[..|st.transcript|] == st.transcript;
  }

  /**
   * A completed transcription replaces the text of the item's messages, with
   * "[inaudible]" for an empty or newline-only transcript; a delta appends.
   * Other items are untouched.
   */
  lemma TranscriptionUpdates(st: State, agents: Option<seq<Agent>>, id: string, t: Option<string>, parse: Parser, uuidFor: nat -> string, now: string)
    requires id != ""
    ensures var done := EventStep(st, agents, TranscriptionCompleted(Some(id), t), parse, uuidFor, now);
      var delta := EventStep(st, agents, TranscriptDelta(Some(id), t), parse, uuidFor, now);
      && |done.transcript| == |st.transcript| == |delta.transcript|
      && forall i :: 0 <= i < |st.transcript| ==>
        var item := st.transcript[i];
        if item.Message? && item.itemId == id then
          && done.transcript[i] == item.(text := if t.None? || t.value in {"", "\n"} then "[inaudible]" else t.value)
          && delta.transcript[i] == item.(text := item.text + (if t.Some? then t.value else ""))
        else done.transcript[i] == item && delta.transcript[i] == item
  {
  }
}
