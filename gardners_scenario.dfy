/**
 * The Gardners agent set (gardnersAgent/index.ts): the "authentication"
 * front desk and the sales agent of salesAgent.ts, named
 * "gardnersSalesAgent". The front desk's prompt asks for a transfer to
 * "salesAgent", a name no agent of the set has.
 */
module GardnersScenario {
  import opened Wrappers
  import opened JsValues
  import opened Transcript
  import opened Fetch
  import opened HandleServerEvent
  import opened HandleServerEventProps
  import SalesAgent

  /** The front desk of authentication.ts; its one tool is a stub that always authenticates. */
  function Authentication(): Agent {
    Agent("authentication", map["authenticateUser" := (a: Value, t: seq<TranscriptItem>) => Returned(Obj(map["authenticated" := Bool(true)]))])
  }

  function AgentSet(fetch: Fetcher): seq<Agent> {
    [Authentication(), SalesAgent.Config(fetch)]
  }

  /** The transfer call as the front desk's prompt shows it: an envelope naming "salesAgent". */
  function PromptedTransfer(rationale: string, context: string): Value {
    Obj(map[
      "name" := Str("transferAgents"),
      "arguments" := Obj(map[
        "rationale_for_transfer" := Str(rationale),
        "conversation_context" := Str(context),
        "destination_agent" := Str("salesAgent")])])
  }

  lemma NoAgentNamedSalesAgent(fetch: Fetcher)
    ensures !Known(Some(AgentSet(fetch)), "salesAgent")
    ensures Known(Some(AgentSet(fetch)), "gardnersSalesAgent")
  {
    var agents := AgentSet(fetch);
    assert agents[1].name == "gardnersSalesAgent";
  }

  /** While the front desk is active, its own tools are its stub only: a transfer or a product lookup has no implementation there. */
  lemma FrontDeskTools(st: State, fetch: Fetcher)
    requires st.selectedAgentName == "authentication"
    ensures FindAgent(Some(AgentSet(fetch)), "authentication") == Some(Authentication())
    ensures OwnTool(Some(AgentSet(fetch)), Capture(st), "transferAgents").None?
    ensures OwnTool(Some(AgentSet(fetch)), Capture(st), "retrieveBookInfo").None?
  {
    var agents := AgentSet(fetch);
    assert agents[0] == Authentication();
    assert FindIndex(agents, "authentication") == Some(0);
  }

  /**
   * The transfer the front desk is told to make reports `did_transfer:
   * false` and leaves the front desk active, whether the arguments arrive
   * wrapped in the envelope the prompt shows or directly.
   */
  lemma PromptedTransferFails(st: State, fetch: Fetcher, callId: Option<string>, text: string, parse: Parser, uuid: string, rationale: string, context: string)
    requires st.selectedAgentName == "authentication"
    requires parse(text) == Parsed(PromptedTransfer(rationale, context)) || parse(text) == Parsed(Get(PromptedTransfer(rationale, context), "arguments"))
    ensures var r := CallStep(st, Some(AgentSet(fetch)), Capture(st), FunctionCall("transferAgents", callId, text), parse, uuid);
      && r.selectedAgentName == "authentication"
      && r.justTransferred == st.justTransferred
      && r.outbox == st.outbox + [FunctionCallOutput(callId, TransferOutput(Str("salesAgent"), false)), UserText(GreetingId(uuid), "hi"), ResponseCreate]
  {
    var agents := Some(AgentSet(fetch));
    var call := FunctionCall("transferAgents", callId, text);
    FrontDeskTools(st, fetch);
    PromptedArgs(call, parse, rationale, context);
    NoAgentNamedSalesAgent(fetch);
    TransferOutcome(st, agents, Capture(st), call, parse, uuid);
  }

  /** Wrapped in the envelope or not, the prompted transfer's arguments name "salesAgent". */
  lemma PromptedArgs(call: FunctionCall, parse: Parser, rationale: string, context: string)
    requires call.name == "transferAgents"
    requires parse(call.arguments) == Parsed(PromptedTransfer(rationale, context))
          || parse(call.arguments) == Parsed(Get(PromptedTransfer(rationale, context), "arguments"))
    ensures !Unparsable(call, parse) && !Nullish(Args(call, parse))
    ensures Get(Args(call, parse), "destination_agent") == Str("salesAgent")
  {
    var inner := Get(PromptedTransfer(rationale, context), "arguments");
    assert !IsEnvelope(inner, "transferAgents");
    assert Args(call, parse) == inner;
  }

  /** A transfer naming the sales agent by its configured name succeeds. */
  lemma TransferByConfiguredNameSucceeds(st: State, fetch: Fetcher, callId: Option<string>, text: string, parse: Parser, uuid: string)
    requires st.selectedAgentName == "authentication"
    requires parse(text) == Parsed(Obj(map["destination_agent" := Str("gardnersSalesAgent")]))
    ensures var r := CallStep(st, Some(AgentSet(fetch)), Capture(st), FunctionCall("transferAgents", callId, text), parse, uuid);
      && r.selectedAgentName == "gardnersSalesAgent" && r.justTransferred
      && r.outbox == st.outbox + [FunctionCallOutput(callId, TransferOutput(Str("gardnersSalesAgent"), true)), UserText(GreetingId(uuid), "hi"), ResponseCreate]
  {
    var agents := Some(AgentSet(fetch));
    var call := FunctionCall("transferAgents", callId, text);
    FrontDeskTools(st, fetch);
    NoAgentNamedSalesAgent(fetch);
    TransferOutcome(st, agents, Capture(st), call, parse, uuid);
  }

  /**
   * The calls of one `response.done` all run in the closure captured when it
   * arrived: after a successful transfer to the sales agent, a
   * `retrieveBookInfo` call in the same response is still looked up on the
   * front desk, which lacks it, and is answered `{result: true}` without
   * any product lookup.
   */
  lemma LaterCallInSameResponseUsesFrontDesk(st: State, fetch: Fetcher, t1: string, t2: string, id1: Option<string>, id2: Option<string>,
                                             parse: Parser, uuidFor: nat -> string, now: string, bookArgs: Value)
    requires st.selectedAgentName == "authentication"
    requires t1 != "" && t2 != ""
    requires parse(t1) == Parsed(Obj(map["destination_agent" := Str("gardnersSalesAgent")]))
    requires parse(t2) == Parsed(bookArgs) && bookArgs.Obj? && !IsEnvelope(bookArgs, "retrieveBookInfo")
    ensures var ev := ResponseDone(Some([OutputItem("function_call", Some("transferAgents"), id1, Some(t1)),
                                        OutputItem("function_call", Some("retrieveBookInfo"), id2, Some(t2))]));
      var r := EventStep(st, Some(AgentSet(fetch)), ev, parse, uuidFor, now);
      && r.selectedAgentName == "gardnersSalesAgent" && r.justTransferred
      && r.outbox == st.outbox + [FunctionCallOutput(id1, TransferOutput(Str("gardnersSalesAgent"), true)), UserText(GreetingId(uuidFor(0)), "hi"), ResponseCreate,
                                  FunctionCallOutput(id2, FallbackResult), ResponseCreate]
  {
    var agents := Some(AgentSet(fetch));
    var items := [OutputItem("function_call", Some("transferAgents"), id1, Some(t1)),
                  OutputItem("function_call", Some("retrieveBookInfo"), id2, Some(t2))];
    var closure := Capture(st);
    var c1 := FunctionCall("transferAgents", id1, t1);
    var c2 := FunctionCall("retrieveBookInfo", id2, t2);
    TwoCalls(st, agents, items, c1, c2, parse, uuidFor, now);
    var s1 := CallStep(st, agents, closure, c1, parse, uuidFor(0));
    TransferByConfiguredNameSucceeds(st, fetch, id1, t1, parse, uuidFor(0));
    FrontDeskTools(st, fetch);
    FallbackOutcome(s1, agents, closure, c2, parse, uuidFor(1));
  }

  /** A `response.done` with two function calls runs them in order, both in the closure of its start. */
  lemma TwoCalls(st: State, agents: Option<seq<Agent>>, items: seq<OutputItem>, c1: FunctionCall, c2: FunctionCall,
                 parse: Parser, uuidFor: nat -> string, now: string)
    requires |items| == 2 && CallOf(items[0]) == Some(c1) && CallOf(items[1]) == Some(c2)
    ensures EventStep(st, agents, ResponseDone(Some(items)), parse, uuidFor, now)
      == CallStep(CallStep(st, agents, Capture(st), c1, parse, uuidFor(0)), agents, Capture(st), c2, parse, uuidFor(1))
  {
    assert DoneCalls(st, agents, Capture(st), items, 0, parse, uuidFor) == st;
    var s1 := DoneCalls(st, agents, Capture(st), items, 1, parse, uuidFor);
    assert s1 == CallStep(st, agents, Capture(st), c1, parse, uuidFor(0));
    assert DoneCalls(st, agents, Capture(st), items, 2, parse, uuidFor) == CallStep(s1, agents, Capture(st), c2, parse, uuidFor(1));
  }
}
