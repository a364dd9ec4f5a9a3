/**
 * The realtime event dispatcher: `handleServerEvent` routes each server event
 * to a transcript update or, for `response.done`, runs every function call
 * the model emitted through `handleFunctionCall`, which picks one of three
 * branches (the active agent's own tool, the built-in `transferAgents`
 * handoff, a `{result: true}` fallback) and answers the call on the outbound
 * channel.
 *
 * The pure functions below say what one call and one event do to the
 * observable state; the `Session` class performs the same steps on mutable
 * fields and is proved to agree with them. `JSON.parse`, the tool
 * implementations, `uuidv4()` and the clock are parameters.
 */
module HandleServerEvent {
  import opened Wrappers
  import opened JsValues
  import opened Transcript

  /** A tool implementation: it receives the arguments and the transcript, and returns a value or throws. */
  type Tool = (Value, seq<TranscriptItem>) -> ToolOutcome

  /** The part of an agent configuration the dispatcher consults: the name and the tool implementations by tool name. */
  datatype Agent = Agent(name: string, toolLogic: map<string, Tool>)

  datatype SessionStatus = Disconnected | Connecting | Connected

  datatype FunctionCall = FunctionCall(name: string, callId: Option<string>, arguments: string)

  /** An element of `response.output`; absent string fields are `None`. */
  datatype OutputItem = OutputItem(kind: string, name: Option<string>, callId: Option<string>, arguments: Option<string>)

  /** The server events the dispatcher distinguishes, with the (optional) fields it reads. */
  datatype ServerEvent =
    | SessionCreated(sessionId: Option<string>)
    | ItemCreated(itemId: Option<string>, role: Option<string>, text: Option<string>, transcript: Option<string>)
    | TranscriptionCompleted(itemId: Option<string>, transcript: Option<string>)
    | TranscriptDelta(itemId: Option<string>, delta: Option<string>)
    | ResponseDone(output: Option<seq<OutputItem>>)
    | OutputItemDone(itemId: Option<string>)
    | Other(kind: string)

  /** Everything a call or an event can change: the transcript, the UI state setters, and the outbound events in order. */
  datatype State = State(
    transcript: seq<TranscriptItem>,
    selectedAgentName: string,
    justTransferred: bool,
    currentReportFileId: Option<string>,
    previewVisible: bool,
    sessionStatus: SessionStatus,
    outbox: seq<ClientEvent>)

  /**
   * What the handler's closure captured when the event arrived: the active
   * agent's name and the transcript as rendered. State changes made while
   * handling the event do not reach it.
   */
  datatype Closure = Closure(selectedAgentName: string, transcriptItems: seq<TranscriptItem>)

  function Capture(st: State): Closure {
    Closure(st.selectedAgentName, st.transcript)
  }

  /** A present, non-empty string field (a truthy optional string). */
  predicate Present(o: Option<string>) {
    o.Some? && o.value != ""
  }

  /** The index of the first agent with the given name (`agents.find(a => a.name === name)`). */
  function FindIndex(agents: seq<Agent>, name: string): (r: Option<nat>)
    ensures r.None? <==> forall i :: 0 <= i < |agents| ==> agents[i].name != name
    ensures r.Some? ==> r.value < |agents| && agents[r.value].name == name
    ensures r.Some? ==> forall j :: 0 <= j < r.value ==> agents[j].name != name
  {
    if |agents| == 0 then None
    else if agents[0].name == name then Some(0)
    else
      var rest := FindIndex(agents[1..], name);
      if rest.Some? then Some(rest.value + 1) else None
  }

  /** `agentSet?.find(a => a.name === name)`: no agent when the set is missing. */
  function FindAgent(agents: Option<seq<Agent>>, name: string): (r: Option<Agent>)
    ensures r.Some? <==> agents.Some? && exists i :: 0 <= i < |agents.value| && agents.value[i].name == name
    ensures r.Some? ==> r.value.name == name
  {
    if agents.None? then None
    else
      var i := FindIndex(agents.value, name);
      if i.Some? then Some(agents.value[i.value]) else None
  }

  /** True when the parsed arguments repeat the call's name and nest the real arguments under `arguments`. */
  predicate IsEnvelope(parsed: Value, name: string) {
    Get(parsed, "name") == Str(name) && TypeofObject(Get(parsed, "arguments"))
  }

  /** The arguments a call's handler receives, after unwrapping an envelope. */
  function NormalizeArgs(parsed: Value, name: string): Value {
    if IsEnvelope(parsed, name) then Get(parsed, "arguments") else parsed
  }

  /** A tool result's `reportFileId`, when the result is an object and the property is a string. */
  function ReportFileIdOf(result: Value): (r: Option<string>)
    ensures r.Some? ==> result.Obj? && "reportFileId" in result.fields && result.fields["reportFileId"] == Str(r.value)
    ensures r.None? ==> !(result.Obj? && "reportFileId" in result.fields && result.fields["reportFileId"].Str?)
  {
    var v := Get(result, "reportFileId");
    if v.Str? then Some(v.s) else None
  }

  /** `{ destination_agent, did_transfer }` */
  function TransferOutput(destination: Value, didTransfer: bool): Value {
    Obj(map["destination_agent" := destination, "did_transfer" := Bool(didTransfer)])
  }

  /** `{ result: true }` */
  const FallbackResult: Value := Obj(map["result" := Bool(true)])

  /** `uuidv4().slice(0, 32)` */
  function GreetingId(uuid: string): (r: string)
    ensures |r| <= 32 && |r| <= |uuid| && r == uuid[..|r|]
    ensures |uuid| >= 32 ==> |r| == 32
  {
    if |uuid| <= 32 then uuid else uuid[..32]
  }

  function AddBreadcrumb(st: State, title: string, data: Value): State {
    st.(transcript := st.transcript + [Breadcrumb(title, Some(data))])
  }

  function Send(st: State, events: seq<ClientEvent>): State {
    st.(outbox := st.outbox + events)
  }

  /** True when the call's arguments do not parse, or parse to `null` (whose `.name` throws inside the same `try`). */
  predicate Unparsable(call: FunctionCall, parse: Parser) {
    parse(call.arguments).SyntaxError? || Nullish(parse(call.arguments).value)
  }

  /** The active agent's own implementation of the called tool, if it has one. */
  function OwnTool(agents: Option<seq<Agent>>, closure: Closure, name: string): Option<Tool> {
    var current := FindAgent(agents, closure.selectedAgentName);
    if current.Some? && name in current.value.toolLogic then Some(current.value.toolLogic[name]) else None
  }

  /** The tool branch, after the "function call" breadcrumb. A tool that throws ends the call there. */
  function ToolBranch(st: State, call: FunctionCall, args: Value, fn: Tool, closure: Closure): State {
    var outcome := fn(args, closure.transcriptItems);
    if outcome.Threw? then st
    else
      var result := outcome.value;
      var s1 := AddBreadcrumb(st, "function call result: " + call.name, result);
      var id := ReportFileIdOf(result);
      var s2 := if id.Some? then s1.(currentReportFileId := id, previewVisible := true) else s1;
      Send(s2, [FunctionCallOutput(call.callId, result), ResponseCreate])
  }

  /** The `transferAgents` branch, after the "function call" breadcrumb. Arguments that are `null` throw when read. */
  function TransferBranch(st: State, agents: Option<seq<Agent>>, call: FunctionCall, args: Value, uuid: string): State {
    if Nullish(args) then st
    else
      var destination := Get(args, "destination_agent");
      var target := if destination.Str? then FindAgent(agents, destination.s) else None;
      var s1 := if target.Some? then st.(selectedAgentName := target.value.name, justTransferred := true) else st;
      var output := TransferOutput(destination, target.Some?);
      var greetId := GreetingId(uuid);
      var s2 := Send(s1, [FunctionCallOutput(call.callId, output)]);
      var s3 := s2.(transcript := s2.transcript + [Message(greetId, "user", "hi", true, InProgress)]);
      var s4 := Send(s3, [UserText(greetId, "hi"), ResponseCreate]);
      AddBreadcrumb(s4, "function call: " + call.name + " response", output)
  }

  /** The fallback branch, after the "function call" breadcrumb. */
  function FallbackBranch(st: State, call: FunctionCall): State {
    var s1 := AddBreadcrumb(st, "function call fallback: " + call.name, FallbackResult);
    Send(s1, [FunctionCallOutput(call.callId, FallbackResult), ResponseCreate])
  }

  /** What `handleFunctionCall` does to the state, given the closure it runs in and the uuid it draws. */
  function CallStep(st: State, agents: Option<seq<Agent>>, closure: Closure, call: FunctionCall, parse: Parser, uuid: string): (r: State)
    ensures r.sessionStatus == st.sessionStatus
    ensures |st.outbox| <= |r.outbox| && r.outbox[..|st.outbox|] == st.outbox
  {
    if Unparsable(call, parse) then st
    else
      var args := NormalizeArgs(parse(call.arguments).value, call.name);
      var s1 := AddBreadcrumb(st, "function call: " + call.name, args);
      var own := OwnTool(agents, closure, call.name);
      if own.Some? then ToolBranch(s1, call, args, own.value, closure)
      else if call.name == "transferAgents" then TransferBranch(s1, agents, call, args, uuid)
      else FallbackBranch(s1, call)
  }

  /** The function call an output item asks for, if it is one with a name and arguments. */
  function CallOf(item: OutputItem): Option<FunctionCall> {
    if item.kind == "function_call" && Present(item.name) && Present(item.arguments)
    then Some(FunctionCall(item.name.value, item.callId, item.arguments.value))
    else None
  }

  /**
   * The first `n` output items of a `response.done`, handled in order. Every
   * call runs in the closure captured when the event arrived, and the `k`-th
   * item draws `uuidFor(k)`.
   */
  function DoneCalls(st: State, agents: Option<seq<Agent>>, closure: Closure, items: seq<OutputItem>, n: nat, parse: Parser, uuidFor: nat -> string): (r: State)
    requires n <= |items|
    ensures r.sessionStatus == st.sessionStatus
  {
    if n == 0 then st
    else
      var prev := DoneCalls(st, agents, closure, items, n - 1, parse, uuidFor);
      var call := CallOf(items[n - 1]);
      if call.Some? then CallStep(prev, agents, closure, call.value, parse, uuidFor(n - 1)) else prev
  }

  /** The text a `conversation.item.created` message starts with. */
  function CreatedText(role: string, text: Option<string>, transcript: Option<string>): string {
    var t := if Present(text) then text.value else if Present(transcript) then transcript.value else "";
    if role == "user" && t == "" then "[Transcribing...]" else t
  }

  /** The final text of a completed input transcription. */
  function FinalTranscript(transcript: Option<string>): string {
    if !Present(transcript) || transcript.value == "\n" then "[inaudible]" else transcript.value
  }

  /** What `handleServerEvent` does to the state; `now` is the clock's rendering of the current time. */
  function EventStep(st: State, agents: Option<seq<Agent>>, ev: ServerEvent, parse: Parser, uuidFor: nat -> string, now: string): (r: State)
    ensures !ev.SessionCreated? ==> r.sessionStatus == st.sessionStatus
    ensures ev.SessionCreated? ==> r.sessionStatus == st.sessionStatus || r.sessionStatus == Connected
    ensures !ev.ResponseDone? ==> r.outbox == st.outbox && r.selectedAgentName == st.selectedAgentName
  {
    match ev
    case SessionCreated(id) =>
      if Present(id)
      then st.(sessionStatus := Connected, transcript := st.transcript + [Breadcrumb("session.id: " + id.value + "\nStarted at: " + now, None)])
      else st
    case ItemCreated(itemId, role, text, transcript) =>
      if Present(itemId) && HasItem(st.transcript, itemId.value) then st
      else if Present(itemId) && Present(role)
      then st.(transcript := st.transcript + [Message(itemId.value, role.value, CreatedText(role.value, text, transcript), false, InProgress)])
      else st
    case TranscriptionCompleted(itemId, transcript) =>
      if Present(itemId) then st.(transcript := UpdateMessage(st.transcript, itemId.value, FinalTranscript(transcript), false)) else st
    case TranscriptDelta(itemId, delta) =>
      if Present(itemId)
      then st.(transcript := UpdateMessage(st.transcript, itemId.value, if Present(delta) then delta.value else "", true))
      else st
    case ResponseDone(output) =>
      if output.Some? then DoneCalls(st, agents, Capture(st), output.value, |output.value|, parse, uuidFor) else st
    case OutputItemDone(itemId) =>
      if Present(itemId) then st.(transcript := UpdateStatus(st.transcript, itemId.value)) else st
    case Other(_) => st
  }

  /**
   * The dispatcher with its React state as fields: the transcript, the
   * selected agent, the transfer flag, the report artifact id and its viewer
   * flag, the session status, and the events sent so far.
   */
  class Session {
    const agentSet: Option<seq<Agent>>
    var transcriptItems: seq<TranscriptItem>
    var selectedAgentName: string
    var justTransferred: bool
    var currentReportFileId: Option<string>
    var isPreviewDataVisible: bool
    var sessionStatus: SessionStatus
    var sent: seq<ClientEvent>

    function Snapshot(): State
      reads this
    {
      State(transcriptItems, selectedAgentName, justTransferred, currentReportFileId, isPreviewDataVisible, sessionStatus, sent)
    }

    constructor (agents: Option<seq<Agent>>, initialAgent: string)
      ensures agentSet == agents
      ensures Snapshot() == State([], initialAgent, false, None, false, Disconnected, [])
    {
      agentSet := agents;
      transcriptItems := [];
      selectedAgentName := initialAgent;
      justTransferred := false;
      currentReportFileId := None;
      isPreviewDataVisible := false;
      sessionStatus := Disconnected;
      sent := [];
    }

    method AddTranscriptBreadcrumb(title: string, data: Option<Value>)
      modifies this
      ensures Snapshot() == old(Snapshot()).(transcript := old(transcriptItems) + [Breadcrumb(title, data)])
    {
      transcriptItems := transcriptItems + [Breadcrumb(title, data)];
    }

    method AddTranscriptMessage(itemId: string, role: string, text: string, hidden: bool)
      modifies this
      ensures Snapshot() == old(Snapshot()).(transcript := old(transcriptItems) + [Message(itemId, role, text, hidden, InProgress)])
    {
      transcriptItems := transcriptItems + [Message(itemId, role, text, hidden, InProgress)];
    }

    method UpdateTranscriptMessage(itemId: string, text: string, append: bool)
      modifies this
      ensures Snapshot() == old(Snapshot()).(transcript := UpdateMessage(old(transcriptItems), itemId, text, append))
    {
      transcriptItems := UpdateMessage(transcriptItems, itemId, text, append);
    }

    method UpdateTranscriptItemStatus(itemId: string)
      modifies this
      ensures Snapshot() == old(Snapshot()).(transcript := UpdateStatus(old(transcriptItems), itemId))
    {
      transcriptItems := UpdateStatus(transcriptItems, itemId);
    }

    method SendClientEvent(e: ClientEvent)
      modifies this
      ensures Snapshot() == old(Snapshot()).(outbox := old(sent) + [e])
    {
      sent := sent + [e];
    }

    /** The tool branch of `handleFunctionCall`. */
    method RunTool(call: FunctionCall, args: Value, fn: Tool, closure: Closure)
      modifies this
      ensures Snapshot() == ToolBranch(old(Snapshot()), call, args, fn, closure)
    {
      var outcome := fn(args, closure.transcriptItems);
      if outcome.Threw? {
        return;
      }
      var fnResult := outcome.value;
      AddTranscriptBreadcrumb("function call result: " + call.name, Some(fnResult));
      var reportFileId := ReportFileIdOf(fnResult);
      if reportFileId.Some? {
        currentReportFileId := reportFileId;
        isPreviewDataVisible := true;
      }
      SendClientEvent(FunctionCallOutput(call.callId, fnResult));
      SendClientEvent(ResponseCreate);
    }

    /** The `transferAgents` branch of `handleFunctionCall`. */
    method RunTransfer(call: FunctionCall, args: Value, uuid: string)
      modifies this
      ensures Snapshot() == TransferBranch(old(Snapshot()), agentSet, call, args, uuid)
    {
      if Nullish(args) {
        return;
      }
      var destinationAgentName := Get(args, "destination_agent");
      var newAgentConfig := if destinationAgentName.Str? then FindAgent(agentSet, destinationAgentName.s) else None;
      var didTransfer := false;
      if newAgentConfig.Some? {
        selectedAgentName := newAgentConfig.value.name;
        justTransferred := true;
        didTransfer := true;
      }
      var functionCallOutput := TransferOutput(destinationAgentName, didTransfer);
      SendClientEvent(FunctionCallOutput(call.callId, functionCallOutput));
      var autoGreetingId := GreetingId(uuid);
      AddTranscriptMessage(autoGreetingId, "user", "hi", true);
      SendClientEvent(UserText(autoGreetingId, "hi"));
      SendClientEvent(ResponseCreate);
      AddTranscriptBreadcrumb("function call: " + call.name + " response", Some(functionCallOutput));
    }

    /** The fallback branch of `handleFunctionCall`. */
    method RunFallback(call: FunctionCall)
      modifies this
      ensures Snapshot() == FallbackBranch(old(Snapshot()), call)
    {
      var simulatedResult := FallbackResult;
      AddTranscriptBreadcrumb("function call fallback: " + call.name, Some(simulatedResult));
      SendClientEvent(FunctionCallOutput(call.callId, simulatedResult));
      SendClientEvent(ResponseCreate);
    }

    /** `handleFunctionCall`, run to completion in the given closure. */
    method HandleFunctionCall(call: FunctionCall, closure: Closure, parse: Parser, uuid: string)
      modifies this
      ensures Snapshot() == CallStep(old(Snapshot()), agentSet, closure, call, parse, uuid)
    {
      var parsedOuter := parse(call.arguments);
      if parsedOuter.SyntaxError? || Nullish(parsedOuter.value) {
        return;
      }
      var args := NormalizeArgs(parsedOuter.value, call.name);
      var currentAgent := FindAgent(agentSet, closure.selectedAgentName);
      AddTranscriptBreadcrumb("function call: " + call.name, Some(args));
      if currentAgent.Some? && call.name in currentAgent.value.toolLogic {
        RunTool(call, args, currentAgent.value.toolLogic[call.name], closure);
      } else if call.name == "transferAgents" {
        RunTransfer(call, args, uuid);
      } else {
        RunFallback(call);
      }
    }

    /** The function calls of a `response.done`, run one after another in the closure captured on arrival. */
    method HandleResponseDone(items: seq<OutputItem>, parse: Parser, uuidFor: nat -> string)
      modifies this
      ensures Snapshot() == DoneCalls(old(Snapshot()), agentSet, Capture(old(Snapshot())), items, |items|, parse, uuidFor)
    {
      var closure := Closure(selectedAgentName, transcriptItems);
      ghost var start := Snapshot();
      var i := 0;
      while i < |items|
        invariant 0 <= i <= |items|
        invariant Snapshot() == DoneCalls(start, agentSet, closure, items, i, parse, uuidFor)
      {
        var call := CallOf(items[i]);
        if call.Some? {
          HandleFunctionCall(call.value, closure, parse, uuidFor(i));
        }
        i := i + 1;
      }
    }

    /** `handleServerEvent`. */
    method HandleServerEvent(ev: ServerEvent, parse: Parser, uuidFor: nat -> string, now: string)
      modifies this
      ensures Snapshot() == EventStep(old(Snapshot()), agentSet, ev, parse, uuidFor, now)
    {
      match ev {
        case SessionCreated(id) =>
          if Present(id) {
            sessionStatus := Connected;
            AddTranscriptBreadcrumb("session.id: " + id.value + "\nStarted at: " + now, None);
          }
        case ItemCreated(itemId, role, text, transcript) =>
          if Present(itemId) && HasItem(transcriptItems, itemId.value) {
            return;
          }
          if Present(itemId) && Present(role) {
            AddTranscriptMessage(itemId.value, role.value, CreatedText(role.value, text, transcript), false);
          }
        case TranscriptionCompleted(itemId, transcript) =>
          if Present(itemId) {
            UpdateTranscriptMessage(itemId.value, FinalTranscript(transcript), false);
          }
        case TranscriptDelta(itemId, delta) =>
          if Present(itemId) {
            UpdateTranscriptMessage(itemId.value, if Present(delta) then delta.value else "", true);
          }
        case ResponseDone(output) =>
          if output.Some? {
            HandleResponseDone(output.value, parse, uuidFor);
          }
        case OutputItemDone(itemId) =>
          if Present(itemId) {
            UpdateTranscriptItemStatus(itemId.value);
          }
        case Other(_) =>
      }
    }
  }
}
