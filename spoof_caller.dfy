/**
 * The spoofCaller agent set (spoofCaller/index.ts): a director, a
 * switchboard and seven departments, whose `downstreamAgents` lists are
 * assigned on the shared configuration objects; a department lists the
 * switchboard and then every other department. The prompts are data and are
 * not part of this model.
 */
module SpoofCaller {
  import opened Wrappers
  import opened JsValues
  import opened Transcript
  import opened HandleServerEvent
  import opened HandleServerEventProps

  class AgentConfig {
    const name: string
    var downstreamAgents: seq<AgentConfig>

    constructor (name: string)
      ensures this.name == name && downstreamAgents == []
    {
      this.name := name;
      downstreamAgents := [];
    }
  }

  const DepartmentNames: seq<string> := ["dept1", "dept2", "dept3", "dept4", "dept5", "dept6", "dept7"]

  /** The exported order: director, switchboard, then the departments. */
  const ExportedNames: seq<string> := ["director", "switchboard"] + DepartmentNames

  /** `departments.filter(x => x.name !== name)` */
  function OthersByName(departments: seq<AgentConfig>, name: string): (r: seq<AgentConfig>)
    ensures forall x :: x in r ==> x in departments && x.name != name
  {
    if departments == [] then []
    else
      var last := departments[|departments| - 1];
      OthersByName(departments[..|departments| - 1], name) + (if last.name != name then [last] else [])
  }

  predicate DistinctNames(agents: seq<AgentConfig>) {
    forall i, j :: 0 <= i < j < |agents| ==> agents[i].name != agents[j].name
  }

  /** With distinct names, filtering out one agent's name removes exactly that agent and keeps the order. */
  lemma {:induction false} OthersOfDistinct(departments: seq<AgentConfig>, k: nat)
    requires k < |departments| && DistinctNames(departments)
    ensures OthersByName(departments, departments[k].name) == departments[..k] + departments[k + 1..]
    decreases |departments|
  {
    var n := |departments| - 1;
    var init := departments[..n];
    var name := departments[k].name;
    InitDistinct(departments, init);
    if k == n {
      NoneFiltered(init, name);
      assert init == departments[..k];
      assert departments[k + 1..] == [];
    } else {
      assert init[k] == departments[k];
      OthersOfDistinct(init, k);
      SliceAroundLast(departments, k);
    }
  }

  /** The prefix without the last agent keeps distinct names, none of them the last agent's. */
  lemma InitDistinct(departments: seq<AgentConfig>, init: seq<AgentConfig>)
    requires |departments| > 0 && DistinctNames(departments) && init == departments[..|departments| - 1]
    ensures DistinctNames(init)
    ensures forall i :: 0 <= i < |init| ==> init[i].name != departments[|departments| - 1].name
  {
  }

  lemma SliceAroundLast<T>(d: seq<T>, k: nat)
    requires k < |d| - 1
    ensures d[..|d| - 1][..k] == d[..k]
    ensures d[..|d| - 1][k + 1..] + [d[|d| - 1]] == d[k + 1..]
  {
  }

  lemma {:induction false} NoneFiltered(agents: seq<AgentConfig>, name: string)
    requires forall i :: 0 <= i < |agents| ==> agents[i].name != name
    ensures OthersByName(agents, name) == agents
    decreases |agents|
  {
    if agents != [] {
      var init := agents[..|agents| - 1];
      assert forall i :: 0 <= i < |init| ==> init[i] == agents[i];
      NoneFiltered(init, name);
      assert init + [agents[|agents| - 1]] == agents;
    }
  }

  /**
   * Lines 13-19 of index.ts on the shared objects: the director lists the
   * switchboard, the switchboard lists the departments, and each department
   * lists the switchboard and then the other departments in order.
   */
  method Wire(director: AgentConfig, switchboard: AgentConfig, departments: seq<AgentConfig>)
    requires director != switchboard && director !in departments && switchboard !in departments
    requires DistinctNames(departments)
    modifies director, switchboard, set d | d in departments
    ensures director.downstreamAgents == [switchboard]
    ensures switchboard.downstreamAgents == departments
    ensures forall k :: 0 <= k < |departments| ==> departments[k].downstreamAgents == [switchboard] + departments[..k] + departments[k + 1..]
  {
    director.downstreamAgents := [switchboard];
    switchboard.downstreamAgents := departments;
    var i := 0;
    while i < |departments|
      invariant 0 <= i <= |departments|
      invariant director.downstreamAgents == [switchboard]
      invariant switchboard.downstreamAgents == departments
      invariant forall j :: 0 <= j < i ==> departments[j].downstreamAgents == [switchboard] + departments[..j] + departments[j + 1..]
    {
      var d := departments[i];
      OthersOfDistinct(departments, i);
      d.downstreamAgents := [switchboard] + OthersByName(departments, d.name);
      i := i + 1;
    }
  }

  lemma DepartmentNamesDistinct()
    ensures forall i, j :: 0 <= i < j < 7 ==> DepartmentNames[i] != DepartmentNames[j]
  {
    forall i, j | 0 <= i < j < 7
      ensures DepartmentNames[i] != DepartmentNames[j]
    {
      assert DepartmentNames[i][4] != DepartmentNames[j][4];
    }
  }

  lemma ExportedNamesDistinct()
    ensures forall i, j :: 0 <= i < j < 9 ==> ExportedNames[i] != ExportedNames[j]
  {
    DepartmentNamesDistinct();
    forall i, j | 0 <= i < j < 9
      ensures ExportedNames[i] != ExportedNames[j]
    {
      if i < 2 {
        assert ExportedNames[i][1] != ExportedNames[j][1];
      } else {
        assert ExportedNames[i] == DepartmentNames[i - 2] && ExportedNames[j] == DepartmentNames[j - 2];
      }
    }
  }

  /** Builds the nine configurations and wires them; the result is the exported list. */
  method Configure() returns (agents: seq<AgentConfig>)
    ensures |agents| == 9 && forall i :: 0 <= i < 9 ==> agents[i].name == ExportedNames[i]
    ensures agents[0].downstreamAgents == [agents[1]]
    ensures agents[1].downstreamAgents == agents[2..]
    ensures var departments := agents[2..];
      forall k :: 0 <= k < 7 ==> departments[k].downstreamAgents == [agents[1]] + departments[..k] + departments[k + 1..]
  {
    var director := new AgentConfig("director");
    var switchboard := new AgentConfig("switchboard");
    var departments: seq<AgentConfig> := [];
    var i := 0;
    while i < 7
      invariant 0 <= i <= 7 && |departments| == i
      invariant forall j :: 0 <= j < i ==> departments[j].name == DepartmentNames[j]
      invariant director.name == "director" && switchboard.name == "switchboard"
      invariant director != switchboard && director !in departments && switchboard !in departments
      invariant fresh(director) && fresh(switchboard) && forall j :: 0 <= j < i ==> fresh(departments[j])
    {
      var d := new AgentConfig(DepartmentNames[i]);
      departments := departments + [d];
      i := i + 1;
    }
    DepartmentNamesDistinct();
    Wire(director, switchboard, departments);
    agents := [director, switchboard] + departments;
    assert agents[2..] == departments;
  }

  /**
   * The wiring as a graph: no agent lists itself, no agent lists the
   * director (so the director cannot be reached again once left), and every
   * target is one of the nine exported agents.
   */
  lemma WiringShape(agents: seq<AgentConfig>)
    requires |agents| == 9 && forall i :: 0 <= i < 9 ==> agents[i].name == ExportedNames[i]
    requires agents[0].downstreamAgents == [agents[1]]
    requires agents[1].downstreamAgents == agents[2..]
    requires var departments := agents[2..];
      forall k :: 0 <= k < 7 ==> departments[k].downstreamAgents == [agents[1]] + departments[..k] + departments[k + 1..]
    ensures forall k, x :: 0 <= k < 9 && x in agents[k].downstreamAgents ==> x in agents && x != agents[k] && x != agents[0]
  {
    var departments := agents[2..];
    ExportedNamesDistinct();
    forall k, x | 0 <= k < 9 && x in agents[k].downstreamAgents
      ensures x in agents && x != agents[k] && x != agents[0]
    {
      var ds := agents[k].downstreamAgents;
      var i :| 0 <= i < |ds| && ds[i] == x;
      if k == 0 {
        assert x == agents[1];
      } else if k == 1 {
        assert x == departments[i] == agents[i + 2];
      } else if i == 0 {
        assert x == agents[1];
      } else if i < k - 1 {
        assert x == departments[i - 1] == agents[i + 1];
      } else {
        assert x == departments[i] == agents[i + 2];
      }
      assert x.name != agents[k].name && x.name != agents[0].name;
    }
  }

  /** The set as the dispatcher sees it: the nine names, none with tools of its own. */
  function DispatchSet(): seq<Agent> {
    [Agent("director", map[]), Agent("switchboard", map[])] + seq(7, i requires 0 <= i < 7 => Agent(DepartmentNames[i], map[]))
  }

  /**
   * A `response.done` whose one call transfers the switchboard to a
   * department makes that department active, appends the hidden user "hi"
   * and ends with a request for a new response.
   */
  lemma SwitchboardTransfersToDepartment(st: State, k: nat, callId: Option<string>, text: string, parse: Parser, uuidFor: nat -> string, now: string)
    requires k < 7 && st.selectedAgentName == "switchboard" && text != ""
    requires parse(text) == Parsed(Obj(map["destination_agent" := Str(DepartmentNames[k]), "rationale_for_transfer" := Str("x"), "conversation_context" := Str("y")]))
    ensures var r := EventStep(st, Some(DispatchSet()), ResponseDone(Some([OutputItem("function_call", Some("transferAgents"), callId, Some(text))])), parse, uuidFor, now);
      && r.selectedAgentName == DepartmentNames[k] && r.justTransferred
      && |r.transcript| == |st.transcript| + 3
      && r.transcript[|st.transcript| + 1] == Message(GreetingId(uuidFor(0)), "user", "hi", true, InProgress)
      && r.outbox == st.outbox + [FunctionCallOutput(callId, TransferOutput(Str(DepartmentNames[k]), true)), UserText(GreetingId(uuidFor(0)), "hi"), ResponseCreate]
  {
    var item := OutputItem("function_call", Some("transferAgents"), callId, Some(text));
    assert CallOf(item) == Some(FunctionCall("transferAgents", callId, text));
    SingleItemResponse(st, Some(DispatchSet()), item, parse, uuidFor, now);
    SwitchboardCallTransfers(st, k, callId, text, parse, uuidFor(0));
  }

  /** The transfer call of `SwitchboardTransfersToDepartment` on its own. */
  lemma SwitchboardCallTransfers(st: State, k: nat, callId: Option<string>, text: string, parse: Parser, uuid: string)
    requires k < 7 && st.selectedAgentName == "switchboard"
    requires parse(text) == Parsed(Obj(map["destination_agent" := Str(DepartmentNames[k]), "rationale_for_transfer" := Str("x"), "conversation_context" := Str("y")]))
    ensures var r := CallStep(st, Some(DispatchSet()), Capture(st), FunctionCall("transferAgents", callId, text), parse, uuid);
      && r.selectedAgentName == DepartmentNames[k] && r.justTransferred
      && |r.transcript| == |st.transcript| + 3
      && r.transcript[|st.transcript| + 1] == Message(GreetingId(uuid), "user", "hi", true, InProgress)
      && r.outbox == st.outbox + [FunctionCallOutput(callId, TransferOutput(Str(DepartmentNames[k]), true)), UserText(GreetingId(uuid), "hi"), ResponseCreate]
  {
    var agents := Some(DispatchSet());
    assert DispatchSet()[1].name == "switchboard";
    assert FindAgent(agents, "switchboard").Some? && FindAgent(agents, "switchboard").value.toolLogic == map[];
    assert DispatchSet()[k + 2].name == DepartmentNames[k];
    TransferOutcome(st, agents, Capture(st), FunctionCall("transferAgents", callId, text), parse, uuid);
  }
}
