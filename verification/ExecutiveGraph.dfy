/** The nodes and edges of the executive graph (agent/graph.py), as a machine driven by arbitrary model, user and tool answers. */
module ExecutiveGraph {
  import opened Wrappers
  import opened KeyStrings
  import opened ToolPolicy
  import opened ParallelBatch
  import PyText

  // ----- state

  // Where an action id is formed: the number of tool results at that time and, in a batch, the position of the call.
  datatype Slot = Single(index: nat) | Batched(base: nat, position: nat) {
    function At(): nat { if Single? then index else base }
  }

  datatype Action = Action(slot: Slot, name: string, args: Arguments)

  /** The text that is hashed into the id of an action. */
  function ActionId(run: string, a: Action): string {
    match a.slot
    case Single(index) => SingleKey(run, index, a.name)
    case Batched(base, position) => BatchKey(run, base, position, a.name)
  }

  datatype Decision = Respond(content: string) | AskUser | CallTool(name: string, args: Arguments) | CallTools(calls: seq<ToolSpec>)

  datatype Limits = Limits(decisions: nat, inputTokens: nat, outputTokens: nat, toolActions: nat, externalActions: nat,
                           searches: nat, parallelMax: nat)

  datatype Graph = Graph(run: string, tools: Definitions, limits: Limits)

  datatype GraphState = GraphState(results: seq<ToolResult>, active: Option<ActiveThing>, decision: Option<Decision>,
                                   pending: Option<Action>, batch: seq<Action>, decisions: nat, toolCalls: nat, externals: nat,
                                   inputTokens: nat, outputTokens: nat, response: Option<string>)

  function ViewOf(s: GraphState): View { View(s.results, s.active) }

  datatype GraphError = DecisionBudget | TokenBudget | ToolBudget | ExternalBudget | BlankResponse | Misrouted

  datatype Node =
    | BuildInitialContext | Executive | RespondNode | AskUserNode | PolicyNode | ParallelPolicyNode
    | ConfirmationNode | ExecuteNode | ParallelExecuteNode | Finished | Failed(error: GraphError)

  /** What a node visit leaves behind: the next node and the state. A node that raises leaves the state as it was. */
  datatype Visited = Visited(node: Node, state: GraphState)

  function Fail(s: GraphState, e: GraphError): Visited { Visited(Failed(e), s) }

  function WithResult(s: GraphState, r: ToolResult): Visited { Visited(Executive, s.(results := s.results + [r])) }

  function Refused(name: string): ToolResult { ToolResult(Some(name), false, {}, []) }

  // ----- nodes

  datatype ModelAnswer = ModelAnswer(decision: Decision, inputTokens: nat, outputTokens: nat, active: Option<ActiveThing>)

  function RouteOf(d: Decision): Node {
    match d
    case Respond(_) => RespondNode
    case AskUser => AskUserNode
    case CallTool(_, _) => PolicyNode
    case CallTools(_) => ParallelPolicyNode
  }

  function ExecutiveVisit(g: Graph, s: GraphState, a: ModelAnswer): Visited {
    if s.decisions >= g.limits.decisions then Fail(s, DecisionBudget)
    else if s.inputTokens + a.inputTokens > g.limits.inputTokens || s.outputTokens + a.outputTokens > g.limits.outputTokens then
      Fail(s, TokenBudget)
    else
      Visited(RouteOf(a.decision),
              s.(active := a.active, decision := Some(a.decision), decisions := s.decisions + 1,
                 inputTokens := s.inputTokens + a.inputTokens, outputTokens := s.outputTokens + a.outputTokens))
  }

  function RespondVisit(s: GraphState): Visited {
    if s.decision.Some? && s.decision.value.Respond? then
      var text := PyText.Strip(s.decision.value.content);
      if text == "" then Fail(s, BlankResponse) else Visited(Finished, s.(response := Some(text)))
    else Fail(s, Misrouted)
  }

  function AskUserVisit(s: GraphState): Visited { Visited(Executive, s) }

  function PolicyVisit(g: Graph, s: GraphState): Visited {
    if s.decision.Some? && s.decision.value.CallTool? then
      var name, args := s.decision.value.name, s.decision.value.args;
      match Lookup(g.tools, name)
      case None => WithResult(s, Refused(name))
      case Some(d) =>
        var pending := s.(pending := Some(Action(Single(|s.results|), name, args)));
        match Evaluate(d, ViewOf(s), args, g.limits.searches)
        case Allow(_) => Visited(ExecuteNode, pending)
        case RequireConfirmation(_) => Visited(ConfirmationNode, pending)
        case _ => WithResult(s, Refused(name))
    else Fail(s, Misrouted)
  }

  function ConfirmationVisit(s: GraphState, confirmed: bool): Visited {
    if s.pending.None? then Fail(s, Misrouted)
    else if confirmed then Visited(ExecuteNode, s)
    else WithResult(s, Refused(s.pending.value.name))
  }

  // What a tool of a batch gives back: its result, or an exception that the batch catches.
  datatype ToolOutcome = Returned(result: ToolResult) | Raised

  function Named(o: ToolOutcome, name: string): ToolResult {
    if o.Returned? then o.result.(toolName := Some(name)) else Refused(name)
  }

  function IsExternal(tools: Definitions, name: string): nat {
    if Lookup(tools, name).Some? && Lookup(tools, name).value.replay == NonReplayable then 1 else 0
  }

  /** Executes the pending action, whose tool has returned this result. */
  function ExecuteVisit(g: Graph, s: GraphState, result: ToolResult): Visited {
    if s.toolCalls >= g.limits.toolActions then Fail(s, ToolBudget)
    else if s.pending.None? then Fail(s, Misrouted)
    else
      var action := s.pending.value;
      var external := IsExternal(g.tools, action.name);
      if external > 0 && s.externals >= g.limits.externalActions then Fail(s, ExternalBudget)
      else
        Visited(Executive, s.(results := s.results + [result.(toolName := Some(action.name))], toolCalls := s.toolCalls + 1,
                              externals := s.externals + external))
  }

  // ----- batches

  function NamedSpecs(calls: seq<ToolSpec>): seq<ToolSpec> {
    if calls == [] then []
    else
      var before, last := NamedSpecs(calls[..|calls| - 1]), calls[|calls| - 1];
      if last.name == "" then before else before + [last]
  }

  method ToolSpecsFromDecision(calls: seq<ToolSpec>) returns (specs: seq<ToolSpec>)
    ensures specs == NamedSpecs(calls)
  {
    specs := [];
    for i := 0 to |calls|
      invariant specs == NamedSpecs(calls[..i])
    {
      assert calls[..i + 1][..i] == calls[..i];
      if calls[i].name == "" {
        continue;
      }
      specs := specs + [calls[i]];
    }
    assert calls[..|calls|] == calls;
  }

  predicate PolicyAllows(g: Graph, view: View, name: string, args: Arguments) {
    Lookup(g.tools, name).Some? && Evaluate(Lookup(g.tools, name).value, view, args, g.limits.searches).Allow?
  }

  /** The first call of the batch that the policy does not allow. */
  function FirstBlocked(g: Graph, view: View, specs: seq<ToolSpec>): Option<string> {
    if specs == [] then None
    else if !PolicyAllows(g, view, specs[0].name, specs[0].args) then Some(specs[0].name)
    else FirstBlocked(g, view, specs[1..])
  }

  function BatchActions(base: nat, specs: seq<ToolSpec>): (batch: seq<Action>)
    ensures |batch| == |specs|
    ensures forall i | 0 <= i < |specs| :: batch[i] == Action(Batched(base, i), specs[i].name, specs[i].args)
  {
    seq(|specs|, i requires 0 <= i < |specs| => Action(Batched(base, i), specs[i].name, specs[i].args))
  }

  function QuotaOf(g: Graph, s: GraphState): Quota {
    Quota(s.toolCalls, g.limits.toolActions, g.limits.parallelMax, CountSearch(s.results), g.limits.searches)
  }

  function ParallelPolicyVisit(g: Graph, s: GraphState): Visited {
    if s.decision.Some? && s.decision.value.CallTools? then
      match BatchVerdict(g.tools, NamedSpecs(s.decision.value.calls), QuotaOf(g, s))
      case Err(_) => WithResult(s, ToolResult(None, false, {}, []))
      case Ok(specs) =>
        match FirstBlocked(g, ViewOf(s), specs)
        case Some(name) => WithResult(s, Refused(name))
        case None => Visited(ParallelExecuteNode, s.(batch := BatchActions(|s.results|, specs)))
    else Fail(s, Misrouted)
  }

  method ParallelPolicy(g: Graph, s: GraphState) returns (v: Visited)
    ensures v == ParallelPolicyVisit(g, s)
  {
    hide Evaluate, BatchVerdict, CountSearch, NamedSpecs, Lookup, ReadOnlyTool;
    if s.decision.None? || !s.decision.value.CallTools? {
      return Fail(s, Misrouted);
    }
    var specs := ToolSpecsFromDecision(s.decision.value.calls);
    var searches := CountSearchToolsInResults(s.results);
    var verdict := ValidateParallelBatch(g.tools, specs, Quota(s.toolCalls, g.limits.toolActions, g.limits.parallelMax, searches, g.limits.searches));
    match verdict
    case Err(_) => return WithResult(s, ToolResult(None, false, {}, []));
    case Ok(accepted) =>
      var batch: seq<Action> := [];
      var base := |s.results|;
      for i := 0 to |accepted|
        invariant FirstBlocked(g, ViewOf(s), accepted) == FirstBlocked(g, ViewOf(s), accepted[i..])
        invariant batch == BatchActions(base, accepted[..i])
      {
        var spec := accepted[i];
        assert accepted[i..][0] == spec && accepted[i..][1..] == accepted[i + 1..];
        if !PolicyAllows(g, ViewOf(s), spec.name, spec.args) {
          return WithResult(s, Refused(spec.name));
        }
        batch := batch + [Action(Batched(base, i), spec.name, spec.args)];
      }
      assert accepted[..|accepted|] == accepted && accepted[|accepted|..] == [];
      return Visited(ParallelExecuteNode, s.(batch := batch));
  }

  function CountExternal(tools: Definitions, batch: seq<Action>): nat {
    if batch == [] then 0
    else CountExternal(tools, batch[..|batch| - 1]) + IsExternal(tools, batch[|batch| - 1].name)
  }

  function OutcomeAt(outcomes: seq<ToolOutcome>, i: nat): ToolOutcome {
    if i < |outcomes| then outcomes[i] else Raised
  }

  function BatchResults(batch: seq<Action>, outcomes: seq<ToolOutcome>): (results: seq<ToolResult>)
    ensures |results| == |batch|
    ensures forall i | 0 <= i < |batch| :: results[i] == Named(OutcomeAt(outcomes, i), batch[i].name)
  {
    seq(|batch|, i requires 0 <= i < |batch| => Named(OutcomeAt(outcomes, i), batch[i].name))
  }

  function ActionNames(batch: seq<Action>): (names: seq<string>)
    ensures |names| == |batch|
    ensures forall i | 0 <= i < |batch| :: names[i] == batch[i].name
  {
    seq(|batch|, i requires 0 <= i < |batch| => batch[i].name)
  }

  function Combined(batch: seq<Action>): ToolResult { ToolResult(None, true, {}, ActionNames(batch)) }

  function ParallelExecuteVisit(g: Graph, s: GraphState, outcomes: seq<ToolOutcome>): Visited {
    if s.batch == [] then Fail(s, Misrouted)
    else if s.toolCalls + |s.batch| > g.limits.toolActions then Fail(s, ToolBudget)
    else if s.externals + CountExternal(g.tools, s.batch) > g.limits.externalActions then Fail(s, ExternalBudget)
    else
      Visited(Executive, s.(results := s.results + BatchResults(s.batch, outcomes) + [Combined(s.batch)],
                            toolCalls := s.toolCalls + |s.batch|, externals := s.externals + CountExternal(g.tools, s.batch)))
  }

  method ParallelExecute(g: Graph, s: GraphState, outcomes: seq<ToolOutcome>) returns (v: Visited)
    ensures v == ParallelExecuteVisit(g, s, outcomes)
  {
    hide Lookup;
    if s.batch == [] {
      return Fail(s, Misrouted);
    }
    if s.toolCalls + |s.batch| > g.limits.toolActions {
      return Fail(s, ToolBudget);
    }
    var external := 0;
    for i := 0 to |s.batch|
      invariant external == CountExternal(g.tools, s.batch[..i])
    {
      assert s.batch[..i + 1][..i] == s.batch[..i];
      external := external + IsExternal(g.tools, s.batch[i].name);
    }
    assert s.batch[..|s.batch|] == s.batch;
    if s.externals + external > g.limits.externalActions {
      return Fail(s, ExternalBudget);
    }
    var results: seq<ToolResult> := [];
    for i := 0 to |s.batch|
      invariant results == BatchResults(s.batch[..i], outcomes)
    {
      results := results + [Named(OutcomeAt(outcomes, i), s.batch[i].name)];
    }
    v := Visited(Executive, s.(results := s.results + results + [Combined(s.batch)], toolCalls := s.toolCalls + |s.batch|,
                               externals := s.externals + external));
  }

  // ----- the machine

  /** A dispatch that the graph has recorded, with what the policy could see at that time and what the tool gave back. */
  datatype Dispatch = Dispatch(action: Action, view: View, outcome: ToolOutcome)

  /** The graph between two visits, with its history: the model answers it went by, the recorded dispatches, every action that was
      ever started (also by a visit that crashed), the ids the user has confirmed, and the number of visits. */
  datatype Machine = Machine(node: Node, state: GraphState, answers: seq<ModelAnswer>, dispatched: seq<Dispatch>, attempted: set<Action>,
                             confirmed: set<string>, visits: nat)

  /** The answers that a visit may need. */
  datatype Input = Input(model: ModelAnswer, confirmed: bool, result: ToolResult, outcomes: seq<ToolOutcome>)

  function Initial(active: Option<ActiveThing>): Machine {
    Machine(BuildInitialContext, GraphState([], active, None, None, [], 0, 0, 0, 0, 0, None), [], [], {}, {}, 0)
  }

  function VisitNode(g: Graph, node: Node, s: GraphState, i: Input): Visited {
    match node
    case BuildInitialContext => Visited(Executive, s)
    case Executive => ExecutiveVisit(g, s, i.model)
    case RespondNode => RespondVisit(s)
    case AskUserNode => AskUserVisit(s)
    case PolicyNode => PolicyVisit(g, s)
    case ParallelPolicyNode => ParallelPolicyVisit(g, s)
    case ConfirmationNode => ConfirmationVisit(s, i.confirmed)
    case ExecuteNode => ExecuteVisit(g, s, i.result)
    case ParallelExecuteNode => ParallelExecuteVisit(g, s, i.outcomes)
    case Finished => Visited(Finished, s)
    case Failed(e) => Visited(Failed(e), s)
  }

  /** The actions that a visit to the node dispatches; none when a budget check raises first. */
  function Due(g: Graph, node: Node, s: GraphState): seq<Action> {
    if node == ExecuteNode && !ExecuteVisit(g, s, Refused("")).node.Failed? then [s.pending.value]
    else if node == ParallelExecuteNode && !ParallelExecuteVisit(g, s, []).node.Failed? then s.batch
    else []
  }

  /** What the tools of the actions gave back, in the order of the actions; a missing outcome counts as an exception. */
  function Dispatches(actions: seq<Action>, view: View, outcomes: seq<ToolOutcome>): (ds: seq<Dispatch>)
    ensures |ds| == |actions|
    ensures forall i | 0 <= i < |actions| :: ds[i] == Dispatch(actions[i], view, if i < |outcomes| then outcomes[i] else Raised)
  {
    seq(|actions|, i requires 0 <= i < |actions| => Dispatch(actions[i], view, if i < |outcomes| then outcomes[i] else Raised))
  }

  function OutcomesOf(node: Node, i: Input): seq<ToolOutcome> { if node == ExecuteNode then [Returned(i.result)] else i.outcomes }

  predicate Stopped(node: Node) { node.Finished? || node.Failed? }

  function Visit(g: Graph, m: Machine, i: Input): Machine {
    var v := VisitNode(g, m.node, m.state, i);
    var due := Due(g, m.node, m.state);
    Machine(v.node, v.state, if m.node == Executive && !v.node.Failed? then m.answers + [i.model] else m.answers,
            m.dispatched + Dispatches(due, ViewOf(m.state), OutcomesOf(m.node, i)), m.attempted + set a | a in due,
            if m.node == ConfirmationNode && i.confirmed && m.state.pending.Some? then m.confirmed + {ActionId(g.run, m.state.pending.value)}
            else m.confirmed,
            m.visits + 1)
  }

  /** A worker that dies in a visit may have started any of the due actions; the checkpoint stays, and the visit can be repeated. A single
      tool that raises does the same: its node leaves the state as it was. */
  ghost predicate Crashes(g: Graph, m: Machine, n: Machine) {
    exists started: set<Action> :: started <= (set a | a in Due(g, m.node, m.state)) && n == m.(attempted := m.attempted + started)
  }

  ghost predicate Steps(g: Graph, m: Machine, n: Machine) {
    !Stopped(m.node) && ((exists i :: n == Visit(g, m, i)) || Crashes(g, m, n))
  }

  /** A history of machines, each one visit or one crash after the previous. */
  ghost predicate IsRun(g: Graph, run: seq<Machine>) {
    && |run| > 0 && (exists active :: run[0] == Initial(active))
    && (forall i, j | 0 <= i && j == i + 1 < |run| :: Steps(g, run[i], run[j]))
  }

  ghost predicate Reachable(g: Graph, m: Machine) {
    exists run :: IsRun(g, run) && run[|run| - 1] == m
  }

  lemma InitialIsReachable(g: Graph, active: Option<ActiveThing>)
    ensures Reachable(g, Initial(active))
  {
    assert IsRun(g, [Initial(active)]);
  }

  lemma StepIsReachable(g: Graph, m: Machine, n: Machine)
    requires Reachable(g, m) && Steps(g, m, n)
    ensures Reachable(g, n)
  {
    hide Steps;
    var run :| IsRun(g, run) && run[|run| - 1] == m;
    var longer := run + [n];
    forall i, j | 0 <= i && j == i + 1 < |longer| ensures Steps(g, longer[i], longer[j]) {
      if j < |run| {
        assert Steps(g, run[i], run[j]);
      }
    }
    assert IsRun(g, longer);
  }

  lemma VisitIsReachable(g: Graph, m: Machine, i: Input)
    requires Reachable(g, m) && !Stopped(m.node)
    ensures Reachable(g, Visit(g, m, i))
  {
    assert Steps(g, m, Visit(g, m, i));
    StepIsReachable(g, m, Visit(g, m, i));
  }
}
