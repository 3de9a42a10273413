/** What holds in every reachable state of the executive graph, whatever the model, the tools and the user answer. */
module GraphSafety {
  import opened Wrappers
  import opened ToolPolicy
  import opened ParallelBatch
  import opened ExecutiveGraph
  import PyText

  // ----- routing and slots

  /** A node finds in the state what its edge promised. */
  ghost predicate Routed(m: Machine) {
    match m.node
    case RespondNode => m.state.decision.Some? && m.state.decision.value.Respond?
    case PolicyNode => m.state.decision.Some? && m.state.decision.value.CallTool?
    case ParallelPolicyNode => m.state.decision.Some? && m.state.decision.value.CallTools?
    case ConfirmationNode => PendingHere(m.state)
    case ExecuteNode => PendingHere(m.state)
    case ParallelExecuteNode => BatchHere(m.state)
    case Failed(e) => e != Misrouted
    case _ => true
  }

  ghost predicate PendingHere(s: GraphState) {
    s.pending.Some? && s.pending.value.slot == Single(|s.results|)
  }

  ghost predicate BatchHere(s: GraphState) {
    s.batch != [] && forall i | 0 <= i < |s.batch| :: s.batch[i].slot == Batched(|s.results|, i)
  }

  predicate Earlier(a: Slot, b: Slot) {
    a.At() < b.At() || (a.Batched? && b.Batched? && a.base == b.base && a.position < b.position)
  }

  /** Dispatches stand in the order of their slots, and all slots lie before the next index. */
  ghost predicate Ordered(m: Machine) {
    && (forall i, j | 0 <= i < j < |m.dispatched| :: Earlier(m.dispatched[i].action.slot, m.dispatched[j].action.slot))
    && (forall i | 0 <= i < |m.dispatched| :: m.dispatched[i].action.slot.At() < |m.state.results|)
  }

  lemma BatchFacts(g: Graph, s: GraphState)
    requires s.decision.Some? && s.decision.value.CallTools?
    requires ParallelPolicyVisit(g, s).node == ParallelExecuteNode
    ensures var n := ParallelPolicyVisit(g, s).state; n.results == s.results && BatchHere(n)
    ensures var n := ParallelPolicyVisit(g, s).state; forall i | 0 <= i < |n.batch| :: ReadOnlyTool(g.tools, n.batch[i].name)
    ensures var n := ParallelPolicyVisit(g, s).state;
            s.toolCalls + |n.batch| <= g.limits.toolActions && CountSearch(s.results) + CountNames(ActionNames(n.batch)) <= g.limits.searches
    ensures var n := ParallelPolicyVisit(g, s).state;
            forall i | 0 <= i < |n.batch| :: PolicyAllows(g, ViewOf(s), n.batch[i].name, n.batch[i].args)
  {
    hide Lookup, Evaluate, IsSearch, PolicyAllows, CountSearch, CountNames, BatchVerdict, FirstBlocked, NamedSpecs, ReadOnlyTool;
    var specs := NamedSpecs(s.decision.value.calls);
    AcceptedBatch(g.tools, specs, QuotaOf(g, s));
    var u := BatchVerdict(g.tools, specs, QuotaOf(g, s)).value;
    NoneBlocked(g, ViewOf(s), u);
    assert ActionNames(BatchActions(|s.results|, u)) == Names(u);
  }

  lemma {:induction false} NoneBlocked(g: Graph, view: View, specs: seq<ToolSpec>)
    requires FirstBlocked(g, view, specs) == None
    ensures forall i | 0 <= i < |specs| :: PolicyAllows(g, view, specs[i].name, specs[i].args)
  {
    hide PolicyAllows;
    if specs != [] {
      NoneBlocked(g, view, specs[1..]);
      assert forall i | 1 <= i < |specs| :: specs[i] == specs[1..][i - 1];
    }
  }

  lemma RoutedVisit(g: Graph, m: Machine, i: Input)
    requires Routed(m)
    ensures Routed(Visit(g, m, i))
  {
    hide Lookup, Evaluate, IsSearch, CountSearch, BatchVerdict, FirstBlocked, NamedSpecs, IsExternal;
    if m.node == ParallelPolicyNode && ParallelPolicyVisit(g, m.state).node == ParallelExecuteNode {
      BatchFacts(g, m.state);
    }
  }

  lemma OrderedVisit(g: Graph, m: Machine, i: Input)
    requires Routed(m) && Ordered(m)
    ensures Ordered(Visit(g, m, i))
  {
    hide VisitNode, Due, Routed;
    DueFollows(g, m);
    ResultsGrow(g, m, i);
  }

  lemma DueFollows(g: Graph, m: Machine)
    requires Routed(m)
    ensures var due := Due(g, m.node, m.state);
            && (forall k, l | 0 <= k < l < |due| :: Earlier(due[k].slot, due[l].slot))
            && (forall k | 0 <= k < |due| :: due[k].slot.At() == |m.state.results|)
  {
    hide IsExternal, CountExternal;
  }

  lemma ResultsGrow(g: Graph, m: Machine, i: Input)
    ensures |m.state.results| <= |Visit(g, m, i).state.results|
    ensures Due(g, m.node, m.state) != [] ==> |m.state.results| < |Visit(g, m, i).state.results|
  {
    hide Lookup, Evaluate, IsSearch, CountSearch, BatchVerdict, FirstBlocked, NamedSpecs, IsExternal, CountExternal;
  }

  // ----- budgets and termination

  /** How many visits a node still has before the next decision. */
  function NodeRank(node: Node): nat {
    match node
    case BuildInitialContext => 2
    case Executive => 1
    case ExecuteNode => 2
    case ParallelExecuteNode => 2
    case ConfirmationNode => 3
    case Finished => 0
    case Failed(_) => 0
    case _ => 4
  }

  function Actions(ds: seq<Dispatch>): (actions: seq<Action>)
    ensures |actions| == |ds|
    ensures forall i | 0 <= i < |ds| :: actions[i] == ds[i].action
  {
    seq(|ds|, i requires 0 <= i < |ds| => ds[i].action)
  }

  ghost predicate WithinBudgets(g: Graph, m: Machine) {
    var s := m.state;
    && s.decisions <= g.limits.decisions && s.inputTokens <= g.limits.inputTokens && s.outputTokens <= g.limits.outputTokens
    && s.toolCalls == |m.dispatched| <= g.limits.toolActions
    && s.externals == CountExternal(g.tools, Actions(m.dispatched)) <= g.limits.externalActions
    && m.visits + NodeRank(m.node) <= 4 * s.decisions + 2
  }

  lemma {:induction false} CountExternalConcat(tools: Definitions, a: seq<Action>, b: seq<Action>)
    ensures CountExternal(tools, a + b) == CountExternal(tools, a) + CountExternal(tools, b)
  {
    hide IsExternal;
    if b == [] {
      assert a + b == a;
    } else {
      assert (a + b)[..|a + b| - 1] == a + b[..|b| - 1];
      CountExternalConcat(tools, a, b[..|b| - 1]);
    }
  }

  lemma WithinBudgetsVisit(g: Graph, m: Machine, i: Input)
    requires Routed(m) && WithinBudgets(g, m) && !Stopped(m.node)
    ensures WithinBudgets(g, Visit(g, m, i))
  {
    hide Due, VisitNode, CountExternal, NodeRank, Routed;
    var n := Visit(g, m, i);
    var due := Due(g, m.node, m.state);
    CountExternalConcat(g.tools, Actions(m.dispatched), due);
    assert Actions(n.dispatched) == Actions(m.dispatched) + due;
    VisitSpends(g, m, i);
    VisitRanks(g, m, i);
  }

  /** A visit pays for exactly what it dispatches. */
  lemma VisitSpends(g: Graph, m: Machine, i: Input)
    requires Routed(m) && WithinBudgets(g, m)
    ensures var s := Visit(g, m, i).state;
            var due := Due(g, m.node, m.state);
            && s.toolCalls == m.state.toolCalls + |due| <= g.limits.toolActions
            && s.externals == m.state.externals + CountExternal(g.tools, due) <= g.limits.externalActions
  {
    hide Lookup, Evaluate, IsSearch, CountSearch, BatchVerdict, FirstBlocked, NamedSpecs, Actions;
    if m.node == ExecuteNode {
      OneExternal(g.tools, m.state.pending.value);
    }
  }

  lemma VisitRanks(g: Graph, m: Machine, i: Input)
    requires WithinBudgets(g, m) && !Stopped(m.node)
    ensures var n := Visit(g, m, i);
            && n.state.decisions <= g.limits.decisions && n.state.inputTokens <= g.limits.inputTokens
            && n.state.outputTokens <= g.limits.outputTokens && n.visits + NodeRank(n.node) <= 4 * n.state.decisions + 2
  {
    hide Lookup, Evaluate, IsSearch, CountSearch, BatchVerdict, FirstBlocked, NamedSpecs, IsExternal, CountExternal, Actions;
  }

  lemma OneExternal(tools: Definitions, a: Action)
    ensures CountExternal(tools, [a]) == IsExternal(tools, a.name)
  {
    assert [a][..0] == [];
  }

  /** A batch of read tools of a coherent registry holds no external action. */
  lemma {:induction false} ReadBatchIsInternal(tools: Definitions, batch: seq<Action>)
    requires ValidDefinitions(tools) && forall i | 0 <= i < |batch| :: ReadOnlyTool(tools, batch[i].name)
    ensures CountExternal(tools, batch) == 0
  {
    if batch != [] {
      assert ReadOnlyTool(tools, batch[|batch| - 1].name);
      ReadBatchIsInternal(tools, batch[..|batch| - 1]);
    }
  }

  // ----- permission

  /** A single action was allowed by the policy or its id was confirmed; a batched one was allowed and is a read. */
  ghost predicate Permitted(g: Graph, confirmed: set<string>, a: Action, view: View) {
    && Lookup(g.tools, a.name).Some?
    && (PolicyAllows(g, view, a.name, a.args) || (a.slot.Single? && ActionId(g.run, a) in confirmed))
    && (a.slot.Batched? ==> ReadOnlyTool(g.tools, a.name))
  }

  ghost predicate AllPermitted(g: Graph, m: Machine) {
    && (forall i | 0 <= i < |m.dispatched| :: Permitted(g, m.confirmed, m.dispatched[i].action, m.dispatched[i].view))
    && (m.node == ConfirmationNode ==> m.state.pending.Some? && Lookup(g.tools, m.state.pending.value.name).Some?)
    && (m.node == ExecuteNode ==> m.state.pending.Some? && Permitted(g, m.confirmed, m.state.pending.value, ViewOf(m.state)))
    && (m.node == ParallelExecuteNode ==>
          forall i | 0 <= i < |m.state.batch| :: Permitted(g, m.confirmed, m.state.batch[i], ViewOf(m.state)))
  }

  lemma AllPermittedVisit(g: Graph, m: Machine, i: Input)
    requires Routed(m) && AllPermitted(g, m)
    ensures AllPermitted(g, Visit(g, m, i))
  {
    hide VisitNode, Due, Permitted, Routed;
    var n := Visit(g, m, i);
    var due := Due(g, m.node, m.state);
    NextPermitted(g, m, i);
    forall k | 0 <= k < |n.dispatched| ensures Permitted(g, n.confirmed, n.dispatched[k].action, n.dispatched[k].view) {
      if k < |m.dispatched| {
        PermittedGrows(g, m.confirmed, n.confirmed, m.dispatched[k].action, m.dispatched[k].view);
      } else {
        DuePermitted(g, m, k - |m.dispatched|);
        PermittedGrows(g, m.confirmed, n.confirmed, due[k - |m.dispatched|], ViewOf(m.state));
      }
    }
  }

  lemma PermittedGrows(g: Graph, confirmed: set<string>, more: set<string>, a: Action, view: View)
    requires Permitted(g, confirmed, a, view) && confirmed <= more
    ensures Permitted(g, more, a, view)
  {
  }

  lemma DuePermitted(g: Graph, m: Machine, k: nat)
    requires AllPermitted(g, m) && k < |Due(g, m.node, m.state)|
    ensures Permitted(g, m.confirmed, Due(g, m.node, m.state)[k], ViewOf(m.state))
  {
    hide Permitted, IsExternal, CountExternal;
  }

  /** What the policy or the user has just let through is permitted at the node that dispatches it. */
  lemma NextPermitted(g: Graph, m: Machine, i: Input)
    requires Routed(m) && AllPermitted(g, m)
    ensures var n := Visit(g, m, i);
            && (n.node == ConfirmationNode ==> n.state.pending.Some? && Lookup(g.tools, n.state.pending.value.name).Some?)
            && (n.node == ExecuteNode ==> n.state.pending.Some? && Permitted(g, n.confirmed, n.state.pending.value, ViewOf(n.state)))
            && (n.node == ParallelExecuteNode ==>
                  forall k | 0 <= k < |n.state.batch| :: Permitted(g, n.confirmed, n.state.batch[k], ViewOf(n.state)))
  {
    hide Lookup, Evaluate, IsSearch, CountSearch, BatchVerdict, FirstBlocked, NamedSpecs, IsExternal, CountExternal, ActionId, Due;
    if m.node == ParallelPolicyNode && Visit(g, m, i).node == ParallelExecuteNode {
      BatchFacts(g, m.state);
    }
  }

  // ----- search quota

  /** Every enabled tool that counts as a search is one that the policy gates by the quota. */
  ghost predicate GatedSearches(tools: Definitions) {
    forall name | name in tools && tools[name].enabled && IsSearch(name) :: IsGatedSearch(name)
  }

  function SearchesOf(ds: seq<Dispatch>): nat { CountNames(ActionNames(Actions(ds))) }

  /** Dispatched searches never outnumber the counted ones, and with gated searches each one due still fits the quota. */
  ghost predicate Metered(g: Graph, m: Machine) {
    && SearchesOf(m.dispatched) <= CountSearch(m.state.results)
    && (m.node == ParallelExecuteNode ==> CountSearch(m.state.results) + CountNames(ActionNames(m.state.batch)) <= g.limits.searches)
    && (GatedSearches(g.tools) ==>
          && SearchesOf(m.dispatched) <= g.limits.searches
          && (m.node == ConfirmationNode && m.state.pending.Some? ==> !IsSearch(m.state.pending.value.name))
          && (m.node == ExecuteNode && m.state.pending.Some? && IsSearch(m.state.pending.value.name) ==> CountSearch(m.state.results) < g.limits.searches))
  }

  lemma {:induction false} CountNamesConcat(a: seq<string>, b: seq<string>)
    ensures CountNames(a + b) == CountNames(a) + CountNames(b)
  {
    hide IsSearch;
    if b == [] {
      assert a + b == a;
    } else {
      assert (a + b)[..|a + b| - 1] == a + b[..|b| - 1];
      CountNamesConcat(a, b[..|b| - 1]);
    }
  }

  lemma {:induction false} CountSearchGrows(a: seq<ToolResult>, b: seq<ToolResult>)
    ensures CountSearch(a + b) >= CountSearch(a)
  {
    hide SearchesIn;
    if b == [] {
      assert a + b == a;
    } else {
      assert (a + b)[..|a + b| - 1] == a + b[..|b| - 1];
      CountSearchGrows(a, b[..|b| - 1]);
    }
  }

  /** A search that the gates let through has not used up the quota, and needs no confirmation. */
  lemma GatedSearchVerdict(g: Graph, d: ToolDefinition, view: View, args: Arguments)
    requires d.enabled && IsGatedSearch(d.name)
    ensures var v := Evaluate(d, view, args, g.limits.searches);
            !v.RequireConfirmation? && (v.Allow? ==> CountSearch(view.results) < g.limits.searches)
  {
  }

  lemma MeteredPolicy(g: Graph, m: Machine, i: Input)
    requires ValidDefinitions(g.tools) && m.node == PolicyNode && Routed(m) && Metered(g, m)
    ensures Metered(g, Visit(g, m, i))
  {
    hide IsSearch, IsGatedSearch, SearchesOf, SearchesIn, CountSearch, IsDateTool, ParallelPolicyVisit, ExecuteVisit, ExecutiveVisit;
    var n := Visit(g, m, i);
    var name, args := m.state.decision.value.name, m.state.decision.value.args;
    assert n.dispatched == m.dispatched;
    match Lookup(g.tools, name)
    case None =>
      CountSearchSnoc(m.state.results, Refused(name));
    case Some(d) =>
      CountSearchSnoc(m.state.results, Refused(name));
      if GatedSearches(g.tools) && IsSearch(name) {
        GatedSearchVerdict(g, d, ViewOf(m.state), args);
      }
  }

  lemma MeteredExecute(g: Graph, m: Machine, i: Input)
    requires m.node == ExecuteNode && Routed(m) && Metered(g, m)
    ensures Metered(g, Visit(g, m, i))
  {
    hide IsSearch, GatedSearches, Lookup, IsExternal, SearchesOf, CountSearch, CountNames;
    var n := Visit(g, m, i);
    var due := Due(g, m.node, m.state);
    DueSearches(m.dispatched, due, ViewOf(m.state), OutcomesOf(m.node, i));
    var a := m.state.pending.value;
    OneName(a, Returned(i.result));
    CountSearchSnoc(m.state.results, Named(Returned(i.result), a.name));
    NoNames();
  }

  lemma OneName(a: Action, o: ToolOutcome)
    ensures CountNames(ActionNames([a])) == if IsSearch(a.name) then 1 else 0
    ensures IsSearch(a.name) ==> SearchesIn(Named(o, a.name)) == 1
  {
    hide IsSearch;
    assert ActionNames([a]) == [a.name] && [a.name][..0] == [];
  }

  lemma DueSearches(ds: seq<Dispatch>, due: seq<Action>, view: View, outcomes: seq<ToolOutcome>)
    ensures SearchesOf(ds + Dispatches(due, view, outcomes)) == SearchesOf(ds) + CountNames(ActionNames(due))
  {
    hide IsSearch;
    CountNamesConcat(ActionNames(Actions(ds)), ActionNames(due));
    assert ActionNames(Actions(ds + Dispatches(due, view, outcomes))) == ActionNames(Actions(ds)) + ActionNames(due);
  }

  lemma MeteredParallelExecute(g: Graph, m: Machine, i: Input)
    requires m.node == ParallelExecuteNode && Metered(g, m)
    ensures Metered(g, Visit(g, m, i))
  {
    hide IsSearch, GatedSearches, CountExternal, CountSearch, CountNames, SearchesOf;
    var n := Visit(g, m, i);
    var due := Due(g, m.node, m.state);
    DueSearches(m.dispatched, due, ViewOf(m.state), OutcomesOf(m.node, i));
    if due != [] {
      BatchIsCounted(m.state.results, m.state.batch, i.outcomes);
    } else {
      NoNames();
    }
  }

  lemma NoNames()
    ensures CountNames(ActionNames([])) == 0
  {
    assert ActionNames([]) == [];
  }

  lemma BatchIsCounted(results: seq<ToolResult>, batch: seq<Action>, outcomes: seq<ToolOutcome>)
    ensures CountSearch(results + BatchResults(batch, outcomes) + [Combined(batch)]) >= CountSearch(results) + CountNames(ActionNames(batch))
  {
    hide IsSearch, CountSearch, CountNames;
    var rs := BatchResults(batch, outcomes);
    CountSearchGrows(results, rs);
    CountSearchSnoc(results + rs, Combined(batch));
  }

  lemma MeteredVisit(g: Graph, m: Machine, i: Input)
    requires ValidDefinitions(g.tools) && Routed(m) && Metered(g, m)
    ensures Metered(g, Visit(g, m, i))
  {
    match m.node
    case PolicyNode => MeteredPolicy(g, m, i);
    case ExecuteNode => MeteredExecute(g, m, i);
    case ParallelExecuteNode => MeteredParallelExecute(g, m, i);
    case ParallelPolicyNode => MeteredParallelPolicy(g, m, i);
    case _ => MeteredOther(g, m, i);
  }

  lemma MeteredParallelPolicy(g: Graph, m: Machine, i: Input)
    requires m.node == ParallelPolicyNode && Routed(m) && Metered(g, m)
    ensures Metered(g, Visit(g, m, i))
  {
    hide IsSearch, GatedSearches, SearchesOf, Lookup, BatchVerdict, NamedSpecs, FirstBlocked, SearchesIn, Evaluate,
         CountSearch, PolicyVisit, ExecuteVisit, ExecutiveVisit, ParallelExecuteVisit, RespondVisit, ConfirmationVisit;
    var n := Visit(g, m, i);
    assert n.dispatched == m.dispatched;
    if n.node == ParallelExecuteNode {
      BatchFacts(g, m.state);
    } else {
      var r := n.state.results[|n.state.results| - 1];
      CountSearchSnoc(m.state.results, r);
    }
  }

  lemma MeteredOther(g: Graph, m: Machine, i: Input)
    requires m.node != PolicyNode && m.node != ParallelPolicyNode && m.node != ExecuteNode && m.node != ParallelExecuteNode
    requires Routed(m) && Metered(g, m)
    ensures Metered(g, Visit(g, m, i))
  {
    hide IsSearch, GatedSearches, SearchesOf, SearchesIn;
    var n := Visit(g, m, i);
    assert n.dispatched == m.dispatched;
    if m.node == ConfirmationNode {
      CountSearchSnoc(m.state.results, Refused(m.state.pending.value.name));
    }
  }

  // ----- attempts

  /** Every action ever started is recorded, or is due at this very node. */
  ghost predicate AttemptsKnown(g: Graph, m: Machine) {
    forall a | a in m.attempted :: a in Actions(m.dispatched) || a in Due(g, m.node, m.state)
  }

  lemma AttemptsKnownVisit(g: Graph, m: Machine, i: Input)
    requires Routed(m) && AttemptsKnown(g, m)
    ensures AttemptsKnown(g, Visit(g, m, i))
  {
    hide Lookup, Evaluate, IsSearch, CountSearch, BatchVerdict, FirstBlocked, NamedSpecs, IsExternal, CountExternal;
    var n := Visit(g, m, i);
    var due := Due(g, m.node, m.state);
    assert Actions(n.dispatched) == Actions(m.dispatched) + due;
  }

  // ----- the record of a run

  function InputTokens(answers: seq<ModelAnswer>): nat {
    if answers == [] then 0 else InputTokens(answers[..|answers| - 1]) + answers[|answers| - 1].inputTokens
  }

  function OutputTokens(answers: seq<ModelAnswer>): nat {
    if answers == [] then 0 else OutputTokens(answers[..|answers| - 1]) + answers[|answers| - 1].outputTokens
  }

  /** The counters add up the model answers, the decision is the last one's, and a response is its stripped content. */
  ghost predicate AnswersCounted(m: Machine) {
    && m.state.decisions == |m.answers|
    && m.state.inputTokens == InputTokens(m.answers) && m.state.outputTokens == OutputTokens(m.answers)
    && m.state.decision == (if m.answers == [] then None else Some(m.answers[|m.answers| - 1].decision))
    && (m.node != Finished ==> m.state.response == None)
    && (m.node == Finished ==> m.answers != [] && AnsweredBy(m.state.response, m.answers[|m.answers| - 1].decision))
  }

  ghost predicate AnsweredBy(response: Option<string>, d: Decision) {
    d.Respond? && PyText.Strip(d.content) != "" && response == Some(PyText.Strip(d.content))
  }

  lemma AnswersCountedVisit(g: Graph, m: Machine, i: Input)
    requires Routed(m) && AnswersCounted(m) && !Stopped(m.node)
    ensures AnswersCounted(Visit(g, m, i))
  {
    hide VisitNode, Due, Routed, AnsweredBy;
    if m.node == Executive {
      ExecutiveCounts(g, m.state, i);
      assert (m.answers + [i.model])[..|m.answers|] == m.answers;
    } else {
      OthersKeepCounts(g, m, i);
    }
  }

  /** The executive node counts the answer it goes by, or raises and changes nothing. */
  lemma ExecutiveCounts(g: Graph, s: GraphState, i: Input)
    ensures var v, a := VisitNode(g, Executive, s, i), i.model;
            && v.node != Finished && v.state.response == s.response
            && (v.node.Failed? ==> v.state == s)
            && (!v.node.Failed? ==>
                  && v.state.decisions == s.decisions + 1 && v.state.decision == Some(a.decision)
                  && v.state.inputTokens == s.inputTokens + a.inputTokens && v.state.outputTokens == s.outputTokens + a.outputTokens)
  {
  }

  /** No other node touches the counts of the answers, and only the respond node finishes. */
  lemma OthersKeepCounts(g: Graph, m: Machine, i: Input)
    requires Routed(m) && m.node != Executive && !Stopped(m.node)
    ensures var v := VisitNode(g, m.node, m.state, i);
            && v.state.decisions == m.state.decisions && v.state.decision == m.state.decision
            && v.state.inputTokens == m.state.inputTokens && v.state.outputTokens == m.state.outputTokens
            && (v.node != Finished ==> v.state.response == m.state.response)
            && (v.node == Finished ==> m.state.decision.Some? && AnsweredBy(v.state.response, m.state.decision.value))
  {
    hide Lookup, Evaluate, IsSearch, CountSearch, BatchVerdict, FirstBlocked, NamedSpecs, IsExternal, CountExternal, PyText.Strip;
  }

  /** Where the result of an action stands among the tool results. */
  function Place(slot: Slot): nat { if slot.Single? then slot.index else slot.base + slot.position }

  /** The entry keeps what the tool gave back; an exception is a failure. */
  ghost predicate Shows(entry: ToolResult, o: ToolOutcome) {
    match o
    case Returned(r) => entry.success == r.success && entry.urls == r.urls && entry.batchNames == r.batchNames
    case Raised => !entry.success && entry.urls == {} && entry.batchNames == []
  }

  ghost predicate Placed(results: seq<ToolResult>, d: Dispatch) {
    && Place(d.action.slot) < |results| && results[Place(d.action.slot)].toolName == Some(d.action.name)
    && Shows(results[Place(d.action.slot)], d.outcome)
  }

  /** The index in an action id is the position of the result of that action. */
  ghost predicate ResultsPlaced(m: Machine) {
    forall i | 0 <= i < |m.dispatched| :: Placed(m.state.results, m.dispatched[i])
  }

  lemma ResultsPlacedVisit(g: Graph, m: Machine, i: Input)
    requires Routed(m) && ResultsPlaced(m)
    ensures ResultsPlaced(Visit(g, m, i))
  {
    hide VisitNode, Due, Routed, Placed;
    var n := Visit(g, m, i);
    forall k | 0 <= k < |n.dispatched| ensures Placed(n.state.results, n.dispatched[k]) {
      if k < |m.dispatched| {
        StaysPlaced(g, m, i, m.dispatched[k]);
      } else {
        DueIsPlaced(g, m, i, k - |m.dispatched|);
      }
    }
  }

  lemma StaysPlaced(g: Graph, m: Machine, i: Input, d: Dispatch)
    requires Placed(m.state.results, d)
    ensures Placed(Visit(g, m, i).state.results, d)
  {
    hide VisitNode, Due, Shows;
    ResultsOnlyGrow(g, m.node, m.state, i);
  }

  lemma ResultsOnlyGrow(g: Graph, node: Node, s: GraphState, i: Input)
    ensures s.results <= VisitNode(g, node, s, i).state.results
  {
    hide Lookup, Evaluate, IsSearch, CountSearch, BatchVerdict, FirstBlocked, NamedSpecs, IsExternal, CountExternal, PyText.Strip;
  }

  lemma DueIsPlaced(g: Graph, m: Machine, i: Input, k: nat)
    requires Routed(m) && k < |Due(g, m.node, m.state)|
    ensures Placed(Visit(g, m, i).state.results, Visit(g, m, i).dispatched[|m.dispatched| + k])
  {
    hide Due, Visit, Placed, Routed;
    DueSomewhere(g, m);
    if m.node == ExecuteNode {
      SingleIsPlaced(g, m, i, k);
    } else {
      BatchIsPlaced(g, m, i, k);
    }
  }

  lemma DueSomewhere(g: Graph, m: Machine)
    requires Routed(m) && Due(g, m.node, m.state) != []
    ensures (m.node == ExecuteNode && PendingHere(m.state)) || (m.node == ParallelExecuteNode && BatchHere(m.state))
  {
    hide PendingHere, BatchHere, ExecuteVisit, ParallelExecuteVisit;
  }

  lemma SingleIsPlaced(g: Graph, m: Machine, i: Input, k: nat)
    requires m.node == ExecuteNode && PendingHere(m.state) && k < |Due(g, m.node, m.state)|
    ensures |Visit(g, m, i).dispatched| > |m.dispatched| + k
    ensures Placed(Visit(g, m, i).state.results, Visit(g, m, i).dispatched[|m.dispatched| + k])
  {
    hide IsExternal, ActionId;
    SinglePairsResult(g, m.state, i.result);
    assert Due(g, m.node, m.state) == [m.state.pending.value];
  }

  lemma BatchIsPlaced(g: Graph, m: Machine, i: Input, k: nat)
    requires m.node == ParallelExecuteNode && BatchHere(m.state) && k < |Due(g, m.node, m.state)|
    ensures |Visit(g, m, i).dispatched| > |m.dispatched| + k
    ensures Placed(Visit(g, m, i).state.results, Visit(g, m, i).dispatched[|m.dispatched| + k])
  {
    hide Visit, ParallelExecuteVisit, Due;
    DueOfBatch(g, m, i);
    BatchVisitIs(g, m, i);
    BatchPairsOutcomes(g, m.state, i.outcomes);
    assert Visit(g, m, i).dispatched[|m.dispatched| + k] == Dispatches(m.state.batch, ViewOf(m.state), i.outcomes)[k];
  }

  lemma DueOfBatch(g: Graph, m: Machine, i: Input)
    requires m.node == ParallelExecuteNode && Due(g, m.node, m.state) != []
    ensures Due(g, m.node, m.state) == m.state.batch && !ParallelExecuteVisit(g, m.state, i.outcomes).node.Failed?
  {
    hide CountExternal;
  }

  /** The visit that executes a batch: unless it fails, it dispatches the whole batch with its outcomes. */
  lemma BatchVisitIs(g: Graph, m: Machine, i: Input)
    requires m.node == ParallelExecuteNode
    ensures var v := ParallelExecuteVisit(g, m.state, i.outcomes);
            && Visit(g, m, i).state == v.state && (v.node.Failed? ==> v.state == m.state)
            && (!v.node.Failed? ==> Visit(g, m, i).dispatched == m.dispatched + Dispatches(m.state.batch, ViewOf(m.state), i.outcomes))
  {
    hide CountExternal;
  }

  /** A single action: the one new entry has its name and what its tool returned. */
  lemma SinglePairsResult(g: Graph, s: GraphState, result: ToolResult)
    requires s.pending.Some? && !ExecuteVisit(g, s, result).node.Failed?
    ensures var now := ExecuteVisit(g, s, result).state.results;
            && |now| == |s.results| + 1 && now[..|s.results|] == s.results
            && var entry := now[|s.results|];
               entry.toolName == Some(s.pending.value.name) && entry.success == result.success && entry.urls == result.urls
               && entry.batchNames == result.batchNames
  {
  }

  /** A batch: entry i has the name of call i and what its own tool gave back, and one more entry names the calls in their order. */
  lemma BatchPairsOutcomes(g: Graph, s: GraphState, outcomes: seq<ToolOutcome>)
    requires !ParallelExecuteVisit(g, s, outcomes).node.Failed?
    ensures var now := ParallelExecuteVisit(g, s, outcomes).state.results;
            && |now| == |s.results| + |s.batch| + 1 && now[..|s.results|] == s.results
            && (forall i | 0 <= i < |s.batch| ::
                  var entry := now[|s.results| + i];
                  && entry.toolName == Some(s.batch[i].name)
                  && (if i < |outcomes| && outcomes[i].Returned?
                      then entry.success == outcomes[i].result.success && entry.urls == outcomes[i].result.urls
                           && entry.batchNames == outcomes[i].result.batchNames
                      else !entry.success && entry.urls == {} && entry.batchNames == []))
            && var record := now[|s.results| + |s.batch|];
               record.toolName == None && record.success && record.urls == {} && |record.batchNames| == |s.batch|
               && forall i | 0 <= i < |s.batch| :: record.batchNames[i] == s.batch[i].name
  {
    hide CountExternal, IsExternal;
  }

  // ----- all of it

  ghost predicate Invariant(g: Graph, m: Machine) {
    && Routed(m) && Ordered(m) && WithinBudgets(g, m) && AllPermitted(g, m) && Metered(g, m) && AttemptsKnown(g, m)
    && AnswersCounted(m) && ResultsPlaced(m)
  }

  lemma InvariantInitially(g: Graph, active: Option<ActiveThing>)
    ensures Invariant(g, Initial(active))
  {
    assert Actions([]) == [] && ActionNames([]) == [];
  }

  lemma InvariantStep(g: Graph, m: Machine, n: Machine)
    requires ValidDefinitions(g.tools) && Invariant(g, m) && Steps(g, m, n)
    ensures Invariant(g, n)
  {
    hide Routed, Ordered, WithinBudgets, AllPermitted, Metered, AttemptsKnown, AnswersCounted, ResultsPlaced, Visit, Crashes;
    if i :| n == Visit(g, m, i) {
      RoutedVisit(g, m, i);
      OrderedVisit(g, m, i);
      WithinBudgetsVisit(g, m, i);
      AllPermittedVisit(g, m, i);
      MeteredVisit(g, m, i);
      AttemptsKnownVisit(g, m, i);
      AnswersCountedVisit(g, m, i);
      ResultsPlacedVisit(g, m, i);
    } else {
      InvariantCrash(g, m, n);
    }
  }

  lemma InvariantCrash(g: Graph, m: Machine, n: Machine)
    requires Invariant(g, m) && Crashes(g, m, n)
    ensures Invariant(g, n)
  {
    hide Due, Permitted, GatedSearches, SearchesOf, IsSearch, CountExternal;
  }

  lemma {:induction false} InvariantAlways(g: Graph, m: Machine)
    requires ValidDefinitions(g.tools) && Reachable(g, m)
    ensures Invariant(g, m)
  {
    hide Invariant;
    var run :| IsRun(g, run) && run[|run| - 1] == m;
    InvariantAlong(g, run, |run| - 1);
  }

  lemma {:induction false} InvariantAlong(g: Graph, run: seq<Machine>, k: nat)
    requires ValidDefinitions(g.tools) && IsRun(g, run) && k < |run|
    ensures Invariant(g, run[k])
  {
    hide Invariant, Steps;
    if k == 0 {
      var active :| run[0] == Initial(active);
      InvariantInitially(g, active);
    } else {
      InvariantAlong(g, run, k - 1);
      var j := k - 1;
      assert Steps(g, run[j], run[k]);
      InvariantStep(g, run[j], run[k]);
    }
  }
}
