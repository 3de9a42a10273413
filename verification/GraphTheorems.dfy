/** The guarantees of the executive graph over all runs: unique actions, bounded work, search quota and confirmation. */
module GraphTheorems {
  import opened Wrappers
  import opened KeyStrings
  import opened ToolPolicy
  import opened ParallelBatch
  import opened ExecutiveGraph
  import opened GraphSafety

  // ----- unique action ids

  /** Equal ids come from the same index, and from the same action unless one is single and the other batched. */
  lemma SameIdSameSlot(run: string, a: Action, b: Action)
    requires NoColon(run) && ActionId(run, a) == ActionId(run, b)
    ensures a.slot.At() == b.slot.At()
    ensures (a.slot.Single? <==> b.slot.Single?) ==> a.slot == b.slot
  {
    hide SingleKey, BatchKey;
    match (a.slot, b.slot)
    case (Single(i), Single(j)) => SingleKeyInjective(run, i, a.name, run, j, b.name);
    case (Batched(i, p), Batched(j, q)) => BatchKeyInjective(run, i, p, a.name, run, j, q, b.name);
    case (Single(i), Batched(j, q)) => SingleMeetsBatch(run, i, a.name, run, j, q, b.name);
    case (Batched(i, p), Single(j)) => SingleMeetsBatch(run, j, b.name, run, i, p, a.name);
  }

  /** Pairwise different ids for all recorded dispatches of a run. No assumption on tool names is needed, because the index
      of a single action and the base of a batch are never equal. */
  lemma ActionIdsAreUnique(g: Graph, m: Machine, i: nat, j: nat)
    requires ValidDefinitions(g.tools) && NoColon(g.run) && Reachable(g, m) && i < j < |m.dispatched|
    ensures ActionId(g.run, m.dispatched[i].action) != ActionId(g.run, m.dispatched[j].action)
  {
    hide Reachable, ActionId, Routed, WithinBudgets, AllPermitted, Metered, AttemptsKnown, AnswersCounted, ResultsPlaced;
    InvariantAlways(g, m);
    var a, b := m.dispatched[i].action, m.dispatched[j].action;
    assert Earlier(a.slot, b.slot);
    if ActionId(g.run, a) == ActionId(g.run, b) {
      SameIdSameSlot(g.run, a, b);
    }
  }

  /** An id stands for one action for the whole life of a run: a visit repeated after a crash starts the same actions
      under the same ids, and nothing else ever uses them. */
  lemma RetriesReuseTheirIds(g: Graph, m: Machine, a: Action, b: Action)
    requires ValidDefinitions(g.tools) && NoColon(g.run) && Reachable(g, m)
    requires a in m.attempted && b in m.attempted && ActionId(g.run, a) == ActionId(g.run, b)
    ensures a == b
    ensures a in Actions(m.dispatched) || a in Due(g, m.node, m.state)
  {
    hide Reachable, ActionId, WithinBudgets, AllPermitted, Metered, AnswersCounted, ResultsPlaced;
    InvariantAlways(g, m);
    SameIdSameSlot(g.run, a, b);
    var known, due := Actions(m.dispatched), Due(g, m.node, m.state);
    DueIsHere(g, m);
    if a in known && b in known {
      var i :| 0 <= i < |known| && known[i] == a;
      var j :| 0 <= j < |known| && known[j] == b;
      KnownSlotsDiffer(m);
    } else {
      assert a in due && b in due;
      var i :| 0 <= i < |due| && due[i] == a;
      var j :| 0 <= j < |due| && due[j] == b;
      assert i == j;
    }
  }

  lemma KnownSlotsDiffer(m: Machine)
    requires Ordered(m)
    ensures var known := Actions(m.dispatched);
            forall k, l | 0 <= k < l < |known| && known[k].slot.At() == known[l].slot.At() ::
              known[k].slot.Batched? && known[l].slot.Batched? && known[k].slot != known[l].slot
  {
    var known := Actions(m.dispatched);
    forall k, l | 0 <= k < l < |known| && known[k].slot.At() == known[l].slot.At()
      ensures known[k].slot.Batched? && known[l].slot.Batched? && known[k].slot != known[l].slot
    {
      assert Earlier(m.dispatched[k].action.slot, m.dispatched[l].action.slot);
    }
  }

  lemma DueIsHere(g: Graph, m: Machine)
    requires Routed(m)
    ensures var due := Due(g, m.node, m.state);
            && (forall i | 0 <= i < |due| :: due[i].slot.At() == |m.state.results|)
            && (forall i, j | 0 <= i < |due| && 0 <= j < |due| && due[i].slot == due[j].slot :: i == j)
            && (forall i, j | 0 <= i < |due| && 0 <= j < |due| :: due[i].slot.Single? == due[j].slot.Single?)
  {
    hide CountExternal, IsExternal;
  }

  // ----- bounded work

  /** Every counter stays within its budget; the tool counter is the number of dispatches and the external one counts
      the dispatched non-replayable actions. */
  lemma BudgetsAreKept(g: Graph, m: Machine)
    requires ValidDefinitions(g.tools) && Reachable(g, m)
    ensures m.state.decisions <= g.limits.decisions
    ensures m.state.inputTokens <= g.limits.inputTokens && m.state.outputTokens <= g.limits.outputTokens
    ensures m.state.toolCalls == |m.dispatched| <= g.limits.toolActions
    ensures m.state.externals == CountExternal(g.tools, Actions(m.dispatched)) <= g.limits.externalActions
  {
    hide Reachable, Routed, Ordered, AllPermitted, Metered, AttemptsKnown, AnswersCounted, ResultsPlaced;
    InvariantAlways(g, m);
  }

  /** A run makes at most four visits a decision and two more, and it has stopped by then. */
  lemma RunsStop(g: Graph, m: Machine)
    requires ValidDefinitions(g.tools) && Reachable(g, m)
    ensures m.visits <= 4 * m.state.decisions + 2 <= 4 * g.limits.decisions + 2
    ensures m.visits == 4 * g.limits.decisions + 2 ==> Stopped(m.node)
    ensures m.node.Failed? ==> m.node.error != Misrouted
  {
    hide Reachable, Ordered, AllPermitted, Metered, AttemptsKnown, AnswersCounted, ResultsPlaced;
    InvariantAlways(g, m);
  }

  /** Batches consist of enabled read tools and spend none of the external budget. */
  lemma BatchesAreReads(g: Graph, m: Machine, i: nat)
    requires ValidDefinitions(g.tools) && Reachable(g, m) && i < |m.dispatched| && m.dispatched[i].action.slot.Batched?
    ensures ReadOnlyTool(g.tools, m.dispatched[i].action.name) && IsExternal(g.tools, m.dispatched[i].action.name) == 0
  {
    hide Reachable, Routed, Ordered, WithinBudgets, Metered, AttemptsKnown, AnswersCounted, ResultsPlaced, PolicyAllows;
    InvariantAlways(g, m);
    var a := m.dispatched[i].action;
    assert Permitted(g, m.confirmed, a, m.dispatched[i].view);
    assert Coherent(g.tools[a.name]);
  }

  /** The counters are the record of the model answers: one decision and its tokens for each, and a finished run responds with the
      stripped content of the last one. */
  lemma CountersAreTheRecord(g: Graph, m: Machine)
    requires ValidDefinitions(g.tools) && Reachable(g, m)
    ensures m.state.decisions == |m.answers|
    ensures m.state.inputTokens == InputTokens(m.answers) && m.state.outputTokens == OutputTokens(m.answers)
    ensures m.node == Finished <==> m.state.response.Some?
    ensures m.node == Finished ==> m.answers != [] && AnsweredBy(m.state.response, m.answers[|m.answers| - 1].decision)
  {
    hide Reachable, Routed, Ordered, WithinBudgets, AllPermitted, Metered, AttemptsKnown, ResultsPlaced;
    InvariantAlways(g, m);
  }

  /** The result of every dispatched action stands among the tool results at the place that its id was formed from: under its name, with
      what its own tool returned, or as a failure if its tool raised. */
  lemma ResultsStandAtTheirSlots(g: Graph, m: Machine, i: nat)
    requires ValidDefinitions(g.tools) && Reachable(g, m) && i < |m.dispatched|
    ensures var a, o := m.dispatched[i].action, m.dispatched[i].outcome;
            && Place(a.slot) < |m.state.results|
            && var entry := m.state.results[Place(a.slot)];
               && entry.toolName == Some(a.name)
               && (if o.Returned? then entry.success == o.result.success && entry.urls == o.result.urls && entry.batchNames == o.result.batchNames
                   else !entry.success && entry.urls == {} && entry.batchNames == [])
  {
    hide Reachable, Routed, Ordered, WithinBudgets, AllPermitted, Metered, AttemptsKnown, AnswersCounted;
    InvariantAlways(g, m);
    assert Placed(m.state.results, m.dispatched[i]);
  }

  // ----- building runs

  /** The limits leave room for one more decision and one more tool action. */
  ghost predicate Roomy(g: Graph, m: Machine) {
    && m.node == Executive && m.state.decisions < g.limits.decisions && m.state.toolCalls < g.limits.toolActions
    && m.state.inputTokens <= g.limits.inputTokens && m.state.outputTokens <= g.limits.outputTokens
  }

  const PLAIN_RESULT := ToolResult(None, true, {}, [])

  function Answers(decision: Decision, active: Option<ActiveThing>): Input {
    Input(ModelAnswer(decision, 0, 0, active), true, PLAIN_RESULT, [])
  }

  /** From a state with room, the model can get a tool dispatched that the policy does not refuse. */
  lemma CanDispatch(g: Graph, m: Machine, d: ToolDefinition, args: Arguments, active: Option<ActiveThing>) returns (n: Machine)
    requires Reachable(g, m) && Roomy(g, m) && Lookup(g.tools, d.name) == Some(d)
    requires m.state.externals + IsExternal(g.tools, d.name) <= g.limits.externalActions
    requires var v := Evaluate(d, View(m.state.results, active), args, g.limits.searches); v.Allow? || v.RequireConfirmation?
    ensures Reachable(g, n) && n.node == Executive
    ensures n.dispatched == m.dispatched + [Dispatch(Action(Single(|m.state.results|), d.name, args), View(m.state.results, active), Returned(PLAIN_RESULT))]
    ensures Evaluate(d, View(m.state.results, active), args, g.limits.searches).Allow? ==> n.confirmed == m.confirmed
    ensures n.state.decisions == m.state.decisions + 1 && n.state.toolCalls == m.state.toolCalls + 1
    ensures n.state.externals == m.state.externals + IsExternal(g.tools, d.name)
    ensures n.state.inputTokens == m.state.inputTokens && n.state.outputTokens == m.state.outputTokens
  {
    hide Reachable, Evaluate, IsSearch, BatchVerdict, NamedSpecs, FirstBlocked, CountExternal, Lookup, PyText.Strip;
    var i := Answers(CallTool(d.name, args), active);
    var atPolicy := Visit(g, m, i);
    VisitIsReachable(g, m, i);
    var ready := Visit(g, atPolicy, i);
    VisitIsReachable(g, atPolicy, i);
    if ready.node == ConfirmationNode {
      VisitIsReachable(g, ready, i);
      ready := Visit(g, ready, i);
    }
    assert ready.node == ExecuteNode;
    VisitIsReachable(g, ready, i);
    n := Visit(g, ready, i);
  }

  // ----- the search quota

  ghost predicate QuotaKept(g: Graph) {
    forall m | Reachable(g, m) :: SearchesOf(m.dispatched) <= g.limits.searches
  }

  /** With gated searches no run dispatches more searches than the quota allows. */
  lemma SearchQuotaHolds(g: Graph, m: Machine)
    requires ValidDefinitions(g.tools) && GatedSearches(g.tools) && Reachable(g, m)
    ensures SearchesOf(m.dispatched) <= g.limits.searches
  {
    hide Reachable, Routed, Ordered, WithinBudgets, AllPermitted, AttemptsKnown, AnswersCounted, ResultsPlaced, GatedSearches, SearchesOf;
    InvariantAlways(g, m);
  }

  /** In any run, dispatched searches never outnumber the ones counted in the results. */
  lemma CountedCoversDispatched(g: Graph, m: Machine)
    requires ValidDefinitions(g.tools) && Reachable(g, m)
    ensures SearchesOf(m.dispatched) <= CountSearch(m.state.results)
  {
    hide Reachable, Routed, Ordered, WithinBudgets, AllPermitted, AttemptsKnown, AnswersCounted, ResultsPlaced, GatedSearches, SearchesOf;
    InvariantAlways(g, m);
  }

  const SOME_ARGS := Arguments("{}", None, None, "", NoSourceId, 0, [])

  /** A search that no gate covers can be dispatched again and again. */
  lemma {:induction false} CanRepeat(g: Graph, d: ToolDefinition, k: nat) returns (m: Machine)
    requires Lookup(g.tools, d.name) == Some(d) && IsSearch(d.name) && !IsGatedSearch(d.name)
    requires k <= g.limits.decisions && k <= g.limits.toolActions && (IsExternal(g.tools, d.name) == 0 || k <= g.limits.externalActions)
    ensures Reachable(g, m) && m.node == Executive && SearchesOf(m.dispatched) == k
    ensures m.state.decisions == k && m.state.toolCalls == k && m.state.externals == if IsExternal(g.tools, d.name) == 0 then 0 else k
    ensures m.state.inputTokens == 0 && m.state.outputTokens == 0
  {
    hide Reachable, IsSearch, IsGatedSearch, Visit;
    if k == 0 {
      m := FirstDecision(g);
    } else {
      var before := CanRepeat(g, d, k - 1);
      UngatedVerdict(g, d, View(before.state.results, None));
      m := CanDispatch(g, before, d, SOME_ARGS, None);
      var a := Action(Single(|before.state.results|), d.name, SOME_ARGS);
      var view, outcomes := View(before.state.results, None), [Returned(PLAIN_RESULT)];
      DueSearches(before.dispatched, [a], view, outcomes);
      assert Dispatches([a], view, outcomes) == [Dispatch(a, view, Returned(PLAIN_RESULT))];
      assert ActionNames([a]) == [d.name] && [d.name][..0] == [];
    }
  }

  lemma FirstDecision(g: Graph) returns (m: Machine)
    ensures Reachable(g, m) && m.node == Executive && m.dispatched == [] && m.confirmed == {} && m.state == Initial(None).state
    ensures SearchesOf(m.dispatched) == 0
  {
    var i := Answers(AskUser, None);
    InitialIsReachable(g, None);
    VisitIsReachable(g, Initial(None), i);
    m := Visit(g, Initial(None), i);
    assert Actions(m.dispatched) == [] && ActionNames([]) == [];
  }

  lemma UngatedVerdict(g: Graph, d: ToolDefinition, view: View)
    requires d.enabled && IsSearch(d.name) && !IsGatedSearch(d.name)
    ensures var v := Evaluate(d, view, SOME_ARGS, g.limits.searches); v.Allow? || v.RequireConfirmation?
  {
    hide CountSearch;
  }

  /** The registry enables a search tool of this name that no gate covers. */
  predicate UngatedSearch(tools: Definitions, name: string) {
    name in tools && tools[name].enabled && IsSearch(name) && !IsGatedSearch(name)
  }

  /** When the other budgets allow one action more than the quota, the quota is kept in every run exactly when the registry
      enables no search tool outside the gates. The external budget matters only to such a tool that is not replayable. */
  lemma SearchQuotaExactly(g: Graph)
    requires ValidDefinitions(g.tools)
    requires g.limits.decisions > g.limits.searches && g.limits.toolActions > g.limits.searches
    requires forall name | UngatedSearch(g.tools, name) && IsExternal(g.tools, name) == 1 :: g.limits.externalActions > g.limits.searches
    ensures QuotaKept(g) <==> GatedSearches(g.tools)
  {
    hide Reachable, IsSearch, IsGatedSearch, SearchesOf;
    if GatedSearches(g.tools) {
      forall m | Reachable(g, m) ensures SearchesOf(m.dispatched) <= g.limits.searches {
        SearchQuotaHolds(g, m);
      }
    } else {
      var name :| name in g.tools && g.tools[name].enabled && IsSearch(name) && !IsGatedSearch(name);
      assert UngatedSearch(g.tools, name);
      var m := CanRepeat(g, g.tools[name], g.limits.searches + 1);
      assert SearchesOf(m.dispatched) > g.limits.searches;
    }
  }

  // ----- confirmation

  /** No enabled irreversible tool bears a name on which the policy decides before it looks at the risk. */
  ghost predicate IrreversiblesByRisk(tools: Definitions) {
    forall name | name in tools && tools[name].enabled && tools[name].risk == Irreversible :: !DecidedByName(name)
  }

  ghost predicate IrreversibleUnconfirmed(g: Graph, m: Machine, i: nat) {
    && i < |m.dispatched|
    && Lookup(g.tools, m.dispatched[i].action.name).Some? && Lookup(g.tools, m.dispatched[i].action.name).value.risk == Irreversible
    && ActionId(g.run, m.dispatched[i].action) !in m.confirmed
  }

  /** In every run, the user has confirmed each executed irreversible action under its own id. */
  ghost predicate IrreversiblesConfirmed(g: Graph) {
    forall m, i | Reachable(g, m) && 0 <= i < |m.dispatched| :: !IrreversibleUnconfirmed(g, m, i)
  }

  lemma IrreversibleIsConfirmed(g: Graph, m: Machine, i: nat)
    requires ValidDefinitions(g.tools) && IrreversiblesByRisk(g.tools) && Reachable(g, m)
    ensures !IrreversibleUnconfirmed(g, m, i)
  {
    hide Reachable, Routed, Ordered, WithinBudgets, Metered, AttemptsKnown, AnswersCounted, ResultsPlaced, DecidedByName, ReadOnlyTool;
    if i < |m.dispatched| && Lookup(g.tools, m.dispatched[i].action.name).Some? {
      InvariantAlways(g, m);
      var a := m.dispatched[i].action;
      var d := Lookup(g.tools, a.name).value;
      assert Permitted(g, m.confirmed, a, m.dispatched[i].view);
      if d.risk == Irreversible {
        assert !DecidedByName(d.name);
        NotByName(d, m.dispatched[i].view, a.args, g.limits.searches);
        BatchedIsNot(g, a);
      }
    }
  }

  lemma BatchedIsNot(g: Graph, a: Action)
    ensures ReadOnlyTool(g.tools, a.name) ==> Lookup(g.tools, a.name).Some? && Lookup(g.tools, a.name).value.risk == Read
  {
  }

  lemma NotByName(d: ToolDefinition, view: View, args: Arguments, searchLimit: nat)
    requires d.risk == Irreversible && !DecidedByName(d.name)
    ensures !Evaluate(d, view, args, searchLimit).Allow?
  {
    hide IsGatedSearch, IsDateTool;
  }

  /** The registry enables an irreversible tool of this name, which the policy decides by its name. */
  predicate IrreversibleByName(tools: Definitions, name: string) {
    name in tools && tools[name].enabled && tools[name].risk == Irreversible && DecidedByName(name)
  }

  /** When the budgets allow one action, irreversible actions are always confirmed exactly when none is decided by its name. */
  lemma IrreversiblesConfirmedExactly(g: Graph)
    requires ValidDefinitions(g.tools) && g.limits.decisions > 0 && g.limits.toolActions > 0 && g.limits.searches > 0
    requires forall name | IrreversibleByName(g.tools, name) :: IsExternal(g.tools, name) <= g.limits.externalActions
    ensures IrreversiblesConfirmed(g) <==> IrreversiblesByRisk(g.tools)
  {
    hide Reachable, IrreversibleUnconfirmed, DecidedByName;
    if IrreversiblesByRisk(g.tools) {
      forall m, i | Reachable(g, m) && 0 <= i < |m.dispatched| ensures !IrreversibleUnconfirmed(g, m, i) {
        IrreversibleIsConfirmed(g, m, i);
      }
    } else {
      var name :| name in g.tools && g.tools[name].enabled && g.tools[name].risk == Irreversible && DecidedByName(name);
      assert IrreversibleByName(g.tools, name);
      var m := UnconfirmedDispatch(g, g.tools[name]);
      assert 0 <= 0 < |m.dispatched|;
    }
  }

  lemma UnconfirmedDispatch(g: Graph, d: ToolDefinition) returns (m: Machine)
    requires Lookup(g.tools, d.name) == Some(d) && d.risk == Irreversible && DecidedByName(d.name)
    requires g.limits.decisions > 0 && g.limits.toolActions > 0 && g.limits.searches > 0
    requires IsExternal(g.tools, d.name) <= g.limits.externalActions
    ensures Reachable(g, m) && |m.dispatched| == 1 && IrreversibleUnconfirmed(g, m, 0)
  {
    hide Reachable, IsSearch, IsGatedSearch, IsDateTool, Visit, ActionId;
    var args := Arguments("{}", Some(Confirmed), None, "", SourceUuid, 0, []);
    var before := FirstDecision(g);
    assert BackedDate(View([], None), args);
    SensitiveAllowedExactly(d, View([], None), args, g.limits.searches);
    m := CanDispatch(g, before, d, args, None);
  }

  /** An executed date tool whose risk asks for confirmation was confirmed under its own id, or its date was confirmed with
      source or search evidence and did not overwrite the known deadline of the active Thing. */
  lemma DateChangesAreBacked(g: Graph, m: Machine, i: nat)
    requires ValidDefinitions(g.tools) && Reachable(g, m) && i < |m.dispatched| && IsDateTool(m.dispatched[i].action.name)
    requires forall name | name in g.tools && IsDateTool(name) :: g.tools[name].risk.SensitiveWrite? || g.tools[name].risk.Irreversible?
    ensures var d := m.dispatched[i];
            ActionId(g.run, d.action) in m.confirmed || BackedDate(d.view, d.action.args)
  {
    hide Reachable, Routed, Ordered, WithinBudgets, Metered, AttemptsKnown, AnswersCounted, ResultsPlaced, IsDateTool, IsGatedSearch, IsSearch, ActionId;
    InvariantAlways(g, m);
    var a, view := m.dispatched[i].action, m.dispatched[i].view;
    assert Permitted(g, m.confirmed, a, view);
    var d := Lookup(g.tools, a.name).value;
    assert d.name == a.name;
    NamesAreApart(a.name);
    SensitiveAllowedExactly(d, view, a.args, g.limits.searches);
  }
}
