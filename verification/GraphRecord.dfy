/** What a run of the executive graph leaves on record: nothing is executed that the model did not ask for, and every tool result is that
    of a dispatched action, the record of a batch, or a refusal. */
module GraphRecord {
  import opened Wrappers
  import opened ToolPolicy
  import opened ParallelBatch
  import opened ExecutiveGraph
  import opened GraphSafety
  import GraphTheorems
  import PyText

  /** The model asked for this action. */
  predicate AsksFor(d: Decision, a: Action) {
    if a.slot.Single? then d == CallTool(a.name, a.args) else d.CallTools? && ToolSpec(a.name, a.args) in d.calls
  }

  /** The action was asked for by an answer whose active Thing the policy went by. */
  ghost predicate Asked(answers: seq<ModelAnswer>, d: Dispatch) {
    exists j :: 0 <= j < |answers| && AsksFor(answers[j].decision, d.action) && answers[j].active == d.view.active
  }

  ghost predicate Decided(g: Graph, m: Machine) {
    && (forall i | 0 <= i < |m.dispatched| :: Asked(m.answers, m.dispatched[i]))
    && (m.answers != [] ==> m.state.active == m.answers[|m.answers| - 1].active && m.state.decision == Some(m.answers[|m.answers| - 1].decision))
    && (m.node.PolicyNode? || m.node.ParallelPolicyNode? || m.node.ConfirmationNode? || m.node.ExecuteNode? || m.node.ParallelExecuteNode?
        ==> m.answers != [])
    && (m.node.ConfirmationNode? || m.node.ExecuteNode? ==>
          m.state.pending.Some? && AsksFor(m.answers[|m.answers| - 1].decision, m.state.pending.value))
    && (m.node.ParallelExecuteNode? ==>
          && m.state.toolCalls + |m.state.batch| <= g.limits.toolActions
          && forall k | 0 <= k < |m.state.batch| :: AsksFor(m.answers[|m.answers| - 1].decision, m.state.batch[k]))
  }

  ghost predicate FromDispatch(m: Machine, p: nat)
    requires p < |m.state.results|
  {
    exists i :: 0 <= i < |m.dispatched| && Place(m.dispatched[i].action.slot) == p && m.state.results[p].toolName == Some(m.dispatched[i].action.name)
                && Shows(m.state.results[p], m.dispatched[i].outcome)
  }

  /** The entry after the results of a batch names its actions in their order. */
  ghost predicate NamesBatch(r: ToolResult, p: nat, ds: seq<Dispatch>) {
    && 0 < |ds| <= p && r.toolName == None && |r.batchNames| == |ds|
    && forall k | 0 <= k < |ds| :: ds[k].action.slot == Batched(p - |ds|, k) && r.batchNames[k] == ds[k].action.name
  }

  ghost predicate BatchEntry(m: Machine, p: nat, first: nat, size: nat)
    requires p < |m.state.results|
  {
    first + size <= |m.dispatched| && NamesBatch(m.state.results[p], p, m.dispatched[first..first + size])
  }

  /** Nothing was executed for the entry: it tells of no success and carries no evidence. */
  predicate NotRun(r: ToolResult) { !r.success && r.urls == {} && r.batchNames == [] }

  ghost predicate Explained(m: Machine, p: nat)
    requires p < |m.state.results|
  {
    FromDispatch(m, p) || (exists first, size :: BatchEntry(m, p, first, size)) || NotRun(m.state.results[p])
  }

  ghost predicate ResultsExplained(m: Machine) {
    forall p | 0 <= p < |m.state.results| :: Explained(m, p)
  }

  ghost predicate Recorded(g: Graph, m: Machine) { Decided(g, m) && ResultsExplained(m) }

  // ----- one visit

  /** What the nodes that pick actions leave behind. */
  lemma PickedIsAsked(g: Graph, m: Machine, i: Input)
    requires Routed(m) && Decided(g, m)
    ensures var n := Visit(g, m, i);
            && (n.node.ConfirmationNode? || n.node.ExecuteNode? ==>
                  m.answers != [] && n.answers == m.answers && n.state.pending.Some? && AsksFor(m.answers[|m.answers| - 1].decision, n.state.pending.value))
            && (n.node.ParallelExecuteNode? ==>
                  && m.answers != [] && n.answers == m.answers && n.state.toolCalls + |n.state.batch| <= g.limits.toolActions
                  && forall k | 0 <= k < |n.state.batch| :: AsksFor(m.answers[|m.answers| - 1].decision, n.state.batch[k]))
  {
    hide Lookup, Evaluate, IsSearch, CountSearch, BatchVerdict, FirstBlocked, NamedSpecs, IsExternal, CountExternal, Due, PyText.Strip;
    if m.node == ParallelPolicyNode && ParallelPolicyVisit(g, m.state).node == ParallelExecuteNode {
      BatchIsAsked(g, m.state);
      BatchFacts(g, m.state);
    }
  }

  lemma BatchIsAsked(g: Graph, s: GraphState)
    requires s.decision.Some? && s.decision.value.CallTools? && ParallelPolicyVisit(g, s).node == ParallelExecuteNode
    ensures var batch := ParallelPolicyVisit(g, s).state.batch;
            forall k | 0 <= k < |batch| :: batch[k].slot.Batched? && ToolSpec(batch[k].name, batch[k].args) in s.decision.value.calls
  {
    hide Lookup, Evaluate, IsSearch, CountSearch, FirstBlocked, NamedSpecs, FirstFault, CountNames;
    var named := NamedSpecs(s.decision.value.calls);
    FirstOccurrencesFacts(named);
    NamedAreCalls(s.decision.value.calls);
    var u := BatchVerdict(g.tools, named, QuotaOf(g, s)).value;
    var batch := ParallelPolicyVisit(g, s).state.batch;
    forall k | 0 <= k < |batch| ensures ToolSpec(batch[k].name, batch[k].args) in s.decision.value.calls {
      assert u[k] in u;
    }
  }

  lemma {:induction false} NamedAreCalls(calls: seq<ToolSpec>)
    ensures forall c :: c in NamedSpecs(calls) <==> c in calls && c.name != ""
  {
    if calls != [] {
      NamedAreCalls(calls[..|calls| - 1]);
      assert calls == calls[..|calls| - 1] + [calls[|calls| - 1]];
    }
  }

  lemma AnswersGrow(g: Graph, m: Machine, i: Input)
    requires Decided(g, m) && Routed(m)
    ensures var n := Visit(g, m, i);
            && (n.answers == m.answers || n.answers == m.answers + [i.model])
            && (n.answers != [] ==> n.state.active == n.answers[|n.answers| - 1].active && n.state.decision == Some(n.answers[|n.answers| - 1].decision))
            && (n.node.PolicyNode? || n.node.ParallelPolicyNode? ==> n.answers != [])
  {
    hide Lookup, Evaluate, IsSearch, CountSearch, BatchVerdict, FirstBlocked, NamedSpecs, IsExternal, CountExternal, Due, PyText.Strip, AsksFor;
  }

  lemma AskedStays(answers: seq<ModelAnswer>, more: seq<ModelAnswer>, d: Dispatch)
    requires Asked(answers, d) && answers <= more
    ensures Asked(more, d)
  {
    var j :| 0 <= j < |answers| && AsksFor(answers[j].decision, d.action) && answers[j].active == d.view.active;
    assert more[j] == answers[j];
  }

  lemma DueIsAsked(g: Graph, m: Machine, k: nat)
    requires Decided(g, m) && k < |Due(g, m.node, m.state)|
    ensures m.answers != [] && AsksFor(m.answers[|m.answers| - 1].decision, Due(g, m.node, m.state)[k])
    ensures m.state.active == m.answers[|m.answers| - 1].active
  {
    hide IsExternal, CountExternal, AsksFor;
  }

  lemma DecidedVisit(g: Graph, m: Machine, i: Input)
    requires Routed(m) && Decided(g, m)
    ensures Decided(g, Visit(g, m, i))
  {
    hide VisitNode, Due, AsksFor, Asked;
    var n := Visit(g, m, i);
    PickedIsAsked(g, m, i);
    AnswersGrow(g, m, i);
    forall k | 0 <= k < |n.dispatched| ensures Asked(n.answers, n.dispatched[k]) {
      if k < |m.dispatched| {
        AskedStays(m.answers, n.answers, m.dispatched[k]);
      } else {
        DueIsAsked(g, m, k - |m.dispatched|);
        DispatchIsAsked(m.answers, n.dispatched[k]);
        AskedStays(m.answers, n.answers, n.dispatched[k]);
      }
    }
  }

  lemma DispatchIsAsked(answers: seq<ModelAnswer>, d: Dispatch)
    requires answers != [] && AsksFor(answers[|answers| - 1].decision, d.action) && answers[|answers| - 1].active == d.view.active
    ensures Asked(answers, d)
  {
  }

  lemma ExplainedStays(m: Machine, n: Machine, p: nat)
    requires p < |m.state.results| && Explained(m, p) && m.state.results <= n.state.results && m.dispatched <= n.dispatched
    ensures Explained(n, p)
  {
    hide Shows;
    if FromDispatch(m, p) {
      var i :| 0 <= i < |m.dispatched| && Place(m.dispatched[i].action.slot) == p && m.state.results[p].toolName == Some(m.dispatched[i].action.name)
               && Shows(m.state.results[p], m.dispatched[i].outcome);
      assert n.dispatched[i] == m.dispatched[i] && n.state.results[p] == m.state.results[p];
    } else if first, size :| BatchEntry(m, p, first, size) {
      EntryStays(m, n, p, first, size);
    }
  }

  lemma EntryStays(m: Machine, n: Machine, p: nat, first: nat, size: nat)
    requires p < |m.state.results| && BatchEntry(m, p, first, size) && m.state.results <= n.state.results && m.dispatched <= n.dispatched
    ensures BatchEntry(n, p, first, size)
  {
    hide NamesBatch;
    assert n.dispatched[first..first + size] == m.dispatched[first..first + size];
  }

  /** The new entries of a visit. */
  lemma NewIsExplained(g: Graph, m: Machine, i: Input, p: nat)
    requires Routed(m) && |m.state.results| <= p < |Visit(g, m, i).state.results|
    ensures Explained(Visit(g, m, i), p)
  {
    hide Lookup, Evaluate, IsSearch, CountSearch, BatchVerdict, FirstBlocked, NamedSpecs, IsExternal, CountExternal, PyText.Strip, Shows, VisitNode, Due;
    match m.node
    case ExecuteNode => SingleIsExplained(g, m, i, p);
    case ParallelExecuteNode => BatchIsExplained(g, m, i, p);
    case _ => RefusalIsExplained(g, m, i, p);
  }

  lemma RefusalIsExplained(g: Graph, m: Machine, i: Input, p: nat)
    requires Routed(m) && m.node != ExecuteNode && m.node != ParallelExecuteNode && |m.state.results| <= p < |Visit(g, m, i).state.results|
    ensures NotRun(Visit(g, m, i).state.results[p])
  {
    hide Lookup, Evaluate, IsSearch, CountSearch, BatchVerdict, FirstBlocked, NamedSpecs, IsExternal, CountExternal, PyText.Strip;
  }

  lemma SingleIsExplained(g: Graph, m: Machine, i: Input, p: nat)
    requires Routed(m) && m.node == ExecuteNode && |m.state.results| <= p < |Visit(g, m, i).state.results|
    ensures FromDispatch(Visit(g, m, i), p)
  {
    hide IsExternal;
    var n := Visit(g, m, i);
    SinglePairsResult(g, m.state, i.result);
    assert Due(g, m.node, m.state) == [m.state.pending.value];
    assert n.dispatched[|m.dispatched|].action == m.state.pending.value;
  }

  lemma BatchIsExplained(g: Graph, m: Machine, i: Input, p: nat)
    requires Routed(m) && m.node == ParallelExecuteNode && |m.state.results| <= p < |Visit(g, m, i).state.results|
    ensures Explained(Visit(g, m, i), p)
  {
    hide CountExternal, VisitNode, BatchEntry, FromDispatch, ParallelExecuteVisit;
    var n := Visit(g, m, i);
    var size, base := |m.state.batch|, |m.state.results|;
    BatchVisitIs(g, m, i);
    BatchPairsOutcomes(g, m.state, i.outcomes);
    if p < base + size {
      BatchResultIsDispatched(m, n, i.outcomes, p - base);
    } else {
      BatchRecordIsEntry(m, n, i.outcomes);
    }
  }

  lemma BatchResultIsDispatched(m: Machine, n: Machine, outcomes: seq<ToolOutcome>, k: nat)
    requires BatchHere(m.state) && k < |m.state.batch| && |m.state.results| + k < |n.state.results|
    requires n.dispatched == m.dispatched + Dispatches(m.state.batch, ViewOf(m.state), outcomes)
    requires var entry := n.state.results[|m.state.results| + k];
             && entry.toolName == Some(m.state.batch[k].name)
             && (if k < |outcomes| && outcomes[k].Returned?
                 then entry.success == outcomes[k].result.success && entry.urls == outcomes[k].result.urls
                      && entry.batchNames == outcomes[k].result.batchNames
                 else !entry.success && entry.urls == {} && entry.batchNames == [])
    ensures FromDispatch(n, |m.state.results| + k)
  {
    assert n.dispatched[|m.dispatched| + k].action == m.state.batch[k];
  }

  lemma BatchRecordIsEntry(m: Machine, n: Machine, outcomes: seq<ToolOutcome>)
    requires BatchHere(m.state) && |m.state.results| + |m.state.batch| < |n.state.results|
    requires n.dispatched == m.dispatched + Dispatches(m.state.batch, ViewOf(m.state), outcomes)
    requires var record := n.state.results[|m.state.results| + |m.state.batch|];
             && record.toolName == None && |record.batchNames| == |m.state.batch|
             && forall i | 0 <= i < |m.state.batch| :: record.batchNames[i] == m.state.batch[i].name
    ensures BatchEntry(n, |m.state.results| + |m.state.batch|, |m.dispatched|, |m.state.batch|)
  {
    var first, size := |m.dispatched|, |m.state.batch|;
    assert n.dispatched[first..first + size] == Dispatches(m.state.batch, ViewOf(m.state), outcomes);
  }

  lemma RecordedVisit(g: Graph, m: Machine, i: Input)
    requires Routed(m) && Recorded(g, m)
    ensures Recorded(g, Visit(g, m, i))
  {
    hide VisitNode, Due, Explained, Decided;
    DecidedVisit(g, m, i);
    ResultsOnlyGrow(g, m.node, m.state, i);
    var n := Visit(g, m, i);
    forall p | 0 <= p < |n.state.results| ensures Explained(n, p) {
      if p < |m.state.results| {
        ExplainedStays(m, n, p);
      } else {
        NewIsExplained(g, m, i, p);
      }
    }
  }

  lemma RecordedCrash(g: Graph, m: Machine, n: Machine)
    requires Recorded(g, m) && Crashes(g, m, n)
    ensures Recorded(g, n)
  {
    hide Due, Shows, AsksFor;
    forall p | 0 <= p < |n.state.results| ensures Explained(n, p) {
      ExplainedStays(m, n, p);
    }
  }

  lemma {:induction false} RecordedAlways(g: Graph, run: seq<Machine>, k: nat)
    requires ValidDefinitions(g.tools) && IsRun(g, run) && k < |run|
    ensures Recorded(g, run[k])
  {
    hide Recorded, Steps, Visit, Crashes;
    if k == 0 {
      var active :| run[0] == Initial(active);
      InitiallyRecorded(g, active);
    } else {
      var j := k - 1;
      RecordedAlways(g, run, j);
      assert Steps(g, run[j], run[k]);
      InvariantAlong(g, run, j);
      StepRecords(g, run[j], run[k]);
    }
  }

  lemma StepRecords(g: Graph, m: Machine, n: Machine)
    requires Invariant(g, m) && Recorded(g, m) && Steps(g, m, n)
    ensures Recorded(g, n)
  {
    hide Recorded, Visit, Crashes, Ordered, WithinBudgets, AllPermitted, Metered, AttemptsKnown, AnswersCounted, ResultsPlaced, Routed;
    if i :| n == Visit(g, m, i) {
      RecordedVisit(g, m, i);
    } else {
      RecordedCrash(g, m, n);
    }
  }

  lemma InitiallyRecorded(g: Graph, active: Option<ActiveThing>)
    ensures Recorded(g, Initial(active))
  {
  }

  // ----- what runs guarantee

  /** Every executed action is one that a model answer asked for, with the name and arguments of that answer, and the policy judged it by
      the active Thing of that answer. */
  lemma ExecutedAsDecided(g: Graph, m: Machine, i: nat)
    requires ValidDefinitions(g.tools) && Reachable(g, m) && i < |m.dispatched|
    ensures var d := m.dispatched[i];
            exists j :: 0 <= j < |m.answers| && m.answers[j].active == d.view.active
                        && (if d.action.slot.Single? then m.answers[j].decision == CallTool(d.action.name, d.action.args)
                            else m.answers[j].decision.CallTools? && ToolSpec(d.action.name, d.action.args) in m.answers[j].decision.calls)
  {
    hide Steps, ResultsExplained;
    var run :| IsRun(g, run) && run[|run| - 1] == m;
    RecordedAlways(g, run, |run| - 1);
    assert Asked(m.answers, m.dispatched[i]);
  }

  /** Every tool result with a success or with evidence is that of an executed action, as its tool gave it, or names a whole executed batch
      in its order; what the policy or the user refused leaves a failure without evidence. */
  lemma ResultsAreTheRecord(g: Graph, m: Machine, p: nat)
    requires ValidDefinitions(g.tools) && Reachable(g, m) && p < |m.state.results|
    ensures var r := m.state.results[p];
            || (exists i :: 0 <= i < |m.dispatched| && Place(m.dispatched[i].action.slot) == p && r.toolName == Some(m.dispatched[i].action.name)
                            && Shows(r, m.dispatched[i].outcome))
            || (exists first, size :: BatchEntry(m, p, first, size))
            || (!r.success && r.urls == {} && r.batchNames == [])
  {
    hide Steps, Decided, Shows;
    var run :| IsRun(g, run) && run[|run| - 1] == m;
    RecordedAlways(g, run, |run| - 1);
    assert Explained(m, p);
  }

  // ----- what a visit does

  /** Where the policy sends a single call: an allowed one is executed, one that needs it is confirmed, and everything else is refused. */
  lemma PolicyRoutesExactly(g: Graph, s: GraphState, name: string, args: Arguments)
    requires s.decision == Some(CallTool(name, args))
    ensures var v := PolicyVisit(g, s);
            var known := name in g.tools && g.tools[name].enabled;
            && (v.node == ExecuteNode <==> known && Evaluate(g.tools[name], ViewOf(s), args, g.limits.searches).Allow?)
            && (v.node == ConfirmationNode <==> known && Evaluate(g.tools[name], ViewOf(s), args, g.limits.searches).RequireConfirmation?)
            && (v.node == ExecuteNode || v.node == ConfirmationNode ==>
                  v.state == s.(pending := Some(Action(Single(|s.results|), name, args))))
            && (v.node != ExecuteNode && v.node != ConfirmationNode ==>
                  v.node == Executive && v.state == s.(results := s.results + [ToolResult(Some(name), false, {}, [])]))
  {
    hide Evaluate;
  }

  /** Calls without a tool name are dropped and the others keep their order. */
  lemma {:induction false} NamedSpecsInOrder(a: seq<ToolSpec>, b: seq<ToolSpec>)
    ensures NamedSpecs(a + b) == NamedSpecs(a) + NamedSpecs(b)
    ensures forall c :: NamedSpecs([c]) == if c.name == "" then [] else [c]
  {
    forall c ensures NamedSpecs([c]) == if c.name == "" then [] else [c] {
      assert [c][..0] == [];
    }
    if b == [] {
      assert a + b == a;
    } else {
      assert (a + b)[..|a + b| - 1] == a + b[..|b| - 1];
      NamedSpecsInOrder(a, b[..|b| - 1]);
    }
  }

  /** Where the policy sends several calls: they are executed together, deduplicated, in order, under the ids of their places, exactly when the
      batch is sound and the policy allows every one of them. An unsound batch is refused as a whole, and otherwise the first call that is not
      allowed is refused under its name. */
  lemma BatchRoutesExactly(g: Graph, s: GraphState, calls: seq<ToolSpec>)
    requires s.decision == Some(CallTools(calls))
    ensures var v, verdict := ParallelPolicyVisit(g, s), BatchVerdict(g.tools, NamedSpecs(calls), QuotaOf(g, s));
            && QuotaOf(g, s) == Quota(s.toolCalls, g.limits.toolActions, g.limits.parallelMax, CountSearch(s.results), g.limits.searches)
            && (verdict.Err? ==> v == Visited(Executive, s.(results := s.results + [ToolResult(None, false, {}, [])])))
            && (verdict.Ok? && (forall i | 0 <= i < |verdict.value| :: Cleared(g, s, verdict.value[i])) ==>
                  && v.node == ParallelExecuteNode && v.state == s.(batch := v.state.batch) && |v.state.batch| == |verdict.value|
                  && forall i | 0 <= i < |verdict.value| ::
                       v.state.batch[i] == Action(Batched(|s.results|, i), verdict.value[i].name, verdict.value[i].args))
            && (forall i | verdict.Ok? && 0 <= i < |verdict.value| && !Cleared(g, s, verdict.value[i])
                           && (forall k | 0 <= k < i :: Cleared(g, s, verdict.value[k])) ::
                  v == Visited(Executive, s.(results := s.results + [ToolResult(Some(verdict.value[i].name), false, {}, [])])))
  {
    hide Evaluate, Lookup, CountSearch, NamedSpecs, BatchVerdict, PolicyAllows, FirstBlocked;
    var verdict := BatchVerdict(g.tools, NamedSpecs(calls), QuotaOf(g, s));
    if verdict.Ok? {
      var specs := verdict.value;
      if forall i | 0 <= i < |specs| :: Cleared(g, s, specs[i]) {
        BlockedAt(g, s, specs, |specs|);
      }
      forall i | 0 <= i < |specs| && !Cleared(g, s, specs[i]) && (forall k | 0 <= k < i :: Cleared(g, s, specs[k]))
        ensures FirstBlocked(g, ViewOf(s), specs) == Some(specs[i].name)
      {
        BlockedAt(g, s, specs, i);
      }
    }
  }

  /** The policy lets the call through without asking. */
  ghost predicate Cleared(g: Graph, s: GraphState, c: ToolSpec) {
    && c.name in g.tools && g.tools[c.name].enabled
    && Evaluate(g.tools[c.name], ViewOf(s), c.args, g.limits.searches).Allow?
  }

  lemma {:induction false} BlockedAt(g: Graph, s: GraphState, specs: seq<ToolSpec>, i: nat)
    requires i <= |specs| && forall k | 0 <= k < i :: Cleared(g, s, specs[k])
    ensures i == |specs| ==> FirstBlocked(g, ViewOf(s), specs) == None
    ensures i < |specs| && !Cleared(g, s, specs[i]) ==> FirstBlocked(g, ViewOf(s), specs) == Some(specs[i].name)
  {
    hide Evaluate;
    if i > 0 {
      assert Cleared(g, s, specs[0]);
      forall k | 0 <= k < i - 1 ensures Cleared(g, s, specs[1..][k]) {
        assert specs[1..][k] == specs[k + 1];
      }
      BlockedAt(g, s, specs[1..], i - 1);
    }
  }

  /** The user decides: a confirmed action is executed as it is, a declined one is refused under its name. */
  lemma UserDecides(s: GraphState, confirmed: bool)
    requires s.pending.Some?
    ensures confirmed ==> ConfirmationVisit(s, confirmed) == Visited(ExecuteNode, s)
    ensures !confirmed ==>
              ConfirmationVisit(s, confirmed) == Visited(Executive, s.(results := s.results + [ToolResult(Some(s.pending.value.name), false, {}, [])]))
  {
  }

  lemma FitsInReach(g: Graph, m: Machine)
    requires ValidDefinitions(g.tools) && Reachable(g, m) && m.node == ParallelExecuteNode
    ensures m.state.toolCalls + |m.state.batch| <= g.limits.toolActions
  {
    hide Steps, ResultsExplained;
    var run :| IsRun(g, run) && run[|run| - 1] == m;
    RecordedAlways(g, run, |run| - 1);
  }

  /** A batch that passed its checks is executed: the budgets that it was checked against still hold. */
  lemma BatchesNeverFail(g: Graph, m: Machine, i: Input)
    requires ValidDefinitions(g.tools) && Reachable(g, m) && m.node == ParallelExecuteNode
    ensures Visit(g, m, i).node == Executive
  {
    hide Reachable, Ordered, Metered, AttemptsKnown, AnswersCounted, ResultsPlaced, PolicyAllows, Lookup, CountExternal, IsExternal;
    InvariantAlways(g, m);
    FitsInReach(g, m);
    forall k | 0 <= k < |m.state.batch| ensures ReadOnlyTool(g.tools, m.state.batch[k].name) {
      assert Permitted(g, m.confirmed, m.state.batch[k], ViewOf(m.state));
    }
    ReadBatchIsInternal(g.tools, m.state.batch);
  }

  /** With a decision and tokens left, a text that is not blank ends the run with that text, stripped. */
  lemma AnswerIsDelivered(g: Graph, m: Machine, content: string, input: nat, output: nat, active: Option<ActiveThing>) returns (n: Machine)
    requires Reachable(g, m) && m.node == Executive && m.state.decisions < g.limits.decisions && PyText.Strip(content) != ""
    requires m.state.inputTokens + input <= g.limits.inputTokens && m.state.outputTokens + output <= g.limits.outputTokens
    ensures Reachable(g, n) && n.node == Finished && n.state.response == Some(PyText.Strip(content)) && n.visits == m.visits + 2
  {
    hide Reachable, PyText.Strip;
    var i := Input(ModelAnswer(Respond(content), input, output, active), false, ToolResult(None, false, {}, []), []);
    VisitIsReachable(g, m, i);
    var asked := Visit(g, m, i);
    VisitIsReachable(g, asked, i);
    n := Visit(g, asked, i);
  }

  /** A run fails for want of decisions or tokens exactly when an answer would exceed them, and for a blank response only then. */
  lemma ExecutiveFailsExactly(g: Graph, s: GraphState, a: ModelAnswer)
    ensures var v := ExecutiveVisit(g, s, a);
            && (v.node == Failed(DecisionBudget) <==> s.decisions >= g.limits.decisions)
            && (v.node == Failed(TokenBudget) <==>
                  s.decisions < g.limits.decisions
                  && (s.inputTokens + a.inputTokens > g.limits.inputTokens || s.outputTokens + a.outputTokens > g.limits.outputTokens))
            && (v.node.Failed? ==> v.state == s && (v.node.error == DecisionBudget || v.node.error == TokenBudget))
            && (!v.node.Failed? ==>
                  && (a.decision.Respond? <==> v.node == RespondNode) && (a.decision.AskUser? <==> v.node == AskUserNode)
                  && (a.decision.CallTool? <==> v.node == PolicyNode) && (a.decision.CallTools? <==> v.node == ParallelPolicyNode)
                  && v.state.results == s.results && v.state.active == a.active && v.state.toolCalls == s.toolCalls && v.state.externals == s.externals)
  {
  }
}
