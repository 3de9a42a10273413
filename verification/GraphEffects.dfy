/** The executive graph of one Run together with the Tool ledger that all Runs share: the actions that the graph starts, repeats after
    crashes and records are the ones whose effects the ledger keeps apart. */
module GraphEffects {
  import opened KeyStrings
  import ToolPolicy
  import Graph = ExecutiveGraph
  import GraphSafety
  import GraphTheorems
  import StateWrites
  import ToolLedger
  import Ledger = LedgerSafety

  /** One Run, the graph that it goes through, and how tools change the state. */
  datatype Setting = Setting(g: Graph.Graph, run: ToolLedger.RunId, c: Ledger.Config) {
    ghost predicate Valid() { ToolPolicy.ValidDefinitions(g.tools) && NoColon(g.run) && c.Valid() }

    function KeyFor(a: Graph.Action): ToolLedger.ActionKey { (run, Graph.ActionId(g.run, a)) }

    function AuditKey(a: Graph.Action): StateWrites.Key { Ledger.KeyOf(KeyFor(a)) }
  }

  datatype Joint = Joint(m: Graph.Machine, s: Ledger.Sys)

  /** The call is that of the action. */
  predicate CallsFor(call: ToolLedger.Call, a: Graph.Action) { call.tool == a.name && call.arguments == a.args.canonical }

  /** Tools of the Run are claimed only for actions that its graph has started; a start whose visit has not ended looks like a crash to
      the graph. */
  ghost predicate ClaimsStarted(x: Setting, j: Joint, e: Ledger.Event) {
    e.Claim? && e.k.0 == x.run ==> exists a :: a in j.m.attempted && e.k == x.KeyFor(a) && CallsFor(e.call, a)
  }

  ghost predicate LedgerSteps(x: Setting, j: Joint, n: Joint) {
    n.m == j.m && exists e :: Ledger.Enabled(x.c, j.s, e) && ClaimsStarted(x, j, e) && n.s == Ledger.Next(j.s, e)
  }

  predicate HasResult(s: Ledger.Sys, k: ToolLedger.ActionKey) { k in s.db.tools && s.db.tools[k].result.Some? }

  /** The graph records a single action only with a result of the ledger; a batch also records exceptions. */
  ghost predicate RecordsResults(x: Setting, j: Joint, n: Graph.Machine) {
    forall a | a in GraphSafety.Actions(n.dispatched) && a !in GraphSafety.Actions(j.m.dispatched) && a.slot.Single? ::
      HasResult(j.s, x.KeyFor(a))
  }

  ghost predicate GraphSteps(x: Setting, j: Joint, n: Joint) {
    n.s == j.s && Graph.Steps(x.g, j.m, n.m) && RecordsResults(x, j, n.m)
  }

  /** A history of the graph and of all workers, in any order. */
  ghost predicate IsHistory(x: Setting, base: map<StateWrites.Id, StateWrites.ThingRow>, h: seq<Joint>) {
    && |h| > 0 && (exists active, now, runs :: h[0] == Joint(Graph.Initial(active), Ledger.Start(now, runs, base)))
    && (forall i, k | 0 <= i && k == i + 1 < |h| :: LedgerSteps(x, h[i], h[k]) || GraphSteps(x, h[i], h[k]))
  }

  // ----- what agrees

  ghost predicate RowsStarted(x: Setting, j: Joint) {
    forall k | k in j.s.db.tools && k.0 == x.run ::
      exists a :: a in j.m.attempted && k == x.KeyFor(a) && CallsFor(j.s.db.tools[k].call, a)
  }

  ghost predicate RecordsHold(x: Setting, j: Joint) {
    forall a | a in GraphSafety.Actions(j.m.dispatched) :: a in j.m.attempted && (a.slot.Single? ==> HasResult(j.s, x.KeyFor(a)))
  }

  ghost predicate Linked(x: Setting, base: map<StateWrites.Id, StateWrites.ThingRow>, j: Joint) {
    Graph.Reachable(x.g, j.m) && Ledger.Reachable(x.c, base, j.s) && RowsStarted(x, j) && RecordsHold(x, j)
  }

  /** A row that was not there before is that of a claim. */
  lemma NewRow(s: Ledger.Sys, e: Ledger.Event, k: ToolLedger.ActionKey)
    requires k in Ledger.Next(s, e).db.tools && k !in s.db.tools
    ensures e.Claim? && e.k == k && Ledger.Next(s, e).db.tools[k].call == e.call
  {
    hide StateWrites.AfterWrite, ToolLedger.SameCall, ToolLedger.SameContract, ToolLedger.Owns, ToolLedger.Finished, ToolLedger.TakenOver;
  }

  lemma LedgerKeepsLink(x: Setting, base: map<StateWrites.Id, StateWrites.ThingRow>, j: Joint, n: Joint)
    requires x.Valid() && Linked(x, base, j) && LedgerSteps(x, j, n)
    ensures Linked(x, base, n)
  {
    hide Ledger.Next, Ledger.Enabled, Ledger.Reachable, Graph.Reachable, Ledger.RowsOk, Graph.ActionId;
    var e :| Ledger.Enabled(x.c, j.s, e) && ClaimsStarted(x, j, e) && n.s == Ledger.Next(j.s, e);
    Ledger.StepIsReachable(x.c, base, j.s, e);
    Ledger.CallsStay(j.s, e);
    forall k | k in n.s.db.tools && k.0 == x.run
      ensures exists a :: a in n.m.attempted && k == x.KeyFor(a) && CallsFor(n.s.db.tools[k].call, a)
    {
      if k !in j.s.db.tools {
        NewRow(j.s, e, k);
      }
    }
    Ledger.ReachableRows(x.c, base, j.s);
    forall a | a in GraphSafety.Actions(n.m.dispatched)
      ensures a in n.m.attempted && (a.slot.Single? ==> HasResult(n.s, x.KeyFor(a)))
    {
      if a.slot.Single? {
        Ledger.ResultStays(j.s, e, x.KeyFor(a));
      }
    }
  }

  /** A graph step only adds started actions, and records none that it has not started. */
  lemma StartedGrow(g: Graph.Graph, m: Graph.Machine, n: Graph.Machine)
    requires Graph.Steps(g, m, n)
    ensures m.attempted <= n.attempted
    ensures forall a | a in GraphSafety.Actions(n.dispatched) :: a in GraphSafety.Actions(m.dispatched) || a in n.attempted
  {
    hide Graph.VisitNode, Graph.Due, Graph.Crashes;
    if i :| n == Graph.Visit(g, m, i) {
      var due := Graph.Due(g, m.node, m.state);
      assert n.dispatched == m.dispatched + Graph.Dispatches(due, Graph.ViewOf(m.state), Graph.OutcomesOf(m.node, i));
    } else {
      CrashStarts(g, m, n);
    }
  }

  lemma CrashStarts(g: Graph.Graph, m: Graph.Machine, n: Graph.Machine)
    requires Graph.Crashes(g, m, n)
    ensures m.attempted <= n.attempted && n.dispatched == m.dispatched
  {
    hide Graph.Due;
  }

  lemma GraphKeepsLink(x: Setting, base: map<StateWrites.Id, StateWrites.ThingRow>, j: Joint, n: Joint)
    requires Linked(x, base, j) && GraphSteps(x, j, n)
    ensures Linked(x, base, n)
  {
    hide Graph.Steps, Graph.Reachable, Ledger.Reachable, Graph.ActionId;
    Graph.StepIsReachable(x.g, j.m, n.m);
    StartedGrow(x.g, j.m, n.m);
  }

  lemma {:induction false} HistoryIsLinked(x: Setting, base: map<StateWrites.Id, StateWrites.ThingRow>, h: seq<Joint>)
    requires x.Valid() && IsHistory(x, base, h)
    ensures Linked(x, base, h[|h| - 1])
    decreases |h|
  {
    hide Linked, LedgerSteps, GraphSteps;
    if |h| == 1 {
      StartIsLinked(x, base, h[0]);
    } else {
      var front := h[..|h| - 1];
      assert forall i | 0 <= i < |front| :: front[i] == h[i];
      HistoryIsLinked(x, base, front);
      var i, k := |h| - 2, |h| - 1;
      if LedgerSteps(x, h[i], h[k]) {
        LedgerKeepsLink(x, base, h[i], h[k]);
      } else {
        GraphKeepsLink(x, base, h[i], h[k]);
      }
    }
  }

  lemma StartIsLinked(x: Setting, base: map<StateWrites.Id, StateWrites.ThingRow>, j: Joint)
    requires exists active, now, runs :: j == Joint(Graph.Initial(active), Ledger.Start(now, runs, base))
    ensures Linked(x, base, j)
  {
    hide Graph.Reachable, Ledger.Reachable;
    var active, now, runs :| j == Joint(Graph.Initial(active), Ledger.Start(now, runs, base));
    Graph.InitialIsReachable(x.g, active);
    Ledger.StartIsReachable(x.c, base, now, runs);
  }

  // ----- what histories guarantee

  /** Over all crashes and retries of a graph run, beside whatever other workers do: the effects of the Run are those of actions that its
      graph recorded or is about to record, different actions have different effects, and each action has at most one, made by a call
      of its own tool with its own arguments. */
  lemma EachActionHasOneEffect(x: Setting, base: map<StateWrites.Id, StateWrites.ThingRow>, h: seq<Joint>, i: nat)
    requires x.Valid() && IsHistory(x, base, h)
    requires var audit := h[|h| - 1].s.db.state.audit; i < |audit| && audit[i].key.Agent? && audit[i].key.run == x.run
    ensures var j := h[|h| - 1];
            var audit := j.s.db.state.audit;
            exists a ::
              && a in j.m.attempted && audit[i].key == x.AuditKey(a)
              && (a in GraphSafety.Actions(j.m.dispatched) || a in Graph.Due(x.g, j.m.node, j.m.state))
              && x.KeyFor(a) in j.s.db.tools && CallsFor(j.s.db.tools[x.KeyFor(a)].call, a)
              && (forall b | b in j.m.attempted && audit[i].key == x.AuditKey(b) :: b == a)
              && (forall k | 0 <= k < |audit| && audit[k].key == x.AuditKey(a) :: k == i)
  {
    hide Graph.Reachable, Ledger.Reachable, Graph.ActionId, Graph.Due, LedgerSteps, GraphSteps;
    HistoryIsLinked(x, base, h);
    var j := h[|h| - 1];
    var audit := j.s.db.state.audit;
    var key: ToolLedger.ActionKey := (audit[i].key.run, audit[i].key.action);
    assert StateWrites.Recorded(audit, Ledger.KeyOf(key));
    Ledger.SuccessHasEffect(x.c, base, j.s, key);
    var a :| a in j.m.attempted && key == x.KeyFor(a) && CallsFor(j.s.db.tools[key].call, a);
    GraphTheorems.RetriesReuseTheirIds(x.g, j.m, a, a);
    forall b | b in j.m.attempted && audit[i].key == x.AuditKey(b) ensures b == a {
      GraphTheorems.RetriesReuseTheirIds(x.g, j.m, a, b);
    }
    Ledger.EffectsHappenOnce(x.c, base, j.s);
  }

  /** A recorded single action has its final result in the ledger: no later retry can execute it again. On the atomic path it has changed
      the state exactly if that result is a success. */
  lemma RecordedActionIsSettled(x: Setting, base: map<StateWrites.Id, StateWrites.ThingRow>, h: seq<Joint>, a: Graph.Action, es: seq<Ledger.Event>)
    requires x.Valid() && IsHistory(x, base, h)
    requires a in GraphSafety.Actions(h[|h| - 1].m.dispatched) && a.slot.Single?
    ensures var s, k := h[|h| - 1].s, x.KeyFor(a);
            && HasResult(s, k) && k in Ledger.Run(s, es).db.tools && Ledger.Run(s, es).db.tools[k] == s.db.tools[k]
            && CallsFor(s.db.tools[k].call, a)
            && (s.db.tools[k].call.replaySafe && Ledger.PairOf(s.db.tools[k].call) in x.c.bound ==>
                  (s.db.tools[k].status == ToolLedger.Succeeded <==> StateWrites.Recorded(s.db.state.audit, x.AuditKey(a))))
  {
    hide Graph.Reachable, Ledger.Reachable, Graph.ActionId, LedgerSteps, GraphSteps, StateWrites.Recorded, Ledger.Run;
    HistoryIsLinked(x, base, h);
    var j, k := h[|h| - 1], x.KeyFor(a);
    Ledger.ResultIsFinal(x.c, base, j.s, es, k);
    var b :| b in j.m.attempted && k == x.KeyFor(b) && CallsFor(j.s.db.tools[k].call, b);
    GraphTheorems.RetriesReuseTheirIds(x.g, j.m, a, b);
    if j.s.db.tools[k].call.replaySafe && Ledger.PairOf(j.s.db.tools[k].call) in x.c.bound {
      Ledger.ReceiptExactlyWithEffect(x.c, base, j.s, k);
    }
  }
}
