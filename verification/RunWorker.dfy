/** One pass of the run worker (workers/agent.py) with checkpoint reconciliation (application/runtime/dto.py), proved to take only
    the steps of the protocol whose histories RunSafety covers. */
module RunWorker {
  import opened Wrappers
  import opened DurableJobs
  import opened RunLifecycle
  import opened RunSafety
  import Service = RunService
  import PyText

  // ----- checkpoints

  // An action left pending in a checkpoint, and whether its id and tool name are usable text.
  datatype PendingAction = PendingAction(wellFormed: bool)

  datatype Checkpoint = Checkpoint(terminal: Option<TerminalOutput>, interrupt: Option<InteractionId>, pending: seq<PendingAction>)

  datatype Reconciliation = Reexecute | ReconcileTools | WaitForUser | Finalize | FailInconsistency

  function Reconcile(status: RunStatus, c: Checkpoint): Reconciliation {
    if c.terminal.Some? then Finalize
    else if c.interrupt.Some? then WaitForUser
    else if c.pending != [] then
      if exists i | 0 <= i < |c.pending| :: !c.pending[i].wellFormed then FailInconsistency else ReconcileTools
    else if status == WaitingForUser then FailInconsistency
    else Reexecute
  }

  /** A claimed Run is RUNNING, so only unusable pending actions make its checkpoint inconsistent; a terminal output always wins. */
  lemma ReconcileRunning(c: Checkpoint)
    ensures Reconcile(Running, c) == FailInconsistency <==>
            c.terminal.None? && c.interrupt.None? && exists i | 0 <= i < |c.pending| :: !c.pending[i].wellFormed
    ensures Reconcile(Running, c) == Finalize <==> c.terminal.Some?
    ensures Reconcile(Running, c) == WaitForUser ==> c.interrupt.Some?
  {
  }

  // ----- one pass

  /** How the graph invocation ends: with an interrupt, an output, or an exception that carries an error code. */
  datatype GraphEnd = Interrupted(interaction: InteractionId) | Answered(response: Option<string>) | Threw(code: string)

  /** A history of steps that leads from one system to the other. */
  ghost predicate Follows(s: Sys, es: seq<Event>, t: Sys) {
    Possible(s, es) && t == Run(s, es)
  }

  lemma OneMoreStep(s: Sys, es: seq<Event>, t: Sys, e: Event)
    requires Follows(s, es, t) && Enabled(t, e)
    ensures Follows(s, es + [e], Next(t, e))
  {
    hide Next, Enabled;
    assert (es + [e])[..|es|] == es;
  }

  class AgentRunWorker {
    const runtime: Service.RuntimeService
    const owner: Worker

    constructor (runtime: Service.RuntimeService, owner: Worker)
      ensures this.runtime == runtime && this.owner == owner
    {
      this.runtime, this.owner := runtime, owner;
    }

    /** Fails the Run of the session; its own failure is left to the caller. */
    method FailRun(h: Session, code: string, ghost s: Sys, ghost es: seq<Event>, ghost t: Sys) returns (ghost more: seq<Event>, ghost u: Sys)
      requires Follows(s, es, t) && t.db == runtime.Rows() && h in t.sessions
      modifies runtime
      ensures Follows(s, more, u) && u.db == runtime.Rows() == AfterTransition(t.db, h.run, GiveUp(code), FenceOf(h)).1
    {
      hide Possible, Run, AfterTransition;
      var _ := runtime.WorkerTransition(h.run, GiveUp(code), Fence(h.owner, Some(h.token)));
      OneMoreStep(s, es, t, RunSafety.FailRun(h, code));
      more, u := es + [RunSafety.FailRun(h, code)], Next(t, RunSafety.FailRun(h, code));
    }

    method WaitForInput(h: Session, interaction: InteractionId, ghost s: Sys, ghost es: seq<Event>, ghost t: Sys)
      returns (ok: bool, ghost more: seq<Event>, ghost u: Sys)
      requires Follows(s, es, t) && t.db == runtime.Rows() && h in t.sessions && h.Holding? && h.snapshot == None
      modifies runtime
      ensures Follows(s, more, u) && u.db == runtime.Rows() && (!ok ==> h in u.sessions)
      ensures var (r, db) := AfterTransition(t.db, h.run, Wait(interaction), FenceOf(h)); ok == r.Ok? && u.db == db
    {
      hide Possible, Run, AfterTransition;
      var r := runtime.WorkerTransition(h.run, Wait(interaction), Fence(h.owner, Some(h.token)));
      ok := r.Ok?;
      RefusedTransitionKeeps(t.db, h.run, Wait(interaction), FenceOf(h));
      OneMoreStep(s, es, t, WaitRun(h, interaction));
      more, u := es + [WaitRun(h, interaction)], Next(t, WaitRun(h, interaction));
    }

    method CompleteRun(h: Session, content: string, ghost s: Sys, ghost es: seq<Event>, ghost t: Sys)
      returns (ok: bool, ghost more: seq<Event>, ghost u: Sys)
      requires Follows(s, es, t) && t.db == runtime.Rows() && h in t.sessions && Content(h) == Some(content)
      modifies runtime
      ensures Follows(s, more, u) && u.db == runtime.Rows() && (!ok ==> h in u.sessions)
      ensures var (r, db) := AfterTransition(t.db, h.run, Finish(content), FenceOf(h)); ok == r.Ok? && u.db == db
      ensures ok ==> GivenBack(u.db, h.run)
    {
      hide Possible, Run, AfterTransition, PyText.Strip, Content;
      FinishReleases(t.db, h, content);
      var r := runtime.WorkerTransition(h.run, Finish(content), Fence(h.owner, Some(h.token)));
      ok := r.Ok?;
      RefusedTransitionKeeps(t.db, h.run, Finish(content), FenceOf(h));
      OneMoreStep(s, es, t, FinishRun(h));
      more, u := es + [FinishRun(h)], Next(t, FinishRun(h));
    }

    /** One pass over a Run; status is None when the pass raises. Every unit of work that it commits is a step that the protocol allows.
        What an undisturbed pass makes of a Run that it can claim is determined by the budget, the stored terminal output and the graph.
        memoryFails stands for an exception of memory formation, which runs last: the pass raises, and the Run stays completed. */
    method RunOnce(run: RunId, leaseSeconds: int, withinBudget: bool, inspected: Option<Checkpoint>, end: GraphEnd, leaseLost: bool,
                   memoryFails: bool, ghost s: Sys)
      returns (status: Option<RunStatus>, ghost es: seq<Event>, ghost t: Sys)
      requires s.db == runtime.Rows()
      modifies runtime
      ensures Follows(s, es, t) && t.db == runtime.Rows()
      ensures !CanClaim(s.db, run) ==> t.db == s.db && status == if run in s.db.runs then Some(s.db.runs[run].status) else None
      ensures CanClaim(s.db, run) && !withinBudget ==> status == Some(Broken) && EndsAs(s.db, t.db, run, Broken)
      ensures CanClaim(s.db, run) && withinBudget && s.db.runs[run].terminal.Some? ==>
                var out := s.db.runs[run].terminal.value;
                if Usable(out) then status == Some(Done) && Answers(s.db, t.db, run, out.response.value, out)
                else status == Some(Broken) && EndsAs(s.db, t.db, run, Broken)
      ensures CanClaim(s.db, run) && withinBudget && s.db.runs[run].terminal.None? && Invokes(inspected) && end.Answered? ==>
                if UsableEnd(end) && !leaseLost
                then
                  && status == (if memoryFails then None else Some(Done))
                  && Answers(s.db, t.db, run, end.response.value, TerminalOutput(Some(PyText.Strip(end.response.value)), 0))
                else status == None && EndsAs(s.db, t.db, run, Broken)
      ensures CanClaim(s.db, run) && withinBudget && s.db.runs[run].terminal.None? && Invokes(inspected) && end.Threw? ==>
                status == None && EndsAs(s.db, t.db, run, Broken)
    {
      hide Possible, Run, Follows, AfterClaim, AfterTransition, AfterAccept, PyText.Strip, Next, Enabled, CanClaim, Held, HeldWithoutOutput,
           EndsAs, Answers, GivenBack;
      es, t := [], s;
      NoSteps(s);
      var claimed := runtime.ClaimRun(run, owner, leaseSeconds);
      ClaimStep(s, run, owner, leaseSeconds);
      OneMoreStep(s, [], s, ClaimRun(run, owner, leaseSeconds));
      es, t := [] + [ClaimRun(run, owner, leaseSeconds)], Next(s, ClaimRun(run, owner, leaseSeconds));
      ClaimHolds(s.db, run, owner, leaseSeconds);
      if claimed == None {
        status := if run in runtime.runs then Some(runtime.runs[run].status) else None;
        return;
      }
      var token, terminal := claimed.value.token.value, claimed.value.terminal;
      var h := Holding(run, owner, token, terminal);
      if !withinBudget {
        HeldFails(s.db, t.db, h, "BUDGET_EXHAUSTED");
        es, t := FailRun(h, "BUDGET_EXHAUSTED", s, es, t);
        return Some(Broken), es, t;
      }
      if terminal.Some? {
        if terminal.value.response.None? || PyText.Strip(terminal.value.response.value) == "" {
          HeldFails(s.db, t.db, h, "RUNTIME_INCONSISTENCY");
          es, t := FailRun(h, "RUNTIME_INCONSISTENCY", s, es, t);
          return Some(Broken), es, t;
        }
        HeldFinishes(s.db, t.db, h, terminal.value.response.value, terminal.value);
        var _, more, u := CompleteRun(h, terminal.value.response.value, s, es, t);
        es, t := more, u;
        return Some(Done), es, t;
      }
      if inspected.Some? {
        var c := inspected.value;
        match Reconcile(Running, c) {
          case FailInconsistency =>
            es, t := FailRun(h, "RUNTIME_INCONSISTENCY", s, es, t);
            return Some(Broken), es, t;
          case Finalize =>
            var ok, more, u := FinalizeFrom(h, c.terminal.value, s, es, t);
            return if ok then Some(Done) else None, more, u;
          case WaitForUser =>
            var ok, more, u := WaitForInput(h, c.interrupt.value, s, es, t);
            return if ok then Some(WaitingForUser) else None, more, u;
          case _ =>
        }
      }
      match end {
        case Threw(code) =>
          HeldFails(s.db, t.db, h, code);
          es, t := FailRun(h, code, s, es, t);
          status := None;
        case Interrupted(interaction) =>
          var ok, more, u := WaitForInput(h, interaction, s, es, t);
          es, t := more, u;
          if !ok {
            es, t := FailRun(h, "AGENT_EXECUTION_FAILED", s, es, t);
          }
          status := if ok then Some(WaitingForUser) else None;
        case Answered(response) =>
          if response.None? || PyText.Strip(response.value) == "" || leaseLost {
            HeldFails(s.db, t.db, h, "AGENT_EXECUTION_FAILED");
            es, t := FailRun(h, "AGENT_EXECUTION_FAILED", s, es, t);
            return None, es, t;
          }
          ghost var claimedDb := t.db;
          var ok, more, u := FinishWith(h, response.value, s, es, t);
          es, t := more, u;
          SameAnswer(s.db, claimedDb, t.db, run, response.value, TerminalOutput(Some(PyText.Strip(response.value)), 0));
          if ok && memoryFails {
            GivenBackRefuses(t.db, h, "AGENT_EXECUTION_FAILED");
            var _ := runtime.WorkerTransition(run, GiveUp("AGENT_EXECUTION_FAILED"), Fence(owner, Some(token)));
          }
          status := if ok && !memoryFails then Some(Done) else None;
      }
    }

    /** A checkpoint with a terminal output: accept it, then complete from it; an exception here ends the pass. */
    method FinalizeFrom(h: Session, output: TerminalOutput, ghost s: Sys, ghost es: seq<Event>, ghost t: Sys)
      returns (ok: bool, ghost more: seq<Event>, ghost u: Sys)
      requires Follows(s, es, t) && t.db == runtime.Rows() && h in t.sessions && h.Holding? && h.snapshot == None
      modifies runtime
      ensures Follows(s, more, u) && u.db == runtime.Rows()
    {
      hide Possible, Run, Follows, AfterTransition, AfterAccept, PyText.Strip, Next, Enabled;
      var r := runtime.AcceptTerminalOutput(h.run, output, h.owner, h.token);
      CheckpointStep(t, h, output);
      OneMoreStep(s, es, t, AcceptCheckpoint(h, output));
      more, u := es + [AcceptCheckpoint(h, output)], Next(t, AcceptCheckpoint(h, output));
      if r.Err? || output.response.None? || PyText.Strip(output.response.value) == "" {
        return false, more, u;
      }
      var response := output.response.value;
      ok, more, u := CompleteRun(Finishing(h.run, h.owner, h.token, response), response, s, more, u);
    }

    /** The graph has answered: accept its stripped response, then complete with it; any refusal fails the Run. */
    method FinishWith(h: Session, response: string, ghost s: Sys, ghost es: seq<Event>, ghost t: Sys)
      returns (ok: bool, ghost more: seq<Event>, ghost u: Sys)
      requires Follows(s, es, t) && t.db == runtime.Rows() && h in t.sessions && h.Holding? && h.snapshot == None
      requires PyText.Strip(response) != ""
      modifies runtime
      ensures Follows(s, more, u) && u.db == runtime.Rows()
      ensures ok ==> GivenBack(u.db, h.run)
      ensures HeldWithoutOutput(t.db, h) ==> ok && Answers(t.db, u.db, h.run, response, TerminalOutput(Some(PyText.Strip(response)), 0))
    {
      hide Possible, Run, Follows, AfterTransition, AfterAccept, PyText.Strip, Next, Enabled, Held, HeldWithoutOutput, Answers, GivenBack;
      var output := TerminalOutput(Some(PyText.Strip(response)), 0);
      ghost var held := HeldWithoutOutput(t.db, h);
      if held {
        HeldAccepts(t.db, h, output);
      }
      var r := runtime.AcceptTerminalOutput(h.run, output, h.owner, h.token);
      GraphStep(t, h, response);
      OneMoreStep(s, es, t, AcceptGraph(h, response));
      more, u := es + [AcceptGraph(h, response)], Next(t, AcceptGraph(h, response));
      if r.Err? {
        more, u := FailRun(h, "AGENT_EXECUTION_FAILED", s, more, u);
        return false, more, u;
      }
      var g := Finishing(h.run, h.owner, h.token, response);
      if held {
        HeldFinishes(t.db, u.db, g, response, output);
      }
      ok, more, u := CompleteRun(g, response, s, more, u);
      if !ok {
        more, u := FailRun(g, "AGENT_EXECUTION_FAILED", s, more, u);
      }
    }
  }

  // ----- what an undisturbed pass reaches

  predicate CanClaim(db: Db, run: RunId) { run in db.runs && Claimable(db.runs[run], db.now) }

  /** The pass goes on to invoke the graph. */
  predicate Invokes(inspected: Option<Checkpoint>) {
    inspected.None? || Reconcile(Running, inspected.value) == Reexecute || Reconcile(Running, inspected.value) == ReconcileTools
  }

  predicate UsableEnd(end: GraphEnd)
    requires end.Answered?
  {
    end.response.Some? && PyText.Strip(end.response.value) != ""
  }

  ghost predicate Held(db: Db, h: Session) {
    h.run in db.runs && db.runs[h.run].status == Running && HoldsRun(db.runs[h.run], h.owner, h.token)
  }

  ghost predicate HeldWithoutOutput(db: Db, h: Session) { Held(db, h) && db.runs[h.run].terminal == None }

  lemma SameAnswer(a: Db, b: Db, after: Db, run: RunId, response: string, output: TerminalOutput)
    requires a.messages == b.messages
    ensures Answers(a, after, run, response, output) <==> Answers(b, after, run, response, output)
  {
    hide PyText.Strip;
  }

  /** The Run has reached the status without a new message. */
  ghost predicate EndsAs(before: Db, after: Db, run: RunId, status: RunStatus) {
    run in after.runs && after.runs[run].status == status && after.messages == before.messages
  }

  /** The Run is completed from the output, and its answer is the one new message. */
  ghost predicate Answers(before: Db, after: Db, run: RunId, response: string, output: TerminalOutput) {
    && run in after.runs && after.runs[run].status == Done && after.runs[run].terminal == Some(output)
    && after.messages == before.messages + [Message(run, Assistant, PyText.Strip(response))]
    && after.runs[run].finalMessage == Some(|before.messages|)
  }

  lemma ClaimHolds(db: Db, run: RunId, owner: Worker, leaseSeconds: int)
    ensures var (claimed, after) := AfterClaim(db, run, owner, leaseSeconds);
            && (claimed.Some? <==> CanClaim(db, run)) && (claimed.None? ==> after == db)
            && (claimed.Some? ==>
                  && claimed.value.token == Some(db.tokens) && claimed.value.terminal == db.runs[run].terminal
                  && Held(after, Holding(run, owner, db.tokens, claimed.value.terminal))
                  && (claimed.value.terminal.None? ==> HeldWithoutOutput(after, Holding(run, owner, db.tokens, None)))
                  && after.messages == db.messages && after.runs[run].terminal == db.runs[run].terminal)
  {
  }

  lemma HeldFails(before: Db, db: Db, h: Session, code: string)
    requires Held(db, h) && db.messages == before.messages
    ensures EndsAs(before, AfterTransition(db, h.run, GiveUp(code), FenceOf(h)).1, h.run, Broken)
  {
  }

  lemma HeldAccepts(db: Db, h: Session, output: TerminalOutput)
    requires HeldWithoutOutput(db, h)
    ensures var (r, after) := AfterAccept(db, h.run, output, h.owner, h.token);
            && r.Ok? && Held(after, h) && after.messages == db.messages && after.runs[h.run].terminal == Some(output)
            && h.run in after.runs && after.runs[h.run].status == Running && HoldsRun(after.runs[h.run], h.owner, h.token)
  {
  }

  /** The claim of the Run was given back. */
  predicate GivenBack(db: Db, run: RunId) { run in db.runs && db.runs[run].token == None }

  lemma FinishReleases(db: Db, h: Session, content: string)
    ensures var (r, after) := AfterTransition(db, h.run, Finish(content), FenceOf(h)); r.Ok? ==> GivenBack(after, h.run)
  {
    hide PyText.Strip;
  }

  lemma GivenBackRefuses(db: Db, h: Session, code: string)
    requires GivenBack(db, h.run)
    ensures AfterTransition(db, h.run, GiveUp(code), FenceOf(h)) == (Err(LeaseLost), db)
  {
  }

  lemma HeldFinishes(before: Db, db: Db, h: Session, response: string, output: TerminalOutput)
    requires h.run in db.runs && db.runs[h.run].status == Running && HoldsRun(db.runs[h.run], h.owner, h.token)
    requires db.messages == before.messages && db.runs[h.run].terminal == Some(output) && PyText.Strip(response) != ""
    ensures var (r, after) := AfterTransition(db, h.run, Finish(response), FenceOf(h)); r.Ok? && Answers(before, after, h.run, response, output)
  {
    hide PyText.Strip;
  }

  lemma NoSteps(s: Sys)
    ensures Follows(s, [], s)
  {
  }

  lemma ClaimStep(s: Sys, run: RunId, owner: Worker, leaseSeconds: int)
    ensures var e := ClaimRun(run, owner, leaseSeconds);
            var (claimed, db) := AfterClaim(s.db, run, owner, leaseSeconds);
            && Enabled(s, e) && Next(s, e).db == db
            && (claimed.Some? ==> Holding(run, owner, s.db.tokens, claimed.value.terminal) in Next(s, e).sessions)
  {
  }

  lemma CheckpointStep(t: Sys, h: Session, output: TerminalOutput)
    requires h in t.sessions && h.Holding? && h.snapshot == None
    ensures var e := AcceptCheckpoint(h, output);
            var (r, db) := AfterAccept(t.db, h.run, output, h.owner, h.token);
            && Enabled(t, e) && Next(t, e).db == db
            && (r.Ok? && Usable(output) ==> Finishing(h.run, h.owner, h.token, output.response.value) in Next(t, e).sessions)
  {
    hide PyText.Strip;
    RefusedAcceptKeeps(t.db, h.run, output, h.owner, h.token);
  }

  lemma GraphStep(t: Sys, h: Session, response: string)
    requires h in t.sessions && h.Holding? && h.snapshot == None && PyText.Strip(response) != ""
    ensures var e := AcceptGraph(h, response);
            var (r, db) := AfterAccept(t.db, h.run, TerminalOutput(Some(PyText.Strip(response)), 0), h.owner, h.token);
            && Enabled(t, e) && Next(t, e).db == db
            && (if r.Ok? then Finishing(h.run, h.owner, h.token, response) in Next(t, e).sessions else h in Next(t, e).sessions)
  {
    hide PyText.Strip;
    RefusedAcceptKeeps(t.db, h.run, TerminalOutput(Some(PyText.Strip(response)), 0), h.owner, h.token);
  }

  lemma RefusedTransitionKeeps(db: Db, run: RunId, action: WorkerAction, f: Fence)
    ensures var (r, after) := AfterTransition(db, run, action, f); r.Err? ==> after == db
  {
    hide PyText.Strip, PendingExists;
  }

  lemma RefusedAcceptKeeps(db: Db, run: RunId, output: TerminalOutput, owner: Worker, token: Token)
    ensures var (r, after) := AfterAccept(db, run, output, owner, token); r.Err? ==> after == db
  {
  }

  /** What RunSafety proves of reachable states holds after a pass that began in one. */
  lemma {:induction false} PassStaysReachable(s: Sys, es: seq<Event>, t: Sys)
    requires Reachable(s) && Follows(s, es, t)
    ensures Reachable(t)
  {
    hide Next, Enabled, Reachable;
    if es != [] {
      var front := es[..|es| - 1];
      PassStaysReachable(s, front, Run(s, front));
      StepStaysReachable(Run(s, front), es[|es| - 1]);
    }
  }

  lemma StepStaysReachable(s: Sys, e: Event)
    requires Reachable(s) && Enabled(s, e)
    ensures Reachable(Next(s, e))
  {
    hide Next, Enabled;
    var now, es :| Possible(Start(now), es) && s == Run(Start(now), es);
    var longer := es + [e];
    assert longer[..|es|] == es;
    assert Possible(Start(now), longer) && Next(s, e) == Run(Start(now), longer);
  }
}
