/** Runs, interactions, jobs and final messages over whole histories of workers that crash, lose their leases and keep trying
    (workers/agent.py). */
module RunSafety {
  import opened Wrappers
  import opened DurableJobs
  import opened RunLifecycle
  import PyText

  /** A worker between two units of work on a Run that it claimed: with the terminal output that its claim returned, or after it
      got its own output accepted. */
  datatype Session =
    | Holding(run: RunId, owner: Worker, token: Token, snapshot: Option<TerminalOutput>)
    | Finishing(run: RunId, owner: Worker, token: Token, response: string)

  /** The rows, what the workers remember, and the history of accepted terminal outputs. */
  datatype Sys = Sys(db: Db, sessions: set<Session>, accepts: seq<(RunId, TerminalOutput)>)

  datatype Event =
    | Tick(seconds: nat)
    | Create(run: RunId, input: Input)
    | ClaimRun(run: RunId, owner: Worker, leaseSeconds: int)
    | Renew(session: Session, leaseSeconds: int)
    | Recover(run: RunId)
    | AcceptGraph(session: Session, response: string)
    | AcceptCheckpoint(session: Session, output: TerminalOutput)
    | FinishRun(session: Session)
    | WaitRun(session: Session, interaction: InteractionId)
    | FailRun(session: Session, code: string)
    | Crash(session: Session)
    | ChangeRun(run: RunId, version: nat, key: Key, change: Change)
    | ClaimJobs(ids: seq<RunId>, owner: Worker, leaseUntil: int)
    | RenewJob(run: RunId, owner: Worker, epoch: nat, leaseUntil: int)
    | SettleJob(run: RunId, owner: Worker, epoch: nat)

  predicate Usable(o: TerminalOutput) { o.response.Some? && PyText.Strip(o.response.value) != "" }

  /** The text that the session completes its Run with, if it is that far. */
  function Content(s: Session): Option<string> {
    match s
    case Finishing(_, _, _, response) => Some(response)
    case Holding(_, _, _, snapshot) => if snapshot.Some? && Usable(snapshot.value) then snapshot.value.response else None
  }

  /** What workers do: with no terminal output in their snapshot they run the graph or finalize a checkpoint, and get its output
      accepted before they complete; with one, they complete from it. Anything may fail or stop at any time. */
  ghost predicate Enabled(s: Sys, e: Event) {
    match e
    case AcceptGraph(h, response) => h in s.sessions && h.Holding? && h.snapshot == None && PyText.Strip(response) != ""
    case AcceptCheckpoint(h, _) => h in s.sessions && h.Holding? && h.snapshot == None
    case WaitRun(h, _) => h in s.sessions && h.Holding? && h.snapshot == None
    case FinishRun(h) => h in s.sessions && Content(h).Some?
    case FailRun(h, _) => h in s.sessions
    case Renew(h, _) => h in s.sessions
    case _ => true
  }

  function FenceOf(h: Session): Fence { Fence(h.owner, Some(h.token)) }

  function Accept(s: Sys, h: Session, output: TerminalOutput, next: set<Session>): Sys {
    var (r, db) := AfterAccept(s.db, h.run, output, h.owner, h.token);
    if r.Ok? then Sys(db, s.sessions - {h} + next, s.accepts + [(h.run, output)]) else s
  }

  /** The session ends when its action succeeds; an action that is refused leaves it to fail the Run. */
  function Act(s: Sys, h: Session, action: WorkerAction): Sys {
    var (r, db) := AfterTransition(s.db, h.run, action, FenceOf(h));
    if r.Ok? then s.(db := db, sessions := s.sessions - {h}) else s
  }

  function Next(s: Sys, e: Event): Sys {
    match e
    case Tick(seconds) => s.(db := s.db.(now := s.db.now + seconds))
    case Create(run, input) => s.(db := AfterCreate(s.db, run, input).1)
    case ClaimRun(run, owner, seconds) =>
      var (claimed, db) := AfterClaim(s.db, run, owner, seconds);
      if claimed.Some? then s.(db := db, sessions := s.sessions + {Holding(run, owner, s.db.tokens, claimed.value.terminal)}) else s
    case Renew(h, seconds) => s.(db := AfterRenewLease(s.db, h.run, h.owner, h.token, seconds).1)
    case Recover(run) => s.(db := AfterRecover(s.db, run))
    case AcceptGraph(h, response) =>
      Accept(s, h, TerminalOutput(Some(PyText.Strip(response)), 0), {Finishing(h.run, h.owner, h.token, response)})
    case AcceptCheckpoint(h, output) =>
      Accept(s, h, output, if Usable(output) then {Finishing(h.run, h.owner, h.token, output.response.value)} else {})
    case FinishRun(h) =>
      if Content(h).Some? then Act(s, h, Finish(Content(h).value)) else s
    case WaitRun(h, interaction) => Act(s, h, Wait(interaction))
    case FailRun(h, code) => s.(db := AfterTransition(s.db, h.run, GiveUp(code), FenceOf(h)).1, sessions := s.sessions - {h})
    case Crash(h) => s.(sessions := s.sessions - {h})
    case ChangeRun(run, version, key, change) => s.(db := AfterChange(s.db, run, version, key, change).1)
    case ClaimJobs(ids, owner, leaseUntil) =>
      s.(db := s.db.(jobs := ClaimEach(AfterRequeue(s.db.jobs, s.db.now), ids, owner, s.db.now, leaseUntil)))
    case RenewJob(run, owner, epoch, leaseUntil) => s.(db := s.db.(jobs := AfterRenew(s.db.jobs, run, owner, epoch, leaseUntil)))
    case SettleJob(run, owner, epoch) => s.(db := AfterSettleJob(s.db, run, owner, epoch).1)
  }

  function Run(s: Sys, es: seq<Event>): Sys {
    if es == [] then s else Next(Run(s, es[..|es| - 1]), es[|es| - 1])
  }

  ghost predicate Possible(s: Sys, es: seq<Event>) {
    es == [] || (Possible(s, es[..|es| - 1]) && Enabled(Run(s, es[..|es| - 1]), es[|es| - 1]))
  }

  function Start(now: int): Sys { Sys(Db(now, map[], map[], map[], [], map[], 0, map[]), {}, []) }

  // ----- what agrees in every reachable state

  /** A Run has an owner, a token, a lease and a running clock exactly while it is RUNNING. */
  ghost predicate ClaimOk(db: Db, r: RunRow) {
    && (r.owner.Some? <==> r.status == Running) && (r.token.Some? <==> r.status == Running) && (r.lease.Some? <==> r.status == Running)
    && (r.activeStarted.Some? <==> r.status == Running) && (r.token.Some? ==> r.token.value < db.tokens)
  }

  ghost predicate ClaimsOk(db: Db) {
    forall id | id in db.runs :: ClaimOk(db, db.runs[id])
  }

  /** A waiting Run has its interrupt pending, and a pending interaction is the interrupt of a Run that waits or was cancelled while waiting. */
  ghost predicate WaitingOk(db: Db, id: RunId)
    requires id in db.runs
  {
    var r := db.runs[id];
    && (r.status == WaitingForUser ==> r.interruptId.Some? && r.interruptId.value in db.interactions
                                       && db.interactions[r.interruptId.value] == Pending(id))
    && (r.interruptId.Some? ==> r.status == WaitingForUser || r.status == Aborted)
  }

  ghost predicate PendingOk(db: Db, i: InteractionId)
    requires i in db.interactions
  {
    db.interactions[i].Pending? ==>
      var run := db.interactions[i].run;
      run in db.runs && (db.runs[run].status == WaitingForUser || db.runs[run].status == Aborted) && db.runs[run].interruptId == Some(i)
  }

  ghost predicate InterruptsOk(db: Db) {
    && (forall id | id in db.runs :: WaitingOk(db, id))
    && (forall i | i in db.interactions :: PendingOk(db, i))
  }

  /** The job tells where its Run is. */
  ghost predicate JobOk(db: Db, id: RunId)
    requires id in db.runs && id in db.jobs
  {
    var j, status := db.jobs[id], db.runs[id].status;
    && WellHeld(j)
    && (j.status == Paused ==> status == WaitingForUser)
    && (j.status == Completed ==> status == Done || status == Broken)
    && (j.status == Cancelled ==> status == Aborted)
    && (j.status == Failed ==> j.exhausted)
    && (status == Aborted ==> j.status == Cancelled || j.status == Failed)
  }

  ghost predicate JobsOk(db: Db) {
    db.jobs.Keys == db.runs.Keys && forall id | id in db.runs :: JobOk(db, id)
  }

  /** A completed Run has its message; every assistant message is the final message of a completed Run. */
  ghost predicate FinalOk(db: Db, id: RunId)
    requires id in db.runs
  {
    var r := db.runs[id];
    r.status == Done ==>
      && r.terminal.Some? && r.terminal.value.response.Some? && r.finalMessage.Some? && r.finalMessage.value < |db.messages|
      && db.messages[r.finalMessage.value] == Message(id, Assistant, PyText.Strip(r.terminal.value.response.value))
  }

  ghost predicate MessageOk(db: Db, m: nat)
    requires m < |db.messages|
  {
    var run := db.messages[m].run;
    db.messages[m].role == Assistant ==> run in db.runs && db.runs[run].status == Done && db.runs[run].finalMessage == Some(m)
  }

  ghost predicate FinalsOk(db: Db) {
    && (forall id | id in db.runs :: FinalOk(db, id))
    && (forall m | 0 <= m < |db.messages| :: MessageOk(db, m))
  }

  /** What a worker remembers of a terminal output is what its Run has. */
  ghost predicate SessionOk(db: Db, h: Session) {
    && h.run in db.runs
    && match h
       case Holding(_, _, _, snapshot) => snapshot.Some? ==> db.runs[h.run].terminal == snapshot
       case Finishing(_, _, _, response) =>
         && db.runs[h.run].terminal.Some? && db.runs[h.run].terminal.value.response.Some?
         && PyText.Strip(db.runs[h.run].terminal.value.response.value) == PyText.Strip(response)
  }

  ghost predicate SessionsOk(s: Sys) {
    && (forall h | h in s.sessions :: SessionOk(s.db, h))
    && (forall k | 0 <= k < |s.accepts| :: s.accepts[k].0 in s.db.runs && s.db.runs[s.accepts[k].0].terminal == Some(s.accepts[k].1))
  }

  /** A terminal output was accepted before it was stored. */
  ghost predicate OutputsOk(s: Sys) {
    forall id | id in s.db.runs && s.db.runs[id].terminal.Some? :: (id, s.db.runs[id].terminal.value) in s.accepts
  }

  predicate IsInput(m: Message) { m.role != Assistant }

  ghost predicate HasKey(db: Db, id: RunId) {
    exists k :: k in db.keys && db.keys[k] == id
  }

  /** Runs and their keys stand one to one. */
  ghost predicate KeysOk(db: Db) {
    && (forall id :: id in db.runs.Keys <==> HasKey(db, id))
    && (forall j, k | j in db.keys && k in db.keys && db.keys[j] == db.keys[k] :: j == k)
  }

  ghost predicate HasInput(messages: seq<Message>, id: RunId) {
    exists m :: 0 <= m < |messages| && IsInput(messages[m]) && messages[m].run == id
  }

  /** Runs and their input messages stand one to one. */
  ghost predicate InputsOk(runs: set<RunId>, messages: seq<Message>) {
    && (forall id :: id in runs <==> HasInput(messages, id))
    && (forall m, n | 0 <= m < n < |messages| && IsInput(messages[m]) && IsInput(messages[n]) :: messages[m].run != messages[n].run)
  }

  ghost predicate RequestsOk(db: Db) { KeysOk(db) && InputsOk(db.runs.Keys, db.messages) }

  ghost predicate Invariant(s: Sys) {
    ClaimsOk(s.db) && InterruptsOk(s.db) && JobsOk(s.db) && FinalsOk(s.db) && SessionsOk(s) && OutputsOk(s) && RequestsOk(s.db)
  }

  // ----- one event

  /** How one event may move one Run: what it keeps, and which event moves it where. */
  ghost predicate RowMove(s: Sys, e: Event, n: Db, id: RunId)
    requires id in s.db.runs && id in n.runs
  {
    var r, t := s.db.runs[id], n.runs[id];
    && ClaimOk(n, t) && (r.status.Terminal() ==> t == r)
    && (r.terminal.Some? ==> t.terminal == r.terminal) && (t.terminal != r.terminal ==> e.AcceptGraph? || e.AcceptCheckpoint?)
    && (t.status == WaitingForUser ==> (r.status == WaitingForUser && t.interruptId == r.interruptId)
                                       || (r.status == Running && e.WaitRun? && e.session.run == id && t.interruptId == Some(e.interaction)
                                           && e.interaction in n.interactions && n.interactions[e.interaction] == Pending(id)))
    && (t.interruptId.Some? ==> t.interruptId == r.interruptId || t.status == WaitingForUser)
    && (r.status == WaitingForUser ==> t.status == WaitingForUser || (e.ChangeRun? && LeavesWaiting(n, r, t)))
    && (t.status == Aborted && r.status != Aborted ==> e.ChangeRun?)
    && (t.status == Done && r.status != Done ==>
          && r.status == Running && e.FinishRun? && e.session.run == id && Content(e.session).Some?
          && t.terminal == r.terminal && t.finalMessage == Some(|s.db.messages|)
          && n.messages == s.db.messages + [Message(id, Assistant, PyText.Strip(Content(e.session).value))])
  }

  /** A waiting Run is cancelled with its interrupt, or queued again with its interrupt resolved. */
  ghost predicate LeavesWaiting(n: Db, r: RunRow, t: RunRow) {
    || (t.status == Aborted && t.interruptId == r.interruptId)
    || (t.status == Queued && t.interruptId == None && r.interruptId.Some? && r.interruptId.value in n.interactions
        && n.interactions[r.interruptId.value].Resolved?)
  }

  lemma RowMoves(s: Sys, e: Event, id: RunId)
    requires ClaimsOk(s.db) && id in s.db.runs
    ensures id in Next(s, e).db.runs && RowMove(s, e, Next(s, e).db, id)
  {
    hide Next, RowMove, ClaimOk;
    assert ClaimOk(s.db, s.db.runs[id]);
    match e
    case FinishRun(_) => FinishMoves(s, e, id);
    case WaitRun(_, _) => WaitMoves(s, e, id);
    case FailRun(_, _) => FailMoves(s, e, id);
    case AcceptGraph(_, _) => AcceptMoves(s, e, id);
    case AcceptCheckpoint(_, _) => CheckpointMoves(s, e, id);
    case ChangeRun(_, _, _, change) =>
      if change.CancelRun? {
        CancelMoves(s, e, id);
      } else {
        ResumeMoves(s, e, id);
      }
    case ClaimRun(_, _, _) => ClaimMoves(s, e, id);
    case Renew(_, _) => RenewMoves(s, e, id);
    case Recover(_) => RecoverMoves(s, e, id);
    case _ => OtherMoves(s, e, id);
  }

  /** What a Run that leaves RUNNING keeps. */
  lemma LeftFacts(r: RunRow, status: RunStatus, now: int)
    ensures var t := Left(r, status, now);
            && t.status == status && t.owner == None && t.token == None && t.lease == None && t.activeStarted == None
            && t.interruptId == r.interruptId && t.terminal == r.terminal && t.finalMessage == r.finalMessage
  {
  }

  /** What the events of workers and users make of the rows. */
  lemma ActIs(s: Sys, h: Session, action: WorkerAction)
    ensures Act(s, h, action).db == AfterTransition(s.db, h.run, action, FenceOf(h)).1
  {
    hide AfterAction, Passes;
    RefusedActionKeeps(s.db, h.run, action, FenceOf(h));
  }

  lemma RefusedActionKeeps(db: Db, run: RunId, action: WorkerAction, f: Fence)
    ensures AfterTransition(db, run, action, f).0.Err? ==> AfterTransition(db, run, action, f).1 == db
  {
    hide PyText.Strip, PendingExists, PauseActive, Left, WithRun;
  }

  lemma ChangeIs(s: Sys, e: Event)
    requires e.ChangeRun?
    ensures Next(s, e).db == AfterChange(s.db, e.run, e.version, e.key, e.change).1
  {
    hide AfterChange;
  }

  lemma FailIs(s: Sys, e: Event)
    requires e.FailRun?
    ensures Next(s, e).db == AfterTransition(s.db, e.session.run, GiveUp(e.code), FenceOf(e.session)).1
  {
    hide AfterTransition;
  }

  lemma WaitIs(s: Sys, e: Event)
    requires e.WaitRun?
    ensures Next(s, e).db == AfterTransition(s.db, e.session.run, Wait(e.interaction), FenceOf(e.session)).1
  {
    hide AfterTransition, Act;
    ActIs(s, e.session, Wait(e.interaction));
  }

  lemma FinishIs(s: Sys, e: Event)
    requires e.FinishRun?
    ensures Content(e.session).Some? ==>
              Next(s, e).db == AfterTransition(s.db, e.session.run, Finish(Content(e.session).value), FenceOf(e.session)).1
    ensures Content(e.session).None? ==> Next(s, e).db == s.db
  {
    hide AfterTransition, Act, Content;
    if Content(e.session).Some? {
      ActIs(s, e.session, Finish(Content(e.session).value));
    }
  }

  lemma RecoverIs(s: Sys, e: Event)
    requires e.Recover?
    ensures Next(s, e).db == AfterRecover(s.db, e.run)
  {
    hide AfterRecover;
  }

  /** A Run that an event leaves alone. */
  lemma UnmovedRow(s: Sys, e: Event, n: Db, id: RunId)
    requires id in s.db.runs && ClaimOk(s.db, s.db.runs[id]) && id in n.runs && n.runs[id] == s.db.runs[id] && s.db.tokens <= n.tokens
    ensures RowMove(s, e, n, id)
  {
    hide PyText.Strip, Content;
  }

  lemma FinishMoves(s: Sys, e: Event, id: RunId)
    requires e.FinishRun? && id in s.db.runs && ClaimOk(s.db, s.db.runs[id])
    ensures id in Next(s, e).db.runs && RowMove(s, e, Next(s, e).db, id)
  {
    hide PyText.Strip, Content, Left, Next, RowMove, ClaimOk;
    FinishIs(s, e);
    if Next(s, e).db == s.db || id != e.session.run {
      UnmovedRow(s, e, Next(s, e).db, id);
    } else {
      FinishedRow(s, e);
    }
  }

  lemma FinishedRow(s: Sys, e: Event)
    requires e.FinishRun? && e.session.run in s.db.runs && Content(e.session).Some?
    requires var content := Content(e.session).value;
             AfterTransition(s.db, e.session.run, Finish(content), FenceOf(e.session)).1 != s.db
    ensures var n := AfterTransition(s.db, e.session.run, Finish(Content(e.session).value), FenceOf(e.session)).1;
            e.session.run in n.runs && RowMove(s, e, n, e.session.run)
  {
    hide PyText.Strip, Content, Left;
    LeftFacts(s.db.runs[e.session.run], Done, s.db.now);
  }

  lemma WaitMoves(s: Sys, e: Event, id: RunId)
    requires e.WaitRun? && id in s.db.runs && ClaimOk(s.db, s.db.runs[id])
    ensures id in Next(s, e).db.runs && RowMove(s, e, Next(s, e).db, id)
  {
    hide PyText.Strip, Left, Next, RowMove, ClaimOk, PendingExists;
    WaitIs(s, e);
    if Next(s, e).db == s.db || id != e.session.run {
      UnmovedRow(s, e, Next(s, e).db, id);
    } else {
      WaitingMove(s, e);
    }
  }

  lemma WaitingMove(s: Sys, e: Event)
    requires e.WaitRun? && e.session.run in s.db.runs
    requires AfterTransition(s.db, e.session.run, Wait(e.interaction), FenceOf(e.session)).1 != s.db
    ensures var n := AfterTransition(s.db, e.session.run, Wait(e.interaction), FenceOf(e.session)).1;
            e.session.run in n.runs && RowMove(s, e, n, e.session.run)
  {
    hide PyText.Strip, Content, Left, PendingExists;
    LeftFacts(s.db.runs[e.session.run], WaitingForUser, s.db.now);
  }

  lemma FailMoves(s: Sys, e: Event, id: RunId)
    requires e.FailRun? && id in s.db.runs && ClaimOk(s.db, s.db.runs[id])
    ensures id in Next(s, e).db.runs && RowMove(s, e, Next(s, e).db, id)
  {
    hide Left, Next, RowMove, ClaimOk;
    FailIs(s, e);
    if Next(s, e).db == s.db || id != e.session.run {
      UnmovedRow(s, e, Next(s, e).db, id);
    } else {
      FailedMove(s, e);
    }
  }

  lemma FailedMove(s: Sys, e: Event)
    requires e.FailRun? && e.session.run in s.db.runs && ClaimOk(s.db, s.db.runs[e.session.run])
    requires AfterTransition(s.db, e.session.run, GiveUp(e.code), FenceOf(e.session)).1 != s.db
    ensures var n := AfterTransition(s.db, e.session.run, GiveUp(e.code), FenceOf(e.session)).1;
            e.session.run in n.runs && RowMove(s, e, n, e.session.run)
  {
    hide PyText.Strip, Content, Left;
    LeftFacts(s.db.runs[e.session.run], Broken, s.db.now);
  }

  lemma AcceptMoves(s: Sys, e: Event, id: RunId)
    requires e.AcceptGraph? && id in s.db.runs && ClaimOk(s.db, s.db.runs[id])
    ensures id in Next(s, e).db.runs && RowMove(s, e, Next(s, e).db, id)
  {
    hide PyText.Strip, Content, Usable;
  }

  lemma CheckpointMoves(s: Sys, e: Event, id: RunId)
    requires e.AcceptCheckpoint? && id in s.db.runs && ClaimOk(s.db, s.db.runs[id])
    ensures id in Next(s, e).db.runs && RowMove(s, e, Next(s, e).db, id)
  {
    hide PyText.Strip, Content, Usable;
  }

  lemma CancelMoves(s: Sys, e: Event, id: RunId)
    requires e.ChangeRun? && e.change.CancelRun? && id in s.db.runs && ClaimOk(s.db, s.db.runs[id])
    ensures id in Next(s, e).db.runs && RowMove(s, e, Next(s, e).db, id)
  {
    hide AfterCancel, Left, Next, RowMove, ClaimOk;
    ChangeIs(s, e);
    if Next(s, e).db == s.db || id != e.run {
      UnmovedRow(s, e, Next(s, e).db, id);
    } else {
      CancelledMove(s, e);
    }
  }

  lemma CancelledMove(s: Sys, e: Event)
    requires e.ChangeRun? && e.change.CancelRun? && e.run in s.db.runs
    requires AfterChange(s.db, e.run, e.version, e.key, e.change).1 != s.db
    ensures var n := AfterChange(s.db, e.run, e.version, e.key, e.change).1; e.run in n.runs && RowMove(s, e, n, e.run)
  {
    hide AfterCancel, Content, PyText.Strip, Left;
    LeftFacts(s.db.runs[e.run], Aborted, s.db.now);
  }

  lemma ResumeMoves(s: Sys, e: Event, id: RunId)
    requires e.ChangeRun? && e.change.ResumeRun? && id in s.db.runs && ClaimOk(s.db, s.db.runs[id])
    ensures id in Next(s, e).db.runs && RowMove(s, e, Next(s, e).db, id)
  {
    hide AfterResume, CanResume, Resumed, ResolveInteraction, Next, RowMove, ClaimOk;
    ChangeIs(s, e);
    if Next(s, e).db == s.db || id != e.run {
      UnmovedRow(s, e, Next(s, e).db, id);
    } else {
      ResumedMove(s, e);
    }
  }

  lemma ResumedMove(s: Sys, e: Event)
    requires e.ChangeRun? && e.change.ResumeRun? && e.run in s.db.runs && ClaimOk(s.db, s.db.runs[e.run])
    requires AfterChange(s.db, e.run, e.version, e.key, e.change).1 != s.db
    ensures var n := AfterChange(s.db, e.run, e.version, e.key, e.change).1; e.run in n.runs && RowMove(s, e, n, e.run)
  {
    hide AfterResume, CanResume, Content, PyText.Strip, Left;
  }

  lemma ClaimMoves(s: Sys, e: Event, id: RunId)
    requires e.ClaimRun? && id in s.db.runs && ClaimOk(s.db, s.db.runs[id])
    ensures id in Next(s, e).db.runs && RowMove(s, e, Next(s, e).db, id)
  {
    hide Content, PyText.Strip;
  }

  lemma RenewMoves(s: Sys, e: Event, id: RunId)
    requires e.Renew? && id in s.db.runs && ClaimOk(s.db, s.db.runs[id])
    ensures id in Next(s, e).db.runs && RowMove(s, e, Next(s, e).db, id)
  {
    hide Content, PyText.Strip;
  }

  lemma RecoverMoves(s: Sys, e: Event, id: RunId)
    requires e.Recover? && id in s.db.runs && ClaimOk(s.db, s.db.runs[id])
    ensures id in Next(s, e).db.runs && RowMove(s, e, Next(s, e).db, id)
  {
    hide Content, PyText.Strip, Left, Next;
    RecoverIs(s, e);
    LeftFacts(s.db.runs[id], Queued, s.db.now);
  }

  lemma OtherMoves(s: Sys, e: Event, id: RunId)
    requires id in s.db.runs && ClaimOk(s.db, s.db.runs[id])
    requires e.Tick? || e.Create? || e.Crash? || e.ClaimJobs? || e.RenewJob? || e.SettleJob?
    ensures id in Next(s, e).db.runs && RowMove(s, e, Next(s, e).db, id)
  {
    hide Content, PyText.Strip, ClaimEach, AfterRequeue, AfterSettle;
  }

  /** A Run that was not there before is a new one. */
  lemma NewRunMoves(s: Sys, e: Event, id: RunId)
    requires id in Next(s, e).db.runs && id !in s.db.runs
    ensures e.Create? && Next(s, e).db.runs[id] == NEW_RUN
    ensures id in Next(s, e).db.jobs && Next(s, e).db.jobs[id] == NewJob(s.db.now)
  {
    hide PyText.Strip, ClaimEach, AfterRequeue, AfterSettle, PauseActive, PendingExists, ClaimedRow, CanResume, CanCancel, Usable, Content;
  }

  /** An interaction stays as it is unless its Run resumes; a new one belongs to the Run that begins to wait. */
  lemma InteractionMoves(s: Sys, e: Event, i: InteractionId)
    requires i in Next(s, e).db.interactions
    ensures var n := Next(s, e).db;
            || (i in s.db.interactions && n.interactions[i] == s.db.interactions[i])
            || (e.ChangeRun? && n.interactions[i].Resolved?)
            || (e.WaitRun? && i == e.interaction && n.interactions[i] == Pending(e.session.run) && e.session.run in n.runs
                && n.runs[e.session.run].status == WaitingForUser && n.runs[e.session.run].interruptId == Some(i))
  {
    hide PyText.Strip, ClaimEach, AfterRequeue, AfterSettle, PauseActive, PendingExists, ClaimedRow, CanResume, CanCancel, Usable, Content;
  }

  lemma InteractionsStay(s: Sys, e: Event, i: InteractionId)
    requires i in s.db.interactions
    ensures i in Next(s, e).db.interactions && Next(s, e).db.interactions[i].run == s.db.interactions[i].run
    ensures Next(s, e).db.interactions[i] == s.db.interactions[i]
            || (e.ChangeRun? && e.run == s.db.interactions[i].run && e.run in s.db.runs && s.db.runs[e.run].interruptId == Some(i)
                && e.run in Next(s, e).db.runs && Next(s, e).db.runs[e.run].status == Queued)
  {
    hide PyText.Strip, ClaimEach, AfterRequeue, AfterSettle, PauseActive, PendingExists, ClaimedRow, CanResume, CanCancel, Usable, Content;
  }

  lemma ClaimsStep(s: Sys, e: Event)
    requires ClaimsOk(s.db)
    ensures ClaimsOk(Next(s, e).db)
  {
    hide Next;
    var n := Next(s, e).db;
    forall id | id in n.runs ensures ClaimOk(n, n.runs[id]) {
      if id in s.db.runs {
        RowMoves(s, e, id);
      } else {
        NewRunMoves(s, e, id);
      }
    }
  }

  /** A terminal Run never changes again. */
  lemma TerminalRunStays(s: Sys, e: Event, id: RunId)
    requires ClaimsOk(s.db) && id in s.db.runs && s.db.runs[id].status.Terminal()
    ensures id in Next(s, e).db.runs && Next(s, e).db.runs[id] == s.db.runs[id]
  {
    hide Next;
    RowMoves(s, e, id);
  }

  lemma InterruptsStep(s: Sys, e: Event)
    requires ClaimsOk(s.db) && InterruptsOk(s.db)
    ensures InterruptsOk(Next(s, e).db)
  {
    hide PendingOk, WaitingOk, Next;
    var n := Next(s, e).db;
    forall id | id in n.runs ensures WaitingOk(n, id) {
      WaitingStep(s, e, id);
    }
    forall i | i in n.interactions ensures PendingOk(n, i) {
      PendingStep(s, e, i);
    }
  }

  lemma WaitingStep(s: Sys, e: Event, id: RunId)
    requires ClaimsOk(s.db) && InterruptsOk(s.db) && id in Next(s, e).db.runs
    ensures WaitingOk(Next(s, e).db, id)
  {
    hide Next, InterruptsOk;
    if id in s.db.runs {
      RowMoves(s, e, id);
      assert WaitingOk(s.db, id) by { WaitingRow(s.db, id); }
      var r := s.db.runs[id];
      if r.status == WaitingForUser {
        InteractionsStay(s, e, r.interruptId.value);
      }
    } else {
      NewRunMoves(s, e, id);
    }
  }

  lemma WaitingRow(db: Db, id: RunId)
    requires InterruptsOk(db) && id in db.runs
    ensures WaitingOk(db, id)
  {
  }

  lemma PendingStep(s: Sys, e: Event, i: InteractionId)
    requires ClaimsOk(s.db) && InterruptsOk(s.db) && i in Next(s, e).db.interactions
    ensures PendingOk(Next(s, e).db, i)
  {
    hide Next;
    InteractionMoves(s, e, i);
    if i in s.db.interactions && s.db.interactions[i].Pending? {
      assert PendingOk(s.db, i);
      RowMoves(s, e, s.db.interactions[i].run);
    }
  }

  lemma FinalsStep(s: Sys, e: Event)
    requires Enabled(s, e) && ClaimsOk(s.db) && SessionsOk(s) && FinalsOk(s.db)
    ensures FinalsOk(Next(s, e).db)
  {
    hide Next, Enabled, SessionOk, MessageOk, FinalOk;
    var n := Next(s, e).db;
    forall id | id in n.runs ensures FinalOk(n, id) {
      FinalStep(s, e, id);
    }
    forall m | 0 <= m < |n.messages| ensures MessageOk(n, m) {
      MessageStep(s, e, m);
    }
  }

  /** Messages are only added, and an assistant message only with the completion of its Run. */
  lemma MessagesGrow(s: Sys, e: Event)
    ensures s.db.messages <= Next(s, e).db.messages
    ensures forall m | |s.db.messages| <= m < |Next(s, e).db.messages| && Next(s, e).db.messages[m].role == Assistant ::
              var id := Next(s, e).db.messages[m].run;
              && m == |s.db.messages| && id in Next(s, e).db.runs
              && Next(s, e).db.runs[id].status == Done && Next(s, e).db.runs[id].finalMessage == Some(m)
  {
    hide PyText.Strip, ClaimEach, AfterRequeue, AfterSettle, PauseActive, PendingExists, ClaimedRow, CanResume, CanCancel, Usable, Content;
  }

  lemma FinalStep(s: Sys, e: Event, id: RunId)
    requires Enabled(s, e) && ClaimsOk(s.db) && SessionsOk(s) && id in Next(s, e).db.runs
    requires id in s.db.runs ==> FinalOk(s.db, id)
    ensures FinalOk(Next(s, e).db, id)
  {
    hide Next, PyText.Strip, ClaimOk;
    MessagesGrow(s, e);
    if id in s.db.runs {
      RowMoves(s, e, id);
      assert e.FinishRun? ==> SessionOk(s.db, e.session);
    } else {
      NewRunMoves(s, e, id);
    }
  }

  lemma MessageStep(s: Sys, e: Event, m: nat)
    requires ClaimsOk(s.db) && m < |Next(s, e).db.messages|
    requires m < |s.db.messages| ==> MessageOk(s.db, m)
    ensures MessageOk(Next(s, e).db, m)
  {
    hide Next, ClaimsOk;
    MessagesGrow(s, e);
    if m < |s.db.messages| {
      assert Next(s, e).db.messages[m] == s.db.messages[m];
      var run := s.db.messages[m].run;
      if run in s.db.runs && s.db.runs[run].status.Terminal() {
        TerminalRunStays(s, e, run);
      }
    }
  }

  lemma JobsStep(s: Sys, e: Event)
    requires ClaimsOk(s.db) && JobsOk(s.db)
    ensures JobsOk(Next(s, e).db)
  {
    hide PyText.Strip, PauseActive, PendingExists, Next, JobOk;
    var n := Next(s, e).db;
    JobKeys(s, e);
    forall id | id in n.runs ensures JobOk(n, id) {
      JobStep(s, e, id);
    }
  }

  lemma JobKeys(s: Sys, e: Event)
    requires ClaimsOk(s.db) && JobsOk(s.db)
    ensures Next(s, e).db.jobs.Keys == Next(s, e).db.runs.Keys
  {
    hide Next, ClaimsOk, JobOk, AfterCreate;
    if e.Create? {
      CreateIs(s, e);
      CreateAddsBoth(s.db, e.run, e.input);
    } else {
      OthersCreateNothing(s, e);
      OthersAddNoJob(s, e);
    }
  }

  lemma CreateAddsBoth(db: Db, run: RunId, input: Input)
    requires db.jobs.Keys == db.runs.Keys
    ensures var n := AfterCreate(db, run, input).1; n.jobs.Keys == n.runs.Keys
  {
    hide InputError;
    assert run in db.jobs.Keys <==> run in db.runs.Keys;
  }

  lemma OthersAddNoJob(s: Sys, e: Event)
    requires !e.Create? && JobsOk(s.db)
    ensures Next(s, e).db.jobs.Keys == s.db.jobs.Keys
  {
    hide PyText.Strip, PendingExists, ClaimEach, AfterRequeue, JobOk, Left, Claimable, HoldsRun, Accepted, Content, Usable, PauseActive;
    if e.ClaimJobs? {
      ClaimKeepsRows(s, e);
    }
  }

  lemma ClaimKeepsRows(s: Sys, e: Event)
    requires e.ClaimJobs? && JobsOk(s.db)
    ensures var jobs := ClaimEach(AfterRequeue(s.db.jobs, s.db.now), e.ids, e.owner, s.db.now, e.leaseUntil);
            jobs.Keys == s.db.jobs.Keys && AllWellHeld(jobs) && forall id | id in jobs :: Rotated(s.db.jobs[id], jobs[id])
  {
    assert forall id | id in s.db.jobs :: JobOk(s.db, id);
    ClaimRotates(s.db.jobs, e.ids, e.owner, s.db.now, e.leaseUntil);
  }

  lemma JobStep(s: Sys, e: Event, id: RunId)
    requires ClaimsOk(s.db) && JobsOk(s.db)
    requires id in Next(s, e).db.runs && id in Next(s, e).db.jobs
    ensures JobOk(Next(s, e).db, id)
  {
    hide Next, JobOk, ClaimOk;
    if id in s.db.runs {
      assert JobOk(s.db, id) && ClaimOk(s.db, s.db.runs[id]);
    } else {
      NewRunMoves(s, e, id);
    }
    match e
    case ClaimJobs(_, _, _) => ClaimedJobStep(s, e, id);
    case RenewJob(_, _, _, _) => JobRowStep(s, e, id);
    case SettleJob(_, _, _) => JobRowStep(s, e, id);
    case ChangeRun(_, _, _, _) => ChangedJobStep(s, e, id);
    case _ => RunRowStep(s, e, id);
  }

  lemma ClaimedJobStep(s: Sys, e: Event, id: RunId)
    requires e.ClaimJobs? && JobsOk(s.db) && id in s.db.runs && JobOk(s.db, id)
    requires id in Next(s, e).db.jobs
    ensures JobOk(Next(s, e).db, id)
  {
    hide ClaimEach, AfterRequeue, AllWellHeld;
    ClaimKeepsRows(s, e);
    var jobs := ClaimEach(AfterRequeue(s.db.jobs, s.db.now), e.ids, e.owner, s.db.now, e.leaseUntil);
    assert Rotated(s.db.jobs[id], jobs[id]);
    assert AllWellHeld(jobs) && WellHeld(jobs[id]) by { HeldRow(jobs, id); }
  }

  lemma HeldRow(jobs: Jobs, id: RunId)
    requires AllWellHeld(jobs) && id in jobs
    ensures WellHeld(jobs[id])
  {
  }

  lemma JobRowStep(s: Sys, e: Event, id: RunId)
    requires (e.RenewJob? || e.SettleJob?) && id in s.db.runs && id in s.db.jobs && JobOk(s.db, id)
    requires id in Next(s, e).db.jobs
    ensures JobOk(Next(s, e).db, id)
  {
  }

  lemma ChangedJobStep(s: Sys, e: Event, id: RunId)
    requires e.ChangeRun? && id in s.db.runs && id in s.db.jobs && JobOk(s.db, id) && ClaimOk(s.db, s.db.runs[id])
    requires id in Next(s, e).db.jobs && id in Next(s, e).db.runs
    ensures JobOk(Next(s, e).db, id)
  {
    hide Left, Next, JobOk, ClaimOk, AfterResume, AfterCancel, CanResume, Resumed, ResolveInteraction, CancelledRow;
    ChangeIs(s, e);
    var n := Next(s, e).db;
    if n == s.db {
    } else if id != e.run {
      SameJob(s.db, e, id);
      JobOfSame(s.db, n, id);
    } else if e.change.CancelRun? {
      CancelledJob(s.db, e);
    } else {
      ResumedJob(s.db, e);
    }
  }

  lemma JobOfSame(db: Db, n: Db, id: RunId)
    requires id in db.runs && id in db.jobs && JobOk(db, id) && id in n.runs && id in n.jobs
    requires n.runs[id] == db.runs[id] && n.jobs[id] == db.jobs[id]
    ensures JobOk(n, id)
  {
  }

  lemma SameJob(db: Db, e: Event, id: RunId)
    requires e.ChangeRun? && id in db.runs && id in db.jobs && id != e.run
    ensures var n := AfterChange(db, e.run, e.version, e.key, e.change).1;
            id in n.runs && id in n.jobs && n.runs[id] == db.runs[id] && n.jobs[id] == db.jobs[id]
  {
    hide Left, PauseActive, Resumed, ResolveInteraction, CancelledRow;
  }

  lemma CancelledJob(db: Db, e: Event)
    requires e.ChangeRun? && e.change.CancelRun? && e.run in db.runs && e.run in db.jobs && JobOk(db, e.run)
    requires AfterChange(db, e.run, e.version, e.key, e.change).1 != db
    ensures var n := AfterChange(db, e.run, e.version, e.key, e.change).1; e.run in n.runs && e.run in n.jobs && JobOk(n, e.run)
  {
    hide Left;
    LeftFacts(db.runs[e.run], Aborted, db.now);
  }

  lemma ResumedJob(db: Db, e: Event)
    requires e.ChangeRun? && e.change.ResumeRun? && e.run in db.runs && e.run in db.jobs && JobOk(db, e.run)
    requires AfterChange(db, e.run, e.version, e.key, e.change).1 != db
    ensures var n := AfterChange(db, e.run, e.version, e.key, e.change).1; e.run in n.runs && e.run in n.jobs && JobOk(n, e.run)
  {
  }

  /** Events that move a Run without its job never take it out of, or into, a state that its job has reported. */
  lemma RunRowStep(s: Sys, e: Event, id: RunId)
    requires !e.ClaimJobs? && !e.RenewJob? && !e.SettleJob? && !e.ChangeRun? && ClaimsOk(s.db)
    requires id in s.db.runs ==> id in s.db.jobs && JobOk(s.db, id)
    requires id in Next(s, e).db.jobs && id in Next(s, e).db.runs
    ensures JobOk(Next(s, e).db, id)
  {
    hide Next;
    if id in s.db.runs {
      RowMoves(s, e, id);
      JobsUntouched(s, e, id);
    } else {
      NewRunMoves(s, e, id);
    }
  }

  lemma JobsUntouched(s: Sys, e: Event, id: RunId)
    requires !e.ClaimJobs? && !e.RenewJob? && !e.SettleJob? && !e.ChangeRun? && id in s.db.runs && id in s.db.jobs
    ensures id in Next(s, e).db.jobs && Next(s, e).db.jobs[id] == s.db.jobs[id]
  {
    hide PyText.Strip, PauseActive, PendingExists, ClaimedRow, Usable, Content;
  }

  lemma StripTwice(text: string)
    ensures PyText.Strip(PyText.Strip(text)) == PyText.Strip(text)
  {
    var lo, hi := PyText.StripFacts(text);
    if PyText.Strip(text) != "" {
      PyText.StripOfTrimmed(PyText.Strip(text));
    }
  }

  lemma SessionsStep(s: Sys, e: Event)
    requires Enabled(s, e) && ClaimsOk(s.db) && SessionsOk(s)
    ensures SessionsOk(Next(s, e))
  {
    hide Next, Enabled;
    var n := Next(s, e);
    forall h | h in n.sessions ensures SessionOk(n.db, h) {
      if h in s.sessions {
        assert SessionOk(s.db, h);
        RowMoves(s, e, h.run);
      } else {
        NewSession(s, e, h);
      }
    }
    forall k | 0 <= k < |n.accepts| ensures n.accepts[k].0 in n.db.runs && n.db.runs[n.accepts[k].0].terminal == Some(n.accepts[k].1) {
      AcceptsStep(s, e, k);
    }
  }

  lemma NewSession(s: Sys, e: Event, h: Session)
    requires Enabled(s, e) && h in Next(s, e).sessions && h !in s.sessions
    ensures SessionOk(Next(s, e).db, h)
  {
    hide PyText.Strip, PauseActive, PendingExists, ClaimEach, AfterRequeue, AfterSettle;
    if e.AcceptGraph? {
      StripTwice(e.response);
    }
  }

  lemma AcceptsStep(s: Sys, e: Event, k: nat)
    requires ClaimsOk(s.db) && SessionsOk(s) && k < |Next(s, e).accepts|
    ensures var a := Next(s, e).accepts[k]; a.0 in Next(s, e).db.runs && Next(s, e).db.runs[a.0].terminal == Some(a.1)
  {
    hide Next, SessionOk, ClaimsOk;
    AcceptsGrow(s, e);
    if k < |s.accepts| {
      RowMoves(s, e, s.accepts[k].0);
    }
  }

  /** The history grows by the output that an accept has just stored. */
  lemma AcceptsGrow(s: Sys, e: Event)
    ensures s.accepts <= Next(s, e).accepts
    ensures forall k | |s.accepts| <= k < |Next(s, e).accepts| ::
              var a := Next(s, e).accepts[k]; a.0 in Next(s, e).db.runs && Next(s, e).db.runs[a.0].terminal == Some(a.1)
  {
    hide PyText.Strip, PauseActive, PendingExists, ClaimEach, AfterRequeue, AfterSettle, ClaimedRow, CanResume, CanCancel, Usable, Content;
  }

  lemma OutputsStep(s: Sys, e: Event)
    requires ClaimsOk(s.db) && OutputsOk(s)
    ensures OutputsOk(Next(s, e))
  {
    hide Next;
    var n := Next(s, e);
    forall id | id in n.db.runs && n.db.runs[id].terminal.Some? ensures (id, n.db.runs[id].terminal.value) in n.accepts {
      OutputStep(s, e, id);
    }
  }

  lemma OutputStep(s: Sys, e: Event, id: RunId)
    requires ClaimsOk(s.db) && id in Next(s, e).db.runs && Next(s, e).db.runs[id].terminal.Some?
    requires id in s.db.runs && s.db.runs[id].terminal.Some? ==> (id, s.db.runs[id].terminal.value) in s.accepts
    ensures (id, Next(s, e).db.runs[id].terminal.value) in Next(s, e).accepts
  {
    hide Next, ClaimsOk;
    AcceptsGrow(s, e);
    if id in s.db.runs {
      RowMoves(s, e, id);
      if Next(s, e).db.runs[id].terminal != s.db.runs[id].terminal {
        NewOutput(s, e, id);
      }
    } else {
      NewRunMoves(s, e, id);
    }
  }

  lemma NewOutput(s: Sys, e: Event, id: RunId)
    requires (e.AcceptGraph? || e.AcceptCheckpoint?) && id in s.db.runs && id in Next(s, e).db.runs
    requires Next(s, e).db.runs[id].terminal != s.db.runs[id].terminal && Next(s, e).db.runs[id].terminal.Some?
    ensures (id, Next(s, e).db.runs[id].terminal.value) in Next(s, e).accepts
  {
    hide PyText.Strip, Usable;
    var n := Next(s, e);
    assert n.accepts[|s.accepts|] in n.accepts;
  }

  /** Only a creation adds a Run, a key or an input message. */
  lemma OthersCreateNothing(s: Sys, e: Event)
    requires !e.Create? && ClaimsOk(s.db)
    ensures Next(s, e).db.keys == s.db.keys && Next(s, e).db.runs.Keys == s.db.runs.Keys && s.db.messages <= Next(s, e).db.messages
    ensures forall m | |s.db.messages| <= m < |Next(s, e).db.messages| :: Next(s, e).db.messages[m].role == Assistant
  {
    hide Next, ClaimsOk, RowMove;
    OthersAddNoKey(s, e);
    OthersAddNoInput(s, e);
    forall id ensures id in Next(s, e).db.runs.Keys <==> id in s.db.runs.Keys {
      if id in s.db.runs {
        RowMoves(s, e, id);
      } else if id in Next(s, e).db.runs {
        NewRunMoves(s, e, id);
      }
    }
  }

  lemma OthersAddNoKey(s: Sys, e: Event)
    requires !e.Create?
    ensures Next(s, e).db.keys == s.db.keys
  {
    hide PyText.Strip, ClaimEach, AfterRequeue, AfterSettle, PauseActive, PendingExists, ClaimedRow, CanResume, CanCancel, Usable, Content,
         Left, Claimable, HoldsRun, AfterResume, AfterCancel, SettledStatus, CanSettle, Accepted;
  }

  lemma OthersAddNoInput(s: Sys, e: Event)
    requires !e.Create?
    ensures s.db.messages <= Next(s, e).db.messages
    ensures forall m | |s.db.messages| <= m < |Next(s, e).db.messages| :: Next(s, e).db.messages[m].role == Assistant
  {
    hide PyText.Strip, ClaimEach, AfterRequeue, AfterSettle, PauseActive, PendingExists, ClaimedRow, CanResume, CanCancel, Usable, Content,
         Left, Claimable, HoldsRun, AfterResume, AfterCancel, SettledStatus, CanSettle, Accepted;
  }

  lemma KeysStay(db: Db, n: Db)
    requires KeysOk(db) && n.keys == db.keys && n.runs.Keys == db.runs.Keys
    ensures KeysOk(n)
  {
    forall id ensures id in n.runs.Keys <==> HasKey(n, id) {
      assert HasKey(db, id) <==> HasKey(n, id);
    }
  }

  lemma InputsStay(runs: set<RunId>, before: seq<Message>, now: seq<Message>)
    requires InputsOk(runs, before) && before <= now
    requires forall m | |before| <= m < |now| :: now[m].role == Assistant
    ensures InputsOk(runs, now)
  {
    forall id ensures id in runs <==> HasInput(now, id) {
      if HasInput(before, id) {
        var m :| 0 <= m < |before| && IsInput(before[m]) && before[m].run == id;
        assert now[m] == before[m];
      }
      if HasInput(now, id) {
        var m :| 0 <= m < |now| && IsInput(now[m]) && now[m].run == id;
        assert m < |before| && now[m] == before[m];
      }
    }
  }

  lemma KeysGrow(db: Db, n: Db, key: string, run: RunId)
    requires KeysOk(db) && key !in db.keys && run !in db.runs
    requires n.keys == db.keys[key := run] && n.runs.Keys == db.runs.Keys + {run}
    ensures KeysOk(n)
  {
    forall id ensures id in n.runs.Keys <==> HasKey(n, id) {
      if id == run {
        assert n.keys[key] == run;
      } else if HasKey(db, id) {
        var k :| k in db.keys && db.keys[k] == id;
        assert n.keys[k] == id;
      }
    }
    assert !HasKey(db, run);
  }

  lemma InputsGrow(runs: set<RunId>, messages: seq<Message>, m: Message)
    requires InputsOk(runs, messages) && IsInput(m) && m.run !in runs
    ensures InputsOk(runs + {m.run}, messages + [m])
  {
    var now := messages + [m];
    assert !HasInput(messages, m.run);
    forall id ensures id in runs + {m.run} <==> HasInput(now, id) {
      if HasInput(messages, id) {
        var k :| 0 <= k < |messages| && IsInput(messages[k]) && messages[k].run == id;
        assert now[k] == messages[k];
      }
      if id == m.run {
        assert now[|messages|] == m;
      }
    }
  }

  lemma RequestsGrow(db: Db, run: RunId, input: Input)
    requires RequestsOk(db)
    ensures RequestsOk(AfterCreate(db, run, input).1)
  {
    hide PyText.Strip, InputError, KeysOk, InputsOk;
    var n := AfterCreate(db, run, input).1;
    if n != db {
      KeysGrow(db, n, RequestKey(input), run);
      InputsGrow(db.runs.Keys, db.messages, InputMessage(run, input));
      assert n.runs.Keys == db.runs.Keys + {run};
    }
  }

  lemma CreateIs(s: Sys, e: Event)
    requires e.Create?
    ensures Next(s, e).db == AfterCreate(s.db, e.run, e.input).1
  {
    hide AfterCreate;
  }

  lemma RequestsStep(s: Sys, e: Event)
    requires ClaimsOk(s.db) && RequestsOk(s.db)
    ensures RequestsOk(Next(s, e).db)
  {
    hide KeysOk, InputsOk, AfterCreate, ClaimsOk, Next;
    if e.Create? {
      assert Next(s, e).db == AfterCreate(s.db, e.run, e.input).1 by { CreateIs(s, e); }
      RequestsGrow(s.db, e.run, e.input);
    } else {
      OthersCreateNothing(s, e);
      KeysStay(s.db, Next(s, e).db);
      InputsStay(s.db.runs.Keys, s.db.messages, Next(s, e).db.messages);
    }
  }

  lemma InvariantStep(s: Sys, e: Event)
    requires Invariant(s) && Enabled(s, e)
    ensures Invariant(Next(s, e))
  {
    hide Next, Enabled, ClaimsOk, InterruptsOk, JobsOk, FinalsOk, SessionsOk, OutputsOk, RequestsOk;
    RequestsStep(s, e);
    ClaimsStep(s, e);
    InterruptsStep(s, e);
    JobsStep(s, e);
    FinalsStep(s, e);
    SessionsStep(s, e);
    OutputsStep(s, e);
  }

  ghost predicate Reachable(s: Sys) {
    exists now, es :: Possible(Start(now), es) && s == Run(Start(now), es)
  }

  lemma {:induction false} InvariantAlways(now: int, es: seq<Event>)
    requires Possible(Start(now), es)
    ensures Invariant(Run(Start(now), es))
  {
    hide Next, Enabled, Invariant;
    if es == [] {
      StartIsFine(now);
    } else {
      InvariantAlways(now, es[..|es| - 1]);
      InvariantStep(Run(Start(now), es[..|es| - 1]), es[|es| - 1]);
    }
  }

  lemma StartIsFine(now: int)
    ensures Invariant(Start(now))
  {
  }

  lemma ReachableIsInvariant(s: Sys)
    requires Reachable(s)
    ensures Invariant(s)
  {
    hide Possible, Run, Invariant;
    var now, es :| Possible(Start(now), es) && s == Run(Start(now), es);
    InvariantAlways(now, es);
  }

  // ----- what histories guarantee

  /** The positions of the assistant messages of a Run. */
  ghost predicate IsAnswer(db: Db, id: RunId, m: int) {
    0 <= m < |db.messages| && db.messages[m].run == id && db.messages[m].role == Assistant
  }

  /** Every completed Run has exactly one assistant message, and its text is the stripped response of the one terminal output that
      was ever accepted for the Run, whoever crashed or kept trying; no other Run has an assistant message. */
  lemma CompletedRunHasOneAnswer(s: Sys, id: RunId)
    requires Reachable(s) && id in s.db.runs
    ensures s.db.runs[id].status == Done ==>
              exists m, out ::
                && IsAnswer(s.db, id, m) && (forall k | IsAnswer(s.db, id, k) :: k == m)
                && (id, out) in s.accepts && (forall o | (id, o) in s.accepts :: o == out)
                && out.response.Some? && s.db.messages[m].content == PyText.Strip(out.response.value)
    ensures s.db.runs[id].status != Done ==> forall k :: !IsAnswer(s.db, id, k)
  {
    hide Reachable, ClaimsOk, InterruptsOk, JobsOk, RequestsOk, PyText.Strip, SessionOk;
    ReachableIsInvariant(s);
    forall k | IsAnswer(s.db, id, k) ensures s.db.runs[id].status == Done && s.db.runs[id].finalMessage == Some(k) {
      assert MessageOk(s.db, k);
    }
    if s.db.runs[id].status == Done {
      assert FinalOk(s.db, id);
      var m, out := s.db.runs[id].finalMessage.value, s.db.runs[id].terminal.value;
      assert IsAnswer(s.db, id, m) && (id, out) in s.accepts;
    }
  }

  /** However often requests are repeated, by users and by automation retries, every key has one Run, every Run one key, and every Run
      exactly one input message; a request with a used key finds its Run. */
  lemma RequestsCreateOneRun(s: Sys, id: RunId)
    requires Reachable(s)
    ensures id in s.db.runs <==> HasKey(s.db, id)
    ensures forall j, k | j in s.db.keys && k in s.db.keys && s.db.keys[j] == id == s.db.keys[k] :: j == k
    ensures id in s.db.runs <==> HasInput(s.db.messages, id)
    ensures forall m, n | 0 <= m < n < |s.db.messages| && IsInput(s.db.messages[m]) && IsInput(s.db.messages[n]) ::
              s.db.messages[m].run != s.db.messages[n].run
    ensures forall input, run | InputError(input).None? && RequestKey(input) in s.db.keys ::
              AfterCreate(s.db, run, input) == (Ok(s.db.keys[RequestKey(input)]), s.db)
  {
    hide Reachable, ClaimsOk, InterruptsOk, JobsOk, FinalsOk, SessionsOk, OutputsOk, InputError, HasKey, HasInput;
    ReachableIsInvariant(s);
    assert id in s.db.runs.Keys <==> HasKey(s.db, id);
    assert id in s.db.runs.Keys <==> HasInput(s.db.messages, id);
  }

  /** A waiting Run has exactly one pending interaction, its interrupt; a queued, running, completed or failed Run has none. */
  lemma WaitingRunHasOneInterrupt(s: Sys, id: RunId)
    requires Reachable(s) && id in s.db.runs
    ensures var r := s.db.runs[id];
            var pending := set i | i in s.db.interactions && s.db.interactions[i] == Pending(id);
            && (r.status == WaitingForUser ==> r.interruptId.Some? && pending == {r.interruptId.value})
            && (r.status != WaitingForUser && r.status != Aborted ==> pending == {})
  {
    hide Reachable, ClaimsOk, JobsOk, FinalsOk, SessionsOk, OutputsOk, RequestsOk;
    ReachableIsInvariant(s);
    assert WaitingOk(s.db, id);
    forall i | i in s.db.interactions && s.db.interactions[i] == Pending(id)
      ensures s.db.runs[id].interruptId == Some(i) && (s.db.runs[id].status == WaitingForUser || s.db.runs[id].status == Aborted)
    {
      assert PendingOk(s.db, i);
    }
  }

  /** The claim fields of a Run are set exactly while it is RUNNING. */
  lemma ClaimedExactlyWhileRunning(s: Sys, id: RunId)
    requires Reachable(s) && id in s.db.runs
    ensures var r := s.db.runs[id];
            && (r.owner.Some? <==> r.status == Running) && (r.token.Some? <==> r.status == Running)
            && (r.lease.Some? <==> r.status == Running) && (r.activeStarted.Some? <==> r.status == Running)
  {
    hide Reachable, InterruptsOk, JobsOk, FinalsOk, SessionsOk, OutputsOk, RequestsOk;
    ReachableIsInvariant(s);
    assert ClaimOk(s.db, s.db.runs[id]);
  }

  /** A Run and its job agree: PAUSED means waiting, COMPLETED means completed or failed, CANCELLED means cancelled, and the job of a
      cancelled Run is CANCELLED unless its deliveries ran out before. */
  lemma JobTellsItsRun(s: Sys, id: RunId)
    requires Reachable(s)
    ensures id in s.db.runs <==> id in s.db.jobs
    ensures id in s.db.runs ==>
              var j, status := s.db.jobs[id].status, s.db.runs[id].status;
              && (j == Paused ==> status == WaitingForUser) && (j == Completed ==> status == Done || status == Broken)
              && (j == Cancelled ==> status == Aborted)
              && (status == Aborted ==> j == Cancelled || (j == Failed && s.db.jobs[id].exhausted))
  {
    hide Reachable, ClaimsOk, InterruptsOk, FinalsOk, SessionsOk, OutputsOk, RequestsOk;
    ReachableIsInvariant(s);
    assert id in s.db.jobs.Keys <==> id in s.db.runs.Keys;
    if id in s.db.runs {
      assert JobOk(s.db, id);
    }
  }

  /** Terminal Runs never change, whatever happens later. */
  lemma {:induction false} TerminalRunsAreFinal(now: int, before: seq<Event>, after: seq<Event>, id: RunId)
    requires Possible(Start(now), before + after)
    requires Possible(Start(now), before)
    requires var s := Run(Start(now), before); id in s.db.runs && s.db.runs[id].status.Terminal()
    ensures var s, t := Run(Start(now), before), Run(Start(now), before + after);
            id in t.db.runs && t.db.runs[id] == s.db.runs[id]
  {
    hide Next, Enabled, Invariant;
    if after == [] {
      assert before + after == before;
    } else {
      var all, front := before + after, after[..|after| - 1];
      assert all[..|all| - 1] == before + front && all[|all| - 1] == after[|after| - 1];
      TerminalRunsAreFinal(now, before, front, id);
      InvariantAlways(now, before + front);
      ClaimsOfInvariant(Run(Start(now), before + front));
      TerminalRunStays(Run(Start(now), before + front), after[|after| - 1], id);
    }
  }

  lemma ClaimsOfInvariant(s: Sys)
    requires Invariant(s)
    ensures ClaimsOk(s.db)
  {
  }

  /** A session whose token its Run no longer carries changes no row, whatever it tries. */
  lemma StaleSessionChangesNothing(s: Sys, e: Event)
    requires e.AcceptGraph? || e.AcceptCheckpoint? || e.FinishRun? || e.WaitRun? || e.FailRun? || e.Renew?
    requires e.session.run in s.db.runs ==> s.db.runs[e.session.run].token != Some(e.session.token)
    ensures Next(s, e).db == s.db && Next(s, e).accepts == s.accepts
  {
    hide PyText.Strip, PendingExists;
  }
}
