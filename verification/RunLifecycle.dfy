/** Runs, their user interactions and their jobs: the entities (domain/runtime/entities.py) and the units of work that move them
    (application/runtime/service.py). */
module RunLifecycle {
  import opened Wrappers
  import opened DurableJobs
  import PyText

  type RunId = nat
  type Token = nat
  type InteractionId = nat
  type Key = nat
  type Payload = nat

  datatype RunStatus = Queued | Running | WaitingForUser | Done | Broken | Aborted {
    /** COMPLETED, FAILED and CANCELLED. */
    predicate Terminal() { Done? || Broken? || Aborted? }
  }

  /** The terminal output of the graph: its final_response, if it is text, and everything else. */
  datatype TerminalOutput = TerminalOutput(response: Option<string>, rest: nat)

  datatype RunRow = RunRow(status: RunStatus, owner: Option<Worker>, token: Option<Token>, lease: Option<int>, version: nat,
                           attempts: nat, interruptId: Option<InteractionId>, resume: Option<Payload>, terminal: Option<TerminalOutput>,
                           finalMessage: Option<nat>, error: Option<string>, activeUsed: nat, activeStarted: Option<int>)

  datatype InteractionRow = Pending(run: RunId) | Resolved(run: RunId, response: Payload)

  datatype Role = UserRole | SystemEvent | Assistant

  // A message row; its id is its position in the table.
  datatype Message = Message(run: RunId, role: Role, content: string)

  // ----- transitions of one Run

  const NEW_RUN := RunRow(Queued, None, None, None, 1, 0, None, None, None, None, None, 0, None)

  function PauseActive(r: RunRow, now: int): RunRow {
    match r.activeStarted
    case None => r
    case Some(started) => r.(activeUsed := r.activeUsed + if now > started then now - started else 0, activeStarted := None)
  }

  function ReleaseClaim(r: RunRow): RunRow { r.(owner := None, token := None, lease := None) }

  /** Leaves RUNNING: the active time is added up and the claim is given back. */
  function Left(r: RunRow, status: RunStatus, now: int): RunRow {
    ReleaseClaim(PauseActive(r, now)).(status := status, version := r.version + 1)
  }

  function Started(r: RunRow, now: int): Option<RunRow> {
    if r.status != Queued then None
    else Some(r.(status := Running, activeStarted := if r.activeStarted.Some? then r.activeStarted else Some(now), version := r.version + 1))
  }

  function Recovered(r: RunRow, now: int): Option<RunRow> {
    if r.status != Running then None else Some(Left(r, Queued, now))
  }

  function Waiting(r: RunRow, interaction: InteractionId, now: int): Option<RunRow> {
    if r.status != Running then None else Some(Left(r, WaitingForUser, now).(interruptId := Some(interaction)))
  }

  function Resumed(r: RunRow, interaction: InteractionId, response: Payload): Option<RunRow> {
    if r.status != WaitingForUser || r.interruptId != Some(interaction) then None
    else Some(r.(status := Queued, interruptId := None, resume := Some(response), version := r.version + 1))
  }

  function CompletedRow(r: RunRow, message: nat, now: int): Option<RunRow> {
    if r.status != Running then None else Some(Left(r, Done, now).(finalMessage := Some(message)))
  }

  function Accepted(r: RunRow, output: TerminalOutput): Option<RunRow> {
    if r.status != Running || (r.terminal.Some? && r.terminal != Some(output)) then None
    else if r.terminal.Some? then Some(r)
    else Some(r.(terminal := Some(output), version := r.version + 1))
  }

  function FailedRow(r: RunRow, code: string, now: int): Option<RunRow> {
    if r.status.Terminal() then None else Some(Left(r, Broken, now).(error := Some(code)))
  }

  function CancelledRow(r: RunRow, now: int): Option<RunRow> {
    if r.status.Terminal() then None else Some(Left(r, Aborted, now))
  }

  class AgentRun {
    var status: RunStatus
    var owner: Option<Worker>
    var token: Option<Token>
    var lease: Option<int>
    var version: nat
    var attempts: nat
    var interruptId: Option<InteractionId>
    var resume: Option<Payload>
    var terminal: Option<TerminalOutput>
    var finalMessage: Option<nat>
    var error: Option<string>
    var activeUsed: nat
    var activeStarted: Option<int>

    constructor (r: RunRow)
      ensures Row() == r
    {
      status, owner, token, lease, version, attempts := r.status, r.owner, r.token, r.lease, r.version, r.attempts;
      interruptId, resume, terminal, finalMessage, error := r.interruptId, r.resume, r.terminal, r.finalMessage, r.error;
      activeUsed, activeStarted := r.activeUsed, r.activeStarted;
    }

    function Row(): RunRow
      reads this
    {
      RunRow(status, owner, token, lease, version, attempts, interruptId, resume, terminal, finalMessage, error, activeUsed, activeStarted)
    }

    /** The new row if the entity method succeeds; a refused transition changes nothing. */
    twostate predicate Moved(ok: bool, to: Option<RunRow>)
      reads this
    {
      ok == to.Some? && Row() == if ok then to.value else old(Row())
    }

    method PauseActiveTime(now: int)
      modifies this`activeUsed, this`activeStarted
      ensures Row() == PauseActive(old(Row()), now)
    {
      if activeStarted.Some? {
        var elapsed := now - activeStarted.value;
        activeUsed := activeUsed + if elapsed > 0 then elapsed else 0;
        activeStarted := None;
      }
    }

    method GiveBackClaim()
      modifies this`owner, this`token, this`lease
      ensures Row() == ReleaseClaim(old(Row()))
    {
      owner, token, lease := None, None, None;
    }

    method Start(now: int) returns (ok: bool)
      modifies this
      ensures Moved(ok, Started(old(Row()), now))
    {
      if status != Queued {
        return false;
      }
      status := Running;
      if activeStarted == None {
        activeStarted := Some(now);
      }
      version := version + 1;
      return true;
    }

    method RecoverAfterCrash(now: int) returns (ok: bool)
      modifies this
      ensures Moved(ok, Recovered(old(Row()), now))
    {
      if status != Running {
        return false;
      }
      PauseActiveTime(now);
      status := Queued;
      GiveBackClaim();
      version := version + 1;
      return true;
    }

    method WaitForUser(interaction: InteractionId, now: int) returns (ok: bool)
      modifies this
      ensures Moved(ok, Waiting(old(Row()), interaction, now))
    {
      if status != Running {
        return false;
      }
      PauseActiveTime(now);
      status := WaitingForUser;
      interruptId := Some(interaction);
      GiveBackClaim();
      version := version + 1;
      return true;
    }

    method Resume(interaction: InteractionId, response: Payload) returns (ok: bool)
      modifies this
      ensures Moved(ok, Resumed(old(Row()), interaction, response))
    {
      if status != WaitingForUser || interruptId != Some(interaction) {
        return false;
      }
      status := Queued;
      interruptId := None;
      resume := Some(response);
      version := version + 1;
      return true;
    }

    method Complete(message: nat, now: int) returns (ok: bool)
      modifies this
      ensures Moved(ok, CompletedRow(old(Row()), message, now))
    {
      if status != Running {
        return false;
      }
      PauseActiveTime(now);
      status := Done;
      finalMessage := Some(message);
      GiveBackClaim();
      version := version + 1;
      return true;
    }

    method AcceptTerminalOutput(output: TerminalOutput) returns (ok: bool)
      modifies this
      ensures Moved(ok, Accepted(old(Row()), output))
    {
      if status != Running {
        return false;
      }
      if terminal != None {
        return terminal == Some(output);
      }
      terminal := Some(output);
      version := version + 1;
      return true;
    }

    method Fail(code: string, now: int) returns (ok: bool)
      modifies this
      ensures Moved(ok, FailedRow(old(Row()), code, now))
    {
      if status.Terminal() {
        return false;
      }
      PauseActiveTime(now);
      status := Broken;
      error := Some(code);
      GiveBackClaim();
      version := version + 1;
      return true;
    }

    method Cancel(now: int) returns (ok: bool)
      modifies this
      ensures Moved(ok, CancelledRow(old(Row()), now))
    {
      if status.Terminal() {
        return false;
      }
      PauseActiveTime(now);
      status := Aborted;
      GiveBackClaim();
      version := version + 1;
      return true;
    }
  }

  // ----- rows of all tables

  /** The tables; keys are the idempotency keys of the Runs. */
  datatype Db = Db(now: int, runs: map<RunId, RunRow>, keys: map<string, RunId>, interactions: map<InteractionId, InteractionRow>,
                   messages: seq<Message>, operations: map<Key, RunId>, tokens: nat, jobs: Jobs)

  datatype ServiceError =
    | NotFound | EmptyMessage | EmptyKey | DuplicateSources | LeaseLost | InvalidTransition | VersionConflict | DuplicateRow
    | NotSettled | FencingLost

  /** Writes a changed Run back. */
  function WithRun(db: Db, run: RunId, row: RunRow): Db { db.(runs := db.runs[run := row]) }

  /** What starts a Run: a message of the user with its sources, or an automation with its title and message. The thread and the sources
      of a user are looked up in other tables; threadActive and sourcesKnown are what these lookups give. */
  datatype Input =
    | FromUser(content: string, sources: seq<nat>, key: string, threadActive: bool, sourcesKnown: bool)
    | FromAutomation(title: string, message: string, occurrence: string)

  const AUTOMATION_PREFIX := "[\U{81EA}\U{52A8}\U{5316}\U{63D0}\U{9192}] "

  /** The idempotency key of the request; a Run key is unique. */
  function RequestKey(input: Input): string {
    match input
    case FromUser(_, _, key, _, _) => key
    case FromAutomation(_, _, occurrence) => "automation-run:" + occurrence
  }

  predicate Distinct(sources: seq<nat>) { |set x | x in sources| == |sources| }

  function InputError(input: Input): Option<ServiceError> {
    match input
    case FromUser(content, sources, _, _, _) =>
      if PyText.Strip(content) == "" then Some(EmptyMessage) else if !Distinct(sources) then Some(DuplicateSources) else None
    case FromAutomation(title, message, occurrence) =>
      if PyText.Strip(title) == "" || PyText.Strip(message) == "" then Some(EmptyMessage)
      else if PyText.Strip(occurrence) == "" then Some(EmptyKey)
      else None
  }

  function InputMessage(run: RunId, input: Input): Message {
    match input
    case FromUser(content, _, _, _, _) => Message(run, UserRole, PyText.Strip(content))
    case FromAutomation(title, message, _) =>
      Message(run, SystemEvent, AUTOMATION_PREFIX + PyText.Strip(title) + "\n" + PyText.Strip(message))
  }

  /** Creates a queued Run with its input message and its job, once for each key. */
  function AfterCreate(db: Db, run: RunId, input: Input): (Result<RunId, ServiceError>, Db) {
    if InputError(input).Some? then (Err(InputError(input).value), db)
    else if RequestKey(input) in db.keys then (Ok(db.keys[RequestKey(input)]), db)
    else if input.FromUser? && !(input.threadActive && input.sourcesKnown) then (Err(NotFound), db)
    else if run in db.runs || run in db.jobs then (Err(DuplicateRow), db)
    else
      (Ok(run), db.(runs := db.runs[run := NEW_RUN], keys := db.keys[RequestKey(input) := run],
                    messages := db.messages + [InputMessage(run, input)], jobs := db.jobs[run := NewJob(db.now)]))
  }

  // ----- claims

  predicate Claimable(r: RunRow, now: int) {
    r.status == Queued || (r.status == Running && (r.lease == None || r.lease.value <= now))
  }

  function ClaimedRow(r: RunRow, owner: Worker, token: Token, now: int, seconds: int): RunRow {
    r.(status := Running, owner := Some(owner), token := Some(token), lease := Some(now + seconds), attempts := r.attempts + 1,
       activeStarted := if r.activeStarted.Some? then r.activeStarted else Some(now), version := r.version + 1)
  }

  /** Claims the Run under a fresh token, if it is queued or its lease has run out. */
  function AfterClaim(db: Db, run: RunId, owner: Worker, seconds: int): (Option<RunRow>, Db) {
    if run in db.runs && Claimable(db.runs[run], db.now) then
      var row := ClaimedRow(db.runs[run], owner, db.tokens, db.now, seconds);
      (Some(row), WithRun(db, run, row).(tokens := db.tokens + 1))
    else (None, db)
  }

  predicate HoldsRun(r: RunRow, owner: Worker, token: Token) { r.owner == Some(owner) && r.token == Some(token) }

  function AfterRenewLease(db: Db, run: RunId, owner: Worker, token: Token, seconds: int): (bool, Db) {
    if run in db.runs && db.runs[run].status == Running && HoldsRun(db.runs[run], owner, token) then
      (true, WithRun(db, run, db.runs[run].(lease := Some(db.now + seconds))))
    else (false, db)
  }

  /** Requeues the Run if it is running with an expired lease. */
  function AfterRecover(db: Db, run: RunId): Db {
    if run in db.runs && db.runs[run].status == Running && Claimable(db.runs[run], db.now) then
      WithRun(db, run, Left(db.runs[run], Queued, db.now))
    else db
  }

  function RecoverEach(db: Db, ids: seq<RunId>): Db {
    if ids == [] then db else AfterRecover(RecoverEach(db, ids[..|ids| - 1]), ids[|ids| - 1])
  }

  // ----- what workers do with a claimed Run

  datatype WorkerAction = Begin | Wait(interaction: InteractionId) | Finish(content: string) | GiveUp(code: string)

  // The owner and token that a worker presents; a caller may present none.
  datatype Fence = Unfenced | Fence(owner: Worker, token: Option<Token>)

  predicate Passes(r: RunRow, f: Fence) {
    f.Fence? ==> f.token.Some? && HoldsRun(r, f.owner, f.token.value)
  }

  predicate PendingExists(interactions: map<InteractionId, InteractionRow>, run: RunId) {
    exists i | i in interactions :: interactions[i] == Pending(run)
  }

  function AfterAction(db: Db, run: RunId, action: WorkerAction): (Result<(), ServiceError>, Db)
    requires run in db.runs
  {
    var r := db.runs[run];
    match action
    case Begin =>
      if Started(r, db.now).None? then (Err(InvalidTransition), db) else (Ok(()), WithRun(db, run, Started(r, db.now).value))
    case Wait(i) =>
      if Waiting(r, i, db.now).None? then (Err(InvalidTransition), db)
      else if i in db.interactions || PendingExists(db.interactions, run) then (Err(DuplicateRow), db)
      else (Ok(()), WithRun(db, run, Waiting(r, i, db.now).value).(interactions := db.interactions[i := Pending(run)]))
    case Finish(content) =>
      var text := PyText.Strip(content);
      if text == "" || CompletedRow(r, |db.messages|, db.now).None? then (Err(InvalidTransition), db)
      else
        (Ok(()), WithRun(db, run, CompletedRow(r, |db.messages|, db.now).value)
                 .(messages := db.messages + [Message(run, Assistant, text)]))
    case GiveUp(code) =>
      if FailedRow(r, code, db.now).None? then (Err(InvalidTransition), db) else (Ok(()), WithRun(db, run, FailedRow(r, code, db.now).value))
  }

  function AfterTransition(db: Db, run: RunId, action: WorkerAction, f: Fence): (Result<(), ServiceError>, Db) {
    if run !in db.runs then (Err(NotFound), db)
    else if !Passes(db.runs[run], f) then (Err(LeaseLost), db)
    else AfterAction(db, run, action)
  }

  function AfterAccept(db: Db, run: RunId, output: TerminalOutput, owner: Worker, token: Token): (Result<(), ServiceError>, Db) {
    if run !in db.runs then (Err(NotFound), db)
    else if !HoldsRun(db.runs[run], owner, token) then (Err(LeaseLost), db)
    else match Accepted(db.runs[run], output)
      case None => (Err(InvalidTransition), db)
      case Some(row) => (Ok(()), WithRun(db, run, row))
  }

  // ----- what users do

  datatype Change = ResumeRun(interaction: InteractionId, response: Payload) | CancelRun

  /** RunInteraction.resolve: resolving again needs the same response. */
  function ResolveInteraction(i: InteractionRow, response: Payload): Option<InteractionRow> {
    match i
    case Pending(run) => Some(Resolved(run, response))
    case Resolved(_, earlier) => if earlier == response then Some(i) else None
  }

  class RunInteraction {
    var row: InteractionRow

    constructor (row: InteractionRow)
      ensures this.row == row
    {
      this.row := row;
    }

    method Resolve(response: Payload) returns (ok: bool)
      modifies this
      ensures ok == ResolveInteraction(old(row), response).Some?
      ensures row == if ok then ResolveInteraction(old(row), response).value else old(row)
    {
      if row.Resolved? {
        return row.response == response;
      }
      row := Resolved(row.run, response);
      return true;
    }
  }

  function AfterResumeRun(db: Db, run: RunId, i: InteractionId, response: Payload): Option<Db>
    requires run in db.runs
  {
    if i !in db.interactions || db.interactions[i].run != run then None
    else
      var resolved := ResolveInteraction(db.interactions[i], response);
      var row := Resumed(db.runs[run], i, response);
      if resolved.None? || row.None? || !CanResume(db.jobs, run) then None
      else Some(WithRun(db, run, row.value).(interactions := db.interactions[i := resolved.value], jobs := AfterResume(db.jobs, run, db.now)))
  }

  function AfterCancelRun(db: Db, run: RunId): Option<Db>
    requires run in db.runs
  {
    match CancelledRow(db.runs[run], db.now)
    case None => None
    case Some(row) => Some(WithRun(db, run, row).(jobs := AfterCancel(db.jobs, run)))
  }

  /** Resumes or cancels a Run once for each idempotency key. */
  function AfterChange(db: Db, run: RunId, version: nat, key: Key, change: Change): (Result<(), ServiceError>, Db) {
    if key in db.operations then (Ok(()), db)
    else if run !in db.runs then (Err(NotFound), db)
    else if db.runs[run].version != version then (Err(VersionConflict), db)
    else
      var after := match change
        case ResumeRun(i, response) => AfterResumeRun(db, run, i, response)
        case CancelRun => AfterCancelRun(db, run);
      match after
      case None => (Err(InvalidTransition), db)
      case Some(d) => (Ok(()), d.(operations := d.operations[key := run]))
  }

  // ----- settling the job of a Run

  function SettledStatus(db: Db, run: RunId): Option<JobStatus> {
    if run !in db.runs then Some(Failed)
    else match db.runs[run].status
      case WaitingForUser => Some(Paused)
      case Aborted => Some(Cancelled)
      case Done => Some(Completed)
      case Broken => Some(Completed)
      case _ => None
  }

  function AfterSettleJob(db: Db, run: RunId, owner: Worker, epoch: nat): (Result<(), ServiceError>, Db) {
    match SettledStatus(db, run)
    case None => (Err(NotSettled), db)
    case Some(status) =>
      if !CanSettle(db.jobs, run, owner, epoch, db.now) then (Err(FencingLost), db)
      else (Ok(()), db.(jobs := AfterSettle(db.jobs, run, owner, epoch, status, db.now)))
  }
}
