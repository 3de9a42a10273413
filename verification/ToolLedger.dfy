/** The Tool ledger: claiming, completing and reconciling Tool executions (application/runtime/service.py) over the
    compare-and-set operations of its repository (infrastructure/persistence/repositories/runtime.py). */
module ToolLedger {
  import opened Wrappers
  import opened StateWrites

  type RunId = nat
  type Worker = nat
  type Token = nat
  type ActionKey = (RunId, string)

  // A Run is RUNNING, or it is over (COMPLETED, FAILED or CANCELLED), or neither (QUEUED or WAITING_FOR_USER).
  datatype RunPhase = Pending | Running | Ended

  /** The status of a Run, as far as its tools go, and its claim fields. */
  datatype RunClaim = RunClaim(phase: RunPhase, owner: Option<Worker>, token: Option<Token>)

  // What a finished execution stores: the receipt of an atomic mutation, or what the tool reported.
  datatype Output = Receipt(tool: string, outcome: Outcome) | Reported(text: string)

  datatype ExecutionStatus = InProgress | Succeeded | Failed | UnknownOutcome

  /** What a claim asks for. */
  datatype Call = Call(tool: string, arguments: string, replaySafe: bool, key: Option<Key>)

  datatype Execution = Execution(call: Call, status: ExecutionStatus, result: Option<Output>, owner: Worker, token: Token,
                                 lease: int, attempts: nat)

  datatype Db = Db(now: int, runs: map<RunId, RunClaim>, tools: map<ActionKey, Execution>, tokens: nat, state: State)

  datatype ServiceError =
    | RunNotFound | NotOwned | DifferentArguments | DifferentContract | LeaseLost | ExecutionNotFound | NotUnknown
    | WriteFailed(error: WriteError)

  datatype ClaimReply = Acquired(token: Token) | Cached(result: Output) | Blocked | Busy

  // ----- what each unit of work does

  /** The Run belongs to the worker; a claim also has to present the token of the Run. */
  predicate Owns(db: Db, run: RunId, owner: Worker) {
    run in db.runs && db.runs[run].phase == Running && db.runs[run].owner == Some(owner)
  }

  predicate SameCall(e: Execution, call: Call) {
    e.call.tool == call.tool && e.call.arguments == call.arguments
  }

  predicate SameContract(e: Execution, call: Call) {
    e.call.replaySafe == call.replaySafe && (e.call.key.None? || e.call.key == call.key)
  }

  function FreshExecution(db: Db, call: Call, owner: Worker, seconds: int): Execution {
    Execution(call, InProgress, None, owner, db.tokens, db.now + seconds, 1)
  }

  function TakenOver(db: Db, e: Execution, owner: Worker, seconds: int): Execution {
    e.(owner := owner, token := db.tokens, lease := db.now + seconds, attempts := e.attempts + 1)
  }

  function AfterExistingClaim(db: Db, k: ActionKey, call: Call, owner: Worker, seconds: int): (Result<ClaimReply, ServiceError>, Db)
    requires k in db.tools
  {
    var e := db.tools[k];
    if !SameCall(e, call) then (Err(DifferentArguments), db)
    else if !SameContract(e, call) then (Err(DifferentContract), db)
    else if e.result.Some? then (Ok(Cached(e.result.value)), db)
    else if e.lease <= db.now && !e.call.replaySafe then
      (Ok(Blocked), if e.status == InProgress then db.(tools := db.tools[k := e.(status := UnknownOutcome)]) else db)
    else if e.status == InProgress && e.lease <= db.now then
      (Ok(Acquired(db.tokens)), db.(tools := db.tools[k := TakenOver(db, e, owner, seconds)], tokens := db.tokens + 1))
    else (Ok(Busy), db)
  }

  function AfterClaim(db: Db, k: ActionKey, call: Call, owner: Worker, runToken: Token, seconds: int): (Result<ClaimReply, ServiceError>, Db) {
    if k.0 !in db.runs then (Err(RunNotFound), db)
    else if !(Owns(db, k.0, owner) && db.runs[k.0].token == Some(runToken)) then (Err(NotOwned), db)
    else if k !in db.tools then
      (Ok(Acquired(db.tokens)), db.(tools := db.tools[k := FreshExecution(db, call, owner, seconds)], tokens := db.tokens + 1))
    else AfterExistingClaim(db, k, call, owner, seconds)
  }

  /** The row that complete finds: in progress, and held by this owner under this token. */
  predicate Holds(db: Db, k: ActionKey, owner: Worker, token: Token) {
    k in db.tools && db.tools[k].status == InProgress && db.tools[k].owner == owner && db.tools[k].token == token
  }

  function Finished(e: Execution, output: Output, succeeded: bool): Execution {
    e.(status := if succeeded then Succeeded else Failed, result := Some(output))
  }

  function AfterComplete(db: Db, k: ActionKey, owner: Worker, token: Token, output: Output, succeeded: bool): (Result<(), ServiceError>, Db) {
    if k.0 !in db.runs then (Err(RunNotFound), db)
    else if !Owns(db, k.0, owner) then (Err(NotOwned), db)
    else if !Holds(db, k, owner, token) then (Err(LeaseLost), db)
    else (Ok(()), db.(tools := db.tools[k := Finished(db.tools[k], output, succeeded)]))
  }

  /** The state change and its receipt commit together or not at all. */
  function AfterMutation(db: Db, k: ActionKey, owner: Worker, token: Token, tool: string, thing: Id, c: Change, v: nat)
    : (Result<Outcome, ServiceError>, Db)
  {
    if k.0 !in db.runs then (Err(RunNotFound), db)
    else if !Owns(db, k.0, owner) then (Err(NotOwned), db)
    else
      var (r, state) := AfterWrite(db.state, Agent(k.0, k.1), thing, c, v);
      if r.Err? then (Err(WriteFailed(r.error)), db)
      else if !Holds(db, k, owner, token) then (Err(LeaseLost), db)
      else (Ok(r.value), db.(state := state, tools := db.tools[k := Finished(db.tools[k], Receipt(tool, r.value), true)]))
  }

  function AfterReconcile(db: Db, k: ActionKey, output: Output, succeeded: bool): (Result<(), ServiceError>, Db) {
    if k.0 !in db.runs then (Err(RunNotFound), db)
    else if k !in db.tools then (Err(ExecutionNotFound), db)
    else if db.tools[k].status != UnknownOutcome then (Err(NotUnknown), db)
    else (Ok(()), db.(tools := db.tools[k := Finished(db.tools[k], output, succeeded)]))
  }

  /** An audited write of its own unit of work, as update_thing makes it for a tool or for an API client. */
  function AfterPlainWrite(db: Db, key: Key, thing: Id, c: Change, v: nat): (Result<Outcome, WriteError>, Db) {
    var (r, state) := AfterWrite(db.state, key, thing, c, v);
    (r, db.(state := state))
  }

  // ----- the service

  /** Each public method of the service is one unit of work: it commits, or leaves every row as it was. */
  class RuntimeService {
    var now: int
    var runs: map<RunId, RunClaim>
    var tools: map<ActionKey, Execution>
    var tokens: nat
    const state: StateStore

    constructor (db: Db)
      ensures fresh(state) && Rows() == db
    {
      now, runs, tools, tokens := db.now, db.runs, db.tools, db.tokens;
      state := new StateStore(db.state);
    }

    function Rows(): Db
      reads this, state
    {
      Db(now, runs, tools, tokens, state.Value())
    }

    method AddIfAbsent(k: ActionKey, e: Execution) returns (inserted: bool)
      modifies this`tools
      ensures inserted <==> k !in old(tools)
      ensures tools == if inserted then old(tools)[k := e] else old(tools)
    {
      inserted := k !in tools;
      if inserted {
        tools := tools[k := e];
      }
    }

    method TakeoverIfExpired(k: ActionKey, owner: Worker, token: Token, lease: int) returns (taken: bool)
      requires k in tools
      modifies this`tools
      ensures taken <==> old(tools)[k].status == InProgress && old(tools)[k].lease <= now
      ensures tools == if taken then old(tools)[k := old(tools)[k].(owner := owner, token := token, lease := lease, attempts := old(tools)[k].attempts + 1)]
                       else old(tools)
    {
      var e := tools[k];
      taken := e.status == InProgress && e.lease <= now;
      if taken {
        tools := tools[k := e.(owner := owner, token := token, lease := lease, attempts := e.attempts + 1)];
      }
    }

    method MarkUnknownIfExpired(k: ActionKey) returns (marked: bool)
      requires k in tools
      modifies this`tools
      ensures marked <==> old(tools)[k].status == InProgress && old(tools)[k].lease <= now && !old(tools)[k].call.replaySafe
      ensures tools == if marked then old(tools)[k := old(tools)[k].(status := UnknownOutcome)] else old(tools)
    {
      var e := tools[k];
      marked := e.status == InProgress && e.lease <= now && !e.call.replaySafe;
      if marked {
        tools := tools[k := e.(status := UnknownOutcome)];
      }
    }

    method CompleteRow(k: ActionKey, owner: Worker, token: Token, output: Output, succeeded: bool) returns (completed: bool)
      modifies this`tools
      ensures completed <==> old(Holds(Rows(), k, owner, token))
      ensures tools == if completed then old(tools)[k := Finished(old(tools)[k], output, succeeded)] else old(tools)
    {
      completed := k in tools && tools[k].status == InProgress && tools[k].owner == owner && tools[k].token == token;
      if completed {
        tools := tools[k := tools[k].(status := if succeeded then Succeeded else Failed, result := Some(output))];
      }
    }

    method ReconcileUnknownRow(k: ActionKey, output: Output, succeeded: bool) returns (reconciled: bool)
      requires k in tools
      modifies this`tools
      ensures reconciled <==> old(tools)[k].status == UnknownOutcome
      ensures tools == if reconciled then old(tools)[k := Finished(old(tools)[k], output, succeeded)] else old(tools)
    {
      reconciled := tools[k].status == UnknownOutcome;
      if reconciled {
        tools := tools[k := tools[k].(status := if succeeded then Succeeded else Failed, result := Some(output))];
      }
    }

    method ClaimToolExecution(k: ActionKey, call: Call, owner: Worker, runToken: Token, seconds: int)
      returns (r: Result<ClaimReply, ServiceError>)
      modifies this
      ensures (r, Rows()) == AfterClaim(old(Rows()), k, call, owner, runToken, seconds)
    {
      var token := tokens;
      if k.0 !in runs {
        return Err(RunNotFound);
      }
      var run := runs[k.0];
      if run.owner != Some(owner) || run.token != Some(runToken) || run.phase != Running {
        return Err(NotOwned);
      }
      var inserted := AddIfAbsent(k, Execution(call, InProgress, None, owner, token, now + seconds, 1));
      if inserted {
        tokens := tokens + 1;
        return Ok(Acquired(token));
      }
      var existing := tools[k];
      if existing.call.tool != call.tool || existing.call.arguments != call.arguments {
        return Err(DifferentArguments);
      }
      if existing.call.replaySafe != call.replaySafe || (existing.call.key != None && existing.call.key != call.key) {
        return Err(DifferentContract);
      }
      if existing.result.Some? {
        return Ok(Cached(existing.result.value));
      }
      if existing.lease <= now && !existing.call.replaySafe {
        var _ := MarkUnknownIfExpired(k);
        return Ok(Blocked);
      }
      var taken := TakeoverIfExpired(k, owner, token, now + seconds);
      if !taken {
        return Ok(Busy);
      }
      tokens := tokens + 1;
      return Ok(Acquired(token));
    }

    method CompleteToolExecution(k: ActionKey, owner: Worker, token: Token, output: Output, succeeded: bool) returns (r: Result<(), ServiceError>)
      modifies this
      ensures (r, Rows()) == AfterComplete(old(Rows()), k, owner, token, output, succeeded)
    {
      if k.0 !in runs {
        return Err(RunNotFound);
      }
      if runs[k.0].owner != Some(owner) || runs[k.0].phase != Running {
        return Err(NotOwned);
      }
      var completed := CompleteRow(k, owner, token, output, succeeded);
      if !completed {
        return Err(LeaseLost);
      }
      return Ok(());
    }

    /** The mutation is applied first and its receipt completed after it; if the lease is lost both are rolled back. */
    method CompletePersonalStateMutationTool(k: ActionKey, owner: Worker, token: Token, tool: string, thing: Id, c: Change, v: nat)
      returns (r: Result<Outcome, ServiceError>)
      modifies this, state
      ensures (r, Rows()) == AfterMutation(old(Rows()), k, owner, token, tool, thing, c, v)
    {
      hide AfterWrite;
      if k.0 !in runs {
        return Err(RunNotFound);
      }
      if runs[k.0].owner != Some(owner) || runs[k.0].phase != Running {
        return Err(NotOwned);
      }
      var things, audit := state.things, state.audit;
      var outcome := state.Write(Agent(k.0, k.1), thing, c, v);
      if outcome.Err? {
        state.things, state.audit := things, audit;
        return Err(WriteFailed(outcome.error));
      }
      var completed := CompleteRow(k, owner, token, Receipt(tool, outcome.value), true);
      if !completed {
        state.things, state.audit := things, audit;
        return Err(LeaseLost);
      }
      return Ok(outcome.value);
    }

    method ReconcileUnknownToolExecution(k: ActionKey, output: Output, succeeded: bool) returns (r: Result<(), ServiceError>)
      modifies this
      ensures (r, Rows()) == AfterReconcile(old(Rows()), k, output, succeeded)
    {
      if k.0 !in runs {
        return Err(RunNotFound);
      }
      if k !in tools {
        return Err(ExecutionNotFound);
      }
      if tools[k].status != UnknownOutcome {
        return Err(NotUnknown);
      }
      var _ := ReconcileUnknownRow(k, output, succeeded);
      return Ok(());
    }

    method UpdateThing(key: Key, thing: Id, c: Change, v: nat) returns (r: Result<Outcome, WriteError>)
      modifies state
      ensures (r, Rows()) == AfterPlainWrite(old(Rows()), key, thing, c, v)
    {
      hide AfterWrite;
      r := state.Write(key, thing, c, v);
    }
  }
}
