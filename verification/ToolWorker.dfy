/** The worker's side of the Tool ledger: RuntimeToolExecutionLedger (workers/agent.py) and the execution of one action (agent/graph.py),
    proved to take only the steps whose histories LedgerSafety covers. */
module ToolWorker {
  import opened Wrappers
  import opened StateWrites
  import opened ToolLedger
  import opened LedgerSafety

  /** What a claim gives the graph: an exception, or whether it acquired and the stored result. */
  datatype LedgerReply = Raised(error: ServiceError) | OutcomeUnknown | Answer(acquired: bool, cached: Option<Output>)

  /** The tokens of the claims that one worker holds. */
  class RuntimeToolExecutionLedger {
    const runtime: RuntimeService
    const owner: Worker
    var claimTokens: map<ActionKey, Token>

    constructor (runtime: RuntimeService, owner: Worker)
      ensures this.runtime == runtime && this.owner == owner && claimTokens == map[]
    {
      this.runtime, this.owner, claimTokens := runtime, owner, map[];
    }

    method Claim(k: ActionKey, call: Call, runToken: Token, seconds: int) returns (r: LedgerReply)
      modifies this, runtime
      ensures var (reply, db) := AfterClaim(old(runtime.Rows()), k, call, owner, runToken, seconds);
              && runtime.Rows() == db
              && r == (match reply
                       case Err(e) => Raised(e)
                       case Ok(Blocked) => OutcomeUnknown
                       case Ok(Acquired(_)) => Answer(true, None)
                       case Ok(Cached(result)) => Answer(false, Some(result))
                       case Ok(Busy) => Answer(false, None))
              && claimTokens == (if reply.Ok? && reply.value.Acquired? then old(claimTokens)[k := reply.value.token] else old(claimTokens))
    {
      hide AfterClaim;
      var reply := runtime.ClaimToolExecution(k, call, owner, runToken, seconds);
      match reply {
        case Err(e) => r := Raised(e);
        case Ok(Blocked) => r := OutcomeUnknown;
        case Ok(Acquired(token)) =>
          claimTokens := claimTokens[k := token];
          r := Answer(true, None);
        case Ok(Cached(result)) => r := Answer(false, Some(result));
        case Ok(Busy) => r := Answer(false, None);
      }
    }

    /** Completes with the token of the claim, and forgets it; without one it raises before it reaches the service. */
    method Complete(k: ActionKey, output: Output, succeeded: bool) returns (ok: bool)
      modifies this, runtime
      ensures claimTokens == old(claimTokens) - {k}
      ensures k !in old(claimTokens) ==> !ok && runtime.Rows() == old(runtime.Rows())
      ensures k in old(claimTokens) ==>
                var (r, db) := AfterComplete(old(runtime.Rows()), k, owner, old(claimTokens)[k], output, succeeded);
                ok == r.Ok? && runtime.Rows() == db
    {
      hide AfterComplete;
      if k !in claimTokens {
        assert claimTokens == claimTokens - {k};
        return false;
      }
      var token := claimTokens[k];
      claimTokens := claimTokens - {k};
      var r := runtime.CompleteToolExecution(k, owner, token, output, succeeded);
      ok := r.Ok?;
    }

    method AcknowledgeAtomicCompletion(k: ActionKey)
      modifies this
      ensures claimTokens == old(claimTokens) - {k}
    {
      claimTokens := claimTokens - {k};
    }
  }

  /** What the handler of a tool does: one atomic mutation with its receipt, a write of its own, or nothing to the state; it may also raise
      an exception of its own. */
  datatype Handler =
    | Atomic(thing: Id, change: Change, version: nat)
    | Writes(thing: Id, change: Change, version: nat)
    | Reports(output: Output, succeeded: bool)
    | Raises

  ghost predicate Fits(c: Config, call: Call, h: Handler) {
    match h
    case Atomic(_, _, _) => PairOf(call) in c.bound
    case Writes(_, _, _) => PairOf(call) in c.writing
    case Reports(_, _) => PairOf(call) !in c.bound + c.writing
    case Raises => true
  }

  ghost predicate Follows(c: Config, s: Sys, es: seq<Event>, t: Sys) {
    Possible(c, s, es) && t == Run(s, es)
  }

  lemma OneMoreStep(c: Config, s: Sys, es: seq<Event>, t: Sys, e: Event)
    requires Follows(c, s, es, t) && Enabled(c, t, e)
    ensures Follows(c, s, es + [e], Next(t, e))
  {
    hide Next, Enabled;
    assert (es + [e])[..|es|] == es;
  }

  lemma ClaimStep(c: Config, s: Sys, e: Event)
    requires e.Claim?
    ensures Enabled(c, s, e)
    ensures var (r, db) := AfterClaim(s.db, e.k, e.call, e.owner, e.runToken, e.leaseSeconds);
            && Next(s, e).db == db
            && (r.Ok? && r.value.Acquired? ==> Task(e.k, e.owner, r.value.token, e.call, false) in Next(s, e).tasks)
  {
    hide AfterClaim;
  }

  lemma MutateStep(c: Config, s: Sys, e: Event)
    requires e.Mutate? && e.task in s.tasks && PairOf(e.task.call) in c.bound
    ensures Enabled(c, s, e) && e.task in Next(s, e).tasks
    ensures Next(s, e).db == AfterMutation(s.db, e.task.k, e.task.owner, e.task.token, e.task.call.tool, e.thing, e.change, e.v).1
  {
    hide AfterMutation;
  }

  lemma WriteStep(c: Config, s: Sys, e: Event)
    requires e.Write? && e.task in s.tasks && PairOf(e.task.call) in c.writing
    ensures Enabled(c, s, e)
    ensures var (r, db) := AfterPlainWrite(s.db, KeyOf(e.task.k), e.thing, e.change, e.v);
            && Next(s, e).db == db
            && (if r.Ok? then e.task.(applied := true) in Next(s, e).tasks else e.task in Next(s, e).tasks)
  {
    hide AfterPlainWrite;
  }

  lemma CompleteStep(c: Config, s: Sys, e: Event)
    requires e.Complete? && e.task in s.tasks
    requires e.succeeded ==> PairOf(e.task.call) !in c.bound && (PairOf(e.task.call) in c.writing ==> e.task.applied)
    ensures Enabled(c, s, e)
    ensures Next(s, e).db == AfterComplete(s.db, e.task.k, e.task.owner, e.task.token, e.output, e.succeeded).1
  {
    hide AfterComplete;
  }

  lemma NoSteps(c: Config, s: Sys)
    ensures Follows(c, s, [], s)
  {
  }

  /** The effect of a handler on the state, and whether it counts as a success. */
  ghost function Effect(h: Handler, k: ActionKey, state: State): (bool, State) {
    match h
    case Atomic(thing, change, v) => var (r, after) := AfterWrite(state, KeyOf(k), thing, change, v); (r.Ok?, after)
    case Writes(thing, change, v) => var (r, after) := AfterWrite(state, KeyOf(k), thing, change, v); (r.Ok?, after)
    case Reports(_, succeeded) => (succeeded, state)
    case Raises => (false, state)
  }

  /** The tool registry turns the domain errors and bad arguments into results; an idempotent write that points to a missing Thing raises
      through it, and so do exceptions of other kinds. */
  predicate Uncaught(e: WriteError) { e == MissingThing }

  ghost predicate Propagates(h: Handler, k: ActionKey, state: State) {
    match h
    case Atomic(thing, change, v) => var r := AfterWrite(state, KeyOf(k), thing, change, v).0; r.Err? && Uncaught(r.error)
    case Writes(thing, change, v) => var r := AfterWrite(state, KeyOf(k), thing, change, v).0; r.Err? && Uncaught(r.error)
    case Reports(_, _) => false
    case Raises => true
  }

  /** The worker holds the action under its token, and owns the Run. */
  ghost predicate Held(db: Db, k: ActionKey, owner: Worker, token: Token) { Owns(db, k.0, owner) && Holds(db, k, owner, token) }

  lemma AcquiredIsHeld(db: Db, k: ActionKey, call: Call, owner: Worker, runToken: Token, seconds: int)
    ensures var (r, after) := AfterClaim(db, k, call, owner, runToken, seconds);
            r.Ok? && r.value.Acquired? ==> Held(after, k, owner, r.value.token) && after.state == db.state
  {
    hide SameCall, SameContract;
  }

  lemma HeldMutates(db: Db, k: ActionKey, owner: Worker, token: Token, tool: string, thing: Id, c: Change, v: nat)
    requires Held(db, k, owner, token)
    ensures var (r, after) := AfterMutation(db, k, owner, token, tool, thing, c, v);
            var (w, state) := AfterWrite(db.state, KeyOf(k), thing, c, v);
            && (r.Ok? <==> w.Ok?) && after.state == state
            && (r.Ok? ==> w == Ok(r.value) && k in after.tools && after.tools[k].status == Succeeded
                          && after.tools[k].result == Some(Receipt(tool, r.value)))
            && (r.Err? ==> w.Err? && r.error == WriteFailed(w.error) && after == db)
  {
    RefusedWriteKeeps(db.state, KeyOf(k), thing, c, v);
    hide AfterWrite;
  }

  lemma RefusedWriteKeeps(s: State, key: Key, thing: Id, c: Change, v: nat)
    ensures AfterWrite(s, key, thing, c, v).0.Err? ==> AfterWrite(s, key, thing, c, v).1 == s
  {
    hide Recorded;
  }

  lemma HeldWrites(db: Db, k: ActionKey, owner: Worker, token: Token, thing: Id, c: Change, v: nat)
    requires Held(db, k, owner, token)
    ensures var (r, after) := AfterPlainWrite(db, KeyOf(k), thing, c, v);
            var (w, state) := AfterWrite(db.state, KeyOf(k), thing, c, v);
            r == w && after.state == state && Held(after, k, owner, token) && (r.Err? ==> after == db)
  {
    RefusedWriteKeeps(db.state, KeyOf(k), thing, c, v);
    hide AfterWrite;
  }

  lemma HeldCompletes(db: Db, k: ActionKey, owner: Worker, token: Token, output: Output, succeeded: bool)
    requires Held(db, k, owner, token)
    ensures var (r, after) := AfterComplete(db, k, owner, token, output, succeeded);
            && r.Ok? && after.state == db.state && k in after.tools
            && after.tools[k].status == (if succeeded then Succeeded else Failed) && after.tools[k].result == Some(output)
  {
  }

  /** The action has its result, success exactly if it worked, and the state is the effect. */
  ghost predicate RecordedAs(db: Db, k: ActionKey, result: Option<Output>, effect: (bool, State)) {
    && k in db.tools && result.Some? && db.tools[k].result == result
    && db.tools[k].status == (if effect.0 then Succeeded else Failed) && db.state == effect.1
  }

  /** _execute_one: claims the action, runs its handler and records the result. Each unit of work is a step of the protocol, the handler
      runs only under an acquired claim, and an undisturbed execution leaves its effect with the matching result, unless an exception goes
      through: that one leaves the row in progress. The result is None when _execute_one raises. */
  method ExecuteOne(ledger: RuntimeToolExecutionLedger, k: ActionKey, call: Call, runToken: Token, seconds: int, handler: Handler,
                    c: Config, ghost s: Sys)
    returns (result: Option<Output>, ghost es: seq<Event>, ghost t: Sys)
    requires s.db == ledger.runtime.Rows() && c.Valid() && Fits(c, call, handler)
    modifies ledger, ledger.runtime, ledger.runtime.state
    ensures Follows(c, s, es, t) && t.db == ledger.runtime.Rows()
    ensures var (reply, claimed) := AfterClaim(s.db, k, call, ledger.owner, runToken, seconds);
            if reply.Ok? && reply.value.Acquired? then
              if Propagates(handler, k, claimed.state) then result == None && t.db == claimed
              else RecordedAs(t.db, k, result, Effect(handler, k, claimed.state))
            else t.db == claimed && result == if reply.Ok? && reply.value.Cached? then Some(reply.value.result) else None
  {
    hide Possible, Run, Follows, Next, Enabled, AfterClaim, AfterComplete, AfterMutation, AfterPlainWrite, AfterWrite, Holds, Owns, Held;
    NoSteps(c, s);
    AcquiredIsHeld(s.db, k, call, ledger.owner, runToken, seconds);
    var reply := ledger.Claim(k, call, runToken, seconds);
    var claim := LedgerSafety.Claim(k, call, ledger.owner, runToken, seconds);
    ClaimStep(c, s, claim);
    OneMoreStep(c, s, [], s, claim);
    es, t := [] + [claim], Next(s, claim);
    if !(reply.Answer? && reply.acquired) {
      result := if reply.Answer? then reply.cached else None;
      return;
    }
    var token := ledger.claimTokens[k];
    ghost var task := Task(k, ledger.owner, token, call, false);
    match handler {
      case Atomic(thing, change, v) =>
        HeldMutates(t.db, k, ledger.owner, token, call.tool, thing, change, v);
        var done := ledger.runtime.CompletePersonalStateMutationTool(k, ledger.owner, token, call.tool, thing, change, v);
        MutateStep(c, t, Mutate(task, thing, change, v));
        OneMoreStep(c, s, es, t, Mutate(task, thing, change, v));
        es, t := es + [Mutate(task, thing, change, v)], Next(t, Mutate(task, thing, change, v));
        if done.Ok? {
          ledger.AcknowledgeAtomicCompletion(k);
          result := Some(Receipt(call.tool, done.value));
        } else if done.error.WriteFailed? && Uncaught(done.error.error) {
          result := None;
        } else {
          result, es, t := Record(ledger, k, task, Reported("FAILED"), false, c, s, es, t);
        }
      case Writes(thing, change, v) =>
        HeldWrites(t.db, k, ledger.owner, token, thing, change, v);
        var done := ledger.runtime.UpdateThing(KeyOf(k), thing, change, v);
        WriteStep(c, t, Write(task, thing, change, v));
        OneMoreStep(c, s, es, t, Write(task, thing, change, v));
        es, t := es + [Write(task, thing, change, v)], Next(t, Write(task, thing, change, v));
        if done.Ok? {
          result, es, t := Record(ledger, k, task.(applied := true), Reported("SUCCESS"), true, c, s, es, t);
        } else if Uncaught(done.error) {
          result := None;
        } else {
          result, es, t := Record(ledger, k, task, Reported("FAILED"), false, c, s, es, t);
        }
      case Raises =>
        result := None;
      case Reports(output, succeeded) =>
        result, es, t := Record(ledger, k, task, output, succeeded, c, s, es, t);
    }
  }

  /** Records the result of an action under the token of its claim. */
  method Record(ledger: RuntimeToolExecutionLedger, k: ActionKey, ghost task: Task, output: Output, succeeded: bool, c: Config, ghost s: Sys,
                ghost es: seq<Event>, ghost t: Sys)
    returns (result: Option<Output>, ghost more: seq<Event>, ghost u: Sys)
    requires Follows(c, s, es, t) && t.db == ledger.runtime.Rows() && task in t.tasks
    requires k == task.k && k in ledger.claimTokens && ledger.claimTokens[k] == task.token && task.owner == ledger.owner
    requires succeeded ==> PairOf(task.call) !in c.bound && (PairOf(task.call) in c.writing ==> task.applied)
    modifies ledger, ledger.runtime
    ensures Follows(c, s, more, u) && u.db == ledger.runtime.Rows()
    ensures Held(t.db, k, task.owner, task.token) ==> RecordedAs(u.db, k, result, (succeeded, t.db.state)) && result == Some(output)
  {
    hide Possible, Run, Follows, Next, Enabled, AfterComplete, Held;
    ghost var held := Held(t.db, k, task.owner, task.token);
    if held {
      HeldCompletes(t.db, k, task.owner, task.token, output, succeeded);
    }
    var ok := ledger.Complete(k, output, succeeded);
    var e := LedgerSafety.Complete(task, output, succeeded);
    CompleteStep(c, t, e);
    OneMoreStep(c, s, es, t, e);
    result := if ok then Some(output) else None;
    more, u := es + [e], Next(t, e);
  }

  /** What LedgerSafety proves of reachable states holds after an action that began in one. */
  lemma {:induction false} ActionStaysReachable(c: Config, base: map<Id, ThingRow>, s: Sys, es: seq<Event>, t: Sys)
    requires Reachable(c, base, s) && Follows(c, s, es, t)
    ensures Reachable(c, base, t)
  {
    hide Next, Enabled, Reachable;
    if es != [] {
      var front := es[..|es| - 1];
      ActionStaysReachable(c, base, s, front, Run(s, front));
      StepIsReachable(c, base, Run(s, front), es[|es| - 1]);
    }
  }
}
