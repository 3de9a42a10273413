/** The Tool ledger over whole histories: many workers, expiring leases, crashes between any two units of work, and Runs that change
    hands at any time. */
module LedgerSafety {
  import opened Wrappers
  import opened StateWrites
  import opened ToolLedger

  predicate RunIsOver(db: Db, run: RunId) { run in db.runs && db.runs[run].phase == Ended }

  /** How a tool call changes the state: bound calls commit the change with the receipt, writing calls commit it first. */
  datatype Config = Config(bound: set<(string, string)>, writing: set<(string, string)>) {
    ghost predicate Valid() { bound !! writing }
  }

  function PairOf(c: Call): (string, string) { (c.tool, c.arguments) }

  function KeyOf(k: ActionKey): Key { Agent(k.0, k.1) }

  /** A claim that a worker acquired and still remembers; applied tells that its own write has committed. */
  datatype Task = Task(k: ActionKey, owner: Worker, token: Token, call: Call, applied: bool)

  /** The rows, what the workers remember, and how often each action was acquired. */
  datatype Sys = Sys(db: Db, tasks: set<Task>, acquired: multiset<ActionKey>)

  datatype Event =
    | Tick(seconds: nat)
    | RunChanges(run: RunId, claim: RunClaim)
    | Claim(k: ActionKey, call: Call, owner: Worker, runToken: Token, leaseSeconds: int)
    | Write(task: Task, thing: Id, change: Change, v: nat)
    | Mutate(task: Task, thing: Id, change: Change, v: nat)
    | Complete(task: Task, output: Output, succeeded: bool)
    | Reconcile(k: ActionKey, output: Output, succeeded: bool)
    | ClientWrite(n: nat, thing: Id, change: Change, v: nat)
    | Crash(task: Task)

  /** What workers do: they act on claims they hold, bound tools report success only through their atomic receipt, and a writing
      tool reports success only after its write. A Run that is over never changes. Everything else may happen at any time and in any
      order. */
  ghost predicate Enabled(c: Config, s: Sys, e: Event) {
    match e
    case RunChanges(run, claim) => RunIsOver(s.db, run) ==> claim == s.db.runs[run]
    case Write(t, _, _, _) => t in s.tasks && PairOf(t.call) in c.writing
    case Mutate(t, _, _, _) => t in s.tasks && PairOf(t.call) in c.bound
    case Complete(t, _, succeeded) =>
      t in s.tasks && (succeeded ==> PairOf(t.call) !in c.bound && (PairOf(t.call) in c.writing ==> t.applied))
    case _ => true
  }

  function Next(s: Sys, e: Event): Sys {
    match e
    case Tick(seconds) => s.(db := s.db.(now := s.db.now + seconds))
    case RunChanges(run, claim) => s.(db := s.db.(runs := s.db.runs[run := claim]))
    case Claim(k, call, owner, runToken, seconds) =>
      var (r, db) := AfterClaim(s.db, k, call, owner, runToken, seconds);
      if r.Ok? && r.value.Acquired? then Sys(db, s.tasks + {Task(k, owner, r.value.token, call, false)}, s.acquired + multiset{k})
      else s.(db := db)
    case Write(t, thing, change, v) =>
      var (r, db) := AfterPlainWrite(s.db, KeyOf(t.k), thing, change, v);
      if r.Ok? then s.(db := db, tasks := s.tasks - {t} + {t.(applied := true)}) else s.(db := db)
    case Mutate(t, thing, change, v) => s.(db := AfterMutation(s.db, t.k, t.owner, t.token, t.call.tool, thing, change, v).1)
    case Complete(t, output, succeeded) => s.(db := AfterComplete(s.db, t.k, t.owner, t.token, output, succeeded).1)
    case Reconcile(k, output, succeeded) => s.(db := AfterReconcile(s.db, k, output, succeeded).1)
    case ClientWrite(n, thing, change, v) => s.(db := AfterPlainWrite(s.db, Client(n), thing, change, v).1)
    case Crash(t) => s.(tasks := s.tasks - {t})
  }

  function Run(s: Sys, es: seq<Event>): Sys {
    if es == [] then s else Next(Run(s, es[..|es| - 1]), es[|es| - 1])
  }

  ghost predicate Possible(c: Config, s: Sys, es: seq<Event>) {
    es == [] || (Possible(c, s, es[..|es| - 1]) && Enabled(c, Run(s, es[..|es| - 1]), es[|es| - 1]))
  }

  function Start(now: int, runs: map<RunId, RunClaim>, things: map<Id, ThingRow>): Sys {
    Sys(Db(now, runs, map[], 0, State(things, [])), {}, multiset{})
  }

  // ----- invariants

  ghost predicate RowOk(db: Db, k: ActionKey, times: nat)
    requires k in db.tools
  {
    var e := db.tools[k];
    && (e.result.Some? <==> e.status == Succeeded || e.status == Failed)
    && (e.status == UnknownOutcome ==> !e.call.replaySafe && e.lease <= db.now)
    && e.attempts == times && times > 0 && (!e.call.replaySafe ==> times == 1) && e.token < db.tokens
  }

  ghost predicate RowsOk(s: Sys) {
    && (forall k | k in s.db.tools :: RowOk(s.db, k, s.acquired[k]))
    && (forall k | k in s.acquired :: k in s.db.tools)
  }

  ghost predicate TaskOk(db: Db, t: Task) {
    && t.k in db.tools && SameCall(db.tools[t.k], t.call) && t.token < db.tokens
    && (t.applied ==> Recorded(db.state.audit, KeyOf(t.k)))
  }

  ghost predicate TasksOk(s: Sys) {
    forall t | t in s.tasks :: TaskOk(s.db, t)
  }

  /** A recorded effect belongs to a known action that may have it; of a bound action it has its receipt. */
  ghost predicate EffectOk(c: Config, db: Db, k: ActionKey) {
    Recorded(db.state.audit, KeyOf(k)) ==>
      && k in db.tools && PairOf(db.tools[k].call) in c.bound + c.writing
      && (PairOf(db.tools[k].call) in c.bound ==> db.tools[k].status == Succeeded)
  }

  /** A success that was not reconciled from outside has its effect. */
  ghost predicate ReceiptOk(c: Config, db: Db, k: ActionKey)
    requires k in db.tools
  {
    var e := db.tools[k];
    e.call.replaySafe && e.status == Succeeded && PairOf(e.call) in c.bound + c.writing ==> Recorded(db.state.audit, KeyOf(k))
  }

  ghost predicate EffectsOk(c: Config, db: Db) {
    && (forall k :: EffectOk(c, db, k))
    && (forall k | k in db.tools :: ReceiptOk(c, db, k))
  }

  ghost predicate Invariant(c: Config, base: map<Id, ThingRow>, s: Sys) {
    Accounted(base, s.db.state) && RowsOk(s) && TasksOk(s) && EffectsOk(c, s.db)
  }

  // ----- one event

  lemma AccountedStep(base: map<Id, ThingRow>, s: Sys, e: Event)
    requires Accounted(base, s.db.state)
    ensures Accounted(base, Next(s, e).db.state)
  {
    hide Accounted, AfterWrite;
    match e
    case Write(t, thing, change, v) => WriteIsAccounted(base, s.db.state, KeyOf(t.k), thing, change, v);
    case Mutate(t, thing, change, v) => WriteIsAccounted(base, s.db.state, KeyOf(t.k), thing, change, v);
    case ClientWrite(n, thing, change, v) => WriteIsAccounted(base, s.db.state, Client(n), thing, change, v);
    case _ =>
  }

  lemma RowsStep(s: Sys, e: Event)
    requires RowsOk(s)
    ensures RowsOk(Next(s, e))
  {
    hide Next, RowOk;
    var n := Next(s, e);
    forall k | k in n.db.tools ensures RowOk(n.db, k, n.acquired[k]) {
      RowStep(s, e, k);
    }
    forall k | k in n.acquired ensures k in n.db.tools {
      AcquiredStep(s, e, k);
    }
  }

  lemma AcquiredStep(s: Sys, e: Event, k: ActionKey)
    requires (k in s.acquired ==> k in s.db.tools) && k in Next(s, e).acquired
    ensures k in Next(s, e).db.tools
  {
    hide AfterWrite, SameCall, SameContract, Owns, Holds, FreshExecution, TakenOver, Finished;
  }

  lemma RowStep(s: Sys, e: Event, k: ActionKey)
    requires k in s.db.tools ==> RowOk(s.db, k, s.acquired[k])
    requires k !in s.db.tools ==> k !in s.acquired
    requires k in Next(s, e).db.tools
    ensures RowOk(Next(s, e).db, k, Next(s, e).acquired[k])
  {
    hide AfterWrite, SameCall, SameContract, Owns;
    match e
    case Claim(l, call, owner, runToken, seconds) => ClaimRow(s, e, k);
    case _ =>
  }

  lemma ClaimRow(s: Sys, e: Event, k: ActionKey)
    requires e.Claim?
    requires k in s.db.tools ==> RowOk(s.db, k, s.acquired[k])
    requires k !in s.db.tools ==> k !in s.acquired
    requires k in Next(s, e).db.tools
    ensures RowOk(Next(s, e).db, k, Next(s, e).acquired[k])
  {
    hide SameCall, SameContract, Owns;
    var r := AfterClaim(s.db, e.k, e.call, e.owner, e.runToken, e.leaseSeconds).0;
    if r.Ok? && r.value.Acquired? {
      assert Next(s, e).acquired[k] == s.acquired[k] + if e.k == k then 1 else 0;
    }
  }

  /** A write adds at most its own key to the audit and keeps the others. */
  lemma WriteRecords(s: State, key: Key, thing: Id, c: Change, v: nat, other: Key)
    ensures var (r, t) := AfterWrite(s, key, thing, c, v);
            && (other != key ==> (Recorded(t.audit, other) <==> Recorded(s.audit, other)))
            && (Recorded(s.audit, other) ==> Recorded(t.audit, other))
            && (r.Ok? ==> Recorded(t.audit, key)) && (t != s ==> r.Ok?)
  {
    hide AfterWrite;
    WriteExtends(s, key, thing, c, v);
    var t := AfterWrite(s, key, thing, c, v).1;
    if t != s {
      var version :| Appends(s, t, Mutation(key, thing, c, version));
      AppendRecords(s.audit, Mutation(key, thing, c, version), other);
    }
  }

  lemma AppendRecords(audit: seq<Mutation>, m: Mutation, other: Key)
    ensures Recorded(audit + [m], other) <==> Recorded(audit, other) || m.key == other
  {
    assert (audit + [m])[|audit|] == m;
    if Recorded(audit, other) {
      var i :| 0 <= i < |audit| && audit[i].key == other;
      assert (audit + [m])[i].key == other;
    }
  }

  lemma AuditGrows(s: Sys, e: Event, key: Key)
    requires Recorded(s.db.state.audit, key)
    ensures Recorded(Next(s, e).db.state.audit, key)
  {
    hide AfterWrite, Recorded, SameCall, SameContract, Owns, Holds, FreshExecution, TakenOver, Finished;
    match e
    case Write(t, thing, change, v) => WriteRecords(s.db.state, KeyOf(t.k), thing, change, v, key);
    case Mutate(t, thing, change, v) => WriteRecords(s.db.state, KeyOf(t.k), thing, change, v, key);
    case ClientWrite(n, thing, change, v) => WriteRecords(s.db.state, Client(n), thing, change, v, key);
    case _ =>
  }

  lemma CallsStay(s: Sys, e: Event)
    ensures s.db.tokens <= Next(s, e).db.tokens
    ensures forall k | k in s.db.tools :: k in Next(s, e).db.tools && Next(s, e).db.tools[k].call == s.db.tools[k].call
  {
    hide AfterWrite, SameCall, SameContract, Owns, AfterMutation, AfterComplete, AfterReconcile, AfterClaim;
    match e
    case Claim(k, call, owner, runToken, seconds) => ClaimKeepsCalls(s.db, k, call, owner, runToken, seconds);
    case Mutate(t, thing, change, v) => MutationKeepsCalls(s.db, t.k, t.owner, t.token, t.call.tool, thing, change, v);
    case Complete(t, output, succeeded) => CompleteKeepsCalls(s.db, t.k, t.owner, t.token, output, succeeded);
    case Reconcile(k, output, succeeded) => ReconcileKeepsCalls(s.db, k, output, succeeded);
    case _ =>
  }

  ghost predicate KeepsCalls(db: Db, n: Db) {
    db.tokens <= n.tokens && forall k | k in db.tools :: k in n.tools && n.tools[k].call == db.tools[k].call
  }

  lemma ClaimKeepsCalls(db: Db, k: ActionKey, call: Call, owner: Worker, runToken: Token, seconds: int)
    ensures KeepsCalls(db, AfterClaim(db, k, call, owner, runToken, seconds).1)
  {
    hide SameCall, SameContract, Owns;
  }

  lemma MutationKeepsCalls(db: Db, k: ActionKey, owner: Worker, token: Token, tool: string, thing: Id, c: Change, v: nat)
    ensures KeepsCalls(db, AfterMutation(db, k, owner, token, tool, thing, c, v).1)
  {
    hide AfterWrite, Owns;
  }

  lemma CompleteKeepsCalls(db: Db, k: ActionKey, owner: Worker, token: Token, output: Output, succeeded: bool)
    ensures KeepsCalls(db, AfterComplete(db, k, owner, token, output, succeeded).1)
  {
    hide Owns;
  }

  lemma ReconcileKeepsCalls(db: Db, k: ActionKey, output: Output, succeeded: bool)
    ensures KeepsCalls(db, AfterReconcile(db, k, output, succeeded).1)
  {
  }

  /** Events keep the call of every row, and the tokens and the audit only grow. */
  lemma DbGrows(s: Sys, e: Event)
    ensures s.db.tokens <= Next(s, e).db.tokens
    ensures forall k | k in s.db.tools :: k in Next(s, e).db.tools && Next(s, e).db.tools[k].call == s.db.tools[k].call
    ensures forall key | Recorded(s.db.state.audit, key) :: Recorded(Next(s, e).db.state.audit, key)
  {
    hide AfterWrite, Recorded, SameCall, SameContract, Owns, Next;
    CallsStay(s, e);
    forall key | Recorded(s.db.state.audit, key) ensures Recorded(Next(s, e).db.state.audit, key) {
      AuditGrows(s, e, key);
    }
  }

  lemma TasksStep(c: Config, s: Sys, e: Event)
    requires Enabled(c, s, e) && RowsOk(s) && TasksOk(s)
    ensures TasksOk(Next(s, e))
  {
    hide AfterWrite, Recorded, RowsOk;
    var n := Next(s, e);
    DbGrows(s, e);
    forall t | t in n.tasks ensures TaskOk(n.db, t) {
      if t in s.tasks {
        assert TaskOk(s.db, t);
      } else if e.Write? {
        assert TaskOk(s.db, e.task);
        WriteRecords(s.db.state, KeyOf(e.task.k), e.thing, e.change, e.v, KeyOf(e.task.k));
      }
    }
  }

  /** Other events never make a row of a replayable action succeed, and never touch a row that has. */
  lemma OtherKeepsSuccess(s: Sys, e: Event, k: ActionKey)
    requires !e.Write? && !e.Mutate? && !e.ClientWrite? && !e.Complete?
    requires k in s.db.tools && RowOk(s.db, k, s.acquired[k])
    ensures k in Next(s, e).db.tools && Next(s, e).db.tools[k].call == s.db.tools[k].call
    ensures s.db.tools[k].status == Succeeded ==> Next(s, e).db.tools[k].status == Succeeded
    ensures s.db.tools[k].call.replaySafe && Next(s, e).db.tools[k].status == Succeeded ==> s.db.tools[k].status == Succeeded
  {
    hide SameContract, SameCall, Owns, Recorded, AfterWrite;
  }

  lemma OtherAddsNoSuccess(s: Sys, e: Event, k: ActionKey)
    requires !e.Write? && !e.Mutate? && !e.ClientWrite? && !e.Complete?
    requires k !in s.db.tools && k in Next(s, e).db.tools
    ensures Next(s, e).db.tools[k].status == InProgress
  {
    hide SameContract, SameCall, Owns, Recorded, AfterWrite;
  }

  lemma OtherKeepsState(s: Sys, e: Event)
    requires !e.Write? && !e.Mutate? && !e.ClientWrite? && !e.Complete?
    ensures Next(s, e).db.state == s.db.state
  {
    hide SameContract, SameCall, Owns, Recorded, AfterWrite;
  }

  lemma EffectsStepOther(c: Config, s: Sys, e: Event)
    requires c.Valid() && RowsOk(s) && EffectsOk(c, s.db)
    requires !e.Write? && !e.Mutate? && !e.ClientWrite? && !e.Complete?
    ensures EffectsOk(c, Next(s, e).db)
  {
    hide Recorded, Next, RowOk;
    var n := Next(s, e);
    OtherKeepsState(s, e);
    forall k ensures EffectOk(c, n.db, k) {
      assert EffectOk(c, s.db, k);
      if k in s.db.tools {
        OtherKeepsSuccess(s, e, k);
      }
    }
    forall k | k in n.db.tools ensures ReceiptOk(c, n.db, k) {
      if k in s.db.tools {
        assert ReceiptOk(c, s.db, k);
        OtherKeepsSuccess(s, e, k);
      } else {
        OtherAddsNoSuccess(s, e, k);
      }
    }
  }

  lemma EffectsStepComplete(c: Config, s: Sys, e: Event)
    requires c.Valid() && Enabled(c, s, e) && RowsOk(s) && TasksOk(s) && EffectsOk(c, s.db) && e.Complete?
    ensures EffectsOk(c, Next(s, e).db)
  {
    hide Recorded;
    var n := Next(s, e);
    assert TaskOk(s.db, e.task);
    forall k ensures EffectOk(c, n.db, k) {
      assert EffectOk(c, s.db, k);
    }
    forall k | k in n.db.tools ensures ReceiptOk(c, n.db, k) {
      assert ReceiptOk(c, s.db, k);
    }
  }

  lemma EffectsStepWrite(c: Config, s: Sys, e: Event)
    requires c.Valid() && Enabled(c, s, e) && TasksOk(s) && EffectsOk(c, s.db) && (e.Write? || e.ClientWrite?)
    ensures EffectsOk(c, Next(s, e).db)
  {
    hide Recorded, AfterWrite;
    var n := Next(s, e);
    var key := if e.Write? then KeyOf(e.task.k) else Client(e.n);
    if e.Write? {
      assert TaskOk(s.db, e.task);
    }
    forall k ensures EffectOk(c, n.db, k) {
      assert EffectOk(c, s.db, k);
      WriteRecords(s.db.state, key, e.thing, e.change, e.v, KeyOf(k));
    }
    forall k | k in n.db.tools ensures ReceiptOk(c, n.db, k) {
      assert ReceiptOk(c, s.db, k);
      WriteRecords(s.db.state, key, e.thing, e.change, e.v, KeyOf(k));
    }
  }

  lemma EffectsStepMutate(c: Config, s: Sys, e: Event)
    requires c.Valid() && Enabled(c, s, e) && TasksOk(s) && EffectsOk(c, s.db) && e.Mutate?
    ensures EffectsOk(c, Next(s, e).db)
  {
    hide Recorded, AfterWrite;
    var n := Next(s, e);
    var t := e.task.k;
    assert TaskOk(s.db, e.task);
    var (r, state) := AfterWrite(s.db.state, KeyOf(t), e.thing, e.change, e.v);
    forall k ensures EffectOk(c, n.db, k) && (k in n.db.tools ==> ReceiptOk(c, n.db, k)) {
      assert EffectOk(c, s.db, k);
      assert k in s.db.tools ==> ReceiptOk(c, s.db, k);
      WriteRecords(s.db.state, KeyOf(t), e.thing, e.change, e.v, KeyOf(k));
      assert KeyOf(k) == KeyOf(t) ==> k == t;
    }
  }

  lemma InvariantStep(c: Config, base: map<Id, ThingRow>, s: Sys, e: Event)
    requires c.Valid() && Invariant(c, base, s) && Enabled(c, s, e)
    ensures Invariant(c, base, Next(s, e))
  {
    hide Next, Enabled, Accounted, RowsOk, TasksOk, EffectsOk;
    AccountedStep(base, s, e);
    RowsStep(s, e);
    TasksStep(c, s, e);
    if e.Write? || e.ClientWrite? {
      EffectsStepWrite(c, s, e);
    } else if e.Mutate? {
      EffectsStepMutate(c, s, e);
    } else if e.Complete? {
      EffectsStepComplete(c, s, e);
    } else {
      EffectsStepOther(c, s, e);
    }
  }

  lemma {:induction false} InvariantAlways(c: Config, now: int, runs: map<RunId, RunClaim>, things: map<Id, ThingRow>, es: seq<Event>)
    requires c.Valid() && Possible(c, Start(now, runs, things), es)
    ensures Invariant(c, things, Run(Start(now, runs, things), es))
  {
    hide Next, Enabled, Invariant;
    if es == [] {
      StartIsFine(c, now, runs, things);
    } else {
      InvariantAlways(c, now, runs, things, es[..|es| - 1]);
      InvariantStep(c, things, Run(Start(now, runs, things), es[..|es| - 1]), es[|es| - 1]);
    }
  }

  lemma StartIsFine(c: Config, now: int, runs: map<RunId, RunClaim>, things: map<Id, ThingRow>)
    ensures Invariant(c, things, Start(now, runs, things))
  {
  }

  // ----- what histories guarantee

  /** Start of a history: no Tool execution and no recorded mutation yet. */
  ghost predicate Reachable(c: Config, base: map<Id, ThingRow>, s: Sys) {
    exists now, runs, es :: Possible(c, Start(now, runs, base), es) && s == Run(Start(now, runs, base), es)
  }

  lemma ReachableIsInvariant(c: Config, base: map<Id, ThingRow>, s: Sys)
    requires c.Valid() && Reachable(c, base, s)
    ensures Invariant(c, base, s)
  {
    hide Possible, Run, Invariant;
    var now, runs, es :| Possible(c, Start(now, runs, base), es) && s == Run(Start(now, runs, base), es);
    InvariantAlways(c, now, runs, base, es);
  }

  /** Whatever claims, expiries, takeovers and crashes happen, each action and each client key changes the state at most once, and
      the state is the effect of the recorded mutations, each applied once in the order of their commits. */
  lemma EffectsHappenOnce(c: Config, base: map<Id, ThingRow>, s: Sys)
    requires c.Valid() && Reachable(c, base, s)
    ensures forall i, j | 0 <= i < j < |s.db.state.audit| :: s.db.state.audit[i].key != s.db.state.audit[j].key
    ensures s.db.state.things == Replay(base, s.db.state.audit)
  {
    hide Reachable, RowsOk, TasksOk, EffectsOk;
    ReachableIsInvariant(c, base, s);
  }

  /** On the atomic path the success receipt of an action is in the ledger exactly when its effect is in the state. */
  lemma ReceiptExactlyWithEffect(c: Config, base: map<Id, ThingRow>, s: Sys, k: ActionKey)
    requires c.Valid() && Reachable(c, base, s)
    requires k in s.db.tools && s.db.tools[k].call.replaySafe && PairOf(s.db.tools[k].call) in c.bound
    ensures s.db.tools[k].status == Succeeded <==> Recorded(s.db.state.audit, KeyOf(k))
  {
    hide Reachable, RowsOk, TasksOk, Accounted, Recorded;
    ReachableIsInvariant(c, base, s);
    assert EffectOk(c, s.db, k) && ReceiptOk(c, s.db, k);
  }

  /** On the other path a success receipt implies the effect, and an effect without a ledger row never exists. */
  lemma SuccessHasEffect(c: Config, base: map<Id, ThingRow>, s: Sys, k: ActionKey)
    requires c.Valid() && Reachable(c, base, s)
    ensures k in s.db.tools && s.db.tools[k].call.replaySafe && PairOf(s.db.tools[k].call) in c.writing && s.db.tools[k].status == Succeeded
            ==> Recorded(s.db.state.audit, KeyOf(k))
    ensures Recorded(s.db.state.audit, KeyOf(k)) ==> k in s.db.tools && PairOf(s.db.tools[k].call) in c.bound + c.writing
  {
    hide Reachable, RowsOk, TasksOk, Accounted, Recorded;
    ReachableIsInvariant(c, base, s);
    assert EffectOk(c, s.db, k);
    assert k in s.db.tools ==> ReceiptOk(c, s.db, k);
  }

  lemma StepIsReachable(c: Config, base: map<Id, ThingRow>, s: Sys, e: Event)
    requires Reachable(c, base, s) && Enabled(c, s, e)
    ensures Reachable(c, base, Next(s, e))
  {
    hide Next, Enabled;
    var now, runs, es :| Possible(c, Start(now, runs, base), es) && s == Run(Start(now, runs, base), es);
    var longer := es + [e];
    assert longer[..|es|] == es;
    assert Possible(c, Start(now, runs, base), longer) && Next(s, e) == Run(Start(now, runs, base), longer);
  }

  lemma StartIsReachable(c: Config, base: map<Id, ThingRow>, now: int, runs: map<RunId, RunClaim>)
    ensures Reachable(c, base, Start(now, runs, base))
  {
    assert Possible(c, Start(now, runs, base), []) && Start(now, runs, base) == Run(Start(now, runs, base), []);
  }

  /** The write of the other path commits before its receipt, so a crash can leave an effect without one: the converse fails. */
  lemma EffectWithoutReceipt(c: Config, base: map<Id, ThingRow>, thing: Id, call: Call, k: ActionKey)
    requires PairOf(call) in c.writing && thing in base
    ensures exists s :: Reachable(c, base, s) && k in s.db.tools && s.db.tools[k].status == InProgress && Recorded(s.db.state.audit, KeyOf(k))
  {
    hide Reachable, Recorded;
    var s0 := Start(0, map[k.0 := RunClaim(Running, Some(1), Some(2))], base);
    StartIsReachable(c, base, 0, map[k.0 := RunClaim(Running, Some(1), Some(2))]);
    var s1 := ClaimExample(s0, k, call);
    StepIsReachable(c, base, s0, Claim(k, call, 1, 2, 60));
    var task := Task(k, 1, 0, call, false);
    var write := Write(task, thing, Edit(None, Some(Active), false, None), base[thing].version);
    StepIsReachable(c, base, s1, write);
    WriteExample(s1, write);
  }

  lemma ClaimExample(s0: Sys, k: ActionKey, call: Call) returns (s1: Sys)
    requires k.0 in s0.db.runs && s0.db.runs[k.0] == RunClaim(Running, Some(1), Some(2)) && s0.db.tools == map[] && s0.db.tokens == 0
    ensures s1 == Next(s0, Claim(k, call, 1, 2, 60))
    ensures Task(k, 1, 0, call, false) in s1.tasks && k in s1.db.tools && s1.db.tools[k].status == InProgress && s1.db.state == s0.db.state
  {
    s1 := Next(s0, Claim(k, call, 1, 2, 60));
  }

  lemma WriteExample(s: Sys, e: Event)
    requires e.Write? && e.change == Edit(None, Some(Active), false, None) && s.db.state.audit == []
    requires e.thing in s.db.state.things && s.db.state.things[e.thing].version == e.v
    ensures Next(s, e).db.tools == s.db.tools && Recorded(Next(s, e).db.state.audit, KeyOf(e.task.k))
  {
    var r := AfterWrite(s.db.state, KeyOf(e.task.k), e.thing, e.change, e.v);
    assert r.1.audit[0].key == KeyOf(e.task.k);
  }

  /** A non-replayable action is acquired at most once in any history, whoever claims it and whenever. */
  lemma NonReplayableAcquiredOnce(c: Config, base: map<Id, ThingRow>, s: Sys, k: ActionKey)
    requires c.Valid() && Reachable(c, base, s) && k in s.db.tools && !s.db.tools[k].call.replaySafe
    ensures s.acquired[k] == 1 == s.db.tools[k].attempts
  {
    hide Reachable, TasksOk, Accounted, EffectsOk;
    ReachableIsInvariant(c, base, s);
    assert RowOk(s.db, k, s.acquired[k]);
  }

  /** Once an action has a result, no event changes its row. */
  lemma ResultStays(s: Sys, e: Event, k: ActionKey)
    requires RowsOk(s) && k in s.db.tools && s.db.tools[k].result.Some?
    ensures k in Next(s, e).db.tools && Next(s, e).db.tools[k] == s.db.tools[k]
    ensures RowsOk(Next(s, e))
  {
    hide Next, RowsOk;
    OneRow(s, k);
    RowsStep(s, e);
    FinishedRowStays(s, e, k);
  }

  lemma FinishedRowStays(s: Sys, e: Event, k: ActionKey)
    requires k in s.db.tools && s.db.tools[k].result.Some? && (s.db.tools[k].status == Succeeded || s.db.tools[k].status == Failed)
    ensures k in Next(s, e).db.tools && Next(s, e).db.tools[k] == s.db.tools[k]
  {
    hide SameCall, SameContract, Owns, AfterWrite, FreshExecution, TakenOver, Finished;
  }

  lemma OneRow(s: Sys, k: ActionKey)
    requires RowsOk(s) && k in s.db.tools
    ensures RowOk(s.db, k, s.acquired[k])
  {
  }

  /** A result never changes in the rest of any history, and every matching claim by the owner of the Run returns it. */
  lemma {:induction false} ResultIsFinal(c: Config, base: map<Id, ThingRow>, s: Sys, es: seq<Event>, k: ActionKey)
    requires c.Valid() && Reachable(c, base, s) && k in s.db.tools && s.db.tools[k].result.Some?
    ensures k in Run(s, es).db.tools && Run(s, es).db.tools[k] == s.db.tools[k] && RowsOk(Run(s, es))
  {
    hide Next, RowsOk, Reachable;
    if es == [] {
      ReachableRows(c, base, s);
    } else {
      ResultIsFinal(c, base, s, es[..|es| - 1], k);
      ResultStays(Run(s, es[..|es| - 1]), es[|es| - 1], k);
    }
  }

  lemma ReachableRows(c: Config, base: map<Id, ThingRow>, s: Sys)
    requires c.Valid() && Reachable(c, base, s)
    ensures RowsOk(s)
  {
    hide Reachable, RowsOk, TasksOk, EffectsOk, Accounted;
    ReachableIsInvariant(c, base, s);
  }

  lemma MatchingClaimReturnsResult(db: Db, k: ActionKey, call: Call, owner: Worker, runToken: Token, seconds: int)
    requires k in db.tools && db.tools[k].result.Some? && SameCall(db.tools[k], call) && SameContract(db.tools[k], call)
    requires Owns(db, k.0, owner) && db.runs[k.0].token == Some(runToken)
    ensures AfterClaim(db, k, call, owner, runToken, seconds) == (Ok(Cached(db.tools[k].result.value)), db)
  {
  }

  /** What completes or reconciles an action is what every later matching claim by the owner of its Run gets, in any history. */
  lemma RecordedResultIsReturned(c: Config, base: map<Id, ThingRow>, s: Sys, e: Event, es: seq<Event>, call: Call, owner: Worker, runToken: Token, seconds: int)
    requires c.Valid() && Reachable(c, base, s) && Enabled(c, s, e) && (e.Complete? || e.Reconcile?)
    requires var k := if e.Complete? then e.task.k else e.k;
             && (if e.Complete? then AfterComplete(s.db, k, e.task.owner, e.task.token, e.output, e.succeeded).0.Ok?
                 else AfterReconcile(s.db, k, e.output, e.succeeded).0.Ok?)
             && call == s.db.tools[k].call && k.0 in Run(Next(s, e), es).db.runs
             && Run(Next(s, e), es).db.runs[k.0] == RunClaim(Running, Some(owner), Some(runToken))
    ensures var k, t := if e.Complete? then e.task.k else e.k, Run(Next(s, e), es);
            && AfterClaim(t.db, k, call, owner, runToken, seconds) == (Ok(Cached(e.output)), t.db)
            && t.db.tools[k].status == (if e.succeeded then Succeeded else Failed)
  {
    hide Reachable, Enabled, Run, RowsOk;
    var k, n := if e.Complete? then e.task.k else e.k, Next(s, e);
    StepIsReachable(c, base, s, e);
    ResultIsFinal(c, base, n, es, k);
  }

  // ----- running leases

  /** The claim that this worker has acquired is still in progress until then, or the action has its result. */
  ghost predicate LeasedUntil(db: Db, k: ActionKey, owner: Worker, until: int) {
    && k in db.tools
    && (db.tools[k].result.Some? || (db.tools[k].status == InProgress && db.tools[k].owner == owner && db.tools[k].lease == until))
  }

  lemma AcquiredIsLeased(s: Sys, e: Event)
    requires e.Claim?
    ensures var r := AfterClaim(s.db, e.k, e.call, e.owner, e.runToken, e.leaseSeconds).0;
            r.Ok? && r.value.Acquired? ==> LeasedUntil(Next(s, e).db, e.k, e.owner, s.db.now + e.leaseSeconds)
  {
    hide SameCall, SameContract, Owns;
  }

  /** Before the lease has run out, an event leaves the row in progress or gives it its result. */
  lemma LeaseStays(s: Sys, e: Event, k: ActionKey, owner: Worker, until: int)
    requires RowsOk(s) && LeasedUntil(s.db, k, owner, until) && Next(s, e).db.now < until
    ensures LeasedUntil(Next(s, e).db, k, owner, until)
  {
    hide RowsOk;
    OneRow(s, k);
    if s.db.tools[k].result.Some? {
      ResultStays(s, e, k);
    } else {
      RunningRowStays(s, e, k, owner, until);
    }
  }

  lemma RunningRowStays(s: Sys, e: Event, k: ActionKey, owner: Worker, until: int)
    requires LeasedUntil(s.db, k, owner, until) && s.db.tools[k].result.None? && Next(s, e).db.now < until
    ensures LeasedUntil(Next(s, e).db, k, owner, until)
  {
    hide SameCall, SameContract, Owns, AfterWrite;
  }

  /** Until then nobody else gets the action: a claim is refused, or told to wait, or given the result. */
  ghost predicate ClaimsMustWait(db: Db, k: ActionKey) {
    forall call, owner, token, seconds ::
      var r := AfterClaim(db, k, call, owner, token, seconds).0; r.Err? || r.value == Busy || r.value.Cached?
  }

  lemma LeasedClaimsWait(db: Db, k: ActionKey, owner: Worker, until: int)
    requires LeasedUntil(db, k, owner, until) && db.now < until
    ensures ClaimsMustWait(db, k)
  {
    hide SameCall, SameContract, Owns;
  }

  lemma {:induction false} LeasedThroughout(c: Config, s: Sys, es: seq<Event>, k: ActionKey, owner: Worker, until: int)
    requires RowsOk(s) && LeasedUntil(s.db, k, owner, until) && Run(s, es).db.now < until
    ensures RowsOk(Run(s, es)) && LeasedUntil(Run(s, es).db, k, owner, until)
  {
    hide Next, RowsOk, LeasedUntil;
    if es != [] {
      var before := Run(s, es[..|es| - 1]);
      TimePasses(before, es[|es| - 1]);
      LeasedThroughout(c, s, es[..|es| - 1], k, owner, until);
      RowsStep(before, es[|es| - 1]);
      LeaseStays(before, es[|es| - 1], k, owner, until);
    }
  }

  /** An action acquired at time T for some seconds belongs to its worker until T + seconds, for a first claim and for a takeover: through
      any history, every other claim before then is refused, busy, or given the result. */
  lemma LeaseIsExclusive(c: Config, base: map<Id, ThingRow>, s: Sys, e: Event, es: seq<Event>)
    requires c.Valid() && Reachable(c, base, s) && e.Claim?
    requires var r := AfterClaim(s.db, e.k, e.call, e.owner, e.runToken, e.leaseSeconds).0; r.Ok? && r.value.Acquired?
    ensures var t := Run(Next(s, e), es); t.db.now < s.db.now + e.leaseSeconds ==> ClaimsMustWait(t.db, e.k)
  {
    hide Next, Run, Reachable, RowsOk, AfterClaim, LeasedUntil, ClaimsMustWait;
    var n, until := Next(s, e), s.db.now + e.leaseSeconds;
    if Run(n, es).db.now < until {
      ReachableRows(c, base, s);
      RowsStep(s, e);
      AcquiredIsLeased(s, e);
      LeasedThroughout(c, n, es, e.k, e.owner, until);
      LeasedClaimsWait(Run(n, es).db, e.k, e.owner, until);
    }
  }

  /** From T + seconds on, as long as the row is what that claim made of it, the same call by the owner of the Run takes the action over if
      it may be repeated, and is blocked if not. */
  lemma LeaseRunsOut(s: Sys, e: Event, db: Db, owner: Worker, runToken: Token, seconds: int)
    requires e.Claim? && e.k in db.tools && e.k in Next(s, e).db.tools && db.tools[e.k] == Next(s, e).db.tools[e.k]
    requires var r := AfterClaim(s.db, e.k, e.call, e.owner, e.runToken, e.leaseSeconds).0; r.Ok? && r.value.Acquired?
    requires e.k.0 in db.runs && db.runs[e.k.0] == RunClaim(Running, Some(owner), Some(runToken))
    requires s.db.now + e.leaseSeconds <= db.now
    ensures var r := AfterClaim(db, e.k, e.call, owner, runToken, seconds).0;
            r.Ok? && if e.call.replaySafe then r.value.Acquired? else r.value == Blocked
  {
  }

  // ----- expired non-replayable actions

  /** A claim that meets an expired non-replayable action without result acquires nothing: it is refused, or it is blocked and
      leaves the outcome marked unknown. */
  lemma ExpiredClaimIsBlocked(db: Db, k: ActionKey, call: Call, owner: Worker, runToken: Token, seconds: int)
    requires k in db.tools && !db.tools[k].call.replaySafe && db.tools[k].result.None? && db.tools[k].lease <= db.now
    requires db.tools[k].status == InProgress || db.tools[k].status == UnknownOutcome
    ensures var (r, after) := AfterClaim(db, k, call, owner, runToken, seconds);
            && (r.Err? || r.value == Blocked)
            && (r.Err? ==> after == db)
            && (r.Ok? ==> after.tools == db.tools[k := db.tools[k].(status := UnknownOutcome)])
  {
    assert db.tools[k].status == UnknownOutcome ==> db.tools[k].(status := UnknownOutcome) == db.tools[k];
    assert db.tools[k].status == UnknownOutcome ==> db.tools == db.tools[k := db.tools[k]];
  }

  /** The worker that acquired the row has neither completed nor forgotten its claim. */
  ghost predicate Remembered(s: Sys, k: ActionKey)
    requires k in s.db.tools
  {
    exists t :: t in s.tasks && t.k == k && t.owner == s.db.tools[k].owner && t.token == s.db.tools[k].token
  }

  /** An action that must not be repeated, whose lease has run out without a result. */
  ghost predicate Expired(s: Sys, k: ActionKey) {
    k in s.db.tools && !s.db.tools[k].call.replaySafe && s.db.tools[k].result.None? && s.db.tools[k].lease <= s.db.now
  }

  /** Nobody can finish the expired action any more: its outcome is marked unknown, its claim is forgotten, or its Run is over. */
  ghost predicate Abandoned(s: Sys, k: ActionKey) {
    Expired(s, k) && (s.db.tools[k].status == UnknownOutcome || !Remembered(s, k) || RunIsOver(s.db, k.0))
  }

  ghost predicate NotReconciled(es: seq<Event>, k: ActionKey) {
    forall i | 0 <= i < |es| :: !(es[i].Reconcile? && es[i].k == k)
  }

  /** Whoever claims the action is refused or blocked. */
  ghost predicate ClaimsAreBlocked(db: Db, k: ActionKey) {
    forall call, owner, token, seconds :: var r := AfterClaim(db, k, call, owner, token, seconds).0; r.Err? || r.value == Blocked
  }

  /** An event other than its reconciliation leaves an abandoned action abandoned and unacquired; only its mark can change. */
  lemma AbandonedStays(c: Config, s: Sys, e: Event, k: ActionKey)
    requires RowsOk(s) && Abandoned(s, k) && Enabled(c, s, e) && !(e.Reconcile? && e.k == k)
    ensures RowsOk(Next(s, e)) && Abandoned(Next(s, e), k) && Next(s, e).acquired[k] == s.acquired[k]
    ensures KeptOrMarked(s.db, Next(s, e).db, k)
  {
    hide Next, Enabled, RowsOk, Remembered, RunIsOver;
    OneRow(s, k);
    RowsStep(s, e);
    AbandonedRow(c, s, e, k);
    TimePasses(s, e);
    if !Remembered(s, k) {
      ForgottenStays(c, s, e, k);
    }
    if RunIsOver(s.db, k.0) {
      OverStays(c, s, e, k.0);
    }
  }

  /** The row stays, but for the mark that its outcome is unknown. */
  ghost predicate KeptOrMarked(db: Db, n: Db, k: ActionKey)
    requires k in db.tools
  {
    k in n.tools && (n.tools[k] == db.tools[k] || n.tools[k] == db.tools[k].(status := UnknownOutcome))
  }

  lemma AbandonedRow(c: Config, s: Sys, e: Event, k: ActionKey)
    requires Abandoned(s, k) && Enabled(c, s, e) && !(e.Reconcile? && e.k == k)
    requires s.db.tools[k].status == InProgress || s.db.tools[k].status == UnknownOutcome
    ensures KeptOrMarked(s.db, Next(s, e).db, k) && Next(s, e).acquired[k] == s.acquired[k]
  {
    hide AfterWrite, AfterClaim, Owns, RunIsOver, Remembered;
    match e
    case Claim(l, call, owner, runToken, seconds) =>
      if l == k {
        ExpiredClaimIsBlocked(s.db, k, call, owner, runToken, seconds);
        assert Next(s, e).db == AfterClaim(s.db, k, call, owner, runToken, seconds).1;
      } else {
        OtherClaim(s.db, l, call, owner, runToken, seconds, k);
      }
    case Complete(t, _, _) => AbandonedIsNotHeld(s, t, k);
    case Mutate(t, _, _, _) => AbandonedIsNotHeld(s, t, k);
    case _ =>
  }

  lemma AbandonedIsNotHeld(s: Sys, t: Task, k: ActionKey)
    requires Abandoned(s, k) && t in s.tasks
    ensures t.k == k ==> !(Owns(s.db, k.0, t.owner) && Holds(s.db, k, t.owner, t.token))
  {
  }

  lemma OtherClaim(db: Db, l: ActionKey, call: Call, owner: Worker, runToken: Token, seconds: int, k: ActionKey)
    requires l != k && k in db.tools
    ensures var n := AfterClaim(db, l, call, owner, runToken, seconds).1; k in n.tools && n.tools[k] == db.tools[k]
  {
    hide SameCall, SameContract, Owns;
  }

  lemma TimePasses(s: Sys, e: Event)
    ensures s.db.now <= Next(s, e).db.now
  {
    hide AfterWrite, SameCall, SameContract, Owns, Holds, FreshExecution, TakenOver, Finished;
  }

  /** New tasks are new claims, or known ones whose write has committed. */
  lemma NewTask(c: Config, s: Sys, e: Event, t: Task)
    requires t in Next(s, e).tasks && Enabled(c, s, e)
    ensures (exists u :: u in s.tasks && u.k == t.k && u.owner == t.owner && u.token == t.token)
            || (e.Claim? && e.k == t.k && Next(s, e).acquired[t.k] > s.acquired[t.k])
  {
    hide AfterWrite, AfterClaim, AfterMutation, AfterComplete, AfterReconcile;
    if t !in s.tasks && e.Write? {
      assert e.task in s.tasks && e.task.k == t.k && e.task.owner == t.owner && e.task.token == t.token;
    }
  }

  lemma ForgottenStays(c: Config, s: Sys, e: Event, k: ActionKey)
    requires Enabled(c, s, e)
    requires k in s.db.tools && !Remembered(s, k) && KeptOrMarked(s.db, Next(s, e).db, k) && Next(s, e).acquired[k] == s.acquired[k]
    ensures !Remembered(Next(s, e), k)
  {
    hide Next, Enabled;
    forall t | t in Next(s, e).tasks && t.k == k ensures !(t.owner == s.db.tools[k].owner && t.token == s.db.tools[k].token) {
      NewTask(c, s, e, t);
    }
  }

  lemma OverStays(c: Config, s: Sys, e: Event, run: RunId)
    requires RunIsOver(s.db, run) && Enabled(c, s, e)
    ensures RunIsOver(Next(s, e).db, run)
  {
    hide AfterWrite, SameCall, SameContract, Owns, Holds, FreshExecution, TakenOver, Finished;
  }

  /** After an expiry that nobody can finish, in any history without an explicit reconciliation of the action, its row stays as it is
      but for the mark, nobody acquires it again, and every claim of it is blocked or refused. */
  lemma {:induction false} BlockedUntilReconciled(c: Config, base: map<Id, ThingRow>, s: Sys, es: seq<Event>, k: ActionKey)
    requires c.Valid() && Reachable(c, base, s) && Abandoned(s, k) && Possible(c, s, es) && NotReconciled(es, k)
    ensures var t := Run(s, es);
            && RowsOk(t) && Abandoned(t, k) && t.acquired[k] == s.acquired[k] && ClaimsAreBlocked(t.db, k)
            && KeptOrMarked(s.db, t.db, k)
  {
    hide Next, RowsOk, Reachable, AfterClaim, Enabled, Remembered, RunIsOver;
    if es == [] {
      ReachableRows(c, base, s);
    } else {
      var front, last := es[..|es| - 1], es[|es| - 1];
      assert forall i | 0 <= i < |front| :: front[i] == es[i];
      BlockedUntilReconciled(c, base, s, front, k);
      AbandonedStays(c, Run(s, front), last, k);
    }
    var t := Run(s, es);
    OneRow(t, k);
    forall call, owner, token, seconds ensures var r := AfterClaim(t.db, k, call, owner, token, seconds).0; r.Err? || r.value == Blocked {
      ExpiredClaimIsBlocked(t.db, k, call, owner, token, seconds);
    }
  }

  /** The history that ends the blocking without a reconciliation: the old owner gets its Run back and reports after all. */
  function LateReport(t: Task, output: Output): seq<Event> {
    [RunChanges(t.k.0, RunClaim(Running, Some(t.owner), Some(t.token))), Complete(t, output, false)]
  }

  /** While the old owner remembers its claim and the Run is not over, its late completion is accepted, and the next matching claim
      returns that result. */
  lemma LateCompletionIsReturned(c: Config, s: Sys, t: Task, output: Output, seconds: int)
    requires t in s.tasks && Expired(s, t.k) && Holds(s.db, t.k, t.owner, t.token) && !RunIsOver(s.db, t.k.0)
    ensures Possible(c, s, LateReport(t, output)) && NotReconciled(LateReport(t, output), t.k)
    ensures var n := Run(s, LateReport(t, output)).db;
            AfterClaim(n, t.k, s.db.tools[t.k].call, t.owner, t.token, seconds) == (Ok(Cached(output)), n)
  {
    var report := LateReport(t, output);
    TwoEvents(c, s, report[0], report[1]);
  }

  lemma TwoEvents(c: Config, s: Sys, a: Event, b: Event)
    requires Enabled(c, s, a) && Enabled(c, Next(s, a), b)
    ensures Possible(c, s, [a, b]) && Run(s, [a, b]) == Next(Next(s, a), b)
  {
    hide Enabled, Next;
    assert [a, b][..1] == [a] && [a][..0] == [];
    assert Possible(c, s, []) && Run(s, []) == s;
    assert Possible(c, s, [a]) && Run(s, [a]) == Next(s, a);
  }

  /** No history without its reconciliation opens the action to a claim again. */
  ghost predicate StaysBlocked(c: Config, s: Sys, k: ActionKey) {
    forall es | Possible(c, s, es) && NotReconciled(es, k) :: ClaimsAreBlocked(Run(s, es).db, k)
  }

  /** An expired non-replayable action stays blocked until it is reconciled exactly when its outcome has been marked unknown, the worker
      that acquired it has forgotten its claim, or its Run is over. */
  lemma StaysBlockedExactly(c: Config, base: map<Id, ThingRow>, s: Sys, k: ActionKey)
    requires c.Valid() && Reachable(c, base, s) && Expired(s, k)
    ensures StaysBlocked(c, s, k) <==> s.db.tools[k].status == UnknownOutcome || !Remembered(s, k) || RunIsOver(s.db, k.0)
  {
    hide Next, Enabled, Possible, Run, RowsOk, Reachable, AfterClaim, NotReconciled;
    if Abandoned(s, k) {
      forall es | Possible(c, s, es) && NotReconciled(es, k) ensures ClaimsAreBlocked(Run(s, es).db, k) {
        BlockedUntilReconciled(c, base, s, es, k);
      }
    } else {
      ReachableRows(c, base, s);
      OneRow(s, k);
      var t :| t in s.tasks && t.k == k && t.owner == s.db.tools[k].owner && t.token == s.db.tools[k].token;
      var es := LateReport(t, Reported("FAILED"));
      LateCompletionIsReturned(c, s, t, Reported("FAILED"), 60);
      assert !ClaimsAreBlocked(Run(s, es).db, k);
    }
  }

  /** Both happen: a worker that outlives the lease of its non-replayable action leaves it open to its own late report, and its crash
      closes that way. */
  lemma ExpiryAloneDoesNotBlock(c: Config, base: map<Id, ThingRow>, k: ActionKey, call: Call)
    requires c.Valid() && !call.replaySafe
    ensures exists s :: Reachable(c, base, s) && Expired(s, k) && !StaysBlocked(c, s, k)
    ensures exists s :: Reachable(c, base, s) && Expired(s, k) && s.db.tools[k].status == InProgress && StaysBlocked(c, s, k)
  {
    hide Reachable, StaysBlocked;
    var runs := map[k.0 := RunClaim(Running, Some(1), Some(2))];
    var s0 := Start(0, runs, base);
    StartIsReachable(c, base, 0, runs);
    var s1 := Next(s0, Claim(k, call, 1, 2, 60));
    StepIsReachable(c, base, s0, Claim(k, call, 1, 2, 60));
    var s2 := Next(s1, Tick(60));
    StepIsReachable(c, base, s1, Tick(60));
    var task := Task(k, 1, 0, call, false);
    assert s2.tasks == {task} && task in s2.tasks && Remembered(s2, k);
    StaysBlockedExactly(c, base, s2, k);
    var s3 := Next(s2, Crash(task));
    StepIsReachable(c, base, s2, Crash(task));
    assert s3.tasks == {} && !Remembered(s3, k);
    StaysBlockedExactly(c, base, s3, k);
  }

  /** A worker whose token the row no longer carries can neither complete nor commit a mutation. */
  lemma StaleTokenChangesNothing(s: Sys, e: Event)
    requires e.Complete? || e.Mutate?
    requires e.task.k in s.db.tools ==> s.db.tools[e.task.k].token != e.task.token
    ensures Next(s, e) == s
  {
    hide AfterWrite;
  }
}
