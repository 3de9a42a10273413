/** Automations, occurrences, jobs, notification intents and Runs over whole histories: workers crash between the transaction that creates
    the Run and the one that settles the occurrence, lose their claims, and retry. */
module AutomationSafety {
  import opened Wrappers
  import opened DurableJobs
  import opened Automations

  /** A worker with a claimed job, before its first reads or between them and the settling unit of work. */
  datatype Exec =
    | Started(c: Claim)
    | Reading(c: Claim, o: OccurrenceRow, a: AutomationRow, triggered: bool)

  /** The rows, what the workers remember, and the slots of all occurrences in the order of their creation. */
  datatype Sys = Sys(db: Db, sessions: set<Exec>, log: seq<Slot>)

  datatype Event =
    | Tick(seconds: nat)
    | Create(id: Id, row: AutomationRow)
    | TasksChange(finished: set<Id>)
    | MaterializeDue(id: Id, at: int)
    | ChangeStatus(id: Id, version: nat, action: StatusAction, key: Key)
    | Bump(id: Id)
    | ClaimJob(job: JobId, owner: Worker, leaseUntil: int)
    | Begin(x: Exec)
    | Trigger(x: Exec)
    | Finish(x: Exec, endpoints: seq<Endpoint>)
    | RecordFailure(x: Exec, delay: nat)
    | Reconcile
    | Crash(x: Exec)

  /** What workers do; hasTrigger tells that the service is configured to create Runs. Any step may fail or never come. */
  ghost predicate Enabled(hasTrigger: bool, s: Sys, e: Event) {
    match e
    case Create(id, row) => id !in s.db.automations && Creatable(row) && row.last == None
    case Begin(x) => x in s.sessions && x.Started?
    case Trigger(x) => x in s.sessions && x.Reading? && hasTrigger
    case Finish(x, _) => x in s.sessions && x.Reading? && (hasTrigger ==> x.triggered)
    case RecordFailure(x, _) => x in s.sessions
    case _ => true
  }

  function AfterClaimJob(db: Db, job: JobId, owner: Worker, leaseUntil: int): Jobs {
    ClaimEach(AfterRequeue(db.jobs, db.now), [job], owner, db.now, leaseUntil)
  }

  /** The claim that the worker takes away, if it got the job. */
  function ClaimOf(db: Db, jobs: Jobs, job: JobId, owner: Worker): set<Exec> {
    if job in jobs && job in db.jobs && jobs[job].epoch > db.jobs[job].epoch
    then {Started(Claim(job, owner, jobs[job].epoch, jobs[job].attempts, jobs[job].maxAttempts))} else {}
  }

  function AfterBegin(s: Sys, x: Exec): Sys {
    var plan := PlanOf(s.db, x.c);
    match plan
    case Lost => s.(sessions := s.sessions - {x})
    case SettleAs(_, _) => s.(db := AfterSettleAs(s.db, x.c, plan), sessions := s.sessions - {x})
    case Fire(o, a) => s.(sessions := s.sessions - {x} + {Reading(x.c, o, a, false)})
  }

  function Next(s: Sys, e: Event): Sys {
    match e
    case Tick(seconds) => s.(db := s.db.(now := s.db.now + seconds))
    case Create(id, row) => if id in s.db.automations then s else s.(db := WithAutomation(s.db, id, row))
    case TasksChange(finished) => s.(db := s.db.(finishedTasks := finished))
    case MaterializeDue(id, at) =>
      if Due(s.db, id, at) then
        var db := AfterMaterialize(s.db, id, at);
        Sys(db, s.sessions, if db.nextId > s.db.nextId then s.log + [SlotOf(s.db, id)] else s.log)
      else s
    case ChangeStatus(id, version, action, key) => s.(db := AfterChangeStatus(s.db, id, version, action, key).1)
    case Bump(id) =>
      if id in s.db.automations
      then s.(db := WithAutomation(s.db, id, s.db.automations[id].(revision := s.db.automations[id].revision + 1, version := s.db.automations[id].version + 1)))
      else s
    case ClaimJob(job, owner, leaseUntil) =>
      var jobs := AfterClaimJob(s.db, job, owner, leaseUntil);
      s.(db := s.db.(jobs := jobs), sessions := s.sessions + ClaimOf(s.db, jobs, job, owner))
    case Begin(x) => AfterBegin(s, x)
    case Trigger(x) => if x.Reading? then s.(db := AfterTrigger(s.db, x.o.slot), sessions := s.sessions - {x} + {x.(triggered := true)}) else s
    case Finish(x, endpoints) =>
      if x.Reading? then
        var (r, db) := AfterFire(s.db, x.c, x.o, x.a, endpoints);
        s.(db := db, sessions := if r == Conflict then s.sessions else s.sessions - {x})
      else s
    case RecordFailure(x, delay) => s.(db := AfterRecordFailure(s.db, x.c, delay), sessions := s.sessions - {x})
    case Reconcile => s.(db := AfterReconcile(s.db))
    case Crash(x) => s.(sessions := s.sessions - {x})
  }

  function SlotOf(db: Db, id: Id): Slot
    requires id in db.automations && db.automations[id].next.Some?
  {
    Slot(id, db.automations[id].revision, db.automations[id].next.value)
  }

  function Run(s: Sys, es: seq<Event>): Sys {
    if es == [] then s else Next(Run(s, es[..|es| - 1]), es[|es| - 1])
  }

  ghost predicate Possible(hasTrigger: bool, s: Sys, es: seq<Event>) {
    es == [] || (Possible(hasTrigger, s, es[..|es| - 1]) && Enabled(hasTrigger, Run(s, es[..|es| - 1]), es[|es| - 1]))
  }

  function Start(now: int): Sys { Sys(Db(now, map[], {}, map[], map[], [], [], [], 0, map[]), {}, []) }

  // ----- occurrences and their jobs

  /** An occurrence and its job tell the same story. */
  ghost predicate OccurrenceOk(db: Db, id: Id)
    requires id in db.occurrences
  {
    var o := db.occurrences[id];
    && id < db.nextId && (o.hasJob <==> id in db.jobs)
    && (o.hasJob ==> WellHeld(db.jobs[id]))
    && match o.status
       case Materialized => o.hasJob && (db.jobs[id].status == Ready || db.jobs[id].status == Claimed || db.jobs[id].status == Failed)
       case Succeeded => o.hasJob && db.jobs[id].status == Completed
       case Broken => o.hasJob && db.jobs[id].status == Failed
       case Skipped => o.hasJob ==> db.jobs[id].status == Completed
       case Withdrawn => false
  }

  ghost predicate OccurrencesOk(db: Db) {
    && (forall id | id in db.occurrences :: OccurrenceOk(db, id))
    && (forall id | id in db.jobs :: id in db.occurrences && db.occurrences[id].hasJob)
  }

  /** The log lists the slot of every occurrence, and no slot twice. */
  ghost predicate LogOk(s: Sys) {
    && |s.log| == s.db.nextId
    && (forall i | 0 <= i < |s.log| :: i in s.db.occurrences && s.db.occurrences[i].slot == s.log[i])
    && (forall id | id in s.db.occurrences :: id < |s.log|)
    && (forall i, j | 0 <= i < j < |s.log| :: s.log[i] != s.log[j])
  }

  // ----- intents and Runs

  ghost predicate IntentOk(db: Db, i: Intent) {
    i.occurrence in db.occurrences && db.occurrences[i.occurrence].slot == i.slot && db.occurrences[i.occurrence].status == Succeeded
  }

  ghost predicate IntentsOk(db: Db) {
    && (forall i | 0 <= i < |db.intents| :: IntentOk(db, db.intents[i]))
    && (forall i, j | 0 <= i < j < |db.intents| :: db.intents[i].slot != db.intents[j].slot)
  }

  ghost predicate RunsOk(db: Db) {
    && (forall i | 0 <= i < |db.runs| :: SlotTaken(db, db.runs[i]))
    && (forall i, j | 0 <= i < j < |db.runs| :: db.runs[i] != db.runs[j])
  }

  /** A succeeded occurrence has its intent, and its Run where Runs are created. */
  ghost predicate SuccessOk(hasTrigger: bool, db: Db, id: Id)
    requires id in db.occurrences
  {
    var o := db.occurrences[id];
    o.status == Succeeded ==> HasIntent(db.intents, o.slot) && (hasTrigger ==> o.slot in db.runs)
  }

  ghost predicate SuccessesOk(hasTrigger: bool, db: Db) {
    forall id | id in db.occurrences :: SuccessOk(hasTrigger, db, id)
  }

  // ----- what workers remember

  ghost predicate ClaimOk(db: Db, c: Claim) {
    c.job in db.jobs && c.epoch <= db.jobs[c.job].epoch
  }

  /** While the job is still claimed under the worker's epoch, the occurrence is as the worker read it; and an automation
      that still has the version the worker read is as the worker read it. */
  ghost predicate SnapshotOk(db: Db, x: Exec)
    requires x.Reading?
  {
    && x.o.status == Materialized && x.c.job in db.occurrences && db.occurrences[x.c.job].slot == x.o.slot
    && (x.c.job in db.jobs && db.jobs[x.c.job].status == Claimed && db.jobs[x.c.job].epoch == x.c.epoch ==> db.occurrences[x.c.job] == x.o)
    && x.o.slot.automation in db.automations && x.a.version <= db.automations[x.o.slot.automation].version
    && (x.a.version == db.automations[x.o.slot.automation].version ==> x.a == db.automations[x.o.slot.automation])
    && (x.triggered ==> x.o.slot in db.runs)
  }

  ghost predicate SessionsOk(s: Sys) {
    forall x | x in s.sessions :: ClaimOk(s.db, x.c) && (x.Reading? ==> SnapshotOk(s.db, x))
  }

  // ----- one event

  /** Only a unit of work that moves the job out of its claim, or one on a failed job, changes an occurrence that exists. */
  ghost predicate OccurrenceMove(s: Sys, e: Event, n: Db, id: Id)
    requires id in s.db.occurrences && id in n.occurrences
  {
    var o, p := s.db.occurrences[id], n.occurrences[id];
    && p.slot == o.slot && p.hasJob == o.hasJob
    && (p == o || (o.status == Materialized && o.hasJob && id in s.db.jobs && id in n.jobs && n.jobs[id].status != Claimed))
    && (p.status == Succeeded && o.status != Succeeded ==>
          e.Finish? && e.x.Reading? && e.x.c.job == id && p.slot == e.x.o.slot && HasIntent(n.intents, p.slot))
  }

  /** Sessions of the event. */
  ghost predicate Acts(s: Sys, e: Event) {
    (e.Begin? || e.Finish? || e.RecordFailure? || e.Trigger?) ==> e.x in s.sessions
  }

  lemma OccurrenceMoves(s: Sys, e: Event, id: Id)
    requires OccurrencesOk(s.db) && SessionsOk(s) && Acts(s, e) && id in s.db.occurrences
    ensures id in Next(s, e).db.occurrences && OccurrenceMove(s, e, Next(s, e).db, id)
    ensures OccurrenceOk(Next(s, e).db, id)
  {
    hide Next, OccurrenceMove, OccurrenceOk, ClaimOk, SnapshotOk, OccurrencesOk, SessionsOk;
    assert OccurrenceOk(s.db, id) by { OneOccurrence(s.db, id); }
    if e.Begin? || e.Finish? || e.RecordFailure? {
      OneSession(s, e.x);
    }
    match e
    case MaterializeDue(_, _) => MaterializeMoves(s, e, id);
    case ClaimJob(_, _, _) => ClaimMoves(s, e, id);
    case Begin(x) => BeginMoves(s, e, id);
    case Finish(x, _) => FinishMoves(s, e, id);
    case RecordFailure(x, _) => FailureMoves(s, e, id);
    case Reconcile => ReconcileMoves(s, e, id);
    case _ => OtherMoves(s, e, id);
  }

  lemma OneOccurrence(db: Db, id: Id)
    requires OccurrencesOk(db) && id in db.occurrences
    ensures OccurrenceOk(db, id)
  {
  }

  lemma OneSession(s: Sys, x: Exec)
    requires SessionsOk(s) && x in s.sessions
    ensures ClaimOk(s.db, x.c) && (x.Reading? ==> SnapshotOk(s.db, x))
  {
  }

  lemma MaterializeMoves(s: Sys, e: Event, id: Id)
    requires e.MaterializeDue? && id in s.db.occurrences && OccurrenceOk(s.db, id)
    ensures id in Next(s, e).db.occurrences && OccurrenceMove(s, e, Next(s, e).db, id) && OccurrenceOk(Next(s, e).db, id)
  {
    hide SlotTaken, HasIntent;
  }

  lemma ClaimMoves(s: Sys, e: Event, id: Id)
    requires e.ClaimJob? && id in s.db.occurrences && OccurrenceOk(s.db, id)
    ensures id in Next(s, e).db.occurrences && OccurrenceMove(s, e, Next(s, e).db, id) && OccurrenceOk(Next(s, e).db, id)
  {
    hide HasIntent;
    ClaimOne(s.db, e.job, e.owner, e.leaseUntil, id);
  }

  /** What claiming does to one row. */
  lemma ClaimOne(db: Db, job: JobId, owner: Worker, leaseUntil: int, id: JobId)
    ensures var jobs := AfterClaimJob(db, job, owner, leaseUntil);
            && jobs.Keys == db.jobs.Keys
            && (id in db.jobs ==>
                  && Rotated(db.jobs[id], jobs[id]) && (WellHeld(db.jobs[id]) ==> WellHeld(jobs[id]))
                  && (jobs[id].epoch == db.jobs[id].epoch && jobs[id].status == Claimed ==> db.jobs[id].status == Claimed))
  {
    assert [job][..0] == [];
    assert ClaimEach(AfterRequeue(db.jobs, db.now), [], owner, db.now, leaseUntil) == AfterRequeue(db.jobs, db.now);
  }

  lemma BeginMoves(s: Sys, e: Event, id: Id)
    requires e.Begin? && id in s.db.occurrences && OccurrenceOk(s.db, id)
    ensures id in Next(s, e).db.occurrences && OccurrenceMove(s, e, Next(s, e).db, id) && OccurrenceOk(Next(s, e).db, id)
  {
    hide HasIntent;
  }

  lemma FinishMoves(s: Sys, e: Event, id: Id)
    requires e.Finish? && id in s.db.occurrences && OccurrenceOk(s.db, id) && (e.x.Reading? ==> SnapshotOk(s.db, e.x))
    ensures id in Next(s, e).db.occurrences && OccurrenceMove(s, e, Next(s, e).db, id) && OccurrenceOk(Next(s, e).db, id)
  {
    hide HasIntent, AddDeliveries, OneShotDone;
    if e.x.Reading? {
      NotifyMakesIntent(s.db, e.x.o.slot, e.x.c.job, e.endpoints);
    }
  }

  lemma NotifyMakesIntent(db: Db, slot: Slot, occurrence: Id, endpoints: seq<Endpoint>)
    ensures HasIntent(AfterNotify(db, slot, occurrence, endpoints).intents, slot)
  {
    hide AddDeliveries;
    if !HasIntent(db.intents, slot) {
      var intents := db.intents + [Intent(slot, occurrence)];
      assert intents[|db.intents|].slot == slot;
    }
  }

  lemma FailureMoves(s: Sys, e: Event, id: Id)
    requires e.RecordFailure? && id in s.db.occurrences && OccurrenceOk(s.db, id)
    ensures id in Next(s, e).db.occurrences && OccurrenceMove(s, e, Next(s, e).db, id) && OccurrenceOk(Next(s, e).db, id)
  {
    hide HasIntent, OneShotDone, WithOneShotDone;
    var job := e.x.c.job;
    if job in s.db.occurrences {
      OneShotKeepsOthers(WithStatus(s.db, job, Broken), s.db.occurrences[job].slot);
    }
  }

  lemma OneShotKeepsOthers(db: Db, slot: Slot)
    ensures WithOneShotDone(db, slot) == db.(automations := WithOneShotDone(db, slot).automations)
  {
    hide OneShotDone;
  }

  lemma ReconcileMoves(s: Sys, e: Event, id: Id)
    requires e.Reconcile? && id in s.db.occurrences && OccurrenceOk(s.db, id)
    ensures id in Next(s, e).db.occurrences && OccurrenceMove(s, e, Next(s, e).db, id) && OccurrenceOk(Next(s, e).db, id)
  {
    hide HasIntent, HasExhausted, OneShotDone;
  }

  lemma OtherMoves(s: Sys, e: Event, id: Id)
    requires e.Tick? || e.Create? || e.TasksChange? || e.ChangeStatus? || e.Bump? || e.Trigger? || e.Crash?
    requires id in s.db.occurrences && OccurrenceOk(s.db, id)
    ensures id in Next(s, e).db.occurrences && OccurrenceMove(s, e, Next(s, e).db, id) && OccurrenceOk(Next(s, e).db, id)
  {
    hide HasIntent, Changed, Creatable;
  }

  ghost predicate Grows(s: Sys, e: Event, n: Sys) {
    || (n.db.nextId == s.db.nextId && n.log == s.log && n.db.occurrences.Keys == s.db.occurrences.Keys)
    || (e.MaterializeDue? && Due(s.db, e.id, e.at) && !SlotTaken(s.db, SlotOf(s.db, e.id)) && n.db.nextId == s.db.nextId + 1
        && n.log == s.log + [SlotOf(s.db, e.id)] && n.db.occurrences.Keys == s.db.occurrences.Keys + {s.db.nextId})
  }

  /** Occurrences are only added, one at a time, each with its slot in the log. */
  lemma Growth(s: Sys, e: Event)
    requires SessionsOk(s) && Acts(s, e)
    ensures Grows(s, e, Next(s, e))
  {
    hide HasIntent, SlotTaken, ClaimEach, AfterRequeue, AddDeliveries, OneShotDone, Changed, Creatable, Exhausted, HasExhausted, SessionsOk,
         AfterSettle, AfterRelease, OwnsClaim;
    if e.Finish? {
      OneSession(s, e.x);
    }
  }

  /** A new occurrence takes the slot of its automation, which was free, and is the next one of the log. */
  lemma NewOccurrence(s: Sys, e: Event, id: Id)
    requires id in Next(s, e).db.occurrences && id !in s.db.occurrences
    requires SessionsOk(s) && Acts(s, e)
    ensures e.MaterializeDue? && Due(s.db, e.id, e.at) && id == s.db.nextId && Next(s, e).db.nextId == s.db.nextId + 1
    ensures Next(s, e).db.occurrences[id].slot == SlotOf(s.db, e.id) && !SlotTaken(s.db, SlotOf(s.db, e.id))
    ensures Next(s, e).db.occurrences[id].status == Materialized || Next(s, e).db.occurrences[id].status == Skipped
    ensures Next(s, e).log == s.log + [SlotOf(s.db, e.id)]
    ensures id !in s.db.jobs ==> OccurrenceOk(Next(s, e).db, id)
  {
    hide Next, SlotTaken, Due, OccurrenceOk, SessionsOk, Acts;
    Growth(s, e);
    assert id in Next(s, e).db.occurrences.Keys && id !in s.db.occurrences.Keys;
    NewRow(s, e);
  }

  lemma NewRow(s: Sys, e: Event)
    requires e.MaterializeDue? && Due(s.db, e.id, e.at) && Next(s, e).db.nextId == s.db.nextId + 1
    ensures var n, id := Next(s, e).db, s.db.nextId;
            && id in n.occurrences && n.occurrences[id].slot == SlotOf(s.db, e.id)
            && (n.occurrences[id].status == Materialized || n.occurrences[id].status == Skipped)
            && (id !in s.db.jobs ==> OccurrenceOk(n, id))
  {
    hide SlotTaken;
  }

  lemma NoJobYet(db: Db, id: Id)
    requires OccurrencesOk(db) && id !in db.occurrences
    ensures id !in db.jobs
  {
  }

  lemma OccurrencesStep(s: Sys, e: Event)
    requires OccurrencesOk(s.db) && SessionsOk(s) && Acts(s, e)
    ensures OccurrencesOk(Next(s, e).db)
  {
    hide Next, OccurrenceOk, OccurrenceMove, SessionsOk;
    var n := Next(s, e).db;
    forall id | id in n.occurrences ensures OccurrenceOk(n, id) {
      if id in s.db.occurrences {
        OccurrenceMoves(s, e, id);
      } else {
        NoJobYet(s.db, id);
        NewOccurrence(s, e, id);
      }
    }
    forall id | id in n.jobs ensures id in n.occurrences && n.occurrences[id].hasJob {
      JobHasOccurrence(s, e, id);
    }
  }

  lemma JobHasOccurrence(s: Sys, e: Event, id: JobId)
    requires OccurrencesOk(s.db) && SessionsOk(s) && Acts(s, e) && id in Next(s, e).db.jobs
    ensures id in Next(s, e).db.occurrences && Next(s, e).db.occurrences[id].hasJob
  {
    hide Next, SessionsOk;
    JobKeys(s, e);
    if id in s.db.jobs {
      OccurrenceMoves(s, e, id);
    } else {
      assert id == s.db.nextId;
    }
  }

  /** A job comes only with its occurrence. */
  lemma JobKeys(s: Sys, e: Event)
    ensures var n := Next(s, e).db;
            || n.jobs.Keys == s.db.jobs.Keys
            || (n.jobs.Keys == s.db.jobs.Keys + {s.db.nextId} && s.db.nextId in n.occurrences && n.occurrences[s.db.nextId].hasJob)
  {
    hide HasIntent, SlotTaken, AddDeliveries, OneShotDone, Changed, Creatable, Exhausted, HasExhausted, ClaimEach, AfterRequeue;
    if e.ClaimJob? {
      ClaimOne(s.db, e.job, e.owner, e.leaseUntil, 0);
    }
  }

  lemma LogStep(s: Sys, e: Event)
    requires OccurrencesOk(s.db) && SessionsOk(s) && Acts(s, e) && LogOk(s)
    ensures LogOk(Next(s, e))
  {
    hide Next, OccurrenceOk, OccurrenceMove, SessionsOk, OccurrencesOk, Due;
    var n := Next(s, e);
    Growth(s, e);
    forall i | 0 <= i < |n.log| ensures i in n.db.occurrences && n.db.occurrences[i].slot == n.log[i] {
      if i < |s.log| {
        OccurrenceKeepsSlot(s, e, i);
      } else {
        NewOccurrence(s, e, i);
      }
    }
    forall id | id in n.db.occurrences ensures id < |n.log| {
      assert id in n.db.occurrences.Keys;
    }
  }

  lemma OccurrenceKeepsSlot(s: Sys, e: Event, id: Id)
    requires OccurrencesOk(s.db) && SessionsOk(s) && Acts(s, e) && id in s.db.occurrences
    ensures id in Next(s, e).db.occurrences && Next(s, e).db.occurrences[id].slot == s.db.occurrences[id].slot
    ensures s.db.occurrences[id].status != Materialized ==> Next(s, e).db.occurrences[id] == s.db.occurrences[id]
  {
    hide Next, OccurrencesOk, SessionsOk, OccurrenceOk;
    OccurrenceMoves(s, e, id);
  }

  lemma SlotStaysTaken(s: Sys, e: Event, slot: Slot)
    requires OccurrencesOk(s.db) && SessionsOk(s) && Acts(s, e) && SlotTaken(s.db, slot)
    ensures SlotTaken(Next(s, e).db, slot)
  {
    hide Next, OccurrencesOk, SessionsOk;
    var o :| o in s.db.occurrences && s.db.occurrences[o].slot == slot;
    OccurrenceKeepsSlot(s, e, o);
  }

  /** Intents are only added, by the unit of work that makes their occurrence succeed. */
  lemma IntentsMove(s: Sys, e: Event)
    requires SessionsOk(s) && Acts(s, e)
    ensures var n := Next(s, e).db;
            || n.intents == s.db.intents
            || (e.Finish? && e.x.Reading? && !HasIntent(s.db.intents, e.x.o.slot) && n.intents == s.db.intents + [Intent(e.x.o.slot, e.x.c.job)]
                && IntentOk(n, Intent(e.x.o.slot, e.x.c.job)))
  {
    hide HasIntent, SlotTaken, ClaimEach, AfterRequeue, AddDeliveries, OneShotDone, Changed, Creatable, Exhausted, HasExhausted, SessionsOk;
    if e.Finish? {
      OneSession(s, e.x);
    }
  }

  lemma IntentsStep(s: Sys, e: Event)
    requires OccurrencesOk(s.db) && SessionsOk(s) && Acts(s, e) && IntentsOk(s.db)
    ensures IntentsOk(Next(s, e).db)
  {
    hide Next, OccurrencesOk, SessionsOk;
    var n := Next(s, e).db;
    IntentsMove(s, e);
    forall i | 0 <= i < |n.intents| ensures IntentOk(n, n.intents[i]) {
      if i < |s.db.intents| {
        assert IntentOk(s.db, s.db.intents[i]);
        OccurrenceKeepsSlot(s, e, s.db.intents[i].occurrence);
      }
    }
  }

  /** Runs are only added, for the slot of an occurrence. */
  lemma RunsMove(s: Sys, e: Event)
    requires SessionsOk(s) && Acts(s, e)
    ensures var n := Next(s, e).db;
            n.runs == s.db.runs || (e.Trigger? && e.x.Reading? && e.x.o.slot !in s.db.runs && n.runs == s.db.runs + [e.x.o.slot] && SlotTaken(s.db, e.x.o.slot))
    ensures e.Trigger? && e.x.Reading? ==> e.x.o.slot in Next(s, e).db.runs
  {
    hide HasIntent, ClaimEach, AfterRequeue, AddDeliveries, OneShotDone, Changed, Creatable, Exhausted, HasExhausted, SessionsOk;
    if e.Trigger? {
      OneSession(s, e.x);
    }
  }

  lemma RunsStep(s: Sys, e: Event)
    requires OccurrencesOk(s.db) && SessionsOk(s) && Acts(s, e) && RunsOk(s.db)
    ensures RunsOk(Next(s, e).db)
  {
    hide Next, OccurrencesOk, SessionsOk, SlotTaken;
    var n := Next(s, e).db;
    RunsMove(s, e);
    forall i | 0 <= i < |n.runs| ensures SlotTaken(n, n.runs[i]) {
      SlotStaysTaken(s, e, n.runs[i]);
    }
  }

  lemma SuccessesStep(hasTrigger: bool, s: Sys, e: Event)
    requires Enabled(hasTrigger, s, e) && OccurrencesOk(s.db) && SessionsOk(s) && SuccessesOk(hasTrigger, s.db)
    ensures SuccessesOk(hasTrigger, Next(s, e).db)
  {
    hide Next, OccurrencesOk, SessionsOk, SuccessOk;
    var n := Next(s, e).db;
    forall id | id in n.occurrences ensures SuccessOk(hasTrigger, n, id) {
      SuccessStep(hasTrigger, s, e, id);
    }
  }

  lemma SuccessStep(hasTrigger: bool, s: Sys, e: Event, id: Id)
    requires Enabled(hasTrigger, s, e) && OccurrencesOk(s.db) && SessionsOk(s) && id in Next(s, e).db.occurrences
    requires id in s.db.occurrences ==> SuccessOk(hasTrigger, s.db, id)
    ensures SuccessOk(hasTrigger, Next(s, e).db, id)
  {
    hide Next, OccurrencesOk, SessionsOk, OccurrenceOk, HasIntent, Creatable;
    if id in s.db.occurrences {
      OccurrenceMoves(s, e, id);
      IntentsMove(s, e);
      RunsMove(s, e);
      if HasIntent(s.db.intents, s.db.occurrences[id].slot) {
        IntentStays(s.db.intents, Next(s, e).db.intents, s.db.occurrences[id].slot);
      }
      if e.Finish? {
        OneSession(s, e.x);
      }
    } else {
      NewOccurrence(s, e, id);
    }
  }

  lemma IntentStays(a: seq<Intent>, b: seq<Intent>, slot: Slot)
    requires a <= b && HasIntent(a, slot)
    ensures HasIntent(b, slot)
  {
    var i :| 0 <= i < |a| && a[i].slot == slot;
    assert b[i] == a[i];
  }

  // ----- what workers remember, after an event

  /** Automation rows only get newer versions, and a version stands for one row. */
  ghost predicate AutomationMove(s: Sys, n: Db, id: Id)
    requires id in s.db.automations && id in n.automations
  {
    var a, b := s.db.automations[id], n.automations[id];
    a.version <= b.version && (a.version == b.version ==> a == b)
  }

  lemma AutomationMoves(s: Sys, e: Event, id: Id)
    requires SessionsOk(s) && Acts(s, e) && id in s.db.automations
    ensures id in Next(s, e).db.automations && AutomationMove(s, Next(s, e).db, id)
  {
    hide Next, SessionsOk;
    FateOf(s, e, id);
  }

  /** What one event may do to an automation: nothing but a materialization touches its schedule, and only a creation adds one. */
  ghost predicate AutomationFate(s: Sys, e: Event, n: Db, id: Id) {
    && (id in s.db.automations ==>
          && id in n.automations && AutomationMove(s, n, id)
          && (!(e.MaterializeDue? && e.id == id) ==> SameRhythm(s.db.automations[id], n.automations[id])))
    && (id !in s.db.automations && id in n.automations ==> e.Create? && e.id == id && n.automations[id] == e.row)
  }

  predicate SameRhythm(a: AutomationRow, b: AutomationRow) { a.kind == b.kind && a.interval == b.interval && a.next == b.next }

  lemma FateOf(s: Sys, e: Event, id: Id)
    requires SessionsOk(s) && Acts(s, e)
    ensures AutomationFate(s, e, Next(s, e).db, id)
  {
    hide Next, AutomationFate, SessionsOk;
    match e
    case Finish(x, _) =>
      OneSession(s, x);
      FinishFate(s, e, id);
    case RecordFailure(_, _) => FailureFate(s, e, id);
    case Reconcile => ReconcileFate(s, e, id);
    case MaterializeDue(_, _) => MaterializeFate(s, e, id);
    case _ => OtherFate(s, e, id);
  }

  lemma FinishFate(s: Sys, e: Event, id: Id)
    requires e.Finish? && (e.x.Reading? ==> SnapshotOk(s.db, e.x))
    ensures AutomationFate(s, e, Next(s, e).db, id)
  {
    hide HasIntent, SlotTaken, AddDeliveries, Creatable, Exhausted, HasExhausted, ClaimEach, AfterRequeue, FailExhausted, AfterSettle, AfterRelease,
         OwnsClaim;
  }

  lemma FailureFate(s: Sys, e: Event, id: Id)
    requires e.RecordFailure?
    ensures AutomationFate(s, e, Next(s, e).db, id)
  {
    hide HasIntent, SlotTaken, AddDeliveries, Creatable, Exhausted, HasExhausted, ClaimEach, AfterRequeue, FailExhausted, AfterSettle, AfterRelease,
         OwnsClaim;
  }

  lemma ReconcileFate(s: Sys, e: Event, id: Id)
    requires e.Reconcile?
    ensures AutomationFate(s, e, Next(s, e).db, id)
  {
    hide HasIntent, SlotTaken, AddDeliveries, Creatable, Exhausted, HasExhausted, ClaimEach, AfterRequeue, FailExhausted, AfterSettle, AfterRelease,
         OwnsClaim;
  }

  lemma MaterializeFate(s: Sys, e: Event, id: Id)
    requires e.MaterializeDue?
    ensures AutomationFate(s, e, Next(s, e).db, id)
  {
    hide HasIntent, SlotTaken, AddDeliveries, Creatable, Exhausted, HasExhausted, ClaimEach, AfterRequeue, FailExhausted, AfterSettle, AfterRelease,
         OwnsClaim;
  }

  lemma OtherFate(s: Sys, e: Event, id: Id)
    requires !e.Finish? && !e.RecordFailure? && !e.Reconcile? && !e.MaterializeDue?
    ensures AutomationFate(s, e, Next(s, e).db, id)
  {
    hide HasIntent, SlotTaken, AddDeliveries, Creatable, Exhausted, HasExhausted, ClaimEach, AfterRequeue, FailExhausted, AfterSettle, AfterRelease,
         OwnsClaim;
  }

  /** The epoch of a job never falls, and a job that is claimed under the epoch it had was claimed before. */
  lemma EpochMoves(s: Sys, e: Event, id: JobId)
    requires OccurrencesOk(s.db) && id in s.db.jobs
    ensures id in Next(s, e).db.jobs && EpochMove(s.db.jobs[id], Next(s, e).db.jobs[id])
  {
    hide HasIntent, SlotTaken, AddDeliveries, OneShotDone, Changed, Creatable, Exhausted, HasExhausted, ClaimEach, AfterRequeue, OccurrencesOk, OccurrenceOk;
    OneJob(s.db, id);
    if e.ClaimJob? {
      ClaimOne(s.db, e.job, e.owner, e.leaseUntil, id);
    }
  }

  ghost predicate EpochMove(j: JobRow, k: JobRow) {
    k.epoch >= j.epoch && (k.epoch == j.epoch && k.status == Claimed ==> j.status == Claimed)
  }

  lemma OneJob(db: Db, id: JobId)
    requires OccurrencesOk(db) && id in db.jobs
    ensures id in db.occurrences && id < db.nextId
  {
    assert OccurrenceOk(db, id);
  }

  lemma OldSession(s: Sys, e: Event, x: Exec)
    requires OccurrencesOk(s.db) && SessionsOk(s) && Acts(s, e) && x in s.sessions
    ensures ClaimOk(Next(s, e).db, x.c) && (x.Reading? ==> SnapshotOk(Next(s, e).db, x))
  {
    hide Next, OccurrencesOk, SessionsOk, OccurrenceOk;
    OneSession(s, x);
    EpochMoves(s, e, x.c.job);
    if x.Reading? {
      OccurrenceMoves(s, e, x.c.job);
      AutomationMoves(s, e, x.o.slot.automation);
      RunsMove(s, e);
    }
  }

  lemma NewSession(s: Sys, e: Event, x: Exec)
    requires OccurrencesOk(s.db) && SessionsOk(s) && Acts(s, e) && x in Next(s, e).sessions && x !in s.sessions
    ensures ClaimOk(Next(s, e).db, x.c) && (x.Reading? ==> SnapshotOk(Next(s, e).db, x))
  {
    hide HasIntent, SlotTaken, AddDeliveries, OneShotDone, Changed, Creatable, Exhausted, HasExhausted, ClaimEach, AfterRequeue, SessionsOk, OccurrencesOk;
    hide AfterFire, AfterRecordFailure, AfterReconcile, AfterMaterialize;
    if e.Trigger? || e.Begin? {
      OneSession(s, e.x);
    }
  }

  lemma SessionsStep(s: Sys, e: Event)
    requires OccurrencesOk(s.db) && SessionsOk(s) && Acts(s, e)
    ensures SessionsOk(Next(s, e))
  {
    hide Next, ClaimOk, SnapshotOk, OccurrencesOk;
    forall x | x in Next(s, e).sessions
      ensures ClaimOk(Next(s, e).db, x.c) && (x.Reading? ==> SnapshotOk(Next(s, e).db, x))
    {
      if x in s.sessions {
        OldSession(s, e, x);
      } else {
        NewSession(s, e, x);
      }
    }
  }

  // ----- schedules

  /** The times for which an automation has fired or skipped, in order. */
  function Fires(log: seq<Slot>, id: Id): seq<int> {
    if log == [] then []
    else
      var before, last := Fires(log[..|log| - 1], id), log[|log| - 1];
      if last.automation == id then before + [last.at] else before
  }

  ghost predicate Spaced(times: seq<int>, interval: int) {
    forall i, j | 0 <= i && j == i + 1 < |times| :: times[j] - times[i] >= interval
  }

  /** A recurring automation has kept its distance and will keep it; a one-shot automation that fired has no trigger left. */
  ghost predicate ScheduleOk(log: seq<Slot>, id: Id, a: AutomationRow) {
    var times := Fires(log, id);
    && (a.kind == Recurring ==>
          && a.interval >= 60 && Spaced(times, a.interval) && a.next.Some?
          && (times != [] ==> a.next.value - times[|times| - 1] >= a.interval))
    && (a.kind.FiresOnce() ==> |times| <= 1 && (times != [] ==> a.next == None))
  }

  ghost predicate SchedulesOk(s: Sys) {
    && (forall id | id in s.db.automations :: ScheduleOk(s.log, id, s.db.automations[id]))
    && (forall i | 0 <= i < |s.log| :: s.log[i].automation in s.db.automations)
  }

  lemma FiresSnoc(log: seq<Slot>, last: Slot, id: Id)
    ensures Fires(log + [last], id) == if last.automation == id then Fires(log, id) + [last.at] else Fires(log, id)
  {
    assert (log + [last])[..|log|] == log;
  }

  /** Changes of status and revision leave the schedule alone; only materialization moves it. */
  lemma ScheduleMoves(s: Sys, e: Event, id: Id)
    requires SessionsOk(s) && Acts(s, e) && id in s.db.automations && !(e.MaterializeDue? && e.id == id)
    ensures id in Next(s, e).db.automations && SameRhythm(s.db.automations[id], Next(s, e).db.automations[id])
  {
    hide Next, SessionsOk;
    FateOf(s, e, id);
  }

  lemma {:induction false} NeverFired(log: seq<Slot>, id: Id)
    requires forall i | 0 <= i < |log| :: log[i].automation != id
    ensures Fires(log, id) == []
  {
    if log != [] {
      NeverFired(log[..|log| - 1], id);
    }
  }

  lemma NewAutomation(s: Sys, e: Event, id: Id)
    requires id in Next(s, e).db.automations && id !in s.db.automations && SessionsOk(s) && Acts(s, e)
    ensures e.Create? && e.id == id && Next(s, e).db.automations[id] == e.row
  {
    hide Next, SessionsOk;
    FateOf(s, e, id);
  }

  lemma SchedulesStep(hasTrigger: bool, s: Sys, e: Event)
    requires Enabled(hasTrigger, s, e) && SessionsOk(s) && SchedulesOk(s)
    ensures SchedulesOk(Next(s, e))
  {
    hide Next, SessionsOk, ScheduleOk, Creatable;
    var n := Next(s, e);
    forall id | id in n.db.automations ensures ScheduleOk(n.log, id, n.db.automations[id]) {
      ScheduleStep(hasTrigger, s, e, id);
    }
    Growth(s, e);
    forall i | 0 <= i < |n.log| ensures n.log[i].automation in n.db.automations {
      AutomationMoves(s, e, n.log[i].automation);
    }
  }

  lemma ScheduleStep(hasTrigger: bool, s: Sys, e: Event, id: Id)
    requires Enabled(hasTrigger, s, e) && SessionsOk(s) && SchedulesOk(s) && id in Next(s, e).db.automations
    ensures ScheduleOk(Next(s, e).log, id, Next(s, e).db.automations[id])
  {
    hide Next, SessionsOk;
    if id !in s.db.automations {
      NewAutomation(s, e, id);
      NeverFired(s.log, id);
      Growth(s, e);
    } else if e.MaterializeDue? && e.id == id {
      MaterializeKeepsSchedule(s, e);
    } else {
      assert ScheduleOk(s.log, id, s.db.automations[id]);
      ScheduleMoves(s, e, id);
      Growth(s, e);
      if e.MaterializeDue? && Due(s.db, e.id, e.at) {
        FiresSnoc(s.log, SlotOf(s.db, e.id), id);
      }
    }
  }

  /** Completing a one-shot and cancelling leave the schedule alone. */
  lemma StatusKeepsSchedule(a: AutomationRow)
    ensures OneShotDone(a).kind == a.kind && OneShotDone(a).interval == a.interval && OneShotDone(a).next == a.next
    ensures CancelledRow(a).kind == a.kind && CancelledRow(a).interval == a.interval && CancelledRow(a).next == a.next
  {
  }

  lemma MaterializeKeepsSchedule(s: Sys, e: Event)
    requires e.MaterializeDue? && e.id in s.db.automations && ScheduleOk(s.log, e.id, s.db.automations[e.id])
    ensures e.id in Next(s, e).db.automations && ScheduleOk(Next(s, e).log, e.id, Next(s, e).db.automations[e.id])
  {
    hide ScheduleOk;
    if Due(s.db, e.id, e.at) {
      var a := s.db.automations[e.id];
      MaterializeRow(s, e);
      if Next(s, e).log != s.log {
        FiresSnoc(s.log, SlotOf(s.db, e.id), e.id);
        TriggerKeepsSchedule(s.log, e.id, a, e.at, Next(s, e).db.automations[e.id]);
      } else {
        SameSchedule(s.log, e.id, a, Next(s, e).db.automations[e.id]);
      }
    }
  }

  ghost predicate SameTimes(a: AutomationRow, b: AutomationRow) {
    a.kind == b.kind && a.interval == b.interval && a.next == b.next
  }

  /** Materializing either adds the slot and moves the trigger, or leaves both alone. */
  lemma MaterializeRow(s: Sys, e: Event)
    requires e.MaterializeDue? && Due(s.db, e.id, e.at)
    ensures var n := Next(s, e);
            && e.id in n.db.automations
            && ((n.log == s.log && SameTimes(s.db.automations[e.id], n.db.automations[e.id]))
                || (n.log == s.log + [SlotOf(s.db, e.id)] && SameTimes(TriggeredRow(s.db.automations[e.id], e.at), n.db.automations[e.id])))
  {
    hide SlotTaken, OneShotDone, CancelledRow, TriggeredRow;
    var a := s.db.automations[e.id];
    StatusKeepsSchedule(a);
    StatusKeepsSchedule(TriggeredRow(a, e.at));
  }

  lemma SameSchedule(log: seq<Slot>, id: Id, a: AutomationRow, b: AutomationRow)
    requires ScheduleOk(log, id, a) && SameTimes(a, b)
    ensures ScheduleOk(log, id, b)
  {
  }

  lemma TriggerKeepsSchedule(log: seq<Slot>, id: Id, a: AutomationRow, at: int, b: AutomationRow)
    requires ScheduleOk(log, id, a) && a.next.Some? && a.next.value <= at && SameTimes(TriggeredRow(a, at), b)
    ensures ScheduleOk(log + [Slot(id, a.revision, a.next.value)], id, b)
  {
    FiresSnoc(log, Slot(id, a.revision, a.next.value), id);
  }
}
