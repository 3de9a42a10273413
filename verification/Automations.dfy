/** Automations and their occurrences: the entities (domain/automations/entities.py), materialization (application/automations/materialize.py),
    execution (application/automations/occurrence_execution.py) and the reminder notification (application/automations/notification_pipeline.py). */
module Automations {
  import opened Wrappers
  import opened DurableJobs

  type Id = nat
  type Endpoint = nat
  type Key = nat

  datatype Kind = OneShot | Once | Relative | Recurring | ConditionWatch | Condition {
    /** is_one_shot_type. */
    predicate FiresOnce() { OneShot? || Once? || Relative? }
  }

  datatype Misfire = FireOnce | SkipMisfire

  datatype AutomationStatus = Active | OnHold | Done | Stopped

  datatype AutomationRow = AutomationRow(kind: Kind, interval: int, next: Option<int>, last: Option<int>, misfire: Misfire,
                                         status: AutomationStatus, revision: nat, version: nat, task: Option<Id>)

  datatype OccurrenceStatus = Materialized | Succeeded | Skipped | Broken | Withdrawn

  /** The slot of an occurrence: scheduled_slot_key renders it as a string, injectively. */
  datatype Slot = Slot(automation: Id, revision: nat, at: int)

  datatype OccurrenceRow = OccurrenceRow(slot: Slot, status: OccurrenceStatus, hasJob: bool)

  datatype Intent = Intent(slot: Slot, occurrence: Id)

  // ----- transitions of one automation

  const MISFIRE_HORIZON := 24 * 3600

  /** What the entity accepts when it is created. */
  predicate Creatable(a: AutomationRow) {
    && (a.kind == Recurring ==> a.interval >= 60)
    && (a.next == None ==> a.kind.FiresOnce() && a.last.Some?)
  }

  function CancelledRow(a: AutomationRow): AutomationRow {
    if a.status == Done || a.status == Stopped then a else a.(status := Stopped, version := a.version + 1)
  }

  function PausedRow(a: AutomationRow): Option<AutomationRow> {
    if a.status != Active then None else Some(a.(status := OnHold, version := a.version + 1))
  }

  function ResumedRow(a: AutomationRow): Option<AutomationRow> {
    if a.status != OnHold then None else Some(a.(status := Active, version := a.version + 1))
  }

  function TriggeredRow(a: AutomationRow, at: int): AutomationRow {
    a.(last := Some(at), version := a.version + 1,
       next := if a.kind.FiresOnce() then None else if a.kind == Recurring then Some(at + a.interval) else a.next)
  }

  function OneShotDone(a: AutomationRow): AutomationRow {
    if a.kind.FiresOnce() && a.status == Active then a.(status := Done, version := a.version + 1) else a
  }

  class Automation {
    const kind: Kind
    const interval: int
    const misfire: Misfire
    const task: Option<Id>
    var next: Option<int>
    var last: Option<int>
    var status: AutomationStatus
    var revision: nat
    var version: nat

    constructor (a: AutomationRow)
      ensures Row() == a
    {
      kind, interval, misfire, task := a.kind, a.interval, a.misfire, a.task;
      next, last, status, revision, version := a.next, a.last, a.status, a.revision, a.version;
    }

    function Row(): AutomationRow
      reads this
    {
      AutomationRow(kind, interval, next, last, misfire, status, revision, version, task)
    }

    method Cancel()
      modifies this
      ensures Row() == CancelledRow(old(Row()))
    {
      if status == Done || status == Stopped {
        return;
      }
      status := Stopped;
      version := version + 1;
    }

    method Pause() returns (ok: bool)
      modifies this
      ensures ok == PausedRow(old(Row())).Some? && Row() == if ok then PausedRow(old(Row())).value else old(Row())
    {
      if status != Active {
        return false;
      }
      status := OnHold;
      version := version + 1;
      return true;
    }

    method Resume() returns (ok: bool)
      modifies this
      ensures ok == ResumedRow(old(Row())).Some? && Row() == if ok then ResumedRow(old(Row())).value else old(Row())
    {
      if status != OnHold {
        return false;
      }
      status := Active;
      version := version + 1;
      return true;
    }

    method MarkTriggered(at: int)
      modifies this
      ensures Row() == TriggeredRow(old(Row()), at)
    {
      last := Some(at);
      if kind.FiresOnce() {
        next := None;
      } else if kind == Recurring {
        next := Some(at + interval);
      }
      version := version + 1;
    }

    method CompleteOneShot()
      modifies this
      ensures Row() == OneShotDone(old(Row()))
    {
      if kind.FiresOnce() && status == Active {
        status := Done;
        version := version + 1;
      }
    }

    method BumpDefinitionRevision()
      modifies this
      ensures Row() == old(Row()).(revision := old(revision) + 1, version := old(version) + 1)
    {
      revision := revision + 1;
      version := version + 1;
    }
  }

  // ----- rows of all tables

  /** The job of an occurrence has the id of its occurrence; operations are the recorded keys of status changes. */
  datatype Db = Db(now: int, automations: map<Id, AutomationRow>, finishedTasks: set<Id>, occurrences: map<Id, OccurrenceRow>, jobs: Jobs,
                   runs: seq<Slot>, intents: seq<Intent>, deliveries: seq<(Slot, Endpoint)>, nextId: Id, operations: map<Key, Id>)

  // ----- materialization

  predicate SlotTaken(db: Db, slot: Slot) {
    exists o | o in db.occurrences :: db.occurrences[o].slot == slot
  }

  predicate Due(db: Db, id: Id, at: int) {
    id in db.automations && db.automations[id].status == Active && db.automations[id].next.Some? && db.automations[id].next.value <= at
  }

  predicate TaskOver(db: Db, a: AutomationRow) { a.task.Some? && a.task.value in db.finishedTasks }

  function WithAutomation(db: Db, id: Id, a: AutomationRow): Db { db.(automations := db.automations[id := a]) }

  function WithOccurrence(db: Db, row: OccurrenceRow): Db { db.(occurrences := db.occurrences[db.nextId := row], nextId := db.nextId + 1) }

  /** An automation without a trigger cannot be materialized, unless its finished task cancels it first. */
  predicate LacksTrigger(db: Db, id: Id)
    requires id in db.automations
  {
    !TaskOver(db, db.automations[id]) && db.automations[id].next == None
  }

  /** Materializes the trigger of an automation. */
  function AfterMaterialize(db: Db, id: Id, at: int): Db
    requires id in db.automations
  {
    var a := db.automations[id];
    if TaskOver(db, a) then WithAutomation(db, id, CancelledRow(a))
    else if a.next == None then db
    else MaterializeSlot(db, id, at, Slot(id, a.revision, a.next.value))
  }

  function MaterializeSlot(db: Db, id: Id, at: int, slot: Slot): Db
    requires id in db.automations && db.automations[id].next.Some?
  {
    var a := db.automations[id];
    if SlotTaken(db, slot) then db
    else if a.misfire == SkipMisfire && at - a.next.value > MISFIRE_HORIZON then
      WithAutomation(WithOccurrence(db, OccurrenceRow(slot, Skipped, false)), id, OneShotDone(TriggeredRow(a, at)))
    else
      WithAutomation(WithOccurrence(db, OccurrenceRow(slot, Materialized, true)), id, TriggeredRow(a, at))
      .(jobs := db.jobs[db.nextId := NewJob(at)])
  }

  /** Materializes, one after another, the automations that the due query returned. */
  function ProcessEach(db: Db, ids: seq<Id>, at: int): Db {
    if ids == [] then db
    else
      var before, id := ProcessEach(db, ids[..|ids| - 1], at), ids[|ids| - 1];
      if Due(before, id, at) then AfterMaterialize(before, id, at) else before
  }

  // ----- execution

  /** A claimed job as its worker remembers it. */
  datatype Claim = Claim(job: JobId, owner: Worker, epoch: nat, attempts: nat, maxAttempts: nat)

  predicate OwnsClaim(db: Db, c: Claim) { CanSettle(db.jobs, c.job, c.owner, c.epoch, db.now) }

  predicate HasIntent(intents: seq<Intent>, slot: Slot) {
    exists i | 0 <= i < |intents| :: intents[i].slot == slot
  }

  /** What execute_claimed decides from its first reads. */
  datatype Plan =
    | Lost
    | SettleAs(job: JobStatus, occurrence: Option<OccurrenceStatus>)
    | Fire(row: OccurrenceRow, automation: AutomationRow)

  function PlanOf(db: Db, c: Claim): Plan {
    if !OwnsClaim(db, c) then Lost
    else if c.job !in db.occurrences then SettleAs(Failed, None)
    else
      var o := db.occurrences[c.job];
      match o.status
      case Succeeded => SettleAs(if HasIntent(db.intents, o.slot) then Completed else Failed, None)
      case Withdrawn => SettleAs(Completed, None)
      case Skipped => SettleAs(Completed, None)
      case Broken => SettleAs(Failed, None)
      case Materialized =>
        if o.slot.automation !in db.automations then SettleAs(Failed, Some(Broken))
        else
          var a := db.automations[o.slot.automation];
          if o.slot.revision != a.revision || a.status == Stopped then SettleAs(Completed, Some(Skipped))
          else Fire(o, a)
  }

  function WithStatus(db: Db, id: Id, status: OccurrenceStatus): Db
    requires id in db.occurrences
  {
    db.(occurrences := db.occurrences[id := db.occurrences[id].(status := status)])
  }

  /** The unit of work of a plan that fires nothing. */
  function AfterSettleAs(db: Db, c: Claim, plan: Plan): Db
    requires plan.SettleAs?
  {
    var d := if plan.occurrence.Some? && c.job in db.occurrences then WithStatus(db, c.job, plan.occurrence.value) else db;
    d.(jobs := AfterSettle(db.jobs, c.job, c.owner, c.epoch, plan.job, db.now))
  }

  /** create_automation_run: one Run for each key, in its own transaction. */
  function AfterTrigger(db: Db, slot: Slot): Db {
    if slot in db.runs then db else db.(runs := db.runs + [slot])
  }

  function AddDeliveries(deliveries: seq<(Slot, Endpoint)>, slot: Slot, endpoints: seq<Endpoint>): seq<(Slot, Endpoint)> {
    if endpoints == [] then deliveries
    else
      var before, e := AddDeliveries(deliveries, slot, endpoints[..|endpoints| - 1]), endpoints[|endpoints| - 1];
      if (slot, e) in before then before else before + [(slot, e)]
  }

  /** create_reminder_notification: the intent of a slot is made once, and its deliveries with it. */
  function AfterNotify(db: Db, slot: Slot, occurrence: Id, endpoints: seq<Endpoint>): Db {
    if HasIntent(db.intents, slot) then db
    else db.(intents := db.intents + [Intent(slot, occurrence)], deliveries := AddDeliveries(db.deliveries, slot, endpoints))
  }

  datatype FireResult = DoneWell | LostClaim | Conflict

  /** The unit of work that settles an occurrence that fires: notification, occurrence, automation and job together, or nothing. */
  function AfterFire(db: Db, c: Claim, o: OccurrenceRow, a: AutomationRow, endpoints: seq<Endpoint>): (FireResult, Db) {
    var id := o.slot.automation;
    var finished := OneShotDone(a);
    if finished.version != a.version && (id !in db.automations || db.automations[id].version != a.version) then (Conflict, db)
    else if !OwnsClaim(db, c) then (LostClaim, db)
    else
      var d := AfterNotify(db, o.slot, c.job, endpoints);
      var e := if finished.version != a.version then WithAutomation(d, id, finished) else d;
      (DoneWell, e.(occurrences := db.occurrences[c.job := o.(status := Succeeded)],
                    jobs := AfterSettle(db.jobs, c.job, c.owner, c.epoch, Completed, db.now)))
  }

  // ----- failures

  function Power2(n: nat): nat { if n == 0 then 1 else 2 * Power2(n - 1) }

  function Backoff(attempts: nat, base: nat, max: nat): nat
    requires attempts > 0
  {
    var delay := base * Power2(attempts - 1);
    if delay < max then delay else max
  }

  /** Marks the one-shot automation of a failed occurrence as completed, if it is still at that revision. */
  function WithOneShotDone(db: Db, slot: Slot): Db {
    if slot.automation in db.automations && db.automations[slot.automation].revision == slot.revision
    then WithAutomation(db, slot.automation, OneShotDone(db.automations[slot.automation])) else db
  }

  function AfterRecordFailure(db: Db, c: Claim, delay: nat): Db {
    if !OwnsClaim(db, c) then db
    else if c.attempts < c.maxAttempts then db.(jobs := AfterRelease(db.jobs, c.job, c.owner, c.epoch, db.now + delay, db.now))
    else
      var d := if c.job in db.occurrences && db.occurrences[c.job].status == Materialized
               then WithOneShotDone(WithStatus(db, c.job, Broken), db.occurrences[c.job].slot) else db;
      d.(jobs := AfterSettle(db.jobs, c.job, c.owner, c.epoch, Failed, db.now))
  }

  /** An occurrence whose job has failed while it was still materialized. */
  predicate Exhausted(db: Db, id: Id) {
    && id in db.occurrences && db.occurrences[id].status == Materialized && db.occurrences[id].hasJob
    && id in db.jobs && db.jobs[id].status == Failed
  }

  function FailExhausted(db: Db): map<Id, OccurrenceRow> {
    map id | id in db.occurrences :: if Exhausted(db, id) then db.occurrences[id].(status := Broken) else db.occurrences[id]
  }

  /** Some exhausted occurrence belongs to the automation at its revision. */
  predicate HasExhausted(db: Db, automation: Id, revision: nat) {
    exists id | id in db.occurrences ::
      Exhausted(db, id) && db.occurrences[id].slot.automation == automation && db.occurrences[id].slot.revision == revision
  }

  function AfterReconcile(db: Db): Db {
    db.(occurrences := FailExhausted(db),
        automations := map id | id in db.automations ::
          if HasExhausted(db, id, db.automations[id].revision) then OneShotDone(db.automations[id]) else db.automations[id])
  }

  // ----- changes by users

  datatype StatusAction = PauseIt | ResumeIt | CancelIt

  function Changed(a: AutomationRow, action: StatusAction): Option<AutomationRow> {
    match action
    case PauseIt => PausedRow(a)
    case ResumeIt => if a.kind == ConditionWatch || a.kind == Condition then None else ResumedRow(a)
    case CancelIt => Some(CancelledRow(a))
  }

  datatype StatusError = MissingAutomation | NotFound | StaleVersion | NotAllowed

  datatype StatusReply = StatusReply(automation: Id, version: nat, replayed: bool)

  /** Changes the status once for each idempotency key; a used key reports the automation as it is now. */
  function AfterChangeStatus(db: Db, id: Id, version: nat, action: StatusAction, key: Key): (Result<StatusReply, StatusError>, Db) {
    if key in db.operations then
      var known := db.operations[key];
      (if known in db.automations then Ok(StatusReply(known, db.automations[known].version, true)) else Err(MissingAutomation), db)
    else if id !in db.automations then (Err(NotFound), db)
    else if db.automations[id].version != version then (Err(StaleVersion), db)
    else match Changed(db.automations[id], action)
      case None => (Err(NotAllowed), db)
      case Some(row) =>
        (Ok(StatusReply(id, row.version, false)), WithAutomation(db, id, row).(operations := db.operations[key := id]))
  }
}
