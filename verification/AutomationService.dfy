/** The units of work of the automation pipeline (application/automations/service.py, materialize.py, occurrence_execution.py). */
module AutomationService {
  import opened Wrappers
  import opened DurableJobs
  import opened Automations

  /** The distinct pairs of the settled rows are the automations that have an exhausted occurrence. */
  lemma SettledExactly(db: Db, settled: set<(Id, nat)>, automation: Id, revision: nat)
    requires settled == set id | id in db.occurrences && Exhausted(db, id) :: (db.occurrences[id].slot.automation, db.occurrences[id].slot.revision)
    ensures (automation, revision) in settled <==> HasExhausted(db, automation, revision)
  {
    hide Exhausted;
  }

  /** The one-shot automations of these pairs are completed, the others are as they were. */
  ghost predicate CompletedFor(before: map<Id, AutomationRow>, now: map<Id, AutomationRow>, pairs: set<(Id, nat)>) {
    now.Keys == before.Keys && forall id | id in before ::
      now[id] == if (id, before[id].revision) in pairs then OneShotDone(before[id]) else before[id]
  }

  lemma CompleteOneMore(before: map<Id, AutomationRow>, now: map<Id, AutomationRow>, pairs: set<(Id, nat)>, pair: (Id, nat))
    requires CompletedFor(before, now, pairs) && pair !in pairs
    ensures pair.0 in now && now[pair.0].revision == pair.1 ==>
              CompletedFor(before, now[pair.0 := OneShotDone(now[pair.0])], pairs + {pair})
    ensures !(pair.0 in now && now[pair.0].revision == pair.1) ==> CompletedFor(before, now, pairs + {pair})
  {
  }

  lemma ReconciledIs(db: Db, automations: map<Id, AutomationRow>, settled: set<(Id, nat)>)
    requires CompletedFor(db.automations, automations, settled)
    requires forall id | id in db.automations ::
               (id, db.automations[id].revision) in settled <==> HasExhausted(db, id, db.automations[id].revision)
    ensures AfterReconcile(db) == db.(occurrences := FailExhausted(db), automations := automations)
  {
    hide Exhausted, HasExhausted, OneShotDone, FailExhausted;
    assert AfterReconcile(db).automations == automations;
  }

  class AutomationStore {
    var now: int
    var automations: map<Id, AutomationRow>
    var finishedTasks: set<Id>
    var occurrences: map<Id, OccurrenceRow>
    var runs: seq<Slot>
    var intents: seq<Intent>
    var deliveries: seq<(Slot, Endpoint)>
    var nextId: Id
    var operations: map<Key, Id>
    const jobs: JobRepository

    constructor (db: Db)
      ensures fresh(jobs) && Rows() == db
    {
      now, automations, finishedTasks, occurrences := db.now, db.automations, db.finishedTasks, db.occurrences;
      runs, intents, deliveries, nextId, operations := db.runs, db.intents, db.deliveries, db.nextId, db.operations;
      jobs := new JobRepository(db.jobs);
    }

    function Rows(): Db
      reads this, jobs
    {
      Db(now, automations, finishedTasks, occurrences, jobs.jobs, runs, intents, deliveries, nextId, operations)
    }

    /** Inserts an occurrence unless its slot is taken. */
    method AddOccurrence(row: OccurrenceRow) returns (created: bool)
      modifies this`occurrences, this`nextId
      ensures created == !old(SlotTaken(Rows(), row.slot))
      ensures Rows() == if created then WithOccurrence(old(Rows()), row) else old(Rows())
    {
      created := !exists o | o in occurrences :: occurrences[o].slot == row.slot;
      if created {
        occurrences := occurrences[nextId := row];
        nextId := nextId + 1;
      }
    }

    /** Materializes one automation, or raises when it has no trigger. */
    method MaterializeDueAutomation(id: Id, at: int) returns (ok: bool)
      requires id in automations
      modifies this, jobs
      ensures ok <==> !old(LacksTrigger(Rows(), id))
      ensures Rows() == AfterMaterialize(old(Rows()), id, at)
    {
      hide SlotTaken;
      var automation := new Automation(automations[id]);
      if automation.task.Some? && automation.task.value in finishedTasks {
        automation.Cancel();
        automations := automations[id := automation.Row()];
        return true;
      }
      if automation.next == None {
        return false;
      }
      var scheduledFor := automation.next.value;
      var slot := Slot(id, automation.revision, scheduledFor);
      if automation.misfire == SkipMisfire && at - scheduledFor > MISFIRE_HORIZON {
        var skipped := AddOccurrence(OccurrenceRow(slot, Skipped, false));
        if !skipped {
          return true;
        }
        automation.MarkTriggered(at);
        automation.CompleteOneShot();
        automations := automations[id := automation.Row()];
        return true;
      }
      var job := nextId;
      var created := AddOccurrence(OccurrenceRow(slot, Materialized, true));
      if !created {
        return true;
      }
      jobs.jobs := jobs.jobs[job := NewJob(at)];
      automation.MarkTriggered(at);
      automations := automations[id := automation.Row()];
      return true;
    }

    method ProcessDue(ids: seq<Id>, at: int)
      modifies this, jobs
      ensures Rows() == ProcessEach(old(Rows()), ids, at)
    {
      hide AfterMaterialize;
      ghost var start := Rows();
      for i := 0 to |ids|
        invariant Rows() == ProcessEach(start, ids[..i], at)
      {
        assert ids[..i + 1][..i] == ids[..i];
        if Due(Rows(), ids[i], at) {
          var _ := MaterializeDueAutomation(ids[i], at);
        }
      }
      assert ids[..|ids|] == ids;
    }

    /** The first reads of execute_claimed, and its whole work when nothing has to fire. */
    method BeginExecution(c: Claim) returns (plan: Plan)
      modifies this, jobs
      ensures plan == PlanOf(old(Rows()), c)
      ensures Rows() == if plan.SettleAs? then AfterSettleAs(old(Rows()), c, plan) else old(Rows())
    {
      hide HasIntent;
      if !OwnsClaim(Rows(), c) {
        return Lost;
      }
      if c.job !in occurrences {
        plan := SettleAs(Failed, None);
      } else {
        var o := occurrences[c.job];
        if o.status == Succeeded {
          plan := SettleAs(if HasIntent(intents, o.slot) then Completed else Failed, None);
        } else if o.status == Withdrawn || o.status == Skipped {
          plan := SettleAs(Completed, None);
        } else if o.status == Broken {
          plan := SettleAs(Failed, None);
        } else if o.slot.automation !in automations {
          plan := SettleAs(Failed, Some(Broken));
        } else if o.slot.revision != automations[o.slot.automation].revision || automations[o.slot.automation].status == Stopped {
          plan := SettleAs(Completed, Some(Skipped));
        } else {
          return Fire(o, automations[o.slot.automation]);
        }
      }
      if plan.occurrence.Some? {
        occurrences := occurrences[c.job := occurrences[c.job].(status := plan.occurrence.value)];
      }
      var _ := jobs.Settle(c.job, c.owner, c.epoch, plan.job, now);
    }

    method CreateAutomationRun(slot: Slot)
      modifies this`runs
      ensures Rows() == AfterTrigger(old(Rows()), slot)
    {
      if slot !in runs {
        runs := runs + [slot];
      }
    }

    method CreateReminderNotification(slot: Slot, occurrence: Id, endpoints: seq<Endpoint>)
      modifies this`intents, this`deliveries
      ensures Rows() == AfterNotify(old(Rows()), slot, occurrence, endpoints)
    {
      hide HasIntent;
      if HasIntent(intents, slot) {
        return;
      }
      intents := intents + [Intent(slot, occurrence)];
      ghost var before := deliveries;
      for i := 0 to |endpoints|
        invariant intents == old(intents) + [Intent(slot, occurrence)]
        invariant deliveries == AddDeliveries(before, slot, endpoints[..i])
      {
        assert endpoints[..i + 1][..i] == endpoints[..i];
        if (slot, endpoints[i]) in deliveries {
          continue;
        }
        deliveries := deliveries + [(slot, endpoints[i])];
      }
      assert endpoints[..|endpoints|] == endpoints;
    }

    /** The rest of execute_claimed for an occurrence that fires; what cannot be settled is rolled back. */
    method FinishExecution(c: Claim, o: OccurrenceRow, a: AutomationRow, endpoints: seq<Endpoint>) returns (r: FireResult)
      modifies this, jobs
      ensures (r, Rows()) == AfterFire(old(Rows()), c, o, a, endpoints)
    {
      hide AddDeliveries, HasIntent;
      var savedIntents, savedDeliveries, savedOccurrences, savedAutomations := intents, deliveries, occurrences, automations;
      CreateReminderNotification(o.slot, c.job, endpoints);
      occurrences := occurrences[c.job := o.(status := Succeeded)];
      var automation := new Automation(a);
      automation.CompleteOneShot();
      var id := o.slot.automation;
      if automation.version != a.version {
        if id !in automations || automations[id].version != a.version {
          intents, deliveries, occurrences := savedIntents, savedDeliveries, savedOccurrences;
          return Conflict;
        }
        automations := automations[id := automation.Row()];
      }
      var settled := jobs.Settle(c.job, c.owner, c.epoch, Completed, now);
      if !settled {
        intents, deliveries, occurrences, automations := savedIntents, savedDeliveries, savedOccurrences, savedAutomations;
        return LostClaim;
      }
      return DoneWell;
    }

    method CompleteOneShot(slot: Slot)
      modifies this`automations
      ensures Rows() == WithOneShotDone(old(Rows()), slot)
    {
      if slot.automation in automations && automations[slot.automation].revision == slot.revision {
        var automation := new Automation(automations[slot.automation]);
        automation.CompleteOneShot();
        automations := automations[slot.automation := automation.Row()];
      }
    }

    method RecordFailure(c: Claim, base: nat, max: nat)
      requires c.attempts > 0
      modifies this, jobs
      ensures Rows() == AfterRecordFailure(old(Rows()), c, Backoff(c.attempts, base, max))
    {
      hide Power2;
      if !OwnsClaim(Rows(), c) {
        return;
      }
      if c.attempts < c.maxAttempts {
        var _ := jobs.ReleaseForRetry(c.job, c.owner, c.epoch, now + Backoff(c.attempts, base, max), now);
        return;
      }
      if c.job in occurrences && occurrences[c.job].status == Materialized {
        var slot := occurrences[c.job].slot;
        occurrences := occurrences[c.job := occurrences[c.job].(status := Broken)];
        CompleteOneShot(slot);
      }
      var _ := jobs.Settle(c.job, c.owner, c.epoch, Failed, now);
    }

    /** Fails the occurrences whose jobs ran out, and completes their one-shot automations one after another. */
    method ReconcileExhausted()
      modifies this
      ensures Rows() == AfterReconcile(old(Rows()))
    {
      hide Exhausted, HasExhausted, OneShotDone, FailExhausted, AfterReconcile;
      ghost var start := Rows();
      var settled := set id | id in occurrences && Exhausted(Rows(), id) :: (occurrences[id].slot.automation, occurrences[id].slot.revision);
      occurrences := FailExhausted(Rows());
      var todo := settled;
      while todo != {}
        invariant Rows() == start.(occurrences := FailExhausted(start), automations := automations)
        invariant todo <= settled && CompletedFor(start.automations, automations, settled - todo)
        decreases todo
      {
        var pair :| pair in todo;
        CompleteOneMore(start.automations, automations, settled - todo, pair);
        assert settled - (todo - {pair}) == settled - todo + {pair};
        todo := todo - {pair};
        CompleteOneShot(Slot(pair.0, pair.1, 0));
      }
      assert settled - todo == settled;
      forall id | id in start.automations
        ensures (id, start.automations[id].revision) in settled <==> HasExhausted(start, id, start.automations[id].revision)
      {
        SettledExactly(start, settled, id, start.automations[id].revision);
      }
      ReconciledIs(start, automations, settled);
    }

    method ChangeStatus(id: Id, expectedVersion: nat, action: StatusAction, key: Key) returns (r: Result<StatusReply, StatusError>)
      modifies this`automations, this`operations
      ensures (r, Rows()) == AfterChangeStatus(old(Rows()), id, expectedVersion, action, key)
    {
      if key in operations {
        if operations[key] !in automations {
          return Err(MissingAutomation);
        }
        return Ok(StatusReply(operations[key], automations[operations[key]].version, true));
      }
      if id !in automations {
        return Err(NotFound);
      }
      var automation := new Automation(automations[id]);
      if automation.version != expectedVersion {
        return Err(StaleVersion);
      }
      var ok := true;
      match action {
        case PauseIt =>
          ok := automation.Pause();
        case ResumeIt =>
          if automation.kind == ConditionWatch || automation.kind == Condition {
            return Err(NotAllowed);
          }
          ok := automation.Resume();
        case CancelIt =>
          automation.Cancel();
      }
      if !ok {
        return Err(NotAllowed);
      }
      automations := automations[id := automation.Row()];
      operations := operations[key := id];
      return Ok(StatusReply(id, automation.version, false));
    }
  }
}
