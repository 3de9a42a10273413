/** What each unit of work of the automation pipeline does to the rows, case by case (application/automations/, domain/automations/entities.py). */
module AutomationSteps {
  import opened Wrappers
  import opened DurableJobs
  import opened Automations

  // ----- one automation

  /** The fields of the definition: no step of the pipeline touches them. */
  predicate SameDefinition(a: AutomationRow, b: AutomationRow) {
    a.kind == b.kind && a.interval == b.interval && a.misfire == b.misfire && a.task == b.task && a.revision == b.revision
  }

  predicate SameTimes(a: AutomationRow, b: AutomationRow) { a.next == b.next && a.last == b.last }

  /** Which status changes an automation accepts, and what they set: pausing needs an active one, resuming a paused one that is no condition,
      and cancelling leaves a finished one alone. */
  lemma StatusMovesExactly(a: AutomationRow)
    ensures Changed(a, PauseIt).Some? <==> a.status == Active
    ensures Changed(a, ResumeIt).Some? <==> a.status == OnHold && a.kind != ConditionWatch && a.kind != Condition
    ensures Changed(a, CancelIt).Some?
    ensures Changed(a, PauseIt).Some? ==>
              var b := Changed(a, PauseIt).value; SameDefinition(a, b) && SameTimes(a, b) && b.status == OnHold && b.version == a.version + 1
    ensures Changed(a, ResumeIt).Some? ==>
              var b := Changed(a, ResumeIt).value; SameDefinition(a, b) && SameTimes(a, b) && b.status == Active && b.version == a.version + 1
    ensures var b := Changed(a, CancelIt).value;
            && SameDefinition(a, b) && SameTimes(a, b)
            && (if a.status == Active || a.status == OnHold then b.status == Stopped && b.version == a.version + 1 else b == a)
  {
  }

  /** Completing a one-shot ends it if it is an active one, and a trigger moves to the next time: never for a one-shot, an interval from now for
      a recurring one, and as it was for a condition. */
  lemma TriggerMovesExactly(a: AutomationRow, at: int)
    ensures var b := OneShotDone(a);
            var oneShot := a.kind == OneShot || a.kind == Once || a.kind == Relative;
            && SameDefinition(a, b) && SameTimes(a, b)
            && (if oneShot && a.status == Active then b.status == Done && b.version == a.version + 1 else b == a)
    ensures var b := TriggeredRow(a, at);
            var oneShot := a.kind == OneShot || a.kind == Once || a.kind == Relative;
            && SameDefinition(a, b) && b.status == a.status && b.version == a.version + 1 && b.last == Some(at)
            && b.next == (if oneShot then None else if a.kind == Recurring then Some(at + a.interval) else a.next)
  {
  }

  // ----- status changes by users

  lemma ChangeStatusExactly(db: Db, id: Id, version: nat, action: StatusAction, key: Key)
    ensures var (r, n) := AfterChangeStatus(db, id, version, action, key);
            var unused := key !in db.operations;
            && (r.Err? || r.value.replayed ==> n == db)
            && (r == Err(MissingAutomation) <==> !unused && db.operations[key] !in db.automations)
            && (!unused && r.Ok? ==>
                  r.value.replayed && r.value.automation == db.operations[key] && r.value.version == db.automations[db.operations[key]].version)
            && (r == Err(NotFound) <==> unused && id !in db.automations)
            && (r == Err(StaleVersion) <==> unused && id in db.automations && db.automations[id].version != version)
            && (r == Err(NotAllowed) <==> unused && id in db.automations && db.automations[id].version == version && Changed(db.automations[id], action).None?)
            && (unused && r.Ok? ==>
                  && !r.value.replayed && r.value.automation == id && id in n.automations && r.value.version == n.automations[id].version
                  && Changed(db.automations[id], action) == Some(n.automations[id])
                  && n == db.(automations := db.automations[id := n.automations[id]], operations := db.operations[key := id]))
  {
    hide Changed;
  }

  // ----- materialization

  /** Materializing leaves every other automation, all Runs, intents and deliveries alone; the automation itself is cancelled for a finished task,
      left alone when its slot is taken, and otherwise moved on, and ended if it is a one-shot that is skipped. */
  lemma MaterializeMovesExactly(db: Db, id: Id, at: int)
    requires id in db.automations && db.automations[id].next.Some?
    ensures var n := AfterMaterialize(db, id, at);
            var a, b := db.automations[id], n.automations[id];
            var over := a.task.Some? && a.task.value in db.finishedTasks;
            var taken := exists o :: o in db.occurrences && db.occurrences[o].slot == Slot(id, a.revision, a.next.value);
            var oneShot := a.kind == OneShot || a.kind == Once || a.kind == Relative;
            var late := a.misfire == SkipMisfire && at - a.next.value > 24 * 3600;
            && n == db.(automations := db.automations[id := b], occurrences := n.occurrences, jobs := n.jobs, nextId := n.nextId)
            && SameDefinition(a, b)
            && (over ==> SameTimes(a, b) && b.status == (if a.status == Active || a.status == OnHold then Stopped else a.status))
            && (!over && taken ==> n == db)
            && (!over && !taken ==>
                  && b.last == Some(at) && b.next == (if oneShot then None else if a.kind == Recurring then Some(at + a.interval) else a.next)
                  && b.status == (if late && oneShot && a.status == Active then Done else a.status) && b.version > a.version)
  {
    hide TriggeredRow, OneShotDone, CancelledRow;
    var a := db.automations[id];
    StatusMovesExactly(a);
    TriggerMovesExactly(a, at);
    TriggerMovesExactly(TriggeredRow(a, at), at);
  }

  /** Materializing raises, without effect, exactly for an automation without a trigger whose task is not finished. */
  lemma LacksTriggerExactly(db: Db, id: Id)
    requires id in db.automations
    ensures var a := db.automations[id];
            && (LacksTrigger(db, id) <==> a.next == None && !(a.task.Some? && a.task.value in db.finishedTasks))
            && (LacksTrigger(db, id) ==> forall at :: AfterMaterialize(db, id, at) == db)
  {
  }

  // ----- execution

  /** What the first reads call for when nothing fires: a lost claim settles nothing; a missing occurrence, a broken one, and one whose automation
      is gone fail the job; a settled one, and one of an old revision or a cancelled automation, complete it, the latter as skipped. */
  lemma PlanExactly(db: Db, c: Claim)
    ensures var plan := PlanOf(db, c);
            var owned := c.job in db.jobs && db.jobs[c.job].status == Claimed && db.jobs[c.job].claimedBy == Some(c.owner)
                         && db.jobs[c.job].epoch == c.epoch && db.jobs[c.job].leaseUntil.Some? && db.now <= db.jobs[c.job].leaseUntil.value;
            && (plan == Lost <==> !owned)
            && (owned && c.job !in db.occurrences ==> plan == SettleAs(Failed, None))
            && (owned && c.job in db.occurrences ==>
                  var o := db.occurrences[c.job];
                  && (o.status == Succeeded ==>
                        plan == SettleAs(if exists i :: 0 <= i < |db.intents| && db.intents[i].slot == o.slot then Completed else Failed, None))
                  && (o.status == Withdrawn || o.status == Skipped ==> plan == SettleAs(Completed, None))
                  && (o.status == Broken ==> plan == SettleAs(Failed, None))
                  && (o.status == Materialized && o.slot.automation !in db.automations ==> plan == SettleAs(Failed, Some(Broken)))
                  && (o.status == Materialized && o.slot.automation in db.automations ==>
                        var a := db.automations[o.slot.automation];
                        plan == if o.slot.revision != a.revision || a.status == Stopped then SettleAs(Completed, Some(Skipped)) else Fire(o, a)))
  {
  }

  /** The unit of work of such a plan sets the job, and the occurrence if the plan says so, and nothing else. */
  lemma SettleAsMovesExactly(db: Db, c: Claim, job: JobStatus, occurrence: Option<OccurrenceStatus>)
    requires c.job in db.jobs && c.job in db.occurrences && PlanOf(db, c) == SettleAs(job, occurrence)
    ensures var n := AfterSettleAs(db, c, SettleAs(job, occurrence));
            && n == db.(occurrences := n.occurrences, jobs := db.jobs[c.job := db.jobs[c.job].(status := job, claimedBy := None, leaseUntil := None)])
            && n.occurrences == (if occurrence == None then db.occurrences
                                 else db.occurrences[c.job := db.occurrences[c.job].(status := occurrence.value)])
  {
    hide HasIntent;
  }

  /** The settling unit of work of an execution that fires: it conflicts when the one-shot has moved on, and is lost without the claim, both
      without any effect; otherwise occurrence and job are settled, an active one-shot is done, and notifications come with them. */
  lemma FireMovesExactly(db: Db, c: Claim, o: OccurrenceRow, a: AutomationRow, endpoints: seq<Endpoint>)
    ensures var (r, n) := AfterFire(db, c, o, a, endpoints);
            var id := o.slot.automation;
            var oneShot := (a.kind == OneShot || a.kind == Once || a.kind == Relative) && a.status == Active;
            var moved := oneShot && (id !in db.automations || db.automations[id].version != a.version);
            && (r == Conflict <==> moved) && (r == LostClaim <==> !moved && !OwnsClaim(db, c)) && (r != DoneWell ==> n == db)
            && (r == DoneWell ==>
                  && n == db.(occurrences := db.occurrences[c.job := o.(status := Succeeded)], automations := n.automations, jobs := n.jobs,
                              intents := n.intents, deliveries := n.deliveries)
                  && n.automations == (if oneShot then db.automations[id := a.(status := Done, version := a.version + 1)] else db.automations)
                  && c.job in db.jobs && n.jobs == db.jobs[c.job := db.jobs[c.job].(status := Completed, claimedBy := None, leaseUntil := None)]
                  && (exists i :: 0 <= i < |n.intents| && n.intents[i].slot == o.slot)
                  && ((exists i :: 0 <= i < |db.intents| && db.intents[i].slot == o.slot) ==>
                        n.intents == db.intents && n.deliveries == db.deliveries))
            && (r == DoneWell && !(exists i :: 0 <= i < |db.intents| && db.intents[i].slot == o.slot) ==>
                  n.intents == db.intents + [Intent(o.slot, c.job)])
  {
    hide AddDeliveries;
    var n := AfterNotify(db, o.slot, c.job, endpoints);
    if !HasIntent(db.intents, o.slot) {
      assert n.intents[|db.intents|].slot == o.slot;
    }
  }

  /** A Run is created once for each slot. */
  lemma TriggerCreatesExactly(db: Db, slot: Slot)
    ensures AfterTrigger(db, slot) == if slot in db.runs then db else db.(runs := db.runs + [slot])
  {
  }

  // ----- failures

  /** A failed execution is released for a later retry while attempts are left; the last one fails its job, and its occurrence and one-shot
      automation with it. Without the claim it does nothing. */
  lemma FailureMovesExactly(db: Db, c: Claim, delay: nat)
    ensures var n := AfterRecordFailure(db, c, delay);
            && (!OwnsClaim(db, c) ==> n == db)
            && (OwnsClaim(db, c) && c.attempts < c.maxAttempts ==>
                  n == db.(jobs := db.jobs[c.job := db.jobs[c.job].(status := Ready, claimedBy := None, leaseUntil := None, availableAt := db.now + delay)]))
            && (OwnsClaim(db, c) && c.attempts >= c.maxAttempts ==>
                  var waiting := c.job in db.occurrences && db.occurrences[c.job].status == Materialized;
                  && n == db.(jobs := db.jobs[c.job := db.jobs[c.job].(status := Failed, claimedBy := None, leaseUntil := None)],
                              occurrences := n.occurrences, automations := n.automations)
                  && n.occurrences == (if waiting then db.occurrences[c.job := db.occurrences[c.job].(status := Broken)] else db.occurrences)
                  && n.automations.Keys == db.automations.Keys
                  && forall id | id in db.automations ::
                       var a := db.automations[id];
                       var ends := waiting && id == db.occurrences[c.job].slot.automation && a.revision == db.occurrences[c.job].slot.revision
                                   && (a.kind == OneShot || a.kind == Once || a.kind == Relative) && a.status == Active;
                       n.automations[id] == if ends then a.(status := Done, version := a.version + 1) else a)
  {
  }

  /** The retry delay doubles from its base with every attempt, up to its bound. */
  lemma BackoffDoubles(attempts: nat, base: nat, max: nat)
    requires attempts > 0
    ensures Backoff(1, base, max) == if base < max then base else max
    ensures Backoff(attempts + 1, base, max) == (if 2 * Backoff(attempts, base, max) < max then 2 * Backoff(attempts, base, max) else max)
  {
    assert Power2(0) == 1 && base * Power2(0) == base;
    var p := Power2(attempts - 1);
    assert Power2(attempts) == 2 * p && base * (2 * p) == 2 * (base * p);
  }

  /** Reconciling also ends the active one-shots of the occurrences that it fails, if they are still at the revision of the occurrence. */
  lemma ReconcileEndsOneShots(db: Db, id: Id)
    requires id in db.automations
    ensures var a, n := db.automations[id], AfterReconcile(db);
            var stuck := exists o :: o in db.occurrences && db.occurrences[o].status == Materialized && db.occurrences[o].hasJob && o in db.jobs
                                     && db.jobs[o].status == Failed && db.occurrences[o].slot.automation == id
                                     && db.occurrences[o].slot.revision == a.revision;
            var ends := stuck && (a.kind == OneShot || a.kind == Once || a.kind == Relative) && a.status == Active;
            && n.automations[id] == (if ends then a.(status := Done, version := a.version + 1) else a)
            && n == db.(occurrences := n.occurrences, automations := n.automations) && n.automations.Keys == db.automations.Keys
            && n.occurrences.Keys == db.occurrences.Keys
  {
    var a := db.automations[id];
    if o :| o in db.occurrences && db.occurrences[o].status == Materialized && db.occurrences[o].hasJob && o in db.jobs
            && db.jobs[o].status == Failed && db.occurrences[o].slot.automation == id && db.occurrences[o].slot.revision == a.revision {
      assert Exhausted(db, o) && HasExhausted(db, id, a.revision);
    }
  }
}
