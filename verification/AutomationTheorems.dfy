/** The guarantees of the automation pipeline over all histories: exactly-once settlement of every slot, and the spacing of schedules. */
module AutomationTheorems {
  import opened Wrappers
  import opened DurableJobs
  import opened Automations
  import opened AutomationSafety

  ghost predicate Invariant(hasTrigger: bool, s: Sys) {
    && OccurrencesOk(s.db) && LogOk(s) && IntentsOk(s.db) && RunsOk(s.db) && SuccessesOk(hasTrigger, s.db) && SessionsOk(s) && SchedulesOk(s)
  }

  lemma InvariantStep(hasTrigger: bool, s: Sys, e: Event)
    requires Invariant(hasTrigger, s) && Enabled(hasTrigger, s, e)
    ensures Invariant(hasTrigger, Next(s, e))
  {
    hide Next, OccurrencesOk, LogOk, IntentsOk, RunsOk, SuccessesOk, SessionsOk, SchedulesOk, Enabled;
    assert Acts(s, e) by { EnabledActs(hasTrigger, s, e); }
    OccurrencesStep(s, e);
    LogStep(s, e);
    IntentsStep(s, e);
    RunsStep(s, e);
    SuccessesStep(hasTrigger, s, e);
    SessionsStep(s, e);
    SchedulesStep(hasTrigger, s, e);
  }

  lemma EnabledActs(hasTrigger: bool, s: Sys, e: Event)
    requires Enabled(hasTrigger, s, e)
    ensures Acts(s, e)
  {
  }

  ghost predicate Reachable(hasTrigger: bool, s: Sys) {
    exists now, es :: Possible(hasTrigger, Start(now), es) && s == Run(Start(now), es)
  }

  lemma {:induction false} InvariantAlways(hasTrigger: bool, now: int, es: seq<Event>)
    requires Possible(hasTrigger, Start(now), es)
    ensures Invariant(hasTrigger, Run(Start(now), es))
  {
    hide Next, Enabled, Invariant;
    if es == [] {
      StartIsFine(hasTrigger, now);
    } else {
      InvariantAlways(hasTrigger, now, es[..|es| - 1]);
      InvariantStep(hasTrigger, Run(Start(now), es[..|es| - 1]), es[|es| - 1]);
    }
  }

  lemma StartIsFine(hasTrigger: bool, now: int)
    ensures Invariant(hasTrigger, Start(now))
  {
  }

  lemma ReachableIsInvariant(hasTrigger: bool, s: Sys)
    requires Reachable(hasTrigger, s)
    ensures Invariant(hasTrigger, s)
  {
    hide Possible, Run, Invariant;
    var now, es :| Possible(hasTrigger, Start(now), es) && s == Run(Start(now), es);
    InvariantAlways(hasTrigger, now, es);
  }

  // ----- exactly once

  /** Across retries, lost claims and crashes between the two transactions, a slot has at most one occurrence, one Run and one intent. */
  lemma AtMostOncePerSlot(hasTrigger: bool, s: Sys)
    requires Reachable(hasTrigger, s)
    ensures forall i, j | 0 <= i < j < |s.db.runs| :: s.db.runs[i] != s.db.runs[j]
    ensures forall i, j | 0 <= i < j < |s.db.intents| :: s.db.intents[i].slot != s.db.intents[j].slot
    ensures forall a, b | a in s.db.occurrences && b in s.db.occurrences && s.db.occurrences[a].slot == s.db.occurrences[b].slot :: a == b
  {
    hide Reachable, OccurrencesOk, SuccessesOk, SessionsOk, SchedulesOk;
    ReachableIsInvariant(hasTrigger, s);
    forall a, b | a in s.db.occurrences && b in s.db.occurrences && s.db.occurrences[a].slot == s.db.occurrences[b].slot ensures a == b {
      assert s.log[a] == s.db.occurrences[a].slot && s.log[b] == s.db.occurrences[b].slot;
    }
  }

  /** An occurrence has succeeded exactly when the intent of its slot exists; the intent is then its own, and its Run exists too
      where Runs are created. */
  lemma SucceededExactlyWithIntent(hasTrigger: bool, s: Sys, id: Id)
    requires Reachable(hasTrigger, s) && id in s.db.occurrences
    ensures var o := s.db.occurrences[id];
            && (o.status == Succeeded <==> exists i :: 0 <= i < |s.db.intents| && s.db.intents[i].slot == o.slot)
            && (forall i | 0 <= i < |s.db.intents| && s.db.intents[i].slot == o.slot :: s.db.intents[i].occurrence == id)
            && (o.status == Succeeded && hasTrigger ==> o.slot in s.db.runs)
  {
    hide Reachable, OccurrencesOk, LogOk, SessionsOk, SchedulesOk, RunsOk;
    ReachableIsInvariant(hasTrigger, s);
    AtMostOncePerSlot(hasTrigger, s);
    assert SuccessOk(hasTrigger, s.db, id);
    forall i | 0 <= i < |s.db.intents| && s.db.intents[i].slot == s.db.occurrences[id].slot
      ensures s.db.intents[i].occurrence == id && s.db.occurrences[id].status == Succeeded
    {
      assert IntentOk(s.db, s.db.intents[i]);
    }
  }

  /** A job is COMPLETED only when its occurrence has succeeded or was skipped, and the job of a succeeded one always is. */
  lemma CompletedJobIsSettled(hasTrigger: bool, s: Sys, id: Id)
    requires Reachable(hasTrigger, s) && id in s.db.jobs
    ensures id in s.db.occurrences
    ensures var j, o := s.db.jobs[id].status, s.db.occurrences[id].status;
            && (j == Completed <==> o == Succeeded || o == Skipped)
            && (o == Broken ==> j == Failed) && (j == Failed ==> o == Broken || o == Materialized)
  {
    hide Reachable, LogOk, SuccessesOk, SessionsOk, SchedulesOk, RunsOk, IntentsOk;
    ReachableIsInvariant(hasTrigger, s);
    assert OccurrenceOk(s.db, id);
  }

  /** A settled occurrence never changes again. */
  lemma SettledOccurrenceStays(hasTrigger: bool, s: Sys, e: Event, id: Id)
    requires Reachable(hasTrigger, s) && Enabled(hasTrigger, s, e) && id in s.db.occurrences && s.db.occurrences[id].status != Materialized
    ensures id in Next(s, e).db.occurrences && Next(s, e).db.occurrences[id] == s.db.occurrences[id]
  {
    hide Reachable, Next, Enabled, LogOk, SuccessesOk, SessionsOk, SchedulesOk, RunsOk, IntentsOk, OccurrencesOk;
    ReachableIsInvariant(hasTrigger, s);
    EnabledActs(hasTrigger, s, e);
    OccurrenceKeepsSlot(s, e, id);
  }

  /** The branch for a succeeded occurrence whose intent is missing is never taken. */
  lemma IntentIsNeverMissing(hasTrigger: bool, s: Sys, c: Claim)
    requires Reachable(hasTrigger, s) && c.job in s.db.occurrences && s.db.occurrences[c.job].status == Succeeded
    ensures PlanOf(s.db, c) == Lost || PlanOf(s.db, c) == SettleAs(Completed, None)
  {
    hide Reachable, LogOk, SessionsOk, SchedulesOk, RunsOk, IntentsOk, OccurrencesOk, HasIntent;
    ReachableIsInvariant(hasTrigger, s);
    assert SuccessOk(hasTrigger, s.db, c.job);
  }

  /** A worker that has lost its claim settles nothing: neither notification, nor occurrence, nor automation, nor job. */
  lemma LostClaimChangesNothing(s: Sys, x: Exec, endpoints: seq<Endpoint>, delay: nat)
    requires !OwnsClaim(s.db, x.c)
    ensures Next(s, Finish(x, endpoints)).db == s.db && Next(s, RecordFailure(x, delay)).db == s.db && Next(s, Begin(x)).db == s.db
  {
    hide OwnsClaim, OneShotDone;
  }

  /** The retry of a trigger finds the Run of its slot. */
  lemma RetryReusesRun(db: Db, slot: Slot)
    ensures slot in AfterTrigger(db, slot).runs && AfterTrigger(AfterTrigger(db, slot), slot) == AfterTrigger(db, slot)
  {
    assert slot !in db.runs ==> (db.runs + [slot])[|db.runs|] == slot;
  }

  /** What materializing a due automation does, case by case: a finished task cancels it, a taken slot changes nothing, and otherwise
      it gets the one new occurrence of its slot, skipped exactly under the skip policy past the horizon, and a job exactly otherwise. */
  lemma MaterializedExactly(db: Db, id: Id, at: int)
    requires id in db.automations && db.automations[id].next.Some?
    ensures var a, n := db.automations[id], AfterMaterialize(db, id, at);
            var slot := SlotOf(db, id);
            var late := a.misfire == SkipMisfire && at - a.next.value > MISFIRE_HORIZON;
            && (n.nextId == db.nextId + 1 <==> !TaskOver(db, a) && !SlotTaken(db, slot))
            && (n.nextId == db.nextId + 1 ==>
                  && n.occurrences == db.occurrences[db.nextId := OccurrenceRow(slot, if late then Skipped else Materialized, !late)]
                  && n.jobs == (if late then db.jobs else db.jobs[db.nextId := NewJob(at)]) && n.automations[id].last == Some(at))
            && (n.nextId != db.nextId + 1 ==> n.occurrences == db.occurrences && n.jobs == db.jobs)
            && (n.automations[id].status == Stopped && a.status != Stopped <==> TaskOver(db, a) && (a.status == Active || a.status == OnHold))
            && n.runs == db.runs && n.intents == db.intents
  {
    hide SlotTaken;
  }

  /** A new occurrence appears exactly when its automation is materialized while it is active, its trigger is due, its task is not finished
      and its slot is free. */
  lemma FiresOnlyWhenDue(s: Sys, e: Event)
    ensures Next(s, e).log != s.log <==>
              && e.MaterializeDue? && e.id in s.db.automations && s.db.automations[e.id].status == Active
              && s.db.automations[e.id].next.Some? && s.db.automations[e.id].next.value <= e.at
              && !(s.db.automations[e.id].task.Some? && s.db.automations[e.id].task.value in s.db.finishedTasks)
              && !SlotTaken(s.db, SlotOf(s.db, e.id))
    ensures Next(s, e).log != s.log ==> Next(s, e).log == s.log + [SlotOf(s.db, e.id)]
  {
    hide SlotTaken, HasIntent, Exhausted, HasExhausted, AddDeliveries, OneShotDone, Changed;
  }

  /** An execution fires exactly when the worker still owns the claim of a materialized occurrence whose automation is at the same
      revision and not cancelled. */
  lemma FiresExactly(db: Db, c: Claim)
    ensures PlanOf(db, c).Fire? <==>
              && c.job in db.jobs && db.jobs[c.job].status == Claimed && db.jobs[c.job].claimedBy == Some(c.owner)
              && db.jobs[c.job].epoch == c.epoch && db.jobs[c.job].leaseUntil.Some? && db.jobs[c.job].leaseUntil.value >= db.now
              && c.job in db.occurrences && db.occurrences[c.job].status == Materialized
              && db.occurrences[c.job].slot.automation in db.automations
              && db.automations[db.occurrences[c.job].slot.automation].revision == db.occurrences[c.job].slot.revision
              && db.automations[db.occurrences[c.job].slot.automation].status != Stopped
  {
    hide HasIntent;
  }

  /** After reconciliation no occurrence waits for a failed job, and only such occurrences have changed. */
  lemma ReconcileClears(db: Db, id: Id)
    requires id in db.occurrences
    ensures var o, p := db.occurrences[id], AfterReconcile(db).occurrences[id];
            var stuck := o.status == Materialized && o.hasJob && id in db.jobs && db.jobs[id].status == Failed;
            p == (if stuck then o.(status := Broken) else o)
    ensures !Exhausted(AfterReconcile(db), id)
  {
  }

  // ----- schedules

  lemma {:induction false} SpacedApart(times: seq<int>, interval: int, i: nat, j: nat)
    requires Spaced(times, interval) && i <= j < |times|
    ensures times[j] - times[i] >= (j - i) * interval
    decreases j - i
  {
    if i < j {
      var k := j - 1;
      SpacedApart(times, interval, i, k);
      assert times[j] - times[k] >= interval;
      assert (j - i) * interval == (k - i) * interval + interval;
    }
  }

  /** Occurrences of a recurring automation lie at least its interval apart, whatever was paused, resumed, late or skipped, so a span
      holds at most span / interval + 1 of them. */
  lemma RecurringIsSpaced(hasTrigger: bool, s: Sys, id: Id, i: nat, j: nat)
    requires Reachable(hasTrigger, s) && id in s.db.automations && s.db.automations[id].kind == Recurring
    requires i <= j < |Fires(s.log, id)|
    ensures var times, interval := Fires(s.log, id), s.db.automations[id].interval;
            && interval >= 60 && times[j] - times[i] >= (j - i) * interval
            && j - i + 1 <= (times[j] - times[i]) / interval + 1
  {
    hide Reachable, LogOk, SessionsOk, RunsOk, IntentsOk, OccurrencesOk, SuccessesOk;
    ReachableIsInvariant(hasTrigger, s);
    assert ScheduleOk(s.log, id, s.db.automations[id]);
    var times, interval := Fires(s.log, id), s.db.automations[id].interval;
    SpacedApart(times, interval, i, j);
    AtMostQuotient(j - i, interval, times[j] - times[i]);
  }

  lemma AtMostQuotient(n: nat, interval: int, span: int)
    requires interval > 0 && span >= n * interval
    ensures n <= span / interval
  {
    var q := span / interval;
    assert span < (q + 1) * interval;
    if n > q {
      MulKeepsOrder(q + 1, n, interval);
    }
  }

  lemma MulKeepsOrder(a: int, b: int, c: int)
    requires a <= b && c >= 0
    ensures a * c <= b * c
  {
  }

  /** A one-shot automation has at most one occurrence ever, and no trigger is left once it has one. */
  lemma OneShotFiresOnce(hasTrigger: bool, s: Sys, id: Id)
    requires Reachable(hasTrigger, s) && id in s.db.automations && s.db.automations[id].kind.FiresOnce()
    ensures |Fires(s.log, id)| <= 1 && (Fires(s.log, id) != [] ==> s.db.automations[id].next == None)
  {
    hide Reachable, LogOk, SessionsOk, RunsOk, IntentsOk, OccurrencesOk, SuccessesOk;
    ReachableIsInvariant(hasTrigger, s);
    assert ScheduleOk(s.log, id, s.db.automations[id]);
  }

  /** The log is the table of occurrences: the n-th entry is the slot of the n-th occurrence. */
  lemma LogListsOccurrences(hasTrigger: bool, s: Sys)
    requires Reachable(hasTrigger, s)
    ensures forall id :: id in s.db.occurrences <==> 0 <= id < |s.log|
    ensures forall id | 0 <= id < |s.log| :: id in s.db.occurrences && s.db.occurrences[id].slot == s.log[id]
  {
    hide Reachable, SchedulesOk, SessionsOk, RunsOk, IntentsOk, OccurrencesOk, SuccessesOk;
    ReachableIsInvariant(hasTrigger, s);
  }

  lemma OperationsStay(s: Sys, e: Event, key: Key)
    requires key in s.db.operations
    ensures key in Next(s, e).db.operations && Next(s, e).db.operations[key] == s.db.operations[key]
  {
    hide HasIntent, SlotTaken, AddDeliveries, OneShotDone, Changed, Creatable, Exhausted, HasExhausted, ClaimEach, AfterRequeue, FailExhausted;
  }

  lemma {:induction false} OperationsLast(s: Sys, es: seq<Event>, key: Key)
    requires key in s.db.operations
    ensures key in Run(s, es).db.operations && Run(s, es).db.operations[key] == s.db.operations[key]
  {
    hide Next;
    if es != [] {
      OperationsLast(s, es[..|es| - 1], key);
      OperationsStay(Run(s, es[..|es| - 1]), es[|es| - 1], key);
    }
  }

  /** A status change that went through acts once: whatever happens since, its key changes nothing again and answers for the automation
      that it changed. */
  lemma StatusKeyActsOnce(db: Db, id: Id, version: nat, action: StatusAction, key: Key, s: Sys, since: seq<Event>, other: Id, at: nat, again: StatusAction)
    requires AfterChangeStatus(db, id, version, action, key).0.Ok? && s.db == AfterChangeStatus(db, id, version, action, key).1
    ensures var now := Run(s, since).db;
            var (r, after) := AfterChangeStatus(now, other, at, again, key);
            after == now && (r.Ok? ==> r.value.replayed && r.value.automation == AfterChangeStatus(db, id, version, action, key).0.value.automation)
  {
    hide Run, Changed;
    OperationsLast(s, since, key);
  }

  /** Processing the due automations in one transaction is materializing them one after another. */
  lemma {:induction false} ProcessDueIsSteps(s: Sys, ids: seq<Id>, at: int)
    ensures ProcessEach(s.db, ids, at) == Run(s, DueEvents(ids, at)).db
  {
    if ids != [] {
      ProcessDueIsSteps(s, ids[..|ids| - 1], at);
      var es := DueEvents(ids, at);
      assert es[..|es| - 1] == DueEvents(ids[..|ids| - 1], at);
    }
  }

  function DueEvents(ids: seq<Id>, at: int): (es: seq<Event>)
    ensures |es| == |ids| && forall i | 0 <= i < |ids| :: es[i] == MaterializeDue(ids[i], at)
  {
    seq(|ids|, i requires 0 <= i < |ids| => MaterializeDue(ids[i], at))
  }

  /** The retry delay stays within its bounds and never falls from one attempt to the next. */
  lemma {:induction false} BackoffGrows(attempts: nat, base: nat, max: nat)
    requires attempts > 0 && 0 < base <= max
    ensures base <= Backoff(attempts, base, max) <= Backoff(attempts + 1, base, max) <= max
  {
    PowerPositive(attempts - 1);
    var p := Power2(attempts - 1);
    assert Power2(attempts) == 2 * p;
    MulKeepsOrder(1, p, base);
    MulKeepsOrder(p, 2 * p, base);
  }

  lemma {:induction false} PowerPositive(n: nat)
    ensures Power2(n) >= 1
  {
    if n > 0 {
      PowerPositive(n - 1);
    }
  }
}
