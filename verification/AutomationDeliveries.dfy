/** The deliveries of reminders (application/automations/notification_pipeline.py): an occurrence that succeeds notifies every eligible
    endpoint, each once. */
module AutomationDeliveries {
  import opened DurableJobs
  import opened Automations
  import opened AutomationSafety
  import AutomationTheorems

  ghost predicate Distinct(deliveries: seq<(Slot, Endpoint)>) {
    forall i, j | 0 <= i < j < |deliveries| :: deliveries[i] != deliveries[j]
  }

  lemma {:induction false} DeliveriesAdded(before: seq<(Slot, Endpoint)>, slot: Slot, endpoints: seq<Endpoint>)
    ensures var after := AddDeliveries(before, slot, endpoints);
            && before <= after && (Distinct(before) ==> Distinct(after))
            && forall x :: x in after <==> x in before || (x.0 == slot && x.1 in endpoints)
  {
    if endpoints != [] {
      var front, e := endpoints[..|endpoints| - 1], endpoints[|endpoints| - 1];
      DeliveriesAdded(before, slot, front);
      assert endpoints == front + [e];
    }
  }

  /** A new intent comes with one delivery for each endpoint and keeps all earlier ones; an intent that exists already adds nothing. */
  lemma NotifyDelivers(db: Db, slot: Slot, occurrence: Id, endpoints: seq<Endpoint>)
    ensures var after := AfterNotify(db, slot, occurrence, endpoints);
            if exists i :: 0 <= i < |db.intents| && db.intents[i].slot == slot then after == db
            else
              && after.intents == db.intents + [Intent(slot, occurrence)] && db.deliveries <= after.deliveries
              && (forall x :: x in after.deliveries <==> x in db.deliveries || (x.0 == slot && x.1 in endpoints))
              && (Distinct(db.deliveries) ==> Distinct(after.deliveries))
              && after == db.(intents := after.intents, deliveries := after.deliveries)
  {
    hide AddDeliveries;
    DeliveriesAdded(db.deliveries, slot, endpoints);
  }

  // ----- histories

  /** No delivery is repeated, and none exists without the intent of its slot. */
  ghost predicate DeliveriesOk(db: Db) {
    Distinct(db.deliveries) && forall x | x in db.deliveries :: HasIntent(db.intents, x.0)
  }

  /** Deliveries are only added, by the unit of work that makes the intent of their slot. */
  ghost predicate DeliveriesMove(s: Sys, e: Event, n: Db) {
    || (n.deliveries == s.db.deliveries && n.intents == s.db.intents)
    || (e.Finish? && e.x.Reading? && !HasIntent(s.db.intents, e.x.o.slot)
        && n.intents == s.db.intents + [Intent(e.x.o.slot, e.x.c.job)] && n.deliveries == AddDeliveries(s.db.deliveries, e.x.o.slot, e.endpoints))
  }

  lemma DeliveriesOnlyAdded(s: Sys, e: Event)
    ensures DeliveriesMove(s, e, Next(s, e).db)
  {
    hide Next, DeliveriesMove;
    if e.Finish? {
      FinishDelivers(s, e);
    } else {
      OthersDeliverNothing(s, e);
    }
  }

  lemma FinishDelivers(s: Sys, e: Event)
    requires e.Finish?
    ensures DeliveriesMove(s, e, Next(s, e).db)
  {
    hide HasIntent, AddDeliveries, OneShotDone, AfterSettle, OwnsClaim;
  }

  lemma OthersDeliverNothing(s: Sys, e: Event)
    requires !e.Finish?
    ensures DeliveriesMove(s, e, Next(s, e).db)
  {
    hide HasIntent, SlotTaken, ClaimEach, AfterRequeue, AddDeliveries, OneShotDone, Changed, Creatable, Exhausted, HasExhausted, FailExhausted,
         AfterSettle, AfterRelease, OwnsClaim, AfterFire, TriggeredRow, CancelledRow;
  }

  lemma DeliveriesStep(s: Sys, e: Event)
    requires DeliveriesOk(s.db)
    ensures DeliveriesOk(Next(s, e).db)
  {
    hide Next, AddDeliveries, HasIntent, Distinct;
    var n := Next(s, e).db;
    DeliveriesOnlyAdded(s, e);
    if e.Finish? && e.x.Reading? {
      DeliveriesAdded(s.db.deliveries, e.x.o.slot, e.endpoints);
    }
    forall x | x in n.deliveries ensures HasIntent(n.intents, x.0) {
      if x in s.db.deliveries {
        IntentStays(s.db.intents, n.intents, x.0);
      } else {
        IntentMade(s.db.intents, Intent(x.0, e.x.c.job));
      }
    }
  }

  lemma IntentMade(intents: seq<Intent>, i: Intent)
    ensures HasIntent(intents + [i], i.slot)
  {
    assert (intents + [i])[|intents|] == i;
  }

  lemma {:induction false} DeliveriesAlways(now: int, es: seq<Event>)
    ensures DeliveriesOk(Run(Start(now), es).db)
  {
    hide Next, DeliveriesOk;
    if es == [] {
      assert DeliveriesOk(Start(now).db) by { NoDeliveries(now); }
    } else {
      DeliveriesAlways(now, es[..|es| - 1]);
      DeliveriesStep(Run(Start(now), es[..|es| - 1]), es[|es| - 1]);
    }
  }

  lemma NoDeliveries(now: int)
    ensures DeliveriesOk(Start(now).db)
  {
  }

  /** The endpoints that the slot was delivered to are exactly these. */
  ghost predicate DeliveredTo(db: Db, slot: Slot, endpoints: seq<Endpoint>) {
    forall x :: (slot, x) in db.deliveries <==> x in endpoints
  }

  lemma DeliveredStays(s: Sys, e: Event, slot: Slot, endpoints: seq<Endpoint>)
    requires DeliveredTo(s.db, slot, endpoints) && HasIntent(s.db.intents, slot)
    ensures DeliveredTo(Next(s, e).db, slot, endpoints)
  {
    hide Next, AddDeliveries, HasIntent;
    DeliveriesOnlyAdded(s, e);
    if e.Finish? && e.x.Reading? {
      DeliveriesAdded(s.db.deliveries, e.x.o.slot, e.endpoints);
    }
  }

  /** The execution that makes an occurrence succeed delivers its slot to its endpoints. */
  lemma SuccessDelivers(hasTrigger: bool, s: Sys, e: Event, id: Id)
    requires AutomationTheorems.Invariant(hasTrigger, s) && DeliveriesOk(s.db) && Enabled(hasTrigger, s, e)
    requires id in s.db.occurrences && s.db.occurrences[id].status != Succeeded
    requires id in Next(s, e).db.occurrences && Next(s, e).db.occurrences[id].status == Succeeded
    ensures e.Finish? && e.x.Reading? && e.x.c.job == id && DeliveredTo(Next(s, e).db, Next(s, e).db.occurrences[id].slot, e.endpoints)
  {
    hide Next, Enabled, OccurrencesOk, SessionsOk, SchedulesOk, RunsOk, OccurrenceOk, AddDeliveries, Distinct, SuccessesOk, HasIntent;
    AutomationTheorems.EnabledActs(hasTrigger, s, e);
    OccurrenceMoves(s, e, id) by { assert OccurrencesOk(s.db); }
    var slot := s.db.occurrences[id].slot;
    if HasIntent(s.db.intents, slot) {
      IntentOfOther(s, id, slot);
    }
    DeliveriesOnlyAdded(s, e);
    DeliveriesAdded(s.db.deliveries, slot, e.endpoints);
  }

  /** Only a succeeded occurrence has an intent. */
  lemma IntentOfOther(s: Sys, id: Id, slot: Slot)
    requires LogOk(s) && IntentsOk(s.db) && id in s.db.occurrences && s.db.occurrences[id].slot == slot && HasIntent(s.db.intents, slot)
    ensures s.db.occurrences[id].status == Succeeded
  {
    var i :| 0 <= i < |s.db.intents| && s.db.intents[i].slot == slot;
    assert IntentOk(s.db, s.db.intents[i]);
    var other := s.db.intents[i].occurrence;
    assert s.log[other] == slot && s.log[id] == slot;
  }

  lemma NewIsNotSucceeded(hasTrigger: bool, s: Sys, e: Event, id: Id)
    requires AutomationTheorems.Invariant(hasTrigger, s) && Enabled(hasTrigger, s, e)
    requires id in Next(s, e).db.occurrences && id !in s.db.occurrences
    ensures Next(s, e).db.occurrences[id].status != Succeeded
  {
    hide Next, Enabled, OccurrencesOk, SessionsOk, SchedulesOk, RunsOk, SuccessesOk, LogOk, IntentsOk;
    AutomationTheorems.EnabledActs(hasTrigger, s, e);
    NewOccurrence(s, e, id);
  }

  /** Position k of the history is the execution that settled the occurrence as succeeded. */
  ghost predicate SettledAt(now: int, es: seq<Event>, id: Id, k: nat) {
    && k < |es| && es[k].Finish? && es[k].x.Reading? && es[k].x.c.job == id
    && !(id in Run(Start(now), es[..k]).db.occurrences && Run(Start(now), es[..k]).db.occurrences[id].status == Succeeded)
    && id in Run(Start(now), es[..k + 1]).db.occurrences && Run(Start(now), es[..k + 1]).db.occurrences[id].status == Succeeded
  }

  /** In every history, whatever crashed or was retried, a succeeded occurrence has exactly one delivery for each endpoint of the execution
      that settled it, and no others. */
  lemma {:induction false} SucceededIsDelivered(hasTrigger: bool, now: int, es: seq<Event>, id: Id) returns (k: nat)
    requires Possible(hasTrigger, Start(now), es)
    requires var s := Run(Start(now), es); id in s.db.occurrences && s.db.occurrences[id].status == Succeeded
    ensures SettledAt(now, es, id, k)
    ensures var db := Run(Start(now), es).db;
            && (forall x :: (db.occurrences[id].slot, x) in db.deliveries <==> x in es[k].endpoints)
            && (forall i, j | 0 <= i < j < |db.deliveries| :: db.deliveries[i] != db.deliveries[j])
  {
    hide Next, Enabled, AutomationTheorems.Invariant;
    var front, e := es[..|es| - 1], es[|es| - 1];
    var s := Run(Start(now), front);
    AutomationTheorems.InvariantAlways(hasTrigger, now, front);
    DeliveriesAlways(now, front);
    DeliveriesAlways(now, es);
    if id in s.db.occurrences && s.db.occurrences[id].status == Succeeded {
      k := SucceededIsDelivered(hasTrigger, now, front, id);
      SettledEarlier(now, es, id, k);
      SettledKeepsSlot(hasTrigger, s, e, id);
      DeliveredStays(s, e, s.db.occurrences[id].slot, es[k].endpoints);
    } else {
      k := |es| - 1;
      if id !in s.db.occurrences {
        NewIsNotSucceeded(hasTrigger, s, e, id);
      }
      SuccessDelivers(hasTrigger, s, e, id);
      assert es[..k + 1] == es;
    }
  }

  lemma SettledEarlier(now: int, es: seq<Event>, id: Id, k: nat)
    requires es != [] && SettledAt(now, es[..|es| - 1], id, k)
    ensures SettledAt(now, es, id, k)
  {
    hide Run;
    var front := es[..|es| - 1];
    assert front[..k] == es[..k] && front[..k + 1] == es[..k + 1];
  }

  lemma SettledKeepsSlot(hasTrigger: bool, s: Sys, e: Event, id: Id)
    requires AutomationTheorems.Invariant(hasTrigger, s) && Enabled(hasTrigger, s, e)
    requires id in s.db.occurrences && s.db.occurrences[id].status == Succeeded
    ensures id in Next(s, e).db.occurrences && Next(s, e).db.occurrences[id] == s.db.occurrences[id]
    ensures HasIntent(s.db.intents, s.db.occurrences[id].slot)
  {
    hide Next, Enabled, OccurrencesOk, SessionsOk, SchedulesOk, RunsOk, LogOk, IntentsOk, HasIntent;
    AutomationTheorems.EnabledActs(hasTrigger, s, e);
    OccurrenceKeepsSlot(s, e, id);
    assert SuccessOk(hasTrigger, s.db, id);
  }
}
