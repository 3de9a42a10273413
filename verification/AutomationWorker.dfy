/** One pass of the occurrence worker (workers/automation_occurrence.py), proved to take only the steps whose histories
    AutomationTheorems covers. */
module AutomationWorker {
  import opened DurableJobs
  import opened Automations
  import opened AutomationSafety
  import Service = AutomationService
  import AutomationTheorems

  datatype ExecutionResult = CompletedIt | RetryScheduled | FailedIt | LostIt | Threw

  ghost predicate Follows(hasTrigger: bool, s: Sys, es: seq<Event>, t: Sys) {
    Possible(hasTrigger, s, es) && t == Run(s, es)
  }

  lemma NoSteps(hasTrigger: bool, s: Sys)
    ensures Follows(hasTrigger, s, [], s)
  {
  }

  lemma OneMoreStep(hasTrigger: bool, s: Sys, es: seq<Event>, t: Sys, e: Event)
    requires Follows(hasTrigger, s, es, t) && Enabled(hasTrigger, t, e)
    ensures Follows(hasTrigger, s, es + [e], Next(t, e))
  {
    hide Next, Enabled;
    assert (es + [e])[..|es|] == es;
  }

  lemma ClaimStep(s: Sys, job: JobId, owner: Worker, leaseUntil: int)
    ensures var n := Next(s, ClaimJob(job, owner, leaseUntil));
            var made := ClaimsMade(AfterRequeue(s.db.jobs, s.db.now), [job], owner, s.db.now, leaseUntil);
            && Enabled(true, s, ClaimJob(job, owner, leaseUntil)) && Enabled(false, s, ClaimJob(job, owner, leaseUntil))
            && n.db == s.db.(jobs := AfterClaimJob(s.db, job, owner, leaseUntil))
            && (made == [] || (job in n.db.jobs && made == [(job, n.db.jobs[job].epoch)]
                               && Started(Claim(job, owner, n.db.jobs[job].epoch, n.db.jobs[job].attempts, n.db.jobs[job].maxAttempts)) in n.sessions
                               && n.db.jobs[job].attempts > 0))
  {
    var requeued := AfterRequeue(s.db.jobs, s.db.now);
    assert [job][..0] == [];
    assert ClaimEach(requeued, [], owner, s.db.now, leaseUntil) == requeued && ClaimsMade(requeued, [], owner, s.db.now, leaseUntil) == [];
  }

  lemma BeginStep(hasTrigger: bool, s: Sys, x: Exec)
    requires x in s.sessions && x.Started?
    ensures Enabled(hasTrigger, s, Begin(x))
    ensures var plan := PlanOf(s.db, x.c);
            var n := Next(s, Begin(x));
            && n.db == (if plan.SettleAs? then AfterSettleAs(s.db, x.c, plan) else s.db)
            && (plan.Fire? ==> Reading(x.c, plan.row, plan.automation, false) in n.sessions)
  {
    hide PlanOf, AfterSettleAs;
  }

  lemma TriggerStep(s: Sys, x: Exec)
    requires x in s.sessions && x.Reading?
    ensures Enabled(true, s, Trigger(x)) && Next(s, Trigger(x)).db == AfterTrigger(s.db, x.o.slot)
    ensures x.(triggered := true) in Next(s, Trigger(x)).sessions
  {
    hide AfterTrigger;
  }

  lemma FinishStep(hasTrigger: bool, s: Sys, x: Exec, endpoints: seq<Endpoint>)
    requires x in s.sessions && x.Reading? && (hasTrigger ==> x.triggered)
    ensures Enabled(hasTrigger, s, Finish(x, endpoints))
    ensures var (r, db) := AfterFire(s.db, x.c, x.o, x.a, endpoints);
            Next(s, Finish(x, endpoints)).db == db && (r == Conflict ==> x in Next(s, Finish(x, endpoints)).sessions)
  {
    hide AfterFire;
  }

  lemma FailureStep(hasTrigger: bool, s: Sys, x: Exec, delay: nat)
    requires x in s.sessions
    ensures Enabled(hasTrigger, s, RecordFailure(x, delay)) && Next(s, RecordFailure(x, delay)).db == AfterRecordFailure(s.db, x.c, delay)
  {
    hide AfterRecordFailure;
  }

  lemma ReconcileStep(hasTrigger: bool, s: Sys)
    ensures Enabled(hasTrigger, s, Reconcile) && Next(s, Reconcile).db == AfterReconcile(s.db) && Next(s, Reconcile).sessions == s.sessions
  {
    hide AfterReconcile;
  }

  // ----- what an undisturbed execution reaches

  /** Occurrence and job are settled together, with the intent of the slot and its Run where Runs are created. */
  ghost predicate SettledWell(db: Db, job: JobId, slot: Slot, hasTrigger: bool) {
    && job in db.occurrences && db.occurrences[job].status == Succeeded && job in db.jobs && db.jobs[job].status == Completed
    && HasIntent(db.intents, slot) && (hasTrigger ==> slot in db.runs)
  }

  /** The job is out of its claim. */
  ghost predicate Unclaimed(db: Db, job: JobId) { job in db.jobs && db.jobs[job].status != Claimed }

  lemma SettledIsUnclaimed(db: Db, c: Claim)
    requires PlanOf(db, c).SettleAs?
    ensures Unclaimed(AfterSettleAs(db, c, PlanOf(db, c)), c.job)
  {
    hide HasIntent;
  }

  lemma FiredIsSettled(db: Db, c: Claim, o: OccurrenceRow, a: AutomationRow, hasTrigger: bool, endpoints: seq<Endpoint>)
    requires PlanOf(db, c) == Fire(o, a)
    ensures var ready := if hasTrigger then AfterTrigger(db, o.slot) else db;
            var (r, after) := AfterFire(ready, c, o, a, endpoints);
            r == DoneWell && SettledWell(after, c.job, o.slot, hasTrigger) && Unclaimed(after, c.job)
  {
    hide HasIntent, AddDeliveries, OneShotDone;
    var ready := if hasTrigger then AfterTrigger(db, o.slot) else db;
    NotifyMakesIntent(ready, o.slot, c.job, endpoints);
    AutomationTheorems.RetryReusesRun(db, o.slot);
  }

  /** execute_claimed; triggerFails stands for an exception of the Run trigger, which its own transaction may or may not survive.
      Undisturbed, it does what its first reads call for, and a firing one settles everything unless the trigger throws. */
  method ExecuteClaimed(store: Service.AutomationStore, c: Claim, hasTrigger: bool, triggerFails: bool, runCommitted: bool,
                        endpoints: seq<Endpoint>, ghost s: Sys, ghost es: seq<Event>, ghost t: Sys)
    returns (r: ExecutionResult, ghost x: Exec, ghost more: seq<Event>, ghost u: Sys)
    requires Follows(hasTrigger, s, es, t) && t.db == store.Rows() && Started(c) in t.sessions
    modifies store, store.jobs
    ensures Follows(hasTrigger, s, more, u) && u.db == store.Rows()
    ensures r == Threw ==> x in u.sessions && x.c == c
    ensures match PlanOf(t.db, c)
            case Lost => r == LostIt && u.db == t.db
            case SettleAs(job, _) =>
              r == (if job == Completed then CompletedIt else FailedIt) && u.db == AfterSettleAs(t.db, c, PlanOf(t.db, c))
            case Fire(o, _) =>
              if hasTrigger && triggerFails then r == Threw && u.db == (if runCommitted then AfterTrigger(t.db, o.slot) else t.db)
              else r == CompletedIt && SettledWell(u.db, c.job, o.slot, hasTrigger) && Unclaimed(u.db, c.job)
  {
    hide Follows, Next, Enabled, PlanOf, AfterSettleAs, AfterFire, AfterTrigger, SettledWell, Unclaimed;
    x := Started(c);
    var plan := store.BeginExecution(c);
    BeginStep(hasTrigger, t, x);
    OneMoreStep(hasTrigger, s, es, t, Begin(x));
    more, u := es + [Begin(x)], Next(t, Begin(x));
    match plan {
      case Lost => return LostIt, x, more, u;
      case SettleAs(job, _) => return if job == Completed then CompletedIt else FailedIt, x, more, u;
      case Fire(o, a) =>
        FiredIsSettled(t.db, c, o, a, hasTrigger, endpoints);
        x := Reading(c, o, a, false);
        if hasTrigger {
          if triggerFails && !runCommitted {
            return Threw, x, more, u;
          }
          store.CreateAutomationRun(o.slot);
          TriggerStep(u, x);
          OneMoreStep(hasTrigger, s, more, u, Trigger(x));
          more, u := more + [Trigger(x)], Next(u, Trigger(x));
          x := x.(triggered := true);
          if triggerFails {
            return Threw, x, more, u;
          }
        }
        var fired := store.FinishExecution(c, o, a, endpoints);
        FinishStep(hasTrigger, u, x, endpoints);
        OneMoreStep(hasTrigger, s, more, u, Finish(x, endpoints));
        more, u := more + [Finish(x, endpoints)], Next(u, Finish(x, endpoints));
        r := match fired case DoneWell => CompletedIt case LostClaim => LostIt case Conflict => Threw;
    }
  }

  /** Reconciling in between leaves the claim alone. */
  lemma ReconcileKeepsClaim(db: Db, c: Claim)
    ensures OwnsClaim(AfterReconcile(db), c) == OwnsClaim(db, c) && AfterReconcile(db).jobs == db.jobs
  {
    hide HasExhausted, Exhausted, OneShotDone;
  }

  lemma ClaimIsOwned(s: Sys, job: JobId, owner: Worker, leaseUntil: int)
    requires leaseUntil >= s.db.now
    ensures var n := Next(s, ClaimJob(job, owner, leaseUntil)).db;
            var made := ClaimsMade(AfterRequeue(s.db.jobs, s.db.now), [job], owner, s.db.now, leaseUntil);
            made != [] ==> job in n.jobs && OwnsClaim(n, Claim(job, owner, n.jobs[job].epoch, n.jobs[job].attempts, n.jobs[job].maxAttempts))
  {
    var requeued := AfterRequeue(s.db.jobs, s.db.now);
    assert [job][..0] == [];
    assert ClaimEach(requeued, [], owner, s.db.now, leaseUntil) == requeued && ClaimsMade(requeued, [], owner, s.db.now, leaseUntil) == [];
  }

  lemma FailureUnclaims(db: Db, c: Claim, delay: nat)
    requires OwnsClaim(db, c)
    ensures Unclaimed(AfterRecordFailure(db, c, delay), c.job)
  {
    hide OneShotDone;
  }

  lemma TriggerKeepsClaim(db: Db, slot: Slot, c: Claim)
    ensures OwnsClaim(AfterTrigger(db, slot), c) == OwnsClaim(db, c)
  {
  }

  lemma LostIsNotOwned(db: Db, c: Claim)
    ensures PlanOf(db, c) == Lost <==> !OwnsClaim(db, c)
  {
    hide HasIntent;
  }

  /** One pass: claim a job, reconcile the exhausted ones, execute, and record a failure if the execution threw. An undisturbed pass never
      leaves the job that it got claimed. */
  method RunOnce(store: Service.AutomationStore, candidate: JobId, owner: Worker, leaseSeconds: int, hasTrigger: bool, triggerFails: bool,
                 runCommitted: bool, endpoints: seq<Endpoint>, retryBase: nat, retryMax: nat, ghost s: Sys)
    returns (worked: bool, ghost es: seq<Event>, ghost t: Sys)
    requires s.db == store.Rows() && leaseSeconds > 0
    modifies store, store.jobs
    ensures Follows(hasTrigger, s, es, t) && t.db == store.Rows()
    ensures worked == (ClaimsMade(AfterRequeue(s.db.jobs, s.db.now), [candidate], owner, s.db.now, s.db.now + leaseSeconds) != [])
    ensures worked ==> Unclaimed(t.db, candidate)
  {
    hide Follows, Next, Enabled, AfterReconcile, AfterRecordFailure, ClaimEach, AfterRequeue, ClaimsMade, PlanOf, AfterSettleAs, AfterTrigger,
         SettledWell, Unclaimed, OwnsClaim;
    NoSteps(hasTrigger, s);
    var leaseUntil := store.now + leaseSeconds;
    var claims := store.jobs.ClaimReadyJobs([candidate], owner, store.now, leaseUntil);
    ClaimStep(s, candidate, owner, leaseUntil);
    ClaimIsOwned(s, candidate, owner, leaseUntil);
    OneMoreStep(hasTrigger, s, [], s, ClaimJob(candidate, owner, leaseUntil));
    es, t := [] + [ClaimJob(candidate, owner, leaseUntil)], Next(s, ClaimJob(candidate, owner, leaseUntil));
    worked := claims != [];
    var c := Claim(candidate, owner, 0, 0, 0);
    if worked {
      var j := store.jobs.jobs[candidate];
      c := Claim(candidate, owner, claims[0].1, j.attempts, j.maxAttempts);
    }
    ReconcileKeepsClaim(t.db, c);
    store.ReconcileExhausted();
    ReconcileStep(hasTrigger, t);
    OneMoreStep(hasTrigger, s, es, t, Reconcile);
    es, t := es + [Reconcile], Next(t, Reconcile);
    if worked {
      LostIsNotOwned(t.db, c);
      if PlanOf(t.db, c).SettleAs? {
        SettledIsUnclaimed(t.db, c);
      } else if PlanOf(t.db, c).Fire? {
        TriggerKeepsClaim(t.db, PlanOf(t.db, c).row.slot, c);
      }
      var r, x, more, u := ExecuteClaimed(store, c, hasTrigger, triggerFails, runCommitted, endpoints, s, es, t);
      es, t := more, u;
      if r == Threw {
        var delay := Backoff(c.attempts, retryBase, retryMax);
        FailureUnclaims(t.db, c, delay);
        store.RecordFailure(c, retryBase, retryMax);
        FailureStep(hasTrigger, t, x, delay);
        OneMoreStep(hasTrigger, s, es, t, RecordFailure(x, delay));
        es, t := es + [RecordFailure(x, delay)], Next(t, RecordFailure(x, delay));
      }
    }
  }

  /** What AutomationTheorems proves of reachable states holds after a pass that began in one. */
  lemma {:induction false} PassStaysReachable(hasTrigger: bool, s: Sys, es: seq<Event>, t: Sys)
    requires AutomationTheorems.Reachable(hasTrigger, s) && Follows(hasTrigger, s, es, t)
    ensures AutomationTheorems.Reachable(hasTrigger, t)
  {
    hide Next, Enabled, AutomationTheorems.Reachable;
    if es != [] {
      var front := es[..|es| - 1];
      PassStaysReachable(hasTrigger, s, front, Run(s, front));
      StepStaysReachable(hasTrigger, Run(s, front), es[|es| - 1]);
    }
  }

  lemma StepStaysReachable(hasTrigger: bool, s: Sys, e: Event)
    requires AutomationTheorems.Reachable(hasTrigger, s) && Enabled(hasTrigger, s, e)
    ensures AutomationTheorems.Reachable(hasTrigger, Next(s, e))
  {
    hide Next, Enabled;
    var now, es :| Possible(hasTrigger, Start(now), es) && s == Run(Start(now), es);
    var longer := es + [e];
    assert longer[..|es|] == es;
    assert Possible(hasTrigger, Start(now), longer) && Next(s, e) == Run(Start(now), longer);
  }
}
