/** Durable job rows: the compare-and-set operations of their repository (infrastructure/persistence/repositories/runtime.py) and
    claiming ready jobs (application/runtime/durable_job_claim.py). */
module DurableJobs {
  import opened Wrappers

  type JobId = nat
  type Worker = nat

  datatype JobStatus = Ready | Claimed | Paused | Completed | Failed | Cancelled

  datatype JobRow = JobRow(status: JobStatus, availableAt: int, attempts: nat, maxAttempts: nat, claimedBy: Option<Worker>,
                           epoch: nat, leaseUntil: Option<int>, exhausted: bool)

  type Jobs = map<JobId, JobRow>

  function NewJob(now: int): JobRow { JobRow(Ready, now, 0, 5, None, 0, None, false) }

  /** The row is held by this owner under this epoch. */
  predicate HeldBy(j: JobRow, owner: Worker, epoch: nat) {
    j.status == Claimed && j.claimedBy == Some(owner) && j.epoch == epoch
  }

  predicate LeaseRuns(j: JobRow, now: int) { j.leaseUntil.Some? && j.leaseUntil.value >= now }

  function Released(j: JobRow, status: JobStatus): JobRow { j.(status := status, claimedBy := None, leaseUntil := None) }

  function Claim(j: JobRow, owner: Worker, leaseUntil: int): JobRow {
    j.(status := Claimed, claimedBy := Some(owner), epoch := j.epoch + 1, attempts := j.attempts + 1, leaseUntil := Some(leaseUntil))
  }

  predicate CanSettle(jobs: Jobs, id: JobId, owner: Worker, epoch: nat, now: int) {
    id in jobs && HeldBy(jobs[id], owner, epoch) && LeaseRuns(jobs[id], now)
  }

  function AfterSettle(jobs: Jobs, id: JobId, owner: Worker, epoch: nat, status: JobStatus, now: int): Jobs {
    if CanSettle(jobs, id, owner, epoch, now) then jobs[id := Released(jobs[id], status)] else jobs
  }

  function AfterRelease(jobs: Jobs, id: JobId, owner: Worker, epoch: nat, availableAt: int, now: int): Jobs {
    if CanSettle(jobs, id, owner, epoch, now) then jobs[id := Released(jobs[id], Ready).(availableAt := availableAt)] else jobs
  }

  /** Renewal does not look at the lease: a late owner keeps the job as long as nobody has requeued it. */
  function AfterRenew(jobs: Jobs, id: JobId, owner: Worker, epoch: nat, leaseUntil: int): Jobs {
    if id in jobs && HeldBy(jobs[id], owner, epoch) then jobs[id := jobs[id].(leaseUntil := Some(leaseUntil))] else jobs
  }

  function Requeued(j: JobRow, now: int): JobRow {
    if j.status == Claimed && j.leaseUntil.Some? && j.leaseUntil.value < now then
      if j.attempts < j.maxAttempts then Released(j, Ready).(availableAt := now) else Released(j, Failed).(exhausted := true)
    else j
  }

  function AfterRequeue(jobs: Jobs, now: int): Jobs { map id | id in jobs :: Requeued(jobs[id], now) }

  predicate CanResume(jobs: Jobs, id: JobId) { id in jobs && (jobs[id].status == Paused || jobs[id].status == Ready) }

  function AfterResume(jobs: Jobs, id: JobId, now: int): Jobs {
    if CanResume(jobs, id) then jobs[id := jobs[id].(status := Ready, availableAt := now)] else jobs
  }

  predicate CanCancel(jobs: Jobs, id: JobId) {
    id in jobs && (jobs[id].status == Ready || jobs[id].status == Claimed || jobs[id].status == Paused)
  }

  function AfterCancel(jobs: Jobs, id: JobId): Jobs {
    if CanCancel(jobs, id) then jobs[id := Released(jobs[id], Cancelled)] else jobs
  }

  /** The rows of a claim query that are still ready and due are claimed; the query may return any of them in any order. */
  function ClaimEach(jobs: Jobs, ids: seq<JobId>, owner: Worker, now: int, leaseUntil: int): Jobs {
    if ids == [] then jobs
    else
      var before, id := ClaimEach(jobs, ids[..|ids| - 1], owner, now, leaseUntil), ids[|ids| - 1];
      if id in before && before[id].status == Ready && before[id].availableAt <= now then before[id := Claim(before[id], owner, leaseUntil)] else before
  }

  /** The jobs that the query claims, each with its new epoch. */
  function ClaimsMade(jobs: Jobs, ids: seq<JobId>, owner: Worker, now: int, leaseUntil: int): seq<(JobId, nat)> {
    if ids == [] then []
    else
      var front, id := ids[..|ids| - 1], ids[|ids| - 1];
      var before, made := ClaimEach(jobs, front, owner, now, leaseUntil), ClaimsMade(jobs, front, owner, now, leaseUntil);
      if id in before && before[id].status == Ready && before[id].availableAt <= now then made + [(id, before[id].epoch + 1)] else made
  }

  class JobRepository {
    var jobs: Jobs

    constructor (jobs: Jobs)
      ensures this.jobs == jobs
    {
      this.jobs := jobs;
    }

    method Settle(id: JobId, owner: Worker, epoch: nat, status: JobStatus, now: int) returns (settled: bool)
      modifies this
      ensures settled == CanSettle(old(jobs), id, owner, epoch, now) && jobs == AfterSettle(old(jobs), id, owner, epoch, status, now)
    {
      settled := id in jobs && jobs[id].status == Claimed && jobs[id].claimedBy == Some(owner) && jobs[id].epoch == epoch
                 && jobs[id].leaseUntil.Some? && jobs[id].leaseUntil.value >= now;
      if settled {
        jobs := jobs[id := jobs[id].(status := status, claimedBy := None, leaseUntil := None)];
      }
    }

    method ReleaseForRetry(id: JobId, owner: Worker, epoch: nat, availableAt: int, now: int) returns (released: bool)
      modifies this
      ensures released == CanSettle(old(jobs), id, owner, epoch, now) && jobs == AfterRelease(old(jobs), id, owner, epoch, availableAt, now)
    {
      released := id in jobs && jobs[id].status == Claimed && jobs[id].claimedBy == Some(owner) && jobs[id].epoch == epoch
                  && jobs[id].leaseUntil.Some? && jobs[id].leaseUntil.value >= now;
      if released {
        jobs := jobs[id := jobs[id].(status := Ready, claimedBy := None, leaseUntil := None, availableAt := availableAt)];
      }
    }

    method Renew(id: JobId, owner: Worker, epoch: nat, leaseUntil: int) returns (renewed: bool)
      modifies this
      ensures renewed == (id in old(jobs) && HeldBy(old(jobs)[id], owner, epoch)) && jobs == AfterRenew(old(jobs), id, owner, epoch, leaseUntil)
    {
      renewed := id in jobs && jobs[id].status == Claimed && jobs[id].claimedBy == Some(owner) && jobs[id].epoch == epoch;
      if renewed {
        jobs := jobs[id := jobs[id].(leaseUntil := Some(leaseUntil))];
      }
    }

    method Resume(id: JobId, now: int) returns (resumed: bool)
      modifies this
      ensures resumed == CanResume(old(jobs), id) && jobs == AfterResume(old(jobs), id, now)
    {
      resumed := id in jobs && (jobs[id].status == Paused || jobs[id].status == Ready);
      if resumed {
        jobs := jobs[id := jobs[id].(status := Ready, availableAt := now)];
      }
    }

    method Cancel(id: JobId) returns (cancelled: bool)
      modifies this
      ensures cancelled == CanCancel(old(jobs), id) && jobs == AfterCancel(old(jobs), id)
    {
      cancelled := id in jobs && jobs[id].status in {Ready, Claimed, Paused};
      if cancelled {
        jobs := jobs[id := jobs[id].(status := Cancelled, claimedBy := None, leaseUntil := None)];
      }
    }

    /** Requeues the expired claims, then claims the rows that the query returns. */
    method ClaimReadyJobs(ids: seq<JobId>, owner: Worker, now: int, leaseUntil: int) returns (claims: seq<(JobId, nat)>)
      modifies this
      ensures jobs == ClaimEach(AfterRequeue(old(jobs), now), ids, owner, now, leaseUntil)
      ensures claims == ClaimsMade(AfterRequeue(old(jobs), now), ids, owner, now, leaseUntil)
    {
      jobs := AfterRequeue(jobs, now);
      ghost var requeued := jobs;
      claims := [];
      for i := 0 to |ids|
        invariant jobs == ClaimEach(requeued, ids[..i], owner, now, leaseUntil)
        invariant claims == ClaimsMade(requeued, ids[..i], owner, now, leaseUntil)
      {
        var id := ids[i];
        assert ids[..i + 1][..i] == ids[..i];
        if id in jobs && jobs[id].status == Ready && jobs[id].availableAt <= now {
          var j := jobs[id].(status := Claimed, claimedBy := Some(owner), leaseUntil := Some(leaseUntil));
          jobs := jobs[id := j.(epoch := j.epoch + 1, attempts := j.attempts + 1)];
          claims := claims + [(id, jobs[id].epoch)];
        }
      }
      assert ids[..|ids|] == ids;
    }
  }

  // ----- what the repository guarantees about one row

  /** A row is claimed exactly when it has an owner and a lease. */
  ghost predicate WellHeld(j: JobRow) {
    (j.status == Claimed <==> j.claimedBy.Some?) && (j.status == Claimed <==> j.leaseUntil.Some?)
  }

  ghost predicate AllWellHeld(jobs: Jobs) {
    forall id | id in jobs :: WellHeld(jobs[id])
  }

  /** A row that only claiming and requeueing have changed. */
  ghost predicate Rotated(before: JobRow, after: JobRow) {
    && after.epoch >= before.epoch && after.attempts >= before.attempts
    && (after == before
        || ((before.status == Claimed || before.status == Ready) && (after.status == Claimed || after.status == Ready || (after.status == Failed && after.exhausted))))
  }

  /** Claiming keeps rows held properly, and touches only rows that are ready or whose claim has expired. */
  lemma {:induction false} ClaimRotates(jobs: Jobs, ids: seq<JobId>, owner: Worker, now: int, leaseUntil: int)
    requires AllWellHeld(jobs)
    ensures var after := ClaimEach(AfterRequeue(jobs, now), ids, owner, now, leaseUntil);
            after.Keys == jobs.Keys && AllWellHeld(after) && forall id | id in jobs :: Rotated(jobs[id], after[id])
  {
    if ids != [] {
      ClaimRotates(jobs, ids[..|ids| - 1], owner, now, leaseUntil);
    }
  }

  /** What settling, releasing, renewing, resuming and cancelling do to the one row that they may move, and when they may. */
  lemma JobMovesExactly(jobs: Jobs, id: JobId, owner: Worker, epoch: nat, status: JobStatus, at: int, now: int)
    requires id in jobs
    ensures var j := jobs[id];
            var held := j.status == Claimed && j.claimedBy == Some(owner) && j.epoch == epoch;
            var running := held && j.leaseUntil.Some? && now <= j.leaseUntil.value;
            && AfterSettle(jobs, id, owner, epoch, status, now)
               == (if running then jobs[id := j.(status := status, claimedBy := None, leaseUntil := None)] else jobs)
            && AfterRelease(jobs, id, owner, epoch, at, now)
               == (if running then jobs[id := j.(status := Ready, claimedBy := None, leaseUntil := None, availableAt := at)] else jobs)
            && AfterRenew(jobs, id, owner, epoch, at) == (if held then jobs[id := j.(leaseUntil := Some(at))] else jobs)
            && AfterResume(jobs, id, now)
               == (if j.status == Paused || j.status == Ready then jobs[id := j.(status := Ready, availableAt := now)] else jobs)
            && AfterCancel(jobs, id)
               == (if j.status == Ready || j.status == Claimed || j.status == Paused
                   then jobs[id := j.(status := Cancelled, claimedBy := None, leaseUntil := None)] else jobs)
  {
  }

  /** A claim takes a ready job that is due, counts the attempt and gives it a new epoch and the given lease; it is reported with that epoch. */
  lemma ClaimTakesExactly(jobs: Jobs, id: JobId, owner: Worker, now: int, leaseUntil: int)
    ensures var n, made := ClaimEach(jobs, [id], owner, now, leaseUntil), ClaimsMade(jobs, [id], owner, now, leaseUntil);
            if id in jobs && jobs[id].status == Ready && jobs[id].availableAt <= now then
              && made == [(id, jobs[id].epoch + 1)]
              && n == jobs[id := jobs[id].(status := Claimed, claimedBy := Some(owner), epoch := jobs[id].epoch + 1,
                                           attempts := jobs[id].attempts + 1, leaseUntil := Some(leaseUntil))]
            else made == [] && n == jobs
  {
    assert [id][..0] == [];
    assert ClaimEach(jobs, [], owner, now, leaseUntil) == jobs && ClaimsMade(jobs, [], owner, now, leaseUntil) == [];
  }

  /** A job claimed until then is held: before that no requeue frees it, and until it is requeued no claim query gets it. */
  lemma JobLeaseHolds(jobs: Jobs, id: JobId, owner: Worker, now: int, leaseUntil: int, later: int, other: Worker, until: int)
    requires id in jobs && jobs[id].status == Ready && jobs[id].availableAt <= now
    ensures var claimed := ClaimEach(jobs, [id], owner, now, leaseUntil);
            && (later <= leaseUntil ==>
                  ClaimsMade(AfterRequeue(claimed, later), [id], other, later, until) == []
                  && id in claimed && id in AfterRequeue(claimed, later) && AfterRequeue(claimed, later)[id] == claimed[id])
            && (later > leaseUntil && jobs[id].attempts + 1 < jobs[id].maxAttempts ==>
                  ClaimsMade(AfterRequeue(claimed, later), [id], other, later, until) == [(id, jobs[id].epoch + 2)])
            && (later > leaseUntil && jobs[id].attempts + 1 >= jobs[id].maxAttempts ==>
                  id in AfterRequeue(claimed, later) && AfterRequeue(claimed, later)[id].status == Failed)
  {
    ClaimTakesExactly(jobs, id, owner, now, leaseUntil);
    var claimed := ClaimEach(jobs, [id], owner, now, leaseUntil);
    ClaimTakesExactly(AfterRequeue(claimed, later), id, other, later, until);
  }

  /** An expired claim becomes ready while attempts are left and fails as exhausted otherwise; every other row stays as it is. */
  lemma RequeuedExactly(jobs: Jobs, now: int, id: JobId)
    requires id in jobs && WellHeld(jobs[id])
    ensures var j, k := jobs[id], AfterRequeue(jobs, now)[id];
            && (k != j <==> j.status == Claimed && j.leaseUntil.value < now)
            && (k != j ==> k.claimedBy == None && k.leaseUntil == None && k.epoch == j.epoch && k.attempts == j.attempts)
            && (k != j ==> k.maxAttempts == j.maxAttempts && k.availableAt == (if k.status == Ready then now else j.availableAt))
            && (k != j && k.status == Ready <==> k != j && j.attempts < j.maxAttempts)
            && (k != j && k.status == Failed && k.exhausted <==> k != j && j.attempts >= j.maxAttempts)
  {
  }

  /** An old epoch moves nothing: settling and releasing need the current one. */
  lemma OldEpochChangesNothing(jobs: Jobs, id: JobId, owner: Worker, epoch: nat, status: JobStatus, at: int, now: int)
    requires id in jobs ==> jobs[id].epoch != epoch
    ensures AfterSettle(jobs, id, owner, epoch, status, now) == jobs && AfterRelease(jobs, id, owner, epoch, at, now) == jobs
    ensures AfterRenew(jobs, id, owner, epoch, at) == jobs
  {
  }
}
