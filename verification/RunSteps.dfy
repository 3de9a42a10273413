/** What each unit of work on Runs does, row by row and field by field, and when it refuses (application/runtime/service.py,
    domain/runtime/entities.py). */
module RunSteps {
  import opened Wrappers
  import opened DurableJobs
  import opened RunLifecycle
  import PyText

  // ----- one Run

  /** The Run gives its claim back: its clock stops and the time since it was started is added, and nothing is left of the claim. */
  predicate GivesBack(r: RunRow, t: RunRow, now: int) {
    && t.owner == None && t.token == None && t.lease == None && t.activeStarted == None && t.version == r.version + 1
    && t.activeUsed == r.activeUsed + (if r.activeStarted.Some? && now > r.activeStarted.value then now - r.activeStarted.value else 0)
    && t.attempts == r.attempts && t.resume == r.resume && t.terminal == r.terminal
  }

  /** When a Run may leave its status, and what it keeps. */
  lemma LeavingExactly(r: RunRow, interaction: InteractionId, message: nat, code: string, now: int)
    ensures Recovered(r, now).Some? <==> r.status == Running
    ensures Waiting(r, interaction, now).Some? <==> r.status == Running
    ensures CompletedRow(r, message, now).Some? <==> r.status == Running
    ensures FailedRow(r, code, now).Some? <==> r.status != Done && r.status != Broken && r.status != Aborted
    ensures CancelledRow(r, now).Some? <==> r.status != Done && r.status != Broken && r.status != Aborted
    ensures r.status == Running ==>
              var t := Recovered(r, now).value;
              GivesBack(r, t, now) && t.status == Queued && t.interruptId == r.interruptId && t.finalMessage == r.finalMessage && t.error == r.error
    ensures r.status == Running ==>
              var t := Waiting(r, interaction, now).value;
              GivesBack(r, t, now) && t.status == WaitingForUser && t.interruptId == Some(interaction) && t.finalMessage == r.finalMessage
              && t.error == r.error
    ensures r.status == Running ==>
              var t := CompletedRow(r, message, now).value;
              GivesBack(r, t, now) && t.status == Done && t.finalMessage == Some(message) && t.interruptId == r.interruptId && t.error == r.error
    ensures FailedRow(r, code, now).Some? ==>
              var t := FailedRow(r, code, now).value;
              GivesBack(r, t, now) && t.status == Broken && t.error == Some(code) && t.interruptId == r.interruptId && t.finalMessage == r.finalMessage
    ensures CancelledRow(r, now).Some? ==>
              var t := CancelledRow(r, now).value;
              GivesBack(r, t, now) && t.status == Aborted && t.error == r.error && t.interruptId == r.interruptId && t.finalMessage == r.finalMessage
  {
  }

  /** When a Run starts, resumes and takes a terminal output, and which fields that sets. */
  lemma EnteringExactly(r: RunRow, interaction: InteractionId, response: Payload, output: TerminalOutput, now: int)
    ensures Started(r, now).Some? <==> r.status == Queued
    ensures r.status == Queued ==>
              var t := Started(r, now).value;
              t.status == Running && t.version == r.version + 1
              && t.activeStarted == (if r.activeStarted.Some? then r.activeStarted else Some(now))
              && t.(status := Queued, version := r.version, activeStarted := r.activeStarted) == r
    ensures Resumed(r, interaction, response).Some? <==> r.status == WaitingForUser && r.interruptId == Some(interaction)
    ensures Resumed(r, interaction, response).Some? ==>
              var t := Resumed(r, interaction, response).value;
              t.status == Queued && t.interruptId == None && t.resume == Some(response) && t.version == r.version + 1
              && t.(status := r.status, interruptId := r.interruptId, resume := r.resume, version := r.version) == r
    ensures Accepted(r, output).Some? <==> r.status == Running && (r.terminal == None || r.terminal == Some(output))
    ensures Accepted(r, output).Some? ==>
              var t := Accepted(r, output).value;
              t.terminal == Some(output) && t.version == (if r.terminal == None then r.version + 1 else r.version)
              && t.(terminal := r.terminal, version := r.version) == r
  {
  }

  // ----- creation and claims

  /** A request is refused for a blank part, repeated sources or a missing thread or source, answered from a used key, and otherwise makes a
      queued Run with its key, its job, and one input message: the text of the user, or the title and message of the automation. */
  lemma CreateStores(db: Db, run: RunId, input: Input)
    ensures var (r, n) := AfterCreate(db, run, input);
            var key := if input.FromUser? then input.key else "automation-run:" + input.occurrence;
            var blank := if input.FromUser? then PyText.Strip(input.content) == ""
                         else PyText.Strip(input.title) == "" || PyText.Strip(input.message) == "";
            && (r == Err(EmptyMessage) <==> blank)
            && (r == Err(DuplicateSources) <==> !blank && input.FromUser? && |set x | x in input.sources| != |input.sources|)
            && (r == Err(EmptyKey) <==> !blank && input.FromAutomation? && PyText.Strip(input.occurrence) == "")
            && (key in db.keys && r.Ok? ==> r.value == db.keys[key] && n == db)
            && (r.Err? ==> n == db)
            && (r == Err(NotFound) <==>
                  !blank && input.FromUser? && |set x | x in input.sources| == |input.sources| && key !in db.keys
                  && !(input.threadActive && input.sourcesKnown))
            && (r == Err(DuplicateRow) ==> run in db.runs || run in db.jobs)
            && (r.Ok? && key !in db.keys ==>
                  && r.value == run && run !in db.runs && run !in db.jobs && (input.FromUser? ==> input.threadActive && input.sourcesKnown)
                  && n.runs == db.runs[run := n.runs[run]] && n.keys == db.keys[key := run] && n.jobs == db.jobs[run := n.jobs[run]]
                  && |n.messages| == |db.messages| + 1 && n.messages[..|db.messages|] == db.messages
                  && n.interactions == db.interactions && n.operations == db.operations && n.tokens == db.tokens && n.now == db.now
                  && var row, job, message := n.runs[run], n.jobs[run], n.messages[|db.messages|];
                     && row.status == Queued && row.version == 1 && row.attempts == 0 && row.owner == None && row.token == None && row.lease == None
                     && row.terminal == None && row.finalMessage == None && row.interruptId == None && row.resume == None && row.error == None
                     && row.activeUsed == 0 && row.activeStarted == None
                     && job.status == Ready && job.availableAt == db.now && job.attempts == 0 && job.maxAttempts == 5 && job.claimedBy == None
                     && job.epoch == 0 && job.leaseUntil == None && !job.exhausted
                     && message.run == run
                     && (input.FromUser? ==> message.role == UserRole && message.content == PyText.Strip(input.content))
                     && (input.FromAutomation? ==>
                           && message.role == SystemEvent
                           && message.content == AUTOMATION_PREFIX + PyText.Strip(input.title) + "\n" + PyText.Strip(input.message)))
  {
    hide PyText.Strip;
  }

  /** A claim takes a queued Run, or a running one whose lease is missing or over, under a token that was never given before and a lease of
      the given length from now on. */
  lemma ClaimTakesExactly(db: Db, run: RunId, owner: Worker, seconds: int)
    ensures var (claimed, n) := AfterClaim(db, run, owner, seconds);
            && (claimed.Some? <==> run in db.runs && (db.runs[run].status == Queued || (db.runs[run].status == Running
                                     && (db.runs[run].lease == None || db.runs[run].lease.value <= db.now))))
            && (claimed.None? ==> n == db)
            && (claimed.Some? ==>
                  var r, t := db.runs[run], claimed.value;
                  && n == db.(runs := db.runs[run := t], tokens := db.tokens + 1)
                  && t.status == Running && t.owner == Some(owner) && t.token == Some(db.tokens) && t.lease == Some(db.now + seconds)
                  && t.attempts == r.attempts + 1 && t.version == r.version + 1
                  && t.activeStarted == (if r.activeStarted.Some? then r.activeStarted else Some(db.now))
                  && t.interruptId == r.interruptId && t.resume == r.resume && t.terminal == r.terminal && t.finalMessage == r.finalMessage
                  && t.error == r.error && t.activeUsed == r.activeUsed)
  {
  }

  /** Until its lease is over, a claimed Run is claimed by nobody else and not recovered; afterwards it is. */
  lemma RunLeaseHolds(db: Db, run: RunId, owner: Worker, seconds: int, later: Db, other: Worker, more: int)
    requires AfterClaim(db, run, owner, seconds).0.Some?
    requires run in later.runs && later.runs[run] == AfterClaim(db, run, owner, seconds).1.runs[run]
    ensures later.now < db.now + seconds ==> AfterClaim(later, run, other, more).0 == None && AfterRecover(later, run) == later
    ensures later.now >= db.now + seconds ==>
              && AfterClaim(later, run, other, more).0.Some? && run in AfterRecover(later, run).runs && AfterRecover(later, run).runs[run].status == Queued
  {
  }

  /** Renewal moves the lease of the Run that this owner holds under this token, and nothing else. */
  lemma RenewMovesLease(db: Db, run: RunId, owner: Worker, token: Token, seconds: int)
    ensures var (renewed, n) := AfterRenewLease(db, run, owner, token, seconds);
            && (renewed <==> run in db.runs && db.runs[run].status == Running && db.runs[run].owner == Some(owner) && db.runs[run].token == Some(token))
            && n == (if renewed then db.(runs := db.runs[run := db.runs[run].(lease := Some(db.now + seconds))]) else db)
  {
  }

  // ----- transitions

  predicate FenceHolds(r: RunRow, f: Fence) { f.Fence? ==> f.token.Some? && r.owner == Some(f.owner) && r.token == f.token }

  /** When a transition of a worker is refused, and what a successful one leaves in each table. */
  lemma TransitionExactly(db: Db, run: RunId, action: WorkerAction, f: Fence)
    ensures var (r, n) := AfterTransition(db, run, action, f);
            && (r.Err? ==> n == db)
            && (r == Err(NotFound) <==> run !in db.runs)
            && (r == Err(LeaseLost) <==> run in db.runs && !FenceHolds(db.runs[run], f))
            && (r == Err(DuplicateRow) <==>
                  && run in db.runs && FenceHolds(db.runs[run], f) && action.Wait? && db.runs[run].status == Running
                  && (action.interaction in db.interactions || exists i :: i in db.interactions && db.interactions[i] == Pending(run)))
            && (r.Ok? ==>
                  && n == db.(runs := db.runs[run := n.runs[run]], interactions := n.interactions, messages := n.messages)
                  && n.interactions == (if action.Wait? then db.interactions[action.interaction := Pending(run)] else db.interactions)
                  && n.messages == (if action.Finish? then db.messages + [Message(run, Assistant, PyText.Strip(action.content))] else db.messages)
                  && (action.Finish? ==> PyText.Strip(action.content) != "" && n.runs[run].finalMessage == Some(|db.messages|))
                  && (action.Wait? ==> n.runs[run].interruptId == Some(action.interaction))
                  && (action.GiveUp? ==> n.runs[run].error == Some(action.code))
                  && n.runs[run].status == match action case Begin => Running case Wait(_) => WaitingForUser case Finish(_) => Done case GiveUp(_) => Broken)
            && (run in db.runs && FenceHolds(db.runs[run], f) && r == Err(InvalidTransition) <==>
                  run in db.runs && FenceHolds(db.runs[run], f) && !Allowed(db.runs[run], action))
  {
    hide PyText.Strip, PauseActive;
  }

  predicate Allowed(r: RunRow, action: WorkerAction) {
    match action
    case Begin => r.status == Queued
    case Wait(_) => r.status == Running
    case Finish(content) => r.status == Running && PyText.Strip(content) != ""
    case GiveUp(_) => r.status != Done && r.status != Broken && r.status != Aborted
  }

  /** A terminal output is accepted behind owner and token, once, and only that output again. */
  lemma AcceptExactly(db: Db, run: RunId, output: TerminalOutput, owner: Worker, token: Token)
    ensures var (r, n) := AfterAccept(db, run, output, owner, token);
            && (r == Err(NotFound) <==> run !in db.runs)
            && (r == Err(LeaseLost) <==> run in db.runs && !(db.runs[run].owner == Some(owner) && db.runs[run].token == Some(token)))
            && (r.Ok? <==> run in db.runs && db.runs[run].owner == Some(owner) && db.runs[run].token == Some(token) && db.runs[run].status == Running
                           && (db.runs[run].terminal == None || db.runs[run].terminal == Some(output)))
            && (r.Err? ==> n == db)
            && (r.Ok? ==> n == db.(runs := db.runs[run := n.runs[run]]) && n.runs[run].terminal == Some(output) && n.runs[run].status == Running)
  {
  }

  // ----- users

  /** When a change by a user is refused, and what a successful one does to Run, interaction and job. A used key answers without effect. */
  lemma ChangeExactly(db: Db, run: RunId, version: nat, key: Key, change: Change)
    ensures var (r, n) := AfterChange(db, run, version, key, change);
            && (key in db.operations ==> r == Ok(()) && n == db)
            && (r == Err(NotFound) <==> key !in db.operations && run !in db.runs)
            && (r == Err(VersionConflict) <==> key !in db.operations && run in db.runs && db.runs[run].version != version)
            && (key !in db.operations && run in db.runs && db.runs[run].version == version ==> (r.Ok? <==> Changeable(db, run, change)))
            && (r.Err? ==> n == db)
            && (r.Ok? && key !in db.operations ==>
                  && n == db.(runs := db.runs[run := n.runs[run]], interactions := n.interactions, jobs := n.jobs, operations := db.operations[key := run])
                  && (change.ResumeRun? ==>
                        && n.runs[run].status == Queued && n.runs[run].resume == Some(change.response) && n.runs[run].interruptId == None
                        && n.interactions == db.interactions[change.interaction := Resolved(run, change.response)]
                        && n.jobs == db.jobs[run := db.jobs[run].(status := Ready, availableAt := db.now)])
                  && (change.CancelRun? ==>
                        && n.runs[run].status == Aborted && n.interactions == db.interactions
                        && n.jobs == if run in db.jobs && (db.jobs[run].status == Ready || db.jobs[run].status == Claimed || db.jobs[run].status == Paused)
                                     then db.jobs[run := db.jobs[run].(status := Cancelled, claimedBy := None, leaseUntil := None)] else db.jobs))
  {
    hide PauseActive;
  }

  predicate Changeable(db: Db, run: RunId, change: Change)
    requires run in db.runs
  {
    match change
    case CancelRun => db.runs[run].status != Done && db.runs[run].status != Broken && db.runs[run].status != Aborted
    case ResumeRun(i, response) =>
      && i in db.interactions && db.interactions[i].run == run
      && (db.interactions[i].Resolved? ==> db.interactions[i].response == response)
      && db.runs[run].status == WaitingForUser && db.runs[run].interruptId == Some(i)
      && run in db.jobs && (db.jobs[run].status == Paused || db.jobs[run].status == Ready)
  }

  /** How the job of a Run is settled: paused while the Run waits, cancelled or completed with it, failed when the Run is missing; a Run that
      still has work to do settles nothing. */
  lemma SettleExactly(db: Db, run: RunId, owner: Worker, epoch: nat)
    ensures var (r, n) := AfterSettleJob(db, run, owner, epoch);
            var open := run in db.runs && (db.runs[run].status == Queued || db.runs[run].status == Running);
            var held := run in db.jobs && db.jobs[run].status == Claimed && db.jobs[run].claimedBy == Some(owner) && db.jobs[run].epoch == epoch
                        && db.jobs[run].leaseUntil.Some? && db.jobs[run].leaseUntil.value >= db.now;
            && (r == Err(NotSettled) <==> open) && (r == Err(FencingLost) <==> !open && !held) && (r.Ok? <==> !open && held)
            && (r.Err? ==> n == db)
            && (r.Ok? ==>
                  var status := if run !in db.runs then JobStatus.Failed else match db.runs[run].status
                                  case WaitingForUser => JobStatus.Paused case Aborted => JobStatus.Cancelled case _ => JobStatus.Completed;
                  n == db.(jobs := db.jobs[run := db.jobs[run].(status := status, claimedBy := None, leaseUntil := None)]))
  {
  }
}
