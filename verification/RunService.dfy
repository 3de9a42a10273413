/** The Run part of the runtime service (application/runtime/service.py): each method is one unit of work over the rows. */
module RunService {
  import opened Wrappers
  import opened DurableJobs
  import opened RunLifecycle
  import PyText

  class RuntimeService {
    var now: int
    var runs: map<RunId, RunRow>
    var keys: map<string, RunId>
    var interactions: map<InteractionId, InteractionRow>
    var messages: seq<Message>
    var operations: map<Key, RunId>
    var tokens: nat
    const jobs: JobRepository

    constructor (db: Db)
      ensures fresh(jobs) && Rows() == db
    {
      now, runs, keys, interactions := db.now, db.runs, db.keys, db.interactions;
      messages, operations, tokens := db.messages, db.operations, db.tokens;
      jobs := new JobRepository(db.jobs);
    }

    function Rows(): Db
      reads this, jobs
    {
      Db(now, runs, keys, interactions, messages, operations, tokens, jobs.jobs)
    }

    /** create_user_run and create_automation_run. */
    method CreateRun(run: RunId, input: Input) returns (r: Result<RunId, ServiceError>)
      modifies this, jobs
      ensures (r, Rows()) == AfterCreate(old(Rows()), run, input)
    {
      hide PyText.Strip;
      var message, key;
      match input {
        case FromUser(content, sources, userKey, _, _) =>
          var clean := PyText.Strip(content);
          if clean == "" {
            return Err(EmptyMessage);
          }
          if |set x | x in sources| != |sources| {
            return Err(DuplicateSources);
          }
          message, key := Message(run, UserRole, clean), userKey;
        case FromAutomation(title, text, occurrence) =>
          var cleanTitle, cleanText := PyText.Strip(title), PyText.Strip(text);
          if cleanTitle == "" || cleanText == "" {
            return Err(EmptyMessage);
          }
          if PyText.Strip(occurrence) == "" {
            return Err(EmptyKey);
          }
          message, key := Message(run, SystemEvent, AUTOMATION_PREFIX + cleanTitle + "\n" + cleanText), "automation-run:" + occurrence;
      }
      if key in keys {
        return Ok(keys[key]);
      }
      if input.FromUser? && !(input.threadActive && input.sourcesKnown) {
        return Err(NotFound);
      }
      if run in runs || run in jobs.jobs {
        return Err(DuplicateRow);
      }
      runs := runs[run := NEW_RUN];
      keys := keys[key := run];
      messages := messages + [message];
      jobs.jobs := jobs.jobs[run := NewJob(now)];
      return Ok(run);
    }

    method ClaimRun(run: RunId, owner: Worker, seconds: int) returns (claimed: Option<RunRow>)
      modifies this
      ensures (claimed, Rows()) == AfterClaim(old(Rows()), run, owner, seconds)
    {
      var token := tokens;
      if run !in runs {
        return None;
      }
      var r := runs[run];
      if r.status != Queued && !(r.status == Running && (r.lease == None || r.lease.value <= now)) {
        return None;
      }
      r := r.(status := Running, owner := Some(owner), token := Some(token), lease := Some(now + seconds));
      r := r.(attempts := r.attempts + 1, version := r.version + 1);
      if r.activeStarted == None {
        r := r.(activeStarted := Some(now));
      }
      runs := runs[run := r];
      tokens := tokens + 1;
      return Some(r);
    }

    method RenewRunLease(run: RunId, owner: Worker, token: Token, seconds: int) returns (renewed: bool)
      modifies this
      ensures (renewed, Rows()) == AfterRenewLease(old(Rows()), run, owner, token, seconds)
    {
      renewed := run in runs && runs[run].status == Running && runs[run].owner == Some(owner) && runs[run].token == Some(token);
      if renewed {
        runs := runs[run := runs[run].(lease := Some(now + seconds))];
      }
    }

    /** Requeues the Runs that the query lists, as far as they are still abandoned. */
    method RecoverPendingRuns(ids: seq<RunId>)
      modifies this
      ensures Rows() == RecoverEach(old(Rows()), ids)
    {
      ghost var start := Rows();
      for i := 0 to |ids|
        invariant Rows() == RecoverEach(start, ids[..i])
      {
        assert ids[..i + 1][..i] == ids[..i];
        if ids[i] in runs && runs[ids[i]].status == Running && (runs[ids[i]].lease == None || runs[ids[i]].lease.value <= now) {
          var run := new AgentRun(runs[ids[i]]);
          var _ := run.RecoverAfterCrash(now);
          runs := runs[ids[i] := run.Row()];
        }
      }
      assert ids[..|ids|] == ids;
    }

    method WorkerTransition(id: RunId, action: WorkerAction, f: Fence) returns (r: Result<(), ServiceError>)
      modifies this
      ensures (r, Rows()) == AfterTransition(old(Rows()), id, action, f)
    {
      hide PyText.Strip, PauseActive;
      if id !in runs {
        return Err(NotFound);
      }
      if f.Fence? && (f.token == None || runs[id].owner != Some(f.owner) || runs[id].token != f.token) {
        return Err(LeaseLost);
      }
      var run := new AgentRun(runs[id]);
      var ok;
      match action {
        case Begin =>
          ok := run.Start(now);
          if !ok {
            return Err(InvalidTransition);
          }
        case Wait(interaction) =>
          ok := run.WaitForUser(interaction, now);
          if !ok {
            return Err(InvalidTransition);
          }
          if interaction in interactions || PendingExists(interactions, id) {
            return Err(DuplicateRow);
          }
          interactions := interactions[interaction := Pending(id)];
        case Finish(content) =>
          var text := PyText.Strip(content);
          if text == "" {
            return Err(InvalidTransition);
          }
          ok := run.Complete(|messages|, now);
          if !ok {
            return Err(InvalidTransition);
          }
          messages := messages + [Message(id, Assistant, text)];
        case GiveUp(code) =>
          ok := run.Fail(code, now);
          if !ok {
            return Err(InvalidTransition);
          }
      }
      runs := runs[id := run.Row()];
      return Ok(());
    }

    method AcceptTerminalOutput(id: RunId, output: TerminalOutput, owner: Worker, token: Token) returns (r: Result<(), ServiceError>)
      modifies this
      ensures (r, Rows()) == AfterAccept(old(Rows()), id, output, owner, token)
    {
      if id !in runs {
        return Err(NotFound);
      }
      if runs[id].owner != Some(owner) || runs[id].token != Some(token) {
        return Err(LeaseLost);
      }
      var run := new AgentRun(runs[id]);
      var ok := run.AcceptTerminalOutput(output);
      if !ok {
        return Err(InvalidTransition);
      }
      runs := runs[id := run.Row()];
      return Ok(());
    }

    method ChangeRun(id: RunId, version: nat, key: Key, change: Change) returns (r: Result<(), ServiceError>)
      modifies this, jobs
      ensures (r, Rows()) == AfterChange(old(Rows()), id, version, key, change)
    {
      hide PauseActive;
      if key in operations {
        return Ok(());
      }
      if id !in runs {
        return Err(NotFound);
      }
      if runs[id].version != version {
        return Err(VersionConflict);
      }
      var run := new AgentRun(runs[id]);
      match change {
        case ResumeRun(i, response) =>
          if i !in interactions || interactions[i].run != id {
            return Err(InvalidTransition);
          }
          var interaction := new RunInteraction(interactions[i]);
          var resolved := interaction.Resolve(response);
          if !resolved {
            return Err(InvalidTransition);
          }
          var ok := run.Resume(i, response);
          if !ok {
            return Err(InvalidTransition);
          }
          var resumed := jobs.Resume(id, now);
          if !resumed {
            return Err(InvalidTransition);
          }
          interactions := interactions[i := interaction.row];
        case CancelRun =>
          var ok := run.Cancel(now);
          if !ok {
            return Err(InvalidTransition);
          }
          var _ := jobs.Cancel(id);
      }
      runs := runs[id := run.Row()];
      operations := operations[key := id];
      return Ok(());
    }

    method SettleAgentRunJob(id: RunId, owner: Worker, epoch: nat) returns (r: Result<(), ServiceError>)
      modifies jobs
      ensures (r, Rows()) == AfterSettleJob(old(Rows()), id, owner, epoch)
    {
      var status: JobStatus;
      if id !in runs {
        status := Failed;
      } else if runs[id].status == WaitingForUser {
        status := Paused;
      } else if runs[id].status == Aborted {
        status := Cancelled;
      } else if runs[id].status.Terminal() {
        status := Completed;
      } else {
        return Err(NotSettled);
      }
      var settled := jobs.Settle(id, owner, epoch, status, now);
      if !settled {
        return Err(FencingLost);
      }
      return Ok(());
    }
  }
}
