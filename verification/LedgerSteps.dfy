/** What each unit of work on the Tool ledger answers and leaves behind, case by case (application/runtime/service.py). */
module LedgerSteps {
  import opened Wrappers
  import opened StateWrites
  import opened ToolLedger

  /** The claiming worker owns the running Run and shows its current token. */
  predicate ShowsToken(db: Db, run: RunId, owner: Worker, runToken: Token) {
    run in db.runs && db.runs[run].phase == Running && db.runs[run].owner == Some(owner) && db.runs[run].token == Some(runToken)
  }

  /** The claim asks for what the row was made for. */
  predicate Matches(e: Execution, call: Call) {
    && e.call.tool == call.tool && e.call.arguments == call.arguments && e.call.replaySafe == call.replaySafe
    && (e.call.key == None || e.call.key == call.key)
  }

  /** The answer of a claim: refused for the Run, for other arguments or another contract; a stored result; and otherwise acquired, blocked or
      busy by lease, replay policy and status. */
  lemma ClaimAnswersExactly(db: Db, k: ActionKey, call: Call, owner: Worker, runToken: Token, seconds: int)
    ensures var r := AfterClaim(db, k, call, owner, runToken, seconds).0;
            var owned, known := ShowsToken(db, k.0, owner, runToken), k in db.tools;
            && (r == Err(RunNotFound) <==> k.0 !in db.runs)
            && (r == Err(NotOwned) <==> k.0 in db.runs && !owned)
            && (r == Err(DifferentArguments) <==>
                  owned && known && (db.tools[k].call.tool != call.tool || db.tools[k].call.arguments != call.arguments))
            && (r == Err(DifferentContract) <==>
                  owned && known && db.tools[k].call.tool == call.tool && db.tools[k].call.arguments == call.arguments
                  && !Matches(db.tools[k], call))
            && (r.Ok? <==> owned && (known ==> Matches(db.tools[k], call)))
            && (r.Ok? && known ==>
                  var e := db.tools[k];
                  var expired := e.lease <= db.now;
                  && (r.value.Cached? <==> e.result.Some?) && (r.value.Cached? ==> r.value.result == e.result.value)
                  && (r.value == Blocked <==> e.result.None? && expired && !e.call.replaySafe)
                  && (r.value.Acquired? <==> e.result.None? && expired && e.call.replaySafe && e.status == InProgress)
                  && (r.value == Busy <==> e.result.None? && (!expired || (e.call.replaySafe && e.status != InProgress))))
            && (r.Ok? && !known ==> r.value.Acquired?)
            && (r.Ok? && r.value.Acquired? ==> r.value.token == db.tokens)
  {
  }

  /** What a claim changes: an acquired action gets a row that is in progress for its owner, under a token never given before, with a lease of
      the given length from now and one attempt more; a blocked one is marked unknown; nothing else changes. */
  lemma ClaimChangesExactly(db: Db, k: ActionKey, call: Call, owner: Worker, runToken: Token, seconds: int)
    ensures var (r, n) := AfterClaim(db, k, call, owner, runToken, seconds);
            && n.now == db.now && n.runs == db.runs && n.state == db.state
            && (r.Ok? && r.value.Acquired? ==>
                  && n.tokens == db.tokens + 1 && k in n.tools && n.tools == db.tools[k := n.tools[k]]
                  && var e := n.tools[k];
                     && e.status == InProgress && e.result == None && e.owner == owner && e.token == db.tokens && e.lease == db.now + seconds
                     && e.call == (if k in db.tools then db.tools[k].call else call)
                     && e.attempts == (if k in db.tools then db.tools[k].attempts + 1 else 1))
            && (r.Ok? && r.value == Blocked ==>
                  && n.tokens == db.tokens && k in db.tools
                  && n.tools == if db.tools[k].status == InProgress then db.tools[k := db.tools[k].(status := UnknownOutcome)] else db.tools)
            && (r.Err? || r.value == Busy || r.value.Cached? ==> n == db)
    requires k in db.tools && db.tools[k].status == InProgress ==> db.tools[k].result == None
  {
  }

  /** The row is in progress for this owner under this token, and the owner still has the running Run. */
  predicate Holding(db: Db, k: ActionKey, owner: Worker, token: Token) {
    && k.0 in db.runs && db.runs[k.0].phase == Running && db.runs[k.0].owner == Some(owner)
    && k in db.tools && db.tools[k].status == InProgress && db.tools[k].owner == owner && db.tools[k].token == token
  }

  /** A completion stores its output, as a success or a failure, exactly for the holder of the row; a reconciliation exactly for a row whose
      outcome is unknown. */
  lemma ResultsAreStoredExactly(db: Db, k: ActionKey, owner: Worker, token: Token, output: Output, succeeded: bool)
    ensures var (r, n) := AfterComplete(db, k, owner, token, output, succeeded);
            && (r == Err(RunNotFound) <==> k.0 !in db.runs)
            && (r == Err(NotOwned) <==> k.0 in db.runs && !(db.runs[k.0].phase == Running && db.runs[k.0].owner == Some(owner)))
            && (r.Ok? <==> Holding(db, k, owner, token))
            && n == (if r.Ok? then db.(tools := db.tools[k := db.tools[k].(status := if succeeded then Succeeded else Failed, result := Some(output))])
                     else db)
    ensures var (r, n) := AfterReconcile(db, k, output, succeeded);
            && (r == Err(RunNotFound) <==> k.0 !in db.runs)
            && (r == Err(ExecutionNotFound) <==> k.0 in db.runs && k !in db.tools)
            && (r.Ok? <==> k.0 in db.runs && k in db.tools && db.tools[k].status == UnknownOutcome)
            && n == (if r.Ok? then db.(tools := db.tools[k := db.tools[k].(status := if succeeded then Succeeded else Failed, result := Some(output))])
                     else db)
  {
  }

  /** A bound mutation commits the write and its receipt together, exactly when the write succeeds and its worker holds the row; otherwise
      neither. */
  lemma MutationCommitsBoth(db: Db, k: ActionKey, owner: Worker, token: Token, tool: string, thing: Id, c: Change, v: nat)
    ensures var (r, n) := AfterMutation(db, k, owner, token, tool, thing, c, v);
            var (w, state) := AfterWrite(db.state, Agent(k.0, k.1), thing, c, v);
            && (r.Ok? <==> w.Ok? && Holding(db, k, owner, token))
            && (r.Err? ==> n == db)
            && (r.Ok? ==>
                  && r.value == w.value && k in n.tools
                  && n == db.(state := state, tools := db.tools[k := db.tools[k].(status := Succeeded, result := Some(Receipt(tool, w.value)))]))
            && (r.Err? && r.error.WriteFailed? ==> w == Err(r.error.error))
  {
    hide AfterWrite;
    var (r, n) := AfterMutation(db, k, owner, token, tool, thing, c, v);
    var (w, state) := AfterWrite(db.state, Agent(k.0, k.1), thing, c, v);
    assert r.Ok? ==> n.tools == db.tools[k := db.tools[k].(status := Succeeded, result := Some(Receipt(tool, w.value)))];
  }
}
