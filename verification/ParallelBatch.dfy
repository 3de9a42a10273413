/** Validation of a parallel batch of read tools (agent/parallel.py). */
module ParallelBatch {
  import opened Wrappers
  import opened ToolPolicy

  datatype ToolSpec = ToolSpec(name: string, args: Arguments) {
    /** Two calls are the same when they name the same tool with the same canonical arguments. */
    function Key(): (string, string) { (name, args.canonical) }
  }

  datatype BatchError = Empty | TooLarge | ToolBudgetExceeded | ToolNotFound | WriteForbidden | SearchBatchLimit | SearchQuotaExceeded

  function Names(specs: seq<ToolSpec>): (names: seq<string>)
    ensures |names| == |specs|
    ensures forall i | 0 <= i < |specs| :: names[i] == specs[i].name
  {
    seq(|specs|, i requires 0 <= i < |specs| => specs[i].name)
  }

  function Searches(specs: seq<ToolSpec>): nat { CountNames(Names(specs)) }

  predicate HasKey(specs: seq<ToolSpec>, key: (string, string)) {
    exists i | 0 <= i < |specs| :: specs[i].Key() == key
  }

  /** The specs without those that repeat an earlier call. */
  function FirstOccurrences(specs: seq<ToolSpec>): seq<ToolSpec> {
    if specs == [] then []
    else
      var before, last := FirstOccurrences(specs[..|specs| - 1]), specs[|specs| - 1];
      if HasKey(before, last.Key()) then before else before + [last]
  }

  predicate ReadOnlyTool(tools: Definitions, name: string) {
    Lookup(tools, name).Some? && Lookup(tools, name).value.risk == Read
  }

  ghost predicate AllRead(tools: Definitions, specs: seq<ToolSpec>) {
    forall i | 0 <= i < |specs| :: ReadOnlyTool(tools, specs[i].name)
  }

  /** The fault of the first spec that names no enabled read tool. */
  function FirstFault(tools: Definitions, specs: seq<ToolSpec>): Option<BatchError> {
    if specs == [] then None
    else match Lookup(tools, specs[0].name)
      case None => Some(ToolNotFound)
      case Some(d) => if d.risk != Read then Some(WriteForbidden) else FirstFault(tools, specs[1..])
  }

  datatype Quota = Quota(toolCalls: nat, maxToolCalls: nat, parallelMax: nat, searches: nat, maxSearches: nat)

  function BatchVerdict(tools: Definitions, specs: seq<ToolSpec>, q: Quota): Result<seq<ToolSpec>, BatchError> {
    if specs == [] then Err(Empty)
    else if |specs| > q.parallelMax then Err(TooLarge)
    else if q.toolCalls + |specs| > q.maxToolCalls then Err(ToolBudgetExceeded)
    else match FirstFault(tools, specs)
      case Some(e) => Err(e)
      case None =>
        var unique := FirstOccurrences(specs);
        if Searches(unique) > 2 then Err(SearchBatchLimit)
        else if q.searches + Searches(unique) > q.maxSearches then Err(SearchQuotaExceeded)
        else Ok(unique)
  }

  lemma NamesSnoc(specs: seq<ToolSpec>, last: ToolSpec)
    ensures Searches(specs + [last]) == Searches(specs) + if IsSearch(last.name) then 1 else 0
  {
    assert Names(specs + [last])[..|specs|] == Names(specs);
  }

  method ValidateParallelBatch(tools: Definitions, specs: seq<ToolSpec>, q: Quota) returns (r: Result<seq<ToolSpec>, BatchError>)
    ensures r == BatchVerdict(tools, specs, q)
  {
    hide IsSearch, Lookup;
    if specs == [] {
      return Err(Empty);
    }
    if |specs| > q.parallelMax {
      return Err(TooLarge);
    }
    if q.toolCalls + |specs| > q.maxToolCalls {
      return Err(ToolBudgetExceeded);
    }
    var inBatch, unique, seen: set<(string, string)> := 0, [], {};
    for i := 0 to |specs|
      invariant FirstFault(tools, specs) == FirstFault(tools, specs[i..])
      invariant unique == FirstOccurrences(specs[..i])
      invariant forall key :: key in seen <==> HasKey(unique, key)
      invariant inBatch == Searches(unique)
    {
      var spec := specs[i];
      assert specs[i..][0] == spec && specs[i..][1..] == specs[i + 1..];
      assert specs[..i + 1][..i] == specs[..i];
      match Lookup(tools, spec.name)
      case None => return Err(ToolNotFound);
      case Some(d) =>
        if d.risk != Read {
          return Err(WriteForbidden);
        }
      if spec.Key() in seen {
        continue;
      }
      KeySnoc(unique, spec);
      NamesSnoc(unique, spec);
      seen := seen + {spec.Key()};
      unique := unique + [spec];
      if IsSearch(spec.name) {
        inBatch := inBatch + 1;
      }
    }
    assert specs[|specs|..] == [] && specs[..|specs|] == specs;
    if inBatch > 2 {
      return Err(SearchBatchLimit);
    }
    if q.searches + inBatch > q.maxSearches {
      return Err(SearchQuotaExceeded);
    }
    return Ok(unique);
  }

  lemma KeySnoc(specs: seq<ToolSpec>, last: ToolSpec)
    ensures forall key :: HasKey(specs + [last], key) <==> HasKey(specs, key) || last.Key() == key
  {
    var all := specs + [last];
    forall key ensures HasKey(all, key) <==> HasKey(specs, key) || last.Key() == key {
      if HasKey(specs, key) {
        var i :| 0 <= i < |specs| && specs[i].Key() == key;
        assert all[i].Key() == key;
      }
      assert all[|specs|] == last;
    }
  }

  // ----- what a verdict means

  lemma {:induction false} NoFaultIffAllRead(tools: Definitions, specs: seq<ToolSpec>)
    ensures FirstFault(tools, specs) == None <==> AllRead(tools, specs)
  {
    if specs != [] {
      NoFaultIffAllRead(tools, specs[1..]);
      assert forall i | 1 <= i < |specs| :: specs[1..][i - 1] == specs[i];
      if AllRead(tools, specs) {
        assert ReadOnlyTool(tools, specs[0].name);
      }
    }
  }

  ghost predicate DistinctCalls(specs: seq<ToolSpec>) {
    forall i, j | 0 <= i < j < |specs| :: specs[i].Key() != specs[j].Key()
  }

  /** Deduplication keeps the calls, keeps each only once, and adds none. */
  lemma {:induction false} FirstOccurrencesFacts(specs: seq<ToolSpec>)
    ensures DistinctCalls(FirstOccurrences(specs))
    ensures forall key :: HasKey(FirstOccurrences(specs), key) <==> HasKey(specs, key)
    ensures forall s | s in FirstOccurrences(specs) :: s in specs
    ensures |FirstOccurrences(specs)| <= |specs|
    ensures specs != [] ==> FirstOccurrences(specs) != []
  {
    if specs != [] {
      var front, last := specs[..|specs| - 1], specs[|specs| - 1];
      FirstOccurrencesFacts(front);
      KeySnoc(front, last);
      KeySnoc(FirstOccurrences(front), last);
      assert specs == front + [last];
      assert HasKey(specs, last.Key());
    }
  }

  /** The call stands here for the first time. */
  ghost predicate FirstTime(specs: seq<ToolSpec>, p: int) {
    0 <= p < |specs| && forall q | 0 <= q < p :: specs[q].Key() != specs[p].Key()
  }

  /** These are the positions, in their order, of the calls that u holds. */
  ghost predicate KeptAt(specs: seq<ToolSpec>, u: seq<ToolSpec>, at: seq<nat>) {
    && |at| == |u| && (forall i | 0 <= i < |at| :: at[i] < |specs| && specs[at[i]] == u[i])
    && (forall i, j | 0 <= i < j < |at| :: at[i] < at[j])
    && (forall p :: p in at <==> FirstTime(specs, p))
  }

  /** Deduplication keeps the calls at the positions where they stand for the first time, in their order. */
  lemma {:induction false} FirstOccurrencesInOrder(specs: seq<ToolSpec>) returns (at: seq<nat>)
    ensures KeptAt(specs, FirstOccurrences(specs), at)
  {
    if specs == [] {
      at := [];
    } else {
      var n := |specs| - 1;
      var front, last := specs[..n], specs[n];
      assert specs == front + [last];
      var before := FirstOccurrencesInOrder(front);
      FirstOccurrencesFacts(front);
      FirstTimeSnoc(front, last);
      at := if HasKey(FirstOccurrences(front), last.Key()) then before else before + [n];
      KeptAtSnoc(front, last, FirstOccurrences(front), before);
    }
  }

  lemma FirstTimeSnoc(front: seq<ToolSpec>, last: ToolSpec)
    ensures forall p | 0 <= p < |front| :: FirstTime(front + [last], p) <==> FirstTime(front, p)
    ensures FirstTime(front + [last], |front|) <==> !HasKey(front, last.Key())
  {
    var all := front + [last];
    assert all[|front|] == last && forall q | 0 <= q < |front| :: all[q] == front[q];
  }

  lemma KeptAtSnoc(front: seq<ToolSpec>, last: ToolSpec, u: seq<ToolSpec>, before: seq<nat>)
    requires KeptAt(front, u, before) && (HasKey(u, last.Key()) <==> HasKey(front, last.Key()))
    ensures if HasKey(u, last.Key()) then KeptAt(front + [last], u, before) else KeptAt(front + [last], u + [last], before + [|front|])
  {
    hide HasKey, FirstTime;
    var all := front + [last];
    FirstTimeSnoc(front, last);
    assert forall i | 0 <= i < |before| :: all[before[i]] == front[before[i]];
    forall p ensures FirstTime(all, p) <==> FirstTime(front, p) || (p == |front| && !HasKey(front, last.Key())) {
      if !(0 <= p < |front|) {
        OutOfRange(front, p);
        OutOfRange(all, p);
      }
    }
    if !HasKey(u, last.Key()) {
      var at := before + [|front|];
      forall p ensures p in at <==> p in before || p == |front| {
      }
    }
  }

  lemma OutOfRange(specs: seq<ToolSpec>, p: int)
    ensures p < 0 || p >= |specs| ==> !FirstTime(specs, p)
  {
  }

  /** Which fault a refused batch reports: size and tool budget come first, then the first call that is no enabled read tool, then searches. */
  lemma RefusedExactly(tools: Definitions, specs: seq<ToolSpec>, q: Quota)
    ensures var r := BatchVerdict(tools, specs, q);
            var sized := 0 < |specs| <= q.parallelMax;
            var fits := sized && q.toolCalls + |specs| <= q.maxToolCalls;
            && (r == Err(Empty) <==> specs == [])
            && (r == Err(TooLarge) <==> specs != [] && |specs| > q.parallelMax)
            && (r == Err(ToolBudgetExceeded) <==> sized && q.toolCalls + |specs| > q.maxToolCalls)
            && (r == Err(ToolNotFound) <==> fits && exists i :: FirstBad(tools, specs, i) && Lookup(tools, specs[i].name).None?)
            && (r == Err(WriteForbidden) <==> fits && exists i :: FirstBad(tools, specs, i) && Lookup(tools, specs[i].name).Some?)
            && (r == Err(SearchBatchLimit) <==> fits && AllRead(tools, specs) && Searches(FirstOccurrences(specs)) > 2)
            && (r.Ok? ==> r.value == FirstOccurrences(specs))
  {
    hide Lookup, IsSearch, CountNames;
    NoFaultIffAllRead(tools, specs);
    if FirstFault(tools, specs).Some? {
      var i := FaultAt(tools, specs);
      forall k | FirstBad(tools, specs, k) ensures k == i {
      }
    }
  }

  ghost predicate FirstBad(tools: Definitions, specs: seq<ToolSpec>, i: int) {
    0 <= i < |specs| && !ReadOnlyTool(tools, specs[i].name) && forall k | 0 <= k < i :: ReadOnlyTool(tools, specs[k].name)
  }

  lemma {:induction false} FaultAt(tools: Definitions, specs: seq<ToolSpec>) returns (i: nat)
    requires FirstFault(tools, specs).Some?
    ensures FirstBad(tools, specs, i)
    ensures FirstFault(tools, specs) == Some(if Lookup(tools, specs[i].name).None? then ToolNotFound else WriteForbidden)
  {
    hide Lookup;
    if !ReadOnlyTool(tools, specs[0].name) {
      i := 0;
    } else {
      var k := FaultAt(tools, specs[1..]);
      i := k + 1;
      assert forall j | 0 < j < |specs| :: specs[j] == specs[1..][j - 1];
    }
  }

  /** A batch passes exactly when it is not empty, fits both budgets, names only enabled read tools and, after
      deduplication, holds at most two searches and fits the search quota. */
  lemma AcceptedExactly(tools: Definitions, specs: seq<ToolSpec>, q: Quota)
    ensures BatchVerdict(tools, specs, q).Ok? <==>
            && 0 < |specs| <= q.parallelMax && q.toolCalls + |specs| <= q.maxToolCalls
            && AllRead(tools, specs)
            && Searches(FirstOccurrences(specs)) <= 2
            && q.searches + Searches(FirstOccurrences(specs)) <= q.maxSearches
  {
    hide Lookup, IsSearch, CountNames;
    NoFaultIffAllRead(tools, specs);
  }

  /** What the graph relies on: the accepted specs are non-empty, distinct read calls within both budgets. */
  lemma AcceptedBatch(tools: Definitions, specs: seq<ToolSpec>, q: Quota)
    requires BatchVerdict(tools, specs, q).Ok?
    ensures var u := BatchVerdict(tools, specs, q).value;
            && u != [] && DistinctCalls(u) && AllRead(tools, u)
            && q.toolCalls + |u| <= q.maxToolCalls && q.searches + Searches(u) <= q.maxSearches
            && (forall key :: HasKey(u, key) <==> HasKey(specs, key))
  {
    hide Lookup, IsSearch, CountNames, ReadOnlyTool;
    AcceptedExactly(tools, specs, q);
    FirstOccurrencesFacts(specs);
    var u := BatchVerdict(tools, specs, q).value;
    forall i | 0 <= i < |u| ensures ReadOnlyTool(tools, u[i].name) {
      assert u[i] in specs;
    }
  }
}
