/** Merge redirects between Things: merging and deleting (application/personal_state/write_ops.py) with what they do to the dates
    (infrastructure/persistence/repositories/personal_state.py), and the redirect walk (application/personal_state/service.py). */
module MergeRedirects {
  import opened Wrappers
  import opened StateRows

  // ----- the operations

  function Merged(things: map<Id, ThingRow>, duplicate: Id, canonical: Id): map<Id, ThingRow>
    requires duplicate in things
  {
    things[duplicate := things[duplicate].(mergedInto := Some(canonical), version := things[duplicate].version + 1)]
  }

  /** The dates of the duplicate move to the canonical Thing. */
  function Rebound(dates: map<Id, DateRow>, duplicate: Id, canonical: Id): map<Id, DateRow> {
    map d | d in dates :: if dates[d].thing == duplicate then dates[d].(thing := canonical) else dates[d]
  }

  function WithoutDatesOf(dates: map<Id, DateRow>, thing: Id): map<Id, DateRow> {
    map d | d in dates && dates[d].thing != thing :: dates[d]
  }

  /** The unique index on the primary dates of a Thing and kind refuses to move a second one in. */
  predicate PrimariesClash(dates: map<Id, DateRow>, duplicate: Id, canonical: Id) {
    exists a, b | a in dates && b in dates ::
      && dates[a].thing == duplicate && dates[b].thing == canonical && dates[a].primary && dates[b].primary && dates[a].kind == dates[b].kind
  }

  function MergeError(s: Store, canonical: Id, duplicate: Id, canonicalVersion: nat, duplicateVersion: nat): Option<WriteError> {
    if !Live(s.things, canonical) || !Live(s.things, duplicate) then Some(NotFound)
    else if s.things[canonical].version != canonicalVersion || s.things[duplicate].version != duplicateVersion then Some(VersionConflict)
    else if s.things[duplicate].mergedInto != None then Some(InvalidTransition)
    else if PrimariesClash(s.dates, duplicate, canonical) then Some(PrimaryConflict)
    else None
  }

  function AfterMerge(s: Store, canonical: Id, duplicate: Id, canonicalVersion: nat, duplicateVersion: nat, key: Key)
    : (Result<Written, WriteError>, Store)
  {
    if canonical == duplicate then (Err(SameThing), s)
    else if key in s.audit then (Replayed(s.audit[key].target, s.audit[key].version), s)
    else match MergeError(s, canonical, duplicate, canonicalVersion, duplicateVersion)
      case Some(e) => (Err(e), s)
      case None =>
        var version := s.things[duplicate].version + 1;
        (Ok(Written(duplicate, version, false)),
         s.(things := Merged(s.things, duplicate, canonical), dates := Rebound(s.dates, duplicate, canonical),
            audit := s.audit[key := Receipt(duplicate, Some(version), None, None)]))
  }

  function AfterDelete(s: Store, id: Id, version: nat, key: Key): (Result<Written, WriteError>, Store) {
    if key in s.audit then (Replayed(s.audit[key].target, s.audit[key].version), s)
    else if !Live(s.things, id) then (Err(NotFound), s)
    else if s.things[id].version != version then (Err(VersionConflict), s)
    else if s.things[id].mergedInto != None then (Err(InvalidTransition), s)
    else
      (Ok(Written(id, version + 1, false)),
       s.(things := s.things[id := s.things[id].(deleted := true, version := version + 1)], dates := WithoutDatesOf(s.dates, id),
          audit := s.audit[key := Receipt(id, Some(version + 1), None, None)]))
  }

  /** The write operations, each one unit of work over the rows. */
  class PersonalState {
    var things: map<Id, ThingRow>
    var dates: map<Id, DateRow>
    var sources: set<Id>
    var audit: map<Key, Receipt>

    constructor (s: Store)
      ensures Db() == s
    {
      things, dates, sources, audit := s.things, s.dates, s.sources, s.audit;
    }

    function Db(): Store
      reads this
    {
      Store(things, dates, sources, audit)
    }

    method ApplyMergeThings(canonical: Id, duplicate: Id, canonicalVersion: nat, duplicateVersion: nat, key: Key)
      returns (r: Result<Written, WriteError>)
      modifies this
      ensures (r, Db()) == AfterMerge(old(Db()), canonical, duplicate, canonicalVersion, duplicateVersion, key)
    {
      if canonical == duplicate {
        return Err(SameThing);
      }
      if key in audit {
        return Replayed(audit[key].target, audit[key].version);
      }
      if canonical !in things || things[canonical].deleted || duplicate !in things || things[duplicate].deleted {
        return Err(NotFound);
      }
      if things[canonical].version != canonicalVersion || things[duplicate].version != duplicateVersion {
        return Err(VersionConflict);
      }
      var thing := new Thing(duplicate, things[duplicate]);
      var merged := thing.MergeInto(canonical);
      if merged.Err? {
        return Err(merged.error);
      }
      if PrimariesClash(dates, duplicate, canonical) {
        return Err(PrimaryConflict);
      }
      things := things[duplicate := thing.Row()];
      dates := Rebound(dates, duplicate, canonical);
      audit := audit[key := Receipt(duplicate, Some(thing.version), None, None)];
      return Ok(Written(duplicate, thing.version, false));
    }

    method ApplyDeleteThing(id: Id, version: nat, key: Key) returns (r: Result<Written, WriteError>)
      modifies this
      ensures (r, Db()) == AfterDelete(old(Db()), id, version, key)
    {
      if key in audit {
        return Replayed(audit[key].target, audit[key].version);
      }
      if id !in things || things[id].deleted {
        return Err(NotFound);
      }
      if things[id].version != version {
        return Err(VersionConflict);
      }
      var thing := new Thing(id, things[id]);
      var deleted := thing.Delete();
      if deleted.Err? {
        return Err(deleted.error);
      }
      things := things[id := thing.Row()];
      dates := WithoutDatesOf(dates, id);
      audit := audit[key := Receipt(id, Some(thing.version), None, None)];
      return Ok(Written(id, thing.version, false));
    }

    /** The redirect walk: the root of the id, or why there is none. */
    method ResolveActiveThing(id: Id) returns (r: Result<Id, WalkError>)
      ensures r.Ok? <==> exists n: nat :: EndsLive(things, id, n)
      ensures forall n: nat | EndsLive(things, id, n) :: r == Ok(Hops(things, id, n).value)
      ensures r == Err(ThingNotFound) <==> exists n: nat :: EndsDead(things, id, n)
      ensures r == Err(RedirectCycle) <==> forall n: nat :: Redirects(things, Hops(things, id, n))
    {
      hide Hops, Redirects, Walked, EndsLive, EndsDead;
      var current, seen: set<Id>, k := id, {}, 0;
      assert Walked(things, id, k, current, seen) by { WalkStarts(things, id); }
      while true
        invariant Walked(things, id, k, current, seen) && seen <= things.Keys
        decreases things.Keys - seen
      {
        if current in seen {
          WalkReturns(things, id, k, current, seen);
          return Err(RedirectCycle);
        }
        if current !in things || things[current].deleted {
          WalkStops(things, id, k, current, seen);
          return Err(ThingNotFound);
        }
        if things[current].mergedInto == None {
          WalkStops(things, id, k, current, seen);
          return Ok(current);
        }
        WalkGoesOn(things, id, k, current, seen);
        seen := seen + {current};
        current := things[current].mergedInto.value;
        k := k + 1;
      }
    }
  }

  // ----- the redirect walk

  datatype WalkError = ThingNotFound | RedirectCycle

  /** The Thing after n redirects from id; the walk stops at a Thing that is missing, deleted or not merged. */
  function Hops(things: map<Id, ThingRow>, id: Id, n: nat): Option<Id> {
    if n == 0 then Some(id)
    else
      var before := Hops(things, id, n - 1);
      if Redirects(things, before) then things[before.value].mergedInto else None
  }

  predicate Redirects(things: map<Id, ThingRow>, id: Option<Id>) {
    id.Some? && Live(things, id.value) && things[id.value].mergedInto.Some?
  }

  predicate EndsLive(things: map<Id, ThingRow>, id: Id, n: nat) {
    Hops(things, id, n).Some? && Live(things, Hops(things, id, n).value) && things[Hops(things, id, n).value].mergedInto == None
  }

  predicate EndsDead(things: map<Id, ThingRow>, id: Id, n: nat) {
    Hops(things, id, n).Some? && !Live(things, Hops(things, id, n).value)
  }

  lemma {:induction false} HopsEnded(things: map<Id, ThingRow>, id: Id, k: nat, n: nat)
    requires !Redirects(things, Hops(things, id, k)) && k < n
    ensures Hops(things, id, n) == None
  {
    if k + 1 < n {
      HopsEnded(things, id, k, n - 1);
    }
  }

  /** A walk has one end: where it first stops. */
  lemma WalkEnds(things: map<Id, ThingRow>, id: Id, k: nat)
    requires Hops(things, id, k).Some? && !Redirects(things, Hops(things, id, k))
    requires forall j | 0 <= j < k :: Redirects(things, Hops(things, id, j))
    ensures forall n: nat | n != k :: !EndsLive(things, id, n) && !EndsDead(things, id, n)
    ensures EndsLive(things, id, k) || EndsDead(things, id, k)
  {
    forall n: nat | n != k ensures !EndsLive(things, id, n) && !EndsDead(things, id, n) {
      if n < k {
        assert Redirects(things, Hops(things, id, n));
      } else {
        HopsEnded(things, id, k, n);
      }
    }
  }

  lemma {:induction false} HopsAdd(things: map<Id, ThingRow>, id: Id, m: nat, n: nat)
    requires Hops(things, id, m).Some?
    ensures Hops(things, Hops(things, id, m).value, n) == Hops(things, id, m + n)
  {
    if n > 0 {
      HopsAdd(things, id, m, n - 1);
    }
  }

  /** A walk that comes back to where it was goes round for ever. */
  lemma Returns(things: map<Id, ThingRow>, id: Id, j: nat, k: nat)
    requires j < k && Hops(things, id, j) == Hops(things, id, k) && Hops(things, id, j).Some?
    requires forall i | 0 <= i < k :: Redirects(things, Hops(things, id, i))
    ensures forall n: nat :: Redirects(things, Hops(things, id, n))
  {
    forall n: nat ensures Redirects(things, Hops(things, id, n)) {
      Round(things, id, j, k, n);
    }
  }

  lemma {:induction false} Round(things: map<Id, ThingRow>, id: Id, j: nat, k: nat, n: nat)
    requires j < k && Hops(things, id, j) == Hops(things, id, k) && Hops(things, id, j).Some?
    requires forall i | 0 <= i < k :: Redirects(things, Hops(things, id, i))
    ensures Redirects(things, Hops(things, id, n))
  {
    if n >= k {
      Round(things, id, j, k, n - (k - j));
      HopsAdd(things, id, j, n - k);
      HopsAdd(things, id, k, n - k);
    }
  }

  /** After k redirects the walk from id is at current, and has seen exactly the Things before it. */
  ghost predicate Walked(things: map<Id, ThingRow>, id: Id, k: nat, current: Id, seen: set<Id>) {
    && Hops(things, id, k) == Some(current)
    && (forall j | 0 <= j < k :: Redirects(things, Hops(things, id, j)) && Hops(things, id, j).value in seen)
    && (forall x | x in seen :: exists j :: 0 <= j < k && Hops(things, id, j) == Some(x))
  }

  lemma WalkStarts(things: map<Id, ThingRow>, id: Id)
    ensures Walked(things, id, 0, id, {})
  {
  }

  lemma WalkGoesOn(things: map<Id, ThingRow>, id: Id, k: nat, current: Id, seen: set<Id>)
    requires Walked(things, id, k, current, seen) && Live(things, current) && things[current].mergedInto.Some?
    ensures Walked(things, id, k + 1, things[current].mergedInto.value, seen + {current})
  {
    forall x | x in seen + {current} ensures exists j :: 0 <= j < k + 1 && Hops(things, id, j) == Some(x) {
      if x == current {
        assert Hops(things, id, k) == Some(x);
      }
    }
  }

  lemma WalkReturns(things: map<Id, ThingRow>, id: Id, k: nat, current: Id, seen: set<Id>)
    requires Walked(things, id, k, current, seen) && current in seen
    ensures forall n: nat :: Redirects(things, Hops(things, id, n)) && !EndsLive(things, id, n) && !EndsDead(things, id, n)
  {
    var j :| 0 <= j < k && Hops(things, id, j) == Some(current);
    Returns(things, id, j, k);
  }

  lemma WalkStops(things: map<Id, ThingRow>, id: Id, k: nat, current: Id, seen: set<Id>)
    requires Walked(things, id, k, current, seen) && !(Live(things, current) && things[current].mergedInto.Some?)
    ensures Hops(things, id, k) == Some(current) && !Redirects(things, Hops(things, id, k))
    ensures if Live(things, current) then EndsLive(things, id, k) && !EndsDead(things, id, k) else EndsDead(things, id, k) && !EndsLive(things, id, k)
    ensures forall n: nat | n != k :: !EndsLive(things, id, n) && !EndsDead(things, id, n)
  {
    WalkEnds(things, id, k);
  }

  // ----- forests

  /** The walk from the id comes to an end. */
  ghost predicate Ends(things: map<Id, ThingRow>, id: Id) {
    exists n: nat :: !Redirects(things, Hops(things, id, n))
  }

  /** The redirects form a forest: every walk ends. */
  ghost predicate Forest(things: map<Id, ThingRow>) {
    forall id :: Ends(things, id)
  }

  /** The walk from the id comes through the target. */
  ghost predicate Reaches(things: map<Id, ThingRow>, id: Id, target: Id) {
    exists n: nat :: Hops(things, id, n) == Some(target)
  }

  /** Until it first comes to the duplicate, a walk is the same before and after the merge. */
  lemma {:induction false} MergeKeepsHops(things: map<Id, ThingRow>, duplicate: Id, canonical: Id, id: Id, n: nat)
    requires duplicate in things && forall k | 0 <= k < n :: Hops(things, id, k) != Some(duplicate)
    ensures Hops(Merged(things, duplicate, canonical), id, n) == Hops(things, id, n)
    ensures Hops(things, id, n) != Some(duplicate) ==>
            Redirects(Merged(things, duplicate, canonical), Hops(things, id, n)) == Redirects(things, Hops(things, id, n))
  {
    if n > 0 {
      MergeKeepsHops(things, duplicate, canonical, id, n - 1);
    }
  }

  lemma {:induction false} FirstHop(things: map<Id, ThingRow>, id: Id, target: Id, n: nat) returns (k: nat)
    requires Hops(things, id, n) == Some(target)
    ensures k <= n && Hops(things, id, k) == Some(target) && forall j | 0 <= j < k :: Hops(things, id, j) != Some(target)
  {
    k := 0;
    while Hops(things, id, k) != Some(target)
      invariant k <= n && forall j | 0 <= j < k :: Hops(things, id, j) != Some(target)
      decreases n - k
    {
      k := k + 1;
    }
  }

  /** A merge keeps the forest exactly when the walk from the canonical Thing does not come to the duplicate. */
  lemma MergeKeepsForestExactly(things: map<Id, ThingRow>, duplicate: Id, canonical: Id)
    requires Forest(things) && Live(things, duplicate) && things[duplicate].mergedInto == None
    ensures Forest(Merged(things, duplicate, canonical)) <==> !Reaches(things, canonical, duplicate)
  {
    var after := Merged(things, duplicate, canonical);
    if Reaches(things, canonical, duplicate) {
      MergeMakesCycle(things, duplicate, canonical);
    } else {
      forall id ensures Ends(after, id) {
        MergedWalkEnds(things, duplicate, canonical, id);
      }
    }
  }

  lemma MergeMakesCycle(things: map<Id, ThingRow>, duplicate: Id, canonical: Id)
    requires Live(things, duplicate) && things[duplicate].mergedInto == None && Reaches(things, canonical, duplicate)
    ensures !Ends(Merged(things, duplicate, canonical), duplicate)
  {
    var after := Merged(things, duplicate, canonical);
    var n: nat :| Hops(things, canonical, n) == Some(duplicate);
    var k := FirstHop(things, canonical, duplicate, n);
    MergeKeepsHops(things, duplicate, canonical, canonical, k);
    assert Hops(after, duplicate, 1) == Some(canonical);
    HopsAdd(after, duplicate, 1, k);
    forall i | 0 <= i < k + 1 ensures Redirects(after, Hops(after, duplicate, i)) {
      if Hops(after, duplicate, i) == None || !Redirects(after, Hops(after, duplicate, i)) {
        HopsEnded(after, duplicate, i, k + 1);
      }
    }
    Returns(after, duplicate, 0, k + 1);
  }

  lemma MergedWalkEnds(things: map<Id, ThingRow>, duplicate: Id, canonical: Id, id: Id)
    requires Forest(things) && duplicate in things && !Reaches(things, canonical, duplicate)
    ensures Ends(Merged(things, duplicate, canonical), id)
  {
    var after := Merged(things, duplicate, canonical);
    CanonicalWalkEnds(things, duplicate, canonical);
    if Reaches(things, id, duplicate) {
      var n: nat :| Hops(things, id, n) == Some(duplicate);
      var k := FirstHop(things, id, duplicate, n);
      MergeKeepsHops(things, duplicate, canonical, id, k);
      if Redirects(after, Some(duplicate)) {
        var m: nat :| !Redirects(after, Hops(after, canonical, m));
        assert Hops(after, id, k + 1) == Some(canonical);
        HopsAdd(after, id, k + 1, m);
      }
    } else {
      assert Ends(things, id);
      var n: nat :| !Redirects(things, Hops(things, id, n));
      MergeKeepsHops(things, duplicate, canonical, id, n);
    }
  }

  lemma CanonicalWalkEnds(things: map<Id, ThingRow>, duplicate: Id, canonical: Id)
    requires Forest(things) && duplicate in things && !Reaches(things, canonical, duplicate)
    ensures Ends(Merged(things, duplicate, canonical), canonical)
  {
    assert Ends(things, canonical);
    var n: nat :| !Redirects(things, Hops(things, canonical, n));
    MergeKeepsHops(things, duplicate, canonical, canonical, n);
  }

  /** After a merge that keeps the forest, the duplicate resolves to whatever the canonical Thing resolved to, and every walk
      that did not come to the duplicate still ends where it did. */
  lemma MergeRedirectsToRoot(things: map<Id, ThingRow>, duplicate: Id, canonical: Id, id: Id, n: nat)
    requires Live(things, duplicate) && !Reaches(things, canonical, duplicate)
    ensures var after := Merged(things, duplicate, canonical);
            && (EndsLive(things, canonical, n) ==> EndsLive(after, duplicate, n + 1) && Hops(after, duplicate, n + 1) == Hops(things, canonical, n))
            && (!Reaches(things, id, duplicate) && EndsLive(things, id, n) ==> EndsLive(after, id, n) && Hops(after, id, n) == Hops(things, id, n))
  {
    var after := Merged(things, duplicate, canonical);
    MergeKeepsHops(things, duplicate, canonical, canonical, n);
    assert Hops(after, duplicate, 1) == Some(canonical);
    HopsAdd(after, duplicate, 1, n);
    if !Reaches(things, id, duplicate) {
      MergeKeepsHops(things, duplicate, canonical, id, n);
    }
  }

  /** In a forest the walk never reports a cycle: it ends at a live root, or at a Thing that is gone. */
  lemma {:induction false} ForestWalkEnds(things: map<Id, ThingRow>, id: Id) returns (k: nat)
    requires Forest(things)
    ensures EndsLive(things, id, k) || EndsDead(things, id, k)
  {
    assert Ends(things, id);
    var n: nat :| !Redirects(things, Hops(things, id, n));
    k := 0;
    while Redirects(things, Hops(things, id, k))
      invariant Hops(things, id, k).Some? && k <= n
      decreases n - k
    {
      k := k + 1;
    }
  }

  // ----- histories

  /** The writes to Things and their dates; Touch stands for every write that changes neither redirect nor deletion, whatever it does to
      the deadline and to the dates. */
  datatype Op =
    | Create(id: Id)
    | Touch(id: Id, deadline: Option<int>, dates: map<Id, DateRow>)
    | Merge(canonical: Id, duplicate: Id, canonicalVersion: nat, duplicateVersion: nat, key: Key)
    | Delete(id: Id, version: nat, key: Key)

  function Apply(s: Store, op: Op): Store {
    match op
    case Create(id) => if id in s.things then s else s.(things := s.things[id := ThingRow(1, None, None, false)])
    case Touch(id, deadline, dates) =>
      if id in s.things then
        s.(things := s.things[id := s.things[id].(deadline := deadline, version := s.things[id].version + 1)], dates := dates)
      else s
    case Merge(c, d, cv, dv, key) => AfterMerge(s, c, d, cv, dv, key).1
    case Delete(id, version, key) => AfterDelete(s, id, version, key).1
  }

  function Run(s: Store, ops: seq<Op>): Store {
    if ops == [] then s else Apply(Run(s, ops[..|ops| - 1]), ops[|ops| - 1])
  }

  /** A merge that takes effect although the canonical Thing resolves through the duplicate. */
  ghost predicate ClosesCycle(s: Store, op: Op) {
    op.Merge? && op.canonical != op.duplicate && op.key !in s.audit
    && MergeError(s, op.canonical, op.duplicate, op.canonicalVersion, op.duplicateVersion) == None
    && Reaches(s.things, op.canonical, op.duplicate)
  }

  function Target(things: map<Id, ThingRow>, id: Id): Option<Id> {
    if Live(things, id) then things[id].mergedInto else None
  }

  /** Writes that leave the redirects of all Things alone leave all walks alone. */
  lemma {:induction false} SameHops(a: map<Id, ThingRow>, b: map<Id, ThingRow>, id: Id, n: nat)
    requires forall x :: Target(a, x) == Target(b, x)
    ensures Hops(a, id, n) == Hops(b, id, n) && Redirects(a, Hops(a, id, n)) == Redirects(b, Hops(b, id, n))
  {
    if n > 0 {
      SameHops(a, b, id, n - 1);
      var before := Hops(a, id, n - 1);
      assert before.Some? ==> Target(a, before.value) == Target(b, before.value);
    }
    var here := Hops(a, id, n);
    assert here.Some? ==> Target(a, here.value) == Target(b, here.value);
  }

  lemma SameForest(a: map<Id, ThingRow>, b: map<Id, ThingRow>)
    requires forall x :: Target(a, x) == Target(b, x)
    ensures Forest(a) <==> Forest(b)
  {
    forall id ensures Ends(a, id) <==> Ends(b, id) {
      forall n: nat ensures Redirects(a, Hops(a, id, n)) == Redirects(b, Hops(b, id, n)) {
        SameHops(a, b, id, n);
      }
    }
  }

  /** No write can open a cycle again: a walk that never ends does not pass the duplicate of a later merge. */
  lemma CyclesStay(things: map<Id, ThingRow>, duplicate: Id, canonical: Id)
    requires !Forest(things) && Live(things, duplicate) && things[duplicate].mergedInto == None
    ensures !Forest(Merged(things, duplicate, canonical))
  {
    var id :| !Ends(things, id);
    var after := Merged(things, duplicate, canonical);
    forall n: nat ensures Redirects(after, Hops(after, id, n)) {
      assert forall k: nat :: Redirects(things, Hops(things, id, k));
      MergeKeepsHops(things, duplicate, canonical, id, n);
    }
    assert !Ends(after, id);
  }

  lemma ForestStep(s: Store, op: Op)
    ensures Forest(Apply(s, op).things) <==> Forest(s.things) && !ClosesCycle(s, op)
  {
    var t := Apply(s, op);
    if op.Merge? && t != s {
      if Forest(s.things) {
        MergeKeepsForestExactly(s.things, op.duplicate, op.canonical);
      } else {
        CyclesStay(s.things, op.duplicate, op.canonical);
      }
    } else if op.Merge? {
      MergeWrites(s, op);
    } else {
      SameForest(s.things, t.things);
    }
  }

  lemma MergeWrites(s: Store, op: Op)
    requires op.Merge? && Apply(s, op) == s
    ensures !ClosesCycle(s, op)
  {
    var after := AfterMerge(s, op.canonical, op.duplicate, op.canonicalVersion, op.duplicateVersion, op.key);
    assert after.0.Ok? ==> op.key in after.1.audit;
  }

  /** The i-th write of the history closes no cycle. */
  ghost predicate KeepsForest(ops: seq<Op>, i: nat)
    requires i < |ops|
  {
    !ClosesCycle(Run(NO_THINGS, ops[..i]), ops[i])
  }

  /** Starting from no Things, the redirects form a forest exactly when no merge of the history went through although its
      canonical Thing resolved through its duplicate. A caller can check this before each merge by resolving the canonical Thing. */
  lemma {:induction false} ForestExactly(ops: seq<Op>)
    ensures Forest(Run(NO_THINGS, ops).things) <==> forall i | 0 <= i < |ops| :: KeepsForest(ops, i)
  {
    hide Apply, ClosesCycle, Forest, KeepsForest;
    if ops == [] {
      EmptyForest();
    } else {
      var n := |ops| - 1;
      ForestExactly(ops[..n]);
      ForestStep(Run(NO_THINGS, ops[..n]), ops[n]);
      forall i | 0 <= i < n ensures KeepsForest(ops[..n], i) == KeepsForest(ops, i) {
        KeepsForestPrefix(ops, n, i);
      }
      LastKeepsForest(ops);
    }
  }

  lemma KeepsForestPrefix(ops: seq<Op>, n: nat, i: nat)
    requires i < n <= |ops|
    ensures KeepsForest(ops[..n], i) == KeepsForest(ops, i)
  {
    hide ClosesCycle;
    assert ops[..n][..i] == ops[..i];
  }

  lemma LastKeepsForest(ops: seq<Op>)
    requires ops != []
    ensures KeepsForest(ops, |ops| - 1) <==> !ClosesCycle(Run(NO_THINGS, ops[..|ops| - 1]), ops[|ops| - 1])
  {
    hide ClosesCycle;
  }

  lemma EmptyForest()
    ensures Forest(map[])
  {
    forall id ensures Ends(map[], id) {
      assert !Redirects(map[], Hops(map[], id, 0));
    }
  }

  /** The guard is not in the code: two Things can be merged into each other, and then neither resolves. */
  lemma MergingBothWaysMakesCycle()
    ensures var two := Apply(Apply(NO_THINGS, Create(1)), Create(2));
            var first := AfterMerge(two, 1, 2, 1, 1, 7);
            var second := AfterMerge(first.1, 2, 1, 2, 1, 8);
            && first.0 == Ok(Written(2, 2, false)) && second.0 == Ok(Written(1, 2, false))
            && !Forest(second.1.things) && !Ends(second.1.things, 1) && !Ends(second.1.things, 2)
  {
    hide Forest, Ends;
    var two := Apply(Apply(NO_THINGS, Create(1)), Create(2));
    var first := AfterMerge(two, 1, 2, 1, 1, 7);
    var second := AfterMerge(first.1, 2, 1, 2, 1, 8);
    assert first.1.things == map[1 := ThingRow(1, None, None, false), 2 := ThingRow(2, None, Some(1), false)];
    BothCycle(first.1.things, second.1.things);
  }

  lemma BothCycle(one: map<Id, ThingRow>, both: map<Id, ThingRow>)
    requires one == map[1 := ThingRow(1, None, None, false), 2 := ThingRow(2, None, Some(1), false)] && both == Merged(one, 1, 2)
    ensures !Ends(both, 1) && !Ends(both, 2) && !Forest(both)
  {
    assert Hops(both, 1, 0) == Some(1) && Hops(both, 1, 1) == Some(2) && Hops(both, 1, 2) == Some(1);
    assert Hops(both, 2, 0) == Some(2) && Hops(both, 2, 1) == Some(1) && Hops(both, 2, 2) == Some(2);
    Returns(both, 1, 0, 2);
    Returns(both, 2, 0, 2);
  }
}
