/** Dates of a Thing and the deadline projected from them: setting and updating a date (application/personal_state/write_ops.py),
    ThingDate.revise and Thing.set_primary_deadline (domain/personal_state/entities.py), and what merging and deleting do to both. */
module Deadlines {
  import opened Wrappers
  import opened PyText
  import opened StateRows
  import opened MergeRedirects

  // ----- entities

  // A datetime, which may lack timezone information.
  datatype Time = Time(instant: int, aware: bool)

  /** The fields of a date that a caller gives. */
  datatype DateInput = DateInput(value: Time, zone: string, precision: Precision, certainty: Certainty, primary: bool)

  function InputError(i: DateInput): Option<WriteError> {
    if !i.value.aware then Some(MissingTimezone)
    else if Strip(i.zone) == "" then Some(BlankZone)
    else if i.primary && i.certainty != Confirmed then Some(UnconfirmedPrimary)
    else None
  }

  function Revised(row: DateRow, i: DateInput): DateRow {
    row.(value := i.value.instant, zone := Strip(i.zone), precision := i.precision, certainty := i.certainty, primary := i.primary,
         version := row.version + 1)
  }

  class ThingDate {
    var row: DateRow

    constructor (row: DateRow)
      ensures this.row == row
    {
      this.row := row;
    }

    method Revise(i: DateInput) returns (r: Result<(), WriteError>)
      modifies this
      ensures r == match InputError(i) case Some(e) => Err(e) case None => Ok(())
      ensures row == if r.Ok? then Revised(old(row), i) else old(row)
    {
      if !i.value.aware {
        return Err(MissingTimezone);
      }
      if Strip(i.zone) == "" {
        return Err(BlankZone);
      }
      if i.primary && i.certainty != Confirmed {
        return Err(UnconfirmedPrimary);
      }
      row := row.(value := i.value.instant, zone := Strip(i.zone), precision := i.precision, certainty := i.certainty);
      row := row.(primary := i.primary, version := row.version + 1);
      return Ok(());
    }
  }

  // ----- the operations

  function UnsetPrimary(dates: map<Id, DateRow>, thing: Id, kind: Kind): map<Id, DateRow> {
    map id | id in dates :: if dates[id].thing == thing && dates[id].kind == kind then dates[id].(primary := false) else dates[id]
  }

  function NewDate(thing: Id, kind: Kind, i: DateInput, source: Option<Id>): DateRow {
    DateRow(thing, kind, i.value.instant, Strip(i.zone), i.precision, i.certainty, i.primary, source, 1)
  }

  function Projected(t: ThingRow, value: Option<int>): ThingRow { t.(deadline := value, version := t.version + 1) }

  function SetError(s: Store, thing: Id, source: Option<Id>, version: nat, date: Id): Option<WriteError> {
    if !Live(s.things, thing) then Some(NotFound)
    else if s.things[thing].version != version then Some(VersionConflict)
    else if source.Some? && source.value !in s.sources then Some(NotFound)
    else if date in s.dates then Some(DuplicateId)
    else None
  }

  /** Sets a date of a Thing; the date id is the new UUID of the row. */
  function AfterSet(s: Store, thing: Id, kind: Kind, i: DateInput, source: Option<Id>, version: nat, date: Id, key: Key)
    : (Result<Written, WriteError>, Store)
  {
    match InputError(i)
    case Some(e) => (Err(e), s)
    case None =>
      if key in s.audit then (Replayed(s.audit[key].target, s.audit[key].thingVersion), s)
      else match SetError(s, thing, source, version, date)
        case Some(e) => (Err(e), s)
        case None =>
          var t := s.things[thing];
          var after := if i.primary then Projected(t, Some(i.value.instant)) else t;
          var dates := if i.primary then UnsetPrimary(s.dates, thing, kind) else s.dates;
          (Ok(Written(date, after.version, false)),
           s.(things := s.things[thing := after], dates := dates[date := NewDate(thing, kind, i, source)],
              audit := s.audit[key := Receipt(date, None, None, Some(after.version))]))
  }

  function UpdateError(s: Store, date: Id, i: DateInput, version: nat, thingVersion: nat): Option<WriteError> {
    if date !in s.dates then Some(NotFound)
    else if s.dates[date].version != version then Some(VersionConflict)
    else if !Live(s.things, s.dates[date].thing) then Some(NotFound)
    else if s.things[s.dates[date].thing].version != thingVersion then Some(VersionConflict)
    else InputError(i)
  }

  function AfterUpdate(s: Store, date: Id, i: DateInput, version: nat, thingVersion: nat, key: Key): (Result<Written, WriteError>, Store) {
    if key in s.audit then (Replayed(s.audit[key].target, s.audit[key].dateVersion), s)
    else match UpdateError(s, date, i, version, thingVersion)
      case Some(e) => (Err(e), s)
      case None =>
        var d := s.dates[date];
        var t := s.things[d.thing];
        var after := if i.primary then Projected(t, Some(i.value.instant)) else if d.primary then Projected(t, None) else t;
        var dates := if i.primary then UnsetPrimary(s.dates, d.thing, d.kind) else s.dates;
        (Ok(Written(date, version + 1, false)),
         s.(things := s.things[d.thing := after], dates := dates[date := Revised(d, i)],
            audit := s.audit[key := Receipt(date, None, Some(version + 1), Some(after.version))]))
  }

  /** The date operations over the rows of the store. */
  class DateWrites {
    const state: PersonalState

    constructor (state: PersonalState)
      ensures this.state == state
    {
      this.state := state;
    }

    method ApplySetDeadline(thingId: Id, kind: Kind, i: DateInput, source: Option<Id>, expectedVersion: nat, date: Id, key: Key)
      returns (r: Result<Written, WriteError>)
      modifies state
      ensures (r, state.Db()) == AfterSet(old(state.Db()), thingId, kind, i, source, expectedVersion, date, key)
    {
      hide Strip, UnsetPrimary;
      if !i.value.aware {
        return Err(MissingTimezone);
      }
      if Strip(i.zone) == "" {
        return Err(BlankZone);
      }
      if i.primary && i.certainty != Confirmed {
        return Err(UnconfirmedPrimary);
      }
      if key in state.audit {
        return Replayed(state.audit[key].target, state.audit[key].thingVersion);
      }
      if thingId !in state.things || state.things[thingId].deleted {
        return Err(NotFound);
      }
      var thing := new Thing(thingId, state.things[thingId]);
      if thing.version != expectedVersion {
        return Err(VersionConflict);
      }
      if source.Some? && source.value !in state.sources {
        return Err(NotFound);
      }
      if date in state.dates {
        return Err(DuplicateId);
      }
      if i.primary {
        thing.Project(Some(i.value.instant));
        state.dates := UnsetPrimary(state.dates, thingId, kind);
      }
      state.things := state.things[thingId := thing.Row()];
      state.dates := state.dates[date := DateRow(thingId, kind, i.value.instant, Strip(i.zone), i.precision, i.certainty, i.primary, source, 1)];
      state.audit := state.audit[key := Receipt(date, None, None, Some(thing.version))];
      return Ok(Written(date, thing.version, false));
    }

    method ApplyUpdateDate(date: Id, i: DateInput, expectedVersion: nat, expectedThingVersion: nat, key: Key)
      returns (r: Result<Written, WriteError>)
      modifies state
      ensures (r, state.Db()) == AfterUpdate(old(state.Db()), date, i, expectedVersion, expectedThingVersion, key)
    {
      hide Strip, UnsetPrimary;
      if key in state.audit {
        return Replayed(state.audit[key].target, state.audit[key].dateVersion);
      }
      if date !in state.dates {
        return Err(NotFound);
      }
      var thingDate := new ThingDate(state.dates[date]);
      if thingDate.row.version != expectedVersion {
        return Err(VersionConflict);
      }
      var thingId, kind := thingDate.row.thing, thingDate.row.kind;
      if thingId !in state.things || state.things[thingId].deleted {
        return Err(NotFound);
      }
      var thing := new Thing(thingId, state.things[thingId]);
      if thing.version != expectedThingVersion {
        return Err(VersionConflict);
      }
      var wasPrimary := thingDate.row.primary;
      var revised := thingDate.Revise(i);
      if revised.Err? {
        return Err(revised.error);
      }
      if i.primary {
        state.dates := UnsetPrimary(state.dates, thingId, kind);
        thing.Project(Some(i.value.instant));
      } else if wasPrimary {
        thing.Project(None);
      }
      state.things := state.things[thingId := thing.Row()];
      state.dates := state.dates[date := thingDate.row];
      state.audit := state.audit[key := Receipt(date, None, Some(thingDate.row.version), Some(thing.version))];
      return Ok(Written(date, thingDate.row.version, false));
    }
  }

  // ----- histories

  /** A Thing is created once for each key; a used key answers for the Thing that it named. */
  function AfterCreate(s: Store, thing: Id, key: Key): (Result<Written, WriteError>, Store) {
    if key in s.audit then
      var target := s.audit[key].target;
      (if Live(s.things, target) then Ok(Written(target, s.things[target].version, true)) else Err(MissingThing), s)
    else if thing in s.things then (Err(DuplicateId), s)
    else
      (Ok(Written(thing, 1, false)),
       s.(things := s.things[thing := ThingRow(1, None, None, false)], audit := s.audit[key := Receipt(thing, Some(1), None, None)]))
  }

  /** A Thing is revised: of these rows, only its version changes. */
  function AfterTouch(s: Store, thing: Id, version: nat, key: Key): (Result<Written, WriteError>, Store) {
    if key in s.audit then
      (if Live(s.things, thing) then Ok(Written(thing, s.things[thing].version, true)) else Err(MissingThing), s)
    else if !Live(s.things, thing) then (Err(NotFound), s)
    else if s.things[thing].version != version then (Err(VersionConflict), s)
    else
      (Ok(Written(thing, version + 1, false)),
       s.(things := s.things[thing := s.things[thing].(version := version + 1)],
          audit := s.audit[key := Receipt(thing, Some(version + 1), None, None)]))
  }

  /** The writes to Things and dates; Touch stands for every write that changes neither date, deadline, redirect nor deletion. */
  datatype Op =
    | Create(thing: Id, key: Key)
    | Touch(thing: Id, version: nat, key: Key)
    | Set(thing: Id, kind: Kind, input: DateInput, source: Option<Id>, version: nat, date: Id, key: Key)
    | Update(date: Id, input: DateInput, version: nat, thingVersion: nat, key: Key)
    | Merge(canonical: Id, duplicate: Id, canonicalVersion: nat, duplicateVersion: nat, key: Key)
    | Delete(thing: Id, version: nat, key: Key)

  function Apply(s: Store, op: Op): (Result<Written, WriteError>, Store) {
    match op
    case Create(thing, key) => AfterCreate(s, thing, key)
    case Touch(thing, version, key) => AfterTouch(s, thing, version, key)
    case Set(thing, kind, i, source, version, date, key) => AfterSet(s, thing, kind, i, source, version, date, key)
    case Update(date, i, version, thingVersion, key) => AfterUpdate(s, date, i, version, thingVersion, key)
    case Merge(canonical, duplicate, cv, dv, key) => AfterMerge(s, canonical, duplicate, cv, dv, key)
    case Delete(thing, version, key) => AfterDelete(s, thing, version, key)
  }

  function Run(s: Store, ops: seq<Op>): Store {
    if ops == [] then s else Apply(Run(s, ops[..|ops| - 1]), ops[|ops| - 1]).1
  }

  /** The operation is accepted, and not as a replay. */
  predicate Effective(s: Store, op: Op) { Apply(s, op).0.Ok? && !Apply(s, op).0.value.replayed }

  lemma NoEffect(s: Store, op: Op)
    ensures !Effective(s, op) ==> Apply(s, op).1 == s
  {
    hide Strip, UnsetPrimary, Rebound, WithoutDatesOf, PrimariesClash;
  }

  // ----- the projection

  ghost predicate OnePrimary(dates: map<Id, DateRow>) {
    forall a, b | a in dates && b in dates && dates[a].primary && dates[b].primary && dates[a].thing == dates[b].thing
                  && dates[a].kind == dates[b].kind :: a == b
  }

  ghost predicate PrimariesConfirmed(dates: map<Id, DateRow>) {
    forall d | d in dates && dates[d].primary :: dates[d].certainty == Confirmed
  }

  /** Some primary date of the Thing has this value. */
  ghost predicate HasPrimary(dates: map<Id, DateRow>, thing: Id, value: int) {
    exists d :: d in dates && dates[d].primary && dates[d].thing == thing && dates[d].value == value
  }

  /** The deadline of the Thing, if it has one, is the value of a date that is primary now. */
  ghost predicate Backed(s: Store, t: Id)
    requires t in s.things
  {
    s.things[t].deadline.Some? ==> HasPrimary(s.dates, t, s.things[t].deadline.value)
  }

  predicate Standing(s: Store, t: Id) { Live(s.things, t) && s.things[t].mergedInto == None }

  ghost predicate Sound(dates: map<Id, DateRow>) { OnePrimary(dates) && PrimariesConfirmed(dates) }

  ghost predicate Consistent(s: Store) {
    Sound(s.dates) && forall t | t in s.things && Standing(s, t) :: Backed(s, t)
  }

  /** Every deadline is backed, also of Things that have been merged away or deleted. */
  ghost predicate AllBacked(s: Store) {
    Sound(s.dates) && forall t | t in s.things :: Backed(s, t)
  }

  /** Every primary date belongs to a Thing that has a deadline. */
  ghost predicate Complete(s: Store) {
    forall d | d in s.dates && s.dates[d].primary :: s.dates[d].thing in s.things && s.things[s.dates[d].thing].deadline.Some?
  }

  /** Writing one date row, after the primaries of its kind were unset if it is primary itself. */
  function WriteDate(s: Store, date: Id, row: DateRow): map<Id, DateRow> {
    (if row.primary then UnsetPrimary(s.dates, row.thing, row.kind) else s.dates)[date := row]
  }

  /** What an effective set or update makes of the dates and of the deadline of its Thing. */
  lemma WriteIs(s: Store, op: Op)
    requires (op.Set? || op.Update?) && Effective(s, op)
    ensures var (_, after) := Apply(s, op);
            && op.date in after.dates
            && var row := after.dates[op.date];
               && row.thing in s.things && after.things.Keys == s.things.Keys && after.dates == WriteDate(s, op.date, row)
               && (row.primary <==> op.input.primary) && row.value == op.input.value.instant && (row.primary ==> row.certainty == Confirmed)
               && (op.Set? <==> op.date !in s.dates)
               && (op.date in s.dates ==> row.thing == s.dates[op.date].thing && row.kind == s.dates[op.date].kind)
               && after.things[row.thing].mergedInto == s.things[row.thing].mergedInto
               && after.things[row.thing].deleted == s.things[row.thing].deleted
               && after.things[row.thing].deadline == (if row.primary then Some(row.value)
                                                       else if op.date in s.dates && s.dates[op.date].primary then None
                                                       else s.things[row.thing].deadline)
               && (forall t | t in s.things && t != row.thing :: after.things[t] == s.things[t])
  {
    hide Strip, UnsetPrimary;
  }

  lemma SoundStep(s: Store, op: Op)
    requires Sound(s.dates)
    ensures Sound(Apply(s, op).1.dates)
  {
    hide Strip, Apply, Effective, Sound;
    NoEffect(s, op);
    if !Effective(s, op) {
    } else if op.Create? || op.Touch? {
      PlainIs(s, op);
    } else if op.Set? || op.Update? {
      WriteIs(s, op);
      WriteKeepsSound(s, op.date, Apply(s, op).1.dates[op.date]);
    } else {
      RedirectIs(s, op);
      RedirectKeepsSound(s.dates, op);
    }
  }

  lemma WriteKeepsSound(s: Store, date: Id, row: DateRow)
    requires Sound(s.dates) && (row.primary ==> row.certainty == Confirmed)
    requires date in s.dates ==> row.thing == s.dates[date].thing && row.kind == s.dates[date].kind
    ensures Sound(WriteDate(s, date, row))
  {
  }

  lemma RedirectKeepsSound(dates: map<Id, DateRow>, op: Op)
    requires Sound(dates)
    ensures op.Merge? && !PrimariesClash(dates, op.duplicate, op.canonical) ==> Sound(Rebound(dates, op.duplicate, op.canonical))
    ensures op.Delete? ==> Sound(WithoutDatesOf(dates, op.thing))
  {
  }

  /** What creating and revising a Thing make of the rows. */
  lemma PlainIs(s: Store, op: Op)
    requires op.Create? || op.Touch?
    ensures var (_, after) := Apply(s, op);
            && after.dates == s.dates && s.things.Keys <= after.things.Keys
            && (forall t | t in s.things :: after.things[t] == s.things[t].(version := after.things[t].version))
            && (forall t | t in after.things && t !in s.things :: after.things[t].deadline == None)
  {
  }

  /** What an effective merge or deletion makes of the rows. */
  lemma RedirectIs(s: Store, op: Op)
    requires (op.Merge? || op.Delete?) && Effective(s, op)
    ensures var (_, after) := Apply(s, op);
            && after.things.Keys == s.things.Keys && (forall t | t in s.things :: after.things[t].deadline == s.things[t].deadline)
            && (forall t | t in s.things && Standing(after, t) :: Standing(s, t) && t != Gone(op))
            && Gone(op) in s.things && !Standing(after, Gone(op))
            && (op.Merge? ==> op.canonical != op.duplicate && op.canonical in s.things
                              && !PrimariesClash(s.dates, op.duplicate, op.canonical) && after.dates == Rebound(s.dates, op.duplicate, op.canonical))
            && (op.Delete? ==> after.dates == WithoutDatesOf(s.dates, op.thing))
  {
    hide Rebound, WithoutDatesOf, PrimariesClash;
  }

  /** The Thing that a merge or deletion takes away. */
  function Gone(op: Op): Id
    requires op.Merge? || op.Delete?
  {
    if op.Merge? then op.duplicate else op.thing
  }

  /** The operation takes a Thing away that has a deadline: its dates go, the deadline stays. */
  predicate Strands(s: Store, op: Op, t: Id) {
    (op.Merge? || op.Delete?) && Effective(s, op) && t == Gone(op) && t in s.things && s.things[t].deadline.Some?
  }

  /** A backed deadline stays backed exactly unless its Thing is taken away. */
  lemma BackedStep(s: Store, op: Op, t: Id)
    requires Sound(s.dates) && t in s.things && Backed(s, t)
    ensures t in Apply(s, op).1.things
    ensures Backed(Apply(s, op).1, t) <==> !Strands(s, op, t)
  {
    hide Strip, Apply, Effective;
    NoEffect(s, op);
    var after := Apply(s, op).1;
    if !Effective(s, op) {
    } else if op.Create? || op.Touch? {
      PlainIs(s, op);
    } else if op.Set? || op.Update? {
      WriteIs(s, op);
      var row := after.dates[op.date];
      if after.things[t].deadline.Some? {
        if t == row.thing && row.primary {
          assert after.dates[op.date].primary;
        } else {
          var d :| d in s.dates && s.dates[d].primary && s.dates[d].thing == t && s.dates[d].value == s.things[t].deadline.value;
          assert d != op.date && after.dates[d] == s.dates[d];
        }
      }
    } else {
      RedirectIs(s, op);
      if s.things[t].deadline.Some? {
        var d :| d in s.dates && s.dates[d].primary && s.dates[d].thing == t && s.dates[d].value == s.things[t].deadline.value;
        if t != Gone(op) {
          assert after.dates[d] == s.dates[d];
        }
      }
    }
  }

  lemma ThingsStay(s: Store, op: Op)
    ensures s.things.Keys <= Apply(s, op).1.things.Keys
    ensures forall t | t in Apply(s, op).1.things && t !in s.things :: Apply(s, op).1.things[t].deadline == None
    ensures forall t | t in s.things && Standing(Apply(s, op).1, t) :: Standing(s, t)
  {
    hide Strip, UnsetPrimary, Rebound, WithoutDatesOf, PrimariesClash;
  }

  lemma ConsistentStep(s: Store, op: Op)
    requires Consistent(s)
    ensures Consistent(Apply(s, op).1)
  {
    hide Apply, Sound, Backed, Effective;
    SoundStep(s, op);
    ThingsStay(s, op);
    var after := Apply(s, op).1;
    forall t | t in after.things && Standing(after, t) ensures Backed(after, t) {
      if t in s.things {
        BackedStep(s, op, t);
        StrandedIsGone(s, op, t);
      } else {
        NothingToBack(after, t);
      }
    }
  }

  lemma NothingToBack(s: Store, t: Id)
    requires t in s.things && s.things[t].deadline == None
    ensures Backed(s, t)
  {
  }

  lemma StrandedIsGone(s: Store, op: Op, t: Id)
    ensures Strands(s, op, t) ==> !Standing(Apply(s, op).1, t)
  {
    hide Apply, Effective;
    if Strands(s, op, t) {
      RedirectIs(s, op);
    }
  }

  /** Over any sequence of create, touch, set, update, merge and delete operations, each (Thing, kind) has at most one primary date, primaries are
      confirmed, and a deadline of a Thing that still stands is always the value of a date that is primary at that moment. */
  lemma {:induction false} AlwaysConsistent(s: Store, ops: seq<Op>)
    requires Consistent(s)
    ensures Consistent(Run(s, ops))
  {
    hide Consistent, Apply;
    if ops != [] {
      AlwaysConsistent(s, ops[..|ops| - 1]);
      ConsistentStep(Run(s, ops[..|ops| - 1]), ops[|ops| - 1]);
    }
  }

  // ----- what the projection loses

  lemma RunNext(s: Store, ops: seq<Op>, n: nat)
    requires n < |ops|
    ensures Run(s, ops[..n + 1]) == Apply(Run(s, ops[..n]), ops[n]).1
  {
    hide Apply;
    assert ops[..n + 1][..n] == ops[..n];
  }

  lemma AllBackedStep(s: Store, op: Op)
    requires AllBacked(s)
    ensures AllBacked(Apply(s, op).1) <==> forall t :: !Strands(s, op, t)
  {
    hide Apply, Sound, Backed, Effective;
    SoundStep(s, op);
    ThingsStay(s, op);
    var after := Apply(s, op).1;
    forall t | t in after.things ensures Backed(after, t) <==> !Strands(s, op, t) {
      if t in s.things {
        BackedStep(s, op, t);
      } else {
        NothingToBack(after, t);
      }
    }
  }

  /** The n-th operation takes no Thing away that has a deadline. */
  ghost predicate KeepsBacked(s: Store, ops: seq<Op>, n: nat)
    requires n < |ops|
  {
    forall t :: !Strands(Run(s, ops[..n]), ops[n], t)
  }

  ghost predicate BackedAfter(s: Store, ops: seq<Op>, n: nat)
    requires n <= |ops|
  {
    AllBacked(Run(s, ops[..n]))
  }

  lemma {:induction false} BackedSoFar(s: Store, ops: seq<Op>, n: nat)
    requires AllBacked(s) && n <= |ops| && forall k | 0 <= k < n :: KeepsBacked(s, ops, k)
    ensures BackedAfter(s, ops, n)
  {
    hide Apply, AllBacked, Strands;
    if n == 0 {
      assert ops[..0] == [];
    } else {
      BackedSoFar(s, ops, n - 1);
      RunNext(s, ops, n - 1);
      assert KeepsBacked(s, ops, n - 1);
      AllBackedStep(Run(s, ops[..n - 1]), ops[n - 1]);
    }
  }

  /** Throughout a history every deadline stays backed, also of Things that are merged or deleted, exactly when no merge or deletion
      takes a Thing away that has a deadline. */
  lemma AllBackedExactly(s: Store, ops: seq<Op>)
    requires AllBacked(s)
    ensures (forall n | 0 <= n <= |ops| :: BackedAfter(s, ops, n)) <==> forall n | 0 <= n < |ops| :: KeepsBacked(s, ops, n)
  {
    hide Apply, Run, AllBacked, Strands;
    if forall n | 0 <= n < |ops| :: KeepsBacked(s, ops, n) {
      forall n | 0 <= n <= |ops| ensures BackedAfter(s, ops, n) {
        BackedSoFar(s, ops, n);
      }
    }
    if forall n | 0 <= n <= |ops| :: BackedAfter(s, ops, n) {
      forall n | 0 <= n < |ops| ensures KeepsBacked(s, ops, n) {
        RunNext(s, ops, n);
        assert BackedAfter(s, ops, n) && BackedAfter(s, ops, n + 1);
        AllBackedStep(Run(s, ops[..n]), ops[n]);
      }
    }
  }

  ghost predicate OtherPrimary(dates: map<Id, DateRow>, date: Id)
    requires date in dates
  {
    exists d :: d in dates && d != date && dates[d].primary && dates[d].thing == dates[date].thing
  }

  ghost predicate AnyPrimary(dates: map<Id, DateRow>, thing: Id) {
    exists d :: d in dates && dates[d].primary && dates[d].thing == thing
  }

  /** The operation leaves a primary date without a deadline: it demotes one primary of a Thing that has another, or it moves primary
      dates to a Thing without deadline. */
  ghost predicate Uncovers(s: Store, op: Op) {
    && Effective(s, op)
    && match op
       case Update(date, input, _, _, _) => date in s.dates && s.dates[date].primary && !input.primary && OtherPrimary(s.dates, date)
       case Merge(canonical, duplicate, _, _, _) =>
         canonical in s.things && s.things[canonical].deadline.None? && AnyPrimary(s.dates, duplicate)
       case _ => false
  }

  lemma CompleteStep(s: Store, op: Op)
    requires Complete(s)
    ensures Complete(Apply(s, op).1) <==> !Uncovers(s, op)
  {
    hide Strip, Apply, Effective, Sound;
    NoEffect(s, op);
    if !Effective(s, op) {
    } else if op.Create? || op.Touch? {
      PlainIs(s, op);
      PlainCovers(s, op);
    } else if op.Set? || op.Update? {
      WriteIs(s, op);
      WriteCovers(s, op);
    } else {
      RedirectIs(s, op);
      RedirectCovers(s, op);
    }
  }

  lemma PlainCovers(s: Store, op: Op)
    requires Complete(s) && (op.Create? || op.Touch?)
    ensures Complete(Apply(s, op).1) && !Uncovers(s, op)
  {
    hide Apply, Effective;
    PlainIs(s, op);
  }

  lemma WriteCovers(s: Store, op: Op)
    requires Complete(s) && (op.Set? || op.Update?) && Effective(s, op)
    ensures Complete(Apply(s, op).1) <==> !Uncovers(s, op)
  {
    hide Strip, Apply, Effective, Sound;
    WriteIs(s, op);
    var after := Apply(s, op).1;
    if Uncovers(s, op) {
      var d :| d in s.dates && d != op.date && s.dates[d].primary && s.dates[d].thing == s.dates[op.date].thing;
      assert after.dates[d] == s.dates[d];
    } else {
      forall d | d in after.dates && after.dates[d].primary
        ensures after.dates[d].thing in after.things && after.things[after.dates[d].thing].deadline.Some?
      {
        if d != op.date {
          assert s.dates[d] == after.dates[d];
        }
      }
    }
  }

  lemma RedirectCovers(s: Store, op: Op)
    requires Complete(s) && (op.Merge? || op.Delete?) && Effective(s, op)
    ensures Complete(Apply(s, op).1) <==> !Uncovers(s, op)
  {
    hide Strip, Apply, Effective, Sound, PrimariesClash;
    RedirectIs(s, op);
    var after := Apply(s, op).1;
    if Uncovers(s, op) {
      var d :| d in s.dates && s.dates[d].primary && s.dates[d].thing == op.duplicate;
      assert after.dates[d] == s.dates[d].(thing := op.canonical);
    } else {
      forall d | d in after.dates && after.dates[d].primary
        ensures after.dates[d].thing in after.things && after.things[after.dates[d].thing].deadline.Some?
      {
        assert s.dates[d].primary;
      }
    }
  }

  ghost predicate KeepsComplete(s: Store, ops: seq<Op>, n: nat)
    requires n < |ops|
  {
    !Uncovers(Run(s, ops[..n]), ops[n])
  }

  ghost predicate CompleteAfter(s: Store, ops: seq<Op>, n: nat)
    requires n <= |ops|
  {
    Complete(Run(s, ops[..n]))
  }

  lemma {:induction false} CompleteSoFar(s: Store, ops: seq<Op>, n: nat)
    requires Complete(s) && n <= |ops| && forall k | 0 <= k < n :: KeepsComplete(s, ops, k)
    ensures CompleteAfter(s, ops, n)
  {
    hide Apply, Complete, Uncovers;
    if n == 0 {
      assert ops[..0] == [];
    } else {
      CompleteSoFar(s, ops, n - 1);
      RunNext(s, ops, n - 1);
      assert KeepsComplete(s, ops, n - 1);
      CompleteStep(Run(s, ops[..n - 1]), ops[n - 1]);
    }
  }

  /** Throughout a history every Thing with a primary date has a deadline exactly when no update demotes a primary while its Thing has
      another one, and no merge moves a primary date to a Thing without deadline. */
  lemma CompleteExactly(s: Store, ops: seq<Op>)
    requires Complete(s)
    ensures (forall n | 0 <= n <= |ops| :: CompleteAfter(s, ops, n)) <==> forall n | 0 <= n < |ops| :: KeepsComplete(s, ops, n)
  {
    hide Apply, Run, Complete, Uncovers;
    if forall n | 0 <= n < |ops| :: KeepsComplete(s, ops, n) {
      forall n | 0 <= n <= |ops| ensures CompleteAfter(s, ops, n) {
        CompleteSoFar(s, ops, n);
      }
    }
    if forall n | 0 <= n <= |ops| :: CompleteAfter(s, ops, n) {
      forall n | 0 <= n < |ops| ensures KeepsComplete(s, ops, n) {
        RunNext(s, ops, n);
        assert CompleteAfter(s, ops, n) && CompleteAfter(s, ops, n + 1);
        CompleteStep(Run(s, ops[..n]), ops[n]);
      }
    }
  }

  // ----- replay

  lemma {:induction false} AuditOnlyGrows(s: Store, ops: seq<Op>, key: Key)
    requires key in s.audit
    ensures key in Run(s, ops).audit && Run(s, ops).audit[key] == s.audit[key]
  {
    hide Apply;
    if ops != [] {
      AuditOnlyGrows(s, ops[..|ops| - 1], key);
      AuditKept(Run(s, ops[..|ops| - 1]), ops[|ops| - 1], key);
    }
  }

  lemma AuditKept(s: Store, op: Op, key: Key)
    requires key in s.audit
    ensures key in Apply(s, op).1.audit && Apply(s, op).1.audit[key] == s.audit[key]
  {
    hide Strip, UnsetPrimary, Rebound, WithoutDatesOf, PrimariesClash;
  }

  /** The call is refused for its own arguments, whatever its key. */
  predicate Malformed(op: Op) {
    match op
    case Set(_, _, input, _, _, _, _) => InputError(input).Some?
    case Merge(canonical, duplicate, _, _, _) => canonical == duplicate
    case _ => false
  }

  /** Whether the second operation finds its version field in what the first one recorded. */
  predicate Reads(op: Op, again: Op) {
    match again
    case Set(_, _, _, _, _, _, _) => op.Set? || op.Update?
    case Update(_, _, _, _, _) => op.Update?
    case _ => op.Merge? || op.Delete? || op.Create? || op.Touch?
  }

  /** The answer is the Thing as it is now, or that it is gone. */
  predicate Current(r: Result<Written, WriteError>, now: Store, thing: Id) {
    r == if Live(now.things, thing) then Ok(Written(thing, now.things[thing].version, true)) else Err(MissingThing)
  }

  /** An operation that has taken effect changes nothing when its key is used again, however much has happened since. Creations and
      revisions are answered from the Thing as it is now. Of the others, a repeated call with the same arguments reports the recorded
      target and version, and any other one is answered exactly when it finds its field. */
  lemma ReplayChangesNothing(s: Store, op: Op, since: seq<Op>, again: Op)
    requires Effective(s, op) && again.key == op.key
    ensures var now := Run(Apply(s, op).1, since);
            && Apply(now, again).1 == now
            && (if again.Create? || again.Touch? then Current(Apply(now, again).0, now, if again.Create? then Apply(s, op).0.value.target else again.thing)
                else
                  && (again == op ==> Apply(now, again).0 == Ok(Apply(s, op).0.value.(replayed := true)))
                  && (Apply(now, again).0.Ok? <==> !Malformed(again) && Reads(op, again))
                  && (Apply(now, again).0.Ok? ==> Apply(now, again).0.value.target == Apply(s, op).0.value.target))
  {
    hide Strip, Run, UnsetPrimary, Rebound, WithoutDatesOf, PrimariesClash;
    AuditOnlyGrows(Apply(s, op).1, since, op.key);
  }

  // ----- what one operation does to the deadline

  /** A primary that is set or updated becomes the deadline and the only primary of its Thing and kind; the primaries of
      other Things and kinds stay. */
  lemma PrimaryBecomesDeadline(s: Store, op: Op)
    requires (op.Set? || op.Update?) && Effective(s, op) && op.input.primary
    ensures var after := Apply(s, op).1;
            var d := after.dates[op.date];
            && after.things[d.thing].deadline == Some(op.input.value.instant) && d.primary && d.value == op.input.value.instant
            && (forall x | x in after.dates && x != op.date ::
                  x in s.dates && after.dates[x] == if s.dates[x].thing == d.thing && s.dates[x].kind == d.kind
                                                    then s.dates[x].(primary := false) else s.dates[x])
  {
    hide Strip;
  }

  function Dated(value: int, primary: bool): DateInput { DateInput(Time(value, true), "UTC", DateTime, Confirmed, primary) }

  const TWO_THINGS := NO_THINGS.(things := map[1 := ThingRow(1, None, None, false), 2 := ThingRow(1, None, None, false)])

  /** A Thing gets a primary deadline and a primary event, and the deadline date is demoted. */
  const DEMOTION := [Set(1, Deadline, Dated(10, true), None, 1, 1, 1), Set(1, Event, Dated(20, true), None, 2, 2, 2),
                     Update(1, Dated(10, false), 1, 3, 3)]

  /** The deadline was the value of the event, which is still primary and still says so, and yet it is cleared. */
  lemma DemotionLosesDeadline()
    ensures Consistent(TWO_THINGS) && Complete(TWO_THINGS)
    ensures var before, after := Run(TWO_THINGS, DEMOTION[..2]), Run(TWO_THINGS, DEMOTION);
            && Complete(before) && 1 in before.things && before.things[1].deadline == Some(20)
            && Effective(before, DEMOTION[2]) && !Complete(after) && 1 in after.things && after.things[1].deadline == None
            && 2 in after.dates && after.dates[2].primary && after.dates[2].thing == 1 && after.dates[2].value == 20
  {
    hide Run, Apply, Effective, Complete;
    RunNext(TWO_THINGS, DEMOTION, 0);
    RunNext(TWO_THINGS, DEMOTION, 1);
    RunNext(TWO_THINGS, DEMOTION, 2);
    assert DEMOTION[..3] == DEMOTION;
    RunOfNone(TWO_THINGS, DEMOTION[..0]);
    TwoPrimaries();
    var two := Apply(Apply(TWO_THINGS, DEMOTION[0]).1, DEMOTION[1]).1;
    DemotionOf(two);
    assert Consistent(TWO_THINGS) && Complete(TWO_THINGS) by { NoDates(); }
  }

  lemma NoDates()
    ensures Consistent(TWO_THINGS) && Complete(TWO_THINGS)
  {
  }

  ghost predicate HasTwoPrimaries(two: Store) {
    && two.things == TWO_THINGS.things[1 := ThingRow(3, Some(20), None, false)] && two.audit.Keys == {1, 2}
    && two.dates == map[1 := NewDate(1, Deadline, Dated(10, true), None), 2 := NewDate(1, Event, Dated(20, true), None)]
  }

  lemma TwoPrimaries()
    ensures HasTwoPrimaries(Apply(Apply(TWO_THINGS, DEMOTION[0]).1, DEMOTION[1]).1)
  {
    hide Strip;
    StripOfTrimmed("UTC");
    var one := Apply(TWO_THINGS, DEMOTION[0]).1;
    assert one.things == TWO_THINGS.things[1 := ThingRow(2, Some(10), None, false)];
    assert one.dates == map[1 := NewDate(1, Deadline, Dated(10, true), None)];
  }

  lemma DemotionOf(two: Store)
    requires HasTwoPrimaries(two)
    ensures var after := Apply(two, DEMOTION[2]).1;
            && Complete(two) && Effective(two, DEMOTION[2]) && !Complete(after) && 1 in after.things && after.things[1].deadline == None
            && 2 in after.dates && after.dates[2] == two.dates[2]
            && two.dates[2].primary && two.dates[2].thing == 1 && two.dates[2].value == 20
  {
    hide Strip;
    StripOfTrimmed("UTC");
    var after := Apply(two, DEMOTION[2]).1;
    assert after.dates[2] == two.dates[2] && after.things[after.dates[2].thing].deadline == None;
  }

  lemma RunOfNone(s: Store, ops: seq<Op>)
    requires ops == []
    ensures Run(s, ops) == s
  {
  }

  /** A Thing with a primary deadline is merged into one without. */
  const MERGING := [Set(2, Deadline, Dated(10, true), None, 1, 1, 1), Op.Merge(1, 2, 1, 2, 2)]

  /** The date moves, the deadline stays behind: the canonical Thing has a primary date and no deadline, the duplicate a deadline and
      no date. */
  lemma MergeLeavesDeadlineBehind()
    ensures var before, after := Run(TWO_THINGS, MERGING[..1]), Run(TWO_THINGS, MERGING);
            && AllBacked(before) && Complete(before) && Effective(before, MERGING[1]) && !AllBacked(after) && !Complete(after)
            && 1 in after.dates && after.dates[1].primary && after.dates[1].thing == 1 && 1 in after.things && after.things[1].deadline == None
            && 2 in after.things && after.things[2].deadline == Some(10) && !AnyPrimary(after.dates, 2)
  {
    hide Run, Strip;
    StripOfTrimmed("UTC");
    RunNext(TWO_THINGS, MERGING, 0);
    RunNext(TWO_THINGS, MERGING, 1);
    assert MERGING[..2] == MERGING;
    assert Run(TWO_THINGS, MERGING[..0]) == TWO_THINGS by { RunOfNone(TWO_THINGS, MERGING[..0]); }
    var one, two := Run(TWO_THINGS, MERGING[..1]), Run(TWO_THINGS, MERGING);
    assert one.things[2] == ThingRow(2, Some(10), None, false) && one.things[1] == ThingRow(1, None, None, false);
    assert one.dates == map[1 := NewDate(2, Deadline, Dated(10, true), None)];
    assert one.dates[1].value == 10;
    assert two.dates.Keys == {1} && two.dates[1].thing == 1 && two.dates[1].primary;
    assert !Backed(two, 2) && two.things[two.dates[1].thing].deadline == None;
  }
}
