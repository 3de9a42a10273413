/** Audited writes to Things: Thing.revise, archive and unarchive (domain/personal_state/entities.py), update_thing
    (application/personal_state/service.py) and apply_change_archive (application/personal_state/write_ops.py). */
module StateWrites {
  import opened Wrappers
  import opened PyText

  type Id = nat

  datatype Status = Active | Completed | Cancelled

  /** A live row of the things table. */
  datatype ThingRow = ThingRow(name: string, status: Status, stage: Option<string>, archived: bool, version: nat)

  /** A change to a Thing; an edit leaves alone what it does not name. */
  datatype Change =
    | Edit(name: Option<string>, status: Option<Status>, updateStage: bool, stage: Option<string>)
    | Archive
    | Restore

  // An idempotency key: the one of a tool action, or one that an API client chose.
  datatype Key = Agent(run: nat, action: string) | Client(n: nat)

  /** A row of state_mutations; version is the Thing version after the change. */
  datatype Mutation = Mutation(key: Key, thing: Id, change: Change, version: nat)

  datatype State = State(things: map<Id, ThingRow>, audit: seq<Mutation>)

  datatype WriteError = NothingToEdit | BlankName | NotFound | VersionConflict | MissingThing

  datatype Outcome = Outcome(version: nat, replayed: bool)

  // ----- the entity

  function StageOf(stage: Option<string>): Option<string> {
    if stage.Some? && stage.value != "" then Some(Strip(stage.value)) else None
  }

  function Edited(row: ThingRow, c: Change): ThingRow
    requires c.Edit?
  {
    row.(name := if c.name.Some? then Strip(c.name.value) else row.name, status := if c.status.Some? then c.status.value else row.status,
         stage := if c.updateStage then StageOf(c.stage) else row.stage, version := row.version + 1)
  }

  function Changed(row: ThingRow, c: Change): Result<ThingRow, WriteError> {
    match c
    case Edit(name, _, _, _) => if name.Some? && Strip(name.value) == "" then Err(BlankName) else Ok(Edited(row, c))
    case Archive => Ok(if row.archived then row else row.(archived := true, version := row.version + 1))
    case Restore => Ok(if row.archived then row.(archived := false, version := row.version + 1) else row)
  }

  class Thing {
    var name: string
    var status: Status
    var stage: Option<string>
    var archived: bool
    var version: nat

    constructor (row: ThingRow)
      ensures Row() == row
    {
      name, status, stage, archived, version := row.name, row.status, row.stage, row.archived, row.version;
    }

    function Row(): ThingRow
      reads this
    {
      ThingRow(name, status, stage, archived, version)
    }

    method Revise(c: Change) returns (r: Result<(), WriteError>)
      requires c.Edit?
      modifies this
      ensures r.Ok? == Changed(old(Row()), c).Ok?
      ensures r.Ok? ==> Changed(old(Row()), c) == Ok(Row())
      ensures r.Err? ==> Changed(old(Row()), c) == Err(r.error)
    {
      if c.name.Some? {
        var normalized := Strip(c.name.value);
        if normalized == "" {
          return Err(BlankName);
        }
        name := normalized;
      }
      if c.status.Some? {
        status := c.status.value;
      }
      if c.updateStage {
        stage := if c.stage.Some? && c.stage.value != "" then Some(Strip(c.stage.value)) else None;
      }
      version := version + 1;
      return Ok(());
    }

    /** Archives or restores the Thing; doing it again changes nothing. */
    method SetArchived(value: bool)
      modifies this
      ensures Changed(old(Row()), if value then Archive else Restore) == Ok(Row())
    {
      if archived == value {
        return;
      }
      archived := value;
      version := version + 1;
    }
  }

  // ----- audited writes

  predicate Recorded(audit: seq<Mutation>, key: Key) {
    exists i | 0 <= i < |audit| :: audit[i].key == key
  }

  /** The recorded mutation of a key. */
  function Lookup(audit: seq<Mutation>, key: Key): (m: Mutation)
    requires Recorded(audit, key)
    ensures m in audit && m.key == key
  {
    if audit[0].key == key then audit[0] else Lookup(audit[1..], key)
  }

  predicate NothingNamed(c: Change) { c.Edit? && c.name.None? && c.status.None? && !c.updateStage }

  /** One unit of work: a recorded key is answered from the audit, a new one changes the Thing and is recorded. */
  function AfterWrite(s: State, key: Key, thing: Id, c: Change, expectedVersion: nat): (Result<Outcome, WriteError>, State) {
    if NothingNamed(c) then (Err(NothingToEdit), s)
    else if Recorded(s.audit, key) then
      if !c.Edit? then (Ok(Outcome(Lookup(s.audit, key).version, true)), s)
      else if thing in s.things then (Ok(Outcome(s.things[thing].version, true)), s)
      else (Err(MissingThing), s)
    else if thing !in s.things then (Err(NotFound), s)
    else if s.things[thing].version != expectedVersion then (Err(VersionConflict), s)
    else match Changed(s.things[thing], c)
      case Err(e) => (Err(e), s)
      case Ok(row) =>
        (Ok(Outcome(row.version, false)), State(s.things[thing := row], s.audit + [Mutation(key, thing, c, row.version)]))
  }

  class StateStore {
    var things: map<Id, ThingRow>
    var audit: seq<Mutation>

    constructor (s: State)
      ensures Value() == s
    {
      things, audit := s.things, s.audit;
    }

    function Value(): State
      reads this
    {
      State(things, audit)
    }

    method GetMutation(key: Key) returns (m: Option<Mutation>)
      ensures m.Some? <==> Recorded(audit, key)
      ensures m.Some? ==> m.value == Lookup(audit, key)
    {
      for i := 0 to |audit|
        invariant forall j | 0 <= j < i :: audit[j].key != key
        invariant Recorded(audit, key) ==> Recorded(audit[i..], key) && Lookup(audit[i..], key) == Lookup(audit, key)
      {
        if audit[i].key == key {
          assert audit[i..][0] == audit[i];
          return Some(audit[i]);
        }
        assert audit[i..][1..] == audit[i + 1..];
      }
      return None;
    }

    method Write(key: Key, thing: Id, c: Change, expectedVersion: nat) returns (r: Result<Outcome, WriteError>)
      modifies this
      ensures (r, Value()) == AfterWrite(old(Value()), key, thing, c, expectedVersion)
    {
      hide Recorded, Strip;
      if c.Edit? && c.name.None? && c.status.None? && !c.updateStage {
        return Err(NothingToEdit);
      }
      var previous := GetMutation(key);
      if previous.Some? {
        if !c.Edit? {
          return Ok(Outcome(previous.value.version, true));
        }
        if thing !in things {
          return Err(MissingThing);
        }
        return Ok(Outcome(things[thing].version, true));
      }
      if thing !in things {
        return Err(NotFound);
      }
      var entity := new Thing(things[thing]);
      if entity.version != expectedVersion {
        return Err(VersionConflict);
      }
      if c.Edit? {
        var revised := entity.Revise(c);
        if revised.Err? {
          return Err(revised.error);
        }
      } else {
        entity.SetArchived(c.Archive?);
      }
      things := things[thing := entity.Row()];
      audit := audit + [Mutation(key, thing, c, entity.version)];
      return Ok(Outcome(entity.version, false));
    }
  }

  // ----- what a write does

  /** The stage that an edit gives: none for a missing or an empty one, and otherwise the text without the space around it. */
  ghost predicate StageGiven(given: Option<string>, now: Option<string>) {
    if given.None? || given.value == "" then now == None else now == Some(Strip(given.value))
  }

  /** Field by field, what an accepted new write does: an edit sets what it names and nothing else, archiving and restoring set only their
      flag, the version rises by one exactly when the row has changed, and the audit gets the write. */
  lemma WriteSetsWhatItNames(s: State, key: Key, thing: Id, c: Change, v: nat)
    requires AfterWrite(s, key, thing, c, v).0.Ok? && !AfterWrite(s, key, thing, c, v).0.value.replayed
    ensures var (r, t) := AfterWrite(s, key, thing, c, v);
            && thing in s.things && t.things.Keys == s.things.Keys
            && (forall x | x in s.things && x != thing :: t.things[x] == s.things[x])
            && var row, now := s.things[thing], t.things[thing];
               && row.version == v && now.version == (if c.Edit? || now != row then v + 1 else v)
               && (c.Edit? ==>
                     && (if c.name.Some? then now.name == Strip(c.name.value) && now.name != "" else now.name == row.name)
                     && (if c.status.Some? then now.status == c.status.value else now.status == row.status)
                     && (if c.updateStage then StageGiven(c.stage, now.stage) else now.stage == row.stage)
                     && now.archived == row.archived)
               && (!c.Edit? ==> now.archived == c.Archive? && now.name == row.name && now.status == row.status && now.stage == row.stage)
               && (!c.Edit? && row.archived == c.Archive? ==> now == row)
               && t.audit == s.audit + [Mutation(key, thing, c, now.version)] && r.value.version == now.version
  {
    hide Strip, Recorded;
  }

  /** When a write is refused, and with what; a refused write and a replay change nothing. */
  lemma WriteAnswersExactly(s: State, key: Key, thing: Id, c: Change, v: nat)
    ensures var (r, t) := AfterWrite(s, key, thing, c, v);
            var named := c.Edit? ==> c.name.Some? || c.status.Some? || c.updateStage;
            var known := exists i :: 0 <= i < |s.audit| && s.audit[i].key == key;
            var blank := c.Edit? && c.name.Some? && Strip(c.name.value) == "";
            && (r == Err(NothingToEdit) <==> !named)
            && (r == Err(MissingThing) <==> named && known && c.Edit? && thing !in s.things)
            && (r == Err(NotFound) <==> named && !known && thing !in s.things)
            && (r == Err(VersionConflict) <==> named && !known && thing in s.things && s.things[thing].version != v)
            && (r == Err(BlankName) <==> named && !known && thing in s.things && s.things[thing].version == v && blank)
            && (r.Ok? && r.value.replayed <==> named && known && (c.Edit? ==> thing in s.things))
            && (r.Ok? && r.value.replayed && c.Edit? ==> r.value.version == s.things[thing].version)
            && (r.Ok? && r.value.replayed && !c.Edit? ==> exists i :: 0 <= i < |s.audit| && s.audit[i].key == key && s.audit[i].version == r.value.version)
            && (r.Err? || r.value.replayed ==> t == s)
  {
    hide Strip;
    if !NothingNamed(c) && Recorded(s.audit, key) {
      var m := Lookup(s.audit, key);
      var i :| 0 <= i < |s.audit| && s.audit[i] == m;
    }
  }

  // ----- the audit is the history

  function ApplyMutation(things: map<Id, ThingRow>, m: Mutation): map<Id, ThingRow> {
    if m.thing in things && Changed(things[m.thing], m.change).Ok?
    then things[m.thing := Changed(things[m.thing], m.change).value] else things
  }

  /** Every recorded change applied once, in the order of the audit. */
  function Replay(things: map<Id, ThingRow>, audit: seq<Mutation>): map<Id, ThingRow> {
    if audit == [] then things else ApplyMutation(Replay(things, audit[..|audit| - 1]), audit[|audit| - 1])
  }

  ghost predicate DistinctKeys(audit: seq<Mutation>) {
    forall i, j | 0 <= i < j < |audit| :: audit[i].key != audit[j].key
  }

  /** The state is what its audit says: the keys are distinct, and replaying the audit gives the Things. */
  ghost predicate Accounted(base: map<Id, ThingRow>, s: State) {
    DistinctKeys(s.audit) && s.things == Replay(base, s.audit)
  }

  ghost predicate Appends(s: State, t: State, m: Mutation) {
    t == State(ApplyMutation(s.things, m), s.audit + [m])
  }

  /** A write either changes nothing, or adds one mutation under a new key. */
  lemma WriteExtends(s: State, key: Key, thing: Id, c: Change, v: nat)
    ensures var (r, t) := AfterWrite(s, key, thing, c, v);
            && (t != s ==> r.Ok? && !Recorded(s.audit, key))
            && (r.Ok? ==> Recorded(t.audit, key))
            && (t == s || exists version :: Appends(s, t, Mutation(key, thing, c, version)))
  {
    hide Strip;
    var (r, t) := AfterWrite(s, key, thing, c, v);
    if r.Ok? && !r.value.replayed {
      assert Appends(s, t, Mutation(key, thing, c, r.value.version));
      assert t.audit[|s.audit|].key == key;
    }
  }

  lemma AppendIsAccounted(base: map<Id, ThingRow>, s: State, t: State, m: Mutation)
    requires Accounted(base, s) && Appends(s, t, m) && !Recorded(s.audit, m.key)
    ensures Accounted(base, t)
  {
    hide ApplyMutation;
    assert t.audit[..|s.audit|] == s.audit;
  }

  lemma WriteIsAccounted(base: map<Id, ThingRow>, s: State, key: Key, thing: Id, c: Change, v: nat)
    requires Accounted(base, s)
    ensures Accounted(base, AfterWrite(s, key, thing, c, v).1)
  {
    hide Changed, AfterWrite, Accounted, Appends, Recorded;
    WriteExtends(s, key, thing, c, v);
    var t := AfterWrite(s, key, thing, c, v).1;
    if t != s {
      var version :| Appends(s, t, Mutation(key, thing, c, version));
      AppendIsAccounted(base, s, t, Mutation(key, thing, c, version));
    }
  }
}
