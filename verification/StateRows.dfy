/** The rows of Things, of their dates and of the audit, as far as redirects, deletions and deadlines go: Thing and ThingDate
    (domain/personal_state/entities.py) and what recorded mutations store (application/personal_state/write_ops.py). */
module StateRows {
  import opened Wrappers

  type Id = nat
  type Key = nat

  datatype Kind = Deadline | Event | Milestone

  datatype Precision = DateTime | Date | Month

  datatype Certainty = Confirmed | Probable | Unconfirmed | Disputed

  datatype ThingRow = ThingRow(version: nat, deadline: Option<int>, mergedInto: Option<Id>, deleted: bool)

  datatype DateRow = DateRow(thing: Id, kind: Kind, value: int, zone: string, precision: Precision, certainty: Certainty,
                             primary: bool, source: Option<Id>, version: nat)

  /** What the recorded mutation of a key stores: its target and those version fields that its operation wrote. */
  datatype Receipt = Receipt(target: Id, version: Option<nat>, dateVersion: Option<nat>, thingVersion: Option<nat>)

  datatype Store = Store(things: map<Id, ThingRow>, dates: map<Id, DateRow>, sources: set<Id>, audit: map<Key, Receipt>)

  datatype WriteError =
    | MissingTimezone | BlankZone | UnconfirmedPrimary | SameThing | NotFound | VersionConflict | InvalidTransition
    | DuplicateId | PrimaryConflict | MissingVersion | MissingThing

  datatype Written = Written(target: Id, version: nat, replayed: bool)

  const NO_THINGS := Store(map[], map[], {}, map[])

  predicate Live(things: map<Id, ThingRow>, id: Id) { id in things && !things[id].deleted }

  /** The answer to a used key, from the version field that the operation reads; the mutation of another operation may lack it. */
  function Replayed(target: Id, recorded: Option<nat>): Result<Written, WriteError> {
    match recorded
    case None => Err(MissingVersion)
    case Some(version) => Ok(Written(target, version, true))
  }

  class Thing {
    const id: Id
    var version: nat
    var deadline: Option<int>
    var mergedInto: Option<Id>
    var deleted: bool

    constructor (id: Id, row: ThingRow)
      ensures this.id == id && Row() == row
    {
      this.id := id;
      version, deadline, mergedInto, deleted := row.version, row.deadline, row.mergedInto, row.deleted;
    }

    function Row(): ThingRow
      reads this
    {
      ThingRow(version, deadline, mergedInto, deleted)
    }

    method MergeInto(canonical: Id) returns (r: Result<(), WriteError>)
      modifies this
      ensures r.Ok? <==> canonical != id && old(mergedInto) == None
      ensures Row() == if r.Ok? then old(Row()).(mergedInto := Some(canonical), version := old(version) + 1) else old(Row())
      ensures r.Err? ==> r.error == if canonical == id then SameThing else InvalidTransition
    {
      if canonical == id {
        return Err(SameThing);
      }
      if mergedInto != None {
        return Err(InvalidTransition);
      }
      mergedInto := Some(canonical);
      version := version + 1;
      return Ok(());
    }

    method Delete() returns (r: Result<(), WriteError>)
      modifies this
      ensures r.Err? <==> !old(deleted) && old(mergedInto) != None
      ensures r.Err? ==> r.error == InvalidTransition
      ensures Row() == if r.Err? || old(deleted) then old(Row()) else old(Row()).(deleted := true, version := old(version) + 1)
    {
      if deleted {
        return Ok(());
      }
      if mergedInto != None {
        return Err(InvalidTransition);
      }
      deleted := true;
      version := version + 1;
      return Ok(());
    }

    /** Sets or clears the projected deadline. */
    method Project(value: Option<int>)
      modifies this
      ensures Row() == old(Row()).(deadline := value, version := old(version) + 1)
    {
      deadline := value;
      version := version + 1;
    }
  }
}
