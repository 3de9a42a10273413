/** What merging, deleting and the date operations answer and leave behind, row by row and field by field
    (application/personal_state/write_ops.py, infrastructure/persistence/repositories/personal_state.py). */
module StateSteps {
  import opened Wrappers
  import opened PyText
  import opened StateRows
  import opened MergeRedirects
  import opened Deadlines

  /** All Things but this one are as they were. */
  predicate OthersStay(s: Store, n: Store, thing: Id) {
    n.things.Keys == s.things.Keys && forall t | t in s.things && t != thing :: n.things[t] == s.things[t]
  }

  /** The key is recorded with this receipt, and nothing else is. */
  predicate Records(s: Store, n: Store, key: Key, receipt: Receipt) { n.audit == s.audit[key := receipt] }

  // ----- dates

  /** Why the given fields of a date are refused, in this order. */
  predicate Refused(i: DateInput, e: WriteError) {
    if !i.value.aware then e == MissingTimezone
    else if Strip(i.zone) == "" then e == BlankZone
    else e == UnconfirmedPrimary && i.primary && i.certainty != Confirmed
  }

  predicate Acceptable(i: DateInput) { i.value.aware && Strip(i.zone) != "" && (i.primary ==> i.certainty == Confirmed) }

  /** The row carries the given fields. */
  predicate Carries(d: DateRow, i: DateInput) {
    d.value == i.value.instant && d.zone == Strip(i.zone) && d.precision == i.precision && d.certainty == i.certainty && d.primary == i.primary
  }

  /** The dates but this one are as they were, except that a new primary takes the flag from those of its Thing and kind. */
  predicate OtherDates(s: Store, n: Store, date: Id, thing: Id, kind: Kind, primary: bool) {
    && n.dates.Keys == s.dates.Keys + {date}
    && forall d | d in s.dates && d != date ::
         n.dates[d] == if primary && s.dates[d].thing == thing && s.dates[d].kind == kind then s.dates[d].(primary := false) else s.dates[d]
  }

  /** Setting a date: its errors in their order, the answer to a used key, and the one new date, with the deadline of its Thing if it is primary. */
  lemma DateIsSetExactly(s: Store, thing: Id, kind: Kind, i: DateInput, source: Option<Id>, version: nat, date: Id, key: Key)
    ensures var (r, n) := AfterSet(s, thing, kind, i, source, version, date, key);
            var used := key in s.audit;
            var live := thing in s.things && !s.things[thing].deleted;
            && (!Acceptable(i) ==> r.Err? && Refused(i, r.error))
            && (Acceptable(i) && used ==>
                  r == match s.audit[key].thingVersion case None => Err(MissingVersion) case Some(v) => Ok(Written(s.audit[key].target, v, true)))
            && (r.Err? || r.value.replayed ==> n == s)
            && (Acceptable(i) && !used ==>
                  && (r == Err(NotFound) <==> !live || (s.things[thing].version == version && source.Some? && source.value !in s.sources))
                  && (r == Err(VersionConflict) <==> live && s.things[thing].version != version)
                  && (r == Err(DuplicateId) <==> live && s.things[thing].version == version && (source.Some? ==> source.value in s.sources) && date in s.dates)
                  && (r.Ok? <==> live && s.things[thing].version == version && (source.Some? ==> source.value in s.sources) && date !in s.dates))
            && (r.Ok? && !r.value.replayed ==>
                  && OthersStay(s, n, thing) && n.sources == s.sources && OtherDates(s, n, date, thing, kind, i.primary)
                  && var t, d := n.things[thing], n.dates[date];
                     && Carries(d, i) && d.thing == thing && d.kind == kind && d.source == source && d.version == 1
                     && t.deleted == s.things[thing].deleted && t.mergedInto == s.things[thing].mergedInto
                     && (if i.primary then t.deadline == Some(i.value.instant) && t.version == version + 1 else t == s.things[thing])
                     && Records(s, n, key, Receipt(date, None, None, Some(t.version))) && r.value == Written(date, t.version, false))
  {
    hide Strip;
  }

  /** Updating a date: its errors in their order, the answer to a used key, and the revised date; a new primary gives the deadline, a demoted
      one takes it away, and otherwise the Thing is left alone. */
  lemma DateIsUpdatedExactly(s: Store, date: Id, i: DateInput, version: nat, thingVersion: nat, key: Key)
    ensures var (r, n) := AfterUpdate(s, date, i, version, thingVersion, key);
            var used := key in s.audit;
            && (used ==> r == match s.audit[key].dateVersion case None => Err(MissingVersion) case Some(v) => Ok(Written(s.audit[key].target, v, true)))
            && (r.Err? || r.value.replayed ==> n == s)
            && (!used && date !in s.dates ==> r == Err(NotFound))
            && (!used && date in s.dates ==>
                  var d := s.dates[date];
                  var live := d.thing in s.things && !s.things[d.thing].deleted;
                  && (r == Err(NotFound) <==> d.version == version && !live)
                  && (r == Err(VersionConflict) <==> d.version != version || (live && s.things[d.thing].version != thingVersion))
                  && (d.version == version && live && s.things[d.thing].version == thingVersion ==>
                        if Acceptable(i) then r.Ok? else r.Err? && Refused(i, r.error)))
            && (r.Ok? && !r.value.replayed ==>
                  var d, e := s.dates[date], n.dates[date];
                  && OthersStay(s, n, d.thing) && n.sources == s.sources && OtherDates(s, n, date, d.thing, d.kind, i.primary)
                  && Carries(e, i) && e.thing == d.thing && e.kind == d.kind && e.source == d.source && e.version == version + 1
                  && var t := n.things[d.thing];
                     && t.deleted == s.things[d.thing].deleted && t.mergedInto == s.things[d.thing].mergedInto
                     && (if i.primary then t.deadline == Some(i.value.instant) && t.version == thingVersion + 1
                         else if d.primary then t.deadline == None && t.version == thingVersion + 1
                         else t == s.things[d.thing])
                     && Records(s, n, key, Receipt(date, None, Some(version + 1), Some(t.version))) && r.value == Written(date, version + 1, false))
  {
    hide Strip;
  }

  // ----- Things

  /** Creating: a used key answers for its Thing as it is now, and a new Thing has neither deadline, redirect nor deletion mark. */
  lemma CreateExactly(s: Store, thing: Id, key: Key)
    ensures var (r, n) := AfterCreate(s, thing, key);
            && (key in s.audit ==>
                  var known := s.audit[key].target;
                  && n == s
                  && r == if known in s.things && !s.things[known].deleted then Ok(Written(known, s.things[known].version, true)) else Err(MissingThing))
            && (key !in s.audit && thing in s.things ==> r == Err(DuplicateId) && n == s)
            && (key !in s.audit && thing !in s.things ==>
                  && r == Ok(Written(thing, 1, false)) && n.things == s.things[thing := ThingRow(1, None, None, false)]
                  && n.dates == s.dates && n.sources == s.sources && Records(s, n, key, Receipt(thing, Some(1), None, None)))
  {
  }

  /** Revising: its errors in their order, the answer to a used key, and the next version. */
  lemma TouchExactly(s: Store, thing: Id, version: nat, key: Key)
    ensures var (r, n) := AfterTouch(s, thing, version, key);
            var live := thing in s.things && !s.things[thing].deleted;
            && (key in s.audit ==> n == s && r == if live then Ok(Written(thing, s.things[thing].version, true)) else Err(MissingThing))
            && (key !in s.audit ==>
                  && (r == Err(NotFound) <==> !live) && (r == Err(VersionConflict) <==> live && s.things[thing].version != version)
                  && (r.Ok? <==> live && s.things[thing].version == version) && (r.Err? ==> n == s))
            && (key !in s.audit && r.Ok? ==>
                  && r.value == Written(thing, version + 1, false) && OthersStay(s, n, thing)
                  && n.things[thing] == s.things[thing].(version := version + 1) && n.dates == s.dates && n.sources == s.sources
                  && Records(s, n, key, Receipt(thing, Some(version + 1), None, None)))
  {
  }

  /** Merging: its errors in their order, the answer to a used key, the redirect of the duplicate, and its dates, which all move. */
  lemma MergeExactly(s: Store, canonical: Id, duplicate: Id, canonicalVersion: nat, duplicateVersion: nat, key: Key)
    ensures var (r, n) := AfterMerge(s, canonical, duplicate, canonicalVersion, duplicateVersion, key);
            var unused := canonical != duplicate && key !in s.audit;
            var live := canonical in s.things && !s.things[canonical].deleted && duplicate in s.things && !s.things[duplicate].deleted;
            && (canonical == duplicate <==> r == Err(SameThing))
            && (canonical != duplicate && key in s.audit ==>
                  r == match s.audit[key].version case None => Err(MissingVersion) case Some(v) => Ok(Written(s.audit[key].target, v, true)))
            && (r.Err? || r.value.replayed ==> n == s)
            && (unused && !live ==> r == Err(NotFound))
            && (unused && live ==>
                  var current := s.things[canonical].version == canonicalVersion && s.things[duplicate].version == duplicateVersion;
                  var clash := exists a, b :: a in s.dates && b in s.dates && s.dates[a].thing == duplicate && s.dates[b].thing == canonical
                                              && s.dates[a].primary && s.dates[b].primary && s.dates[a].kind == s.dates[b].kind;
                  && (r == Err(VersionConflict) <==> !current)
                  && (r == Err(InvalidTransition) <==> current && s.things[duplicate].mergedInto.Some?)
                  && (r == Err(PrimaryConflict) <==> current && s.things[duplicate].mergedInto.None? && clash)
                  && (r.Ok? <==> current && s.things[duplicate].mergedInto.None? && !clash))
            && (r.Ok? && !r.value.replayed ==>
                  && OthersStay(s, n, duplicate) && n.sources == s.sources
                  && n.things[duplicate] == ThingRow(duplicateVersion + 1, s.things[duplicate].deadline, Some(canonical), false)
                  && n.dates.Keys == s.dates.Keys
                  && (forall d | d in s.dates ::
                        n.dates[d] == if s.dates[d].thing == duplicate then s.dates[d].(thing := canonical) else s.dates[d])
                  && Records(s, n, key, Receipt(duplicate, Some(duplicateVersion + 1), None, None)) && r.value == Written(duplicate, duplicateVersion + 1, false))
  {
  }

  /** Deleting: its errors in their order, the answer to a used key, the deletion mark, and the dates of the Thing, which all go. */
  lemma DeleteExactly(s: Store, id: Id, version: nat, key: Key)
    ensures var (r, n) := AfterDelete(s, id, version, key);
            var unused := key !in s.audit;
            var live := id in s.things && !s.things[id].deleted;
            && (!unused ==> r == match s.audit[key].version case None => Err(MissingVersion) case Some(v) => Ok(Written(s.audit[key].target, v, true)))
            && (r.Err? || r.value.replayed ==> n == s)
            && (unused ==>
                  && (r == Err(NotFound) <==> !live)
                  && (r == Err(VersionConflict) <==> live && s.things[id].version != version)
                  && (r == Err(InvalidTransition) <==> live && s.things[id].version == version && s.things[id].mergedInto.Some?)
                  && (r.Ok? <==> live && s.things[id].version == version && s.things[id].mergedInto.None?))
            && (r.Ok? && !r.value.replayed ==>
                  && OthersStay(s, n, id) && n.sources == s.sources && n.things[id] == ThingRow(version + 1, s.things[id].deadline, None, true)
                  && (forall d :: d in n.dates <==> d in s.dates && s.dates[d].thing != id) && (forall d | d in n.dates :: n.dates[d] == s.dates[d])
                  && Records(s, n, key, Receipt(id, Some(version + 1), None, None)) && r.value == Written(id, version + 1, false))
  {
  }
}
