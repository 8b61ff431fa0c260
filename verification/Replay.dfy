/** What the journal of a run tells a reader of the event and audit tables. */
module Replay {
  import opened Wrappers
  import opened Store
  import opened Contracts
  import opened Booking
  import opened Journal

  /** How many events of this aggregate come before event i. */
  function Position(events: seq<Event>, a: Aggregate, i: nat): nat
    requires i <= |events|
  {
    |Of(events[..i], a)|
  }

  lemma {:induction false} EventAt(events: seq<Event>, a: Aggregate, i: nat)
    requires i < |events| && events[i].agg == a
    ensures Position(events, a, i) < |Of(events, a)| && Of(events, a)[Position(events, a, i)] == events[i]
  {
    var last := |events| - 1;
    if i == last {
    } else {
      EventAt(events[..last], a, i);
      assert events[..last][..i] == events[..i];
    }
  }

  lemma {:induction false} PositionsRise(events: seq<Event>, a: Aggregate, i: nat, j: nat)
    requires i < j <= |events|
    ensures Position(events, a, j) >= Position(events, a, i) + if events[i].agg == a then 1 else 0
    decreases j
  {
    assert events[..j][..j - 1] == events[..j - 1];
    if i < j - 1 { PositionsRise(events, a, i, j - 1); }
  }

  lemma {:induction false} EventFor(events: seq<Event>, a: Aggregate, q: nat) returns (i: nat)
    requires q < |Of(events, a)|
    ensures i < |events| && events[i].agg == a && Position(events, a, i) == q
  {
    var last := |events| - 1;
    if q < |Of(events[..last], a)| {
      i := EventFor(events[..last], a, q);
      assert events[..last][..i] == events[..i];
    } else {
      i := last;
    }
  }

  /**
   * Every version of a live aggregate after the one it started with has exactly one event, and the events appear in the order
   * of their versions.
   */
  lemma OneEventPerVersion(init: Tables, db: Tables, a: Aggregate, v: int) returns (i: nat)
    requires Kept(init, db) && State(db, a).Some? && BaseVersion(init, a) < v <= State(db, a).value.version
    ensures i < |db.events| && db.events[i].agg == a && db.events[i].version == v
    ensures forall j :: 0 <= j < |db.events| && db.events[j].agg == a ==> (db.events[j].version <= v <==> j <= i)
    ensures forall j :: 0 <= j < |db.events| && db.events[j].agg == a && db.events[j].version == v ==> j == i
  {
    assert Journaled(init, db, a);
    var q := v - BaseVersion(init, a) - 1;
    i := EventFor(db.events, a, q);
    EventAt(db.events, a, i);
    forall j | 0 <= j < |db.events| && db.events[j].agg == a
      ensures db.events[j].version <= v <==> j <= i
      ensures db.events[j].version == v ==> j == i
    {
      EventAt(db.events, a, j);
      if j < i { PositionsRise(db.events, a, j, i); }
      if i < j { PositionsRise(db.events, a, i, j); }
    }
  }

  /** No event of an aggregate is numbered outside its versions. */
  lemma NoOtherVersions(init: Tables, db: Tables, a: Aggregate, i: nat)
    requires Kept(init, db) && i < |db.events| && db.events[i].agg == a && State(db, a).Some?
    ensures BaseVersion(init, a) < db.events[i].version <= State(db, a).value.version
  {
    assert Journaled(init, db, a);
    EventAt(db.events, a, i);
  }

  // ---- audit -----------------------------------------------------------------------------------------------------------

  lemma {:induction false} VersionedIsThere(audit: seq<AuditBatch>, b: AuditBatch)
    requires b in Versioned(audit)
    ensures b in audit
  {
    if b in Versioned(audit[..|audit| - 1]) { VersionedIsThere(audit[..|audit| - 1], b); }
  }

  lemma {:induction false} BatchIsCalledFor(events: seq<Event>, i: nat)
    requires i < |events| && !events[i].agg.Notification?
    ensures BatchOf(events[i]) in Batches(events)
  {
    if i < |events| - 1 { BatchIsCalledFor(events[..|events| - 1], i); }
  }

  /** Every event but a notification has audit rows of its own id and version, one per changed cell or one in all. */
  lemma EveryEventIsAudited(init: Tables, db: Tables, i: nat)
    requires Kept(init, db) && i < |db.events| && !db.events[i].agg.Notification?
    ensures var e := db.events[i];
            && BatchOf(e) in db.audit
            && RowsOf(BatchOf(e)) != {}
            && (forall r :: r in RowsOf(BatchOf(e)) ==> r.eventId == Some(e.id) && r.version == Some(e.version))
            && (forall k :: k in e.changes ==> AuditRow(OfAggregate(e.agg), Some(k), e.changes[k].from, e.changes[k].to,
                                                         Some(e.id), Some(e.version)) in RowsOf(BatchOf(e)))
  {
    BatchIsCalledFor(db.events, i);
    VersionedIsThere(db.audit, BatchOf(db.events[i]));
    HasRows(BatchOf(db.events[i]));
  }

  lemma HasRows(b: AuditBatch)
    ensures RowsOf(b) != {}
  {
    if b.changes == map[] {
      assert AuditRow(b.entity, None, Null, Null, b.eventId, b.version) in RowsOf(b);
    } else {
      var k :| k in b.changes;
      assert AuditRow(b.entity, Some(k), b.changes[k].from, b.changes[k].to, b.eventId, b.version) in RowsOf(b);
    }
  }

  // ---- replay ----------------------------------------------------------------------------------------------------------

  /** Folding a slot's events over its first row rebuilds every tracked field of the row there is. */
  lemma SlotsAreRebuilt(init: Tables, db: Tables, id: int)
    requires Kept(init, db) && id in db.slots && id in init.slots
    ensures var log := Of(db.events, Slot(id));
            && db.slots[id].version == init.slots[id].version + |log|
            && Truthful(init.slots[id].cells, log)
            && forall f :: f in FIELDS ==> Get(ReplayAll(init.slots[id].cells, log), f) == Get(db.slots[id].cells, f)
  {
    assert Journaled(init, db, Slot(id));
  }

  /** A project created in the run is rebuilt from its events alone. */
  lemma ProjectsAreRebuilt(init: Tables, db: Tables, id: int)
    requires Kept(init, db) && id in db.projects && id !in init.projects
    ensures var log := Of(db.events, Project(id));
            && |log| == db.projects[id].version && Truthful(map[], log)
            && SameCells(ReplayAll(map[], log), db.projects[id].cells)
  {
    assert Journaled(init, db, Project(id));
  }

  /** A project that was there is gone exactly when its log ends with its deletion. */
  lemma GoneExactlyWhenDeleted(init: Tables, db: Tables, id: int)
    requires Kept(init, db) && (id in init.projects || Of(db.events, Project(id)) != [])
    ensures id !in db.projects <==> EndsDeleted(Of(db.events, Project(id)))
  {
    assert Journaled(init, db, Project(id));
  }
}
