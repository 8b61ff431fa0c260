/**
 * The event log of the write path: for every slot, checklist, project and notification the events carry every version exactly
 * once, the events of slots and projects rebuild the row, and every event has its audit rows.
 */
module Journal {
  import opened Wrappers
  import opened Store
  import opened Contracts
  import opened Permissions
  import opened Booking
  import opened Projects
  import opened Checklists
  import opened RegisterImport
  import opened ReportLinks
  import opened AutoLinks
  import opened Steps

  /** The events of one aggregate, in order. */
  function Of(events: seq<Event>, a: Aggregate): seq<Event> {
    if |events| == 0 then []
    else
      var rest, e := Of(events[..|events| - 1], a), events[|events| - 1];
      if e.agg == a then rest + [e] else rest
  }

  /** What a replay is held against: the version, and the cells where the row is made of nothing else. */
  datatype Tracked = Tracked(version: int, cells: Option<Cells>)

  function State(db: Tables, a: Aggregate): Option<Tracked> {
    match a
    case Slot(id) => if id in db.slots then Some(Tracked(db.slots[id].version, Some(db.slots[id].cells))) else None
    case Checklist(id) => if id in db.checklists then Some(Tracked(db.checklists[id].version, None)) else None
    case Project(id) =>
      if id in db.projects then Some(Tracked(db.projects[id].version, Some(db.projects[id].cells))) else None
    case Notification(id) => if id < db.nextNotification then Some(Tracked(1, None)) else None
  }

  function BaseVersion(init: Tables, a: Aggregate): int {
    if State(init, a).Some? then State(init, a).value.version else 0
  }

  function BaseCells(init: Tables, a: Aggregate): Cells {
    if State(init, a).Some? && State(init, a).value.cells.Some? then State(init, a).value.cells.value else map[]
  }

  /** What a consumer holds after the whole log. */
  function ReplayAll(start: Cells, log: seq<Event>): Cells {
    if |log| == 0 then start else Replayed(ReplayAll(start, log[..|log| - 1]), log[|log| - 1].changes)
  }

  /** Every change names the value before it. */
  ghost predicate Truthful(start: Cells, log: seq<Event>) {
    |log| == 0 || (
      var rest, e := log[..|log| - 1], log[|log| - 1];
      && Truthful(start, rest)
      && forall k :: k in e.changes ==> e.changes[k].from == Get(ReplayAll(start, rest), k))
  }

  ghost predicate Gapless(log: seq<Event>, base: int) {
    forall i :: 0 <= i < |log| ==> log[i].version == base + 1 + i
  }

  predicate EndsDeleted(log: seq<Event>) {
    |log| > 0 && log[|log| - 1].kind == ProjectDeleted
  }

  /** The log of one aggregate against its row: gapless, truthful, and a row is missing exactly when it never was or is deleted. */
  ghost predicate Journaled(init: Tables, db: Tables, a: Aggregate) {
    var log, state := Of(db.events, a), State(db, a);
    && Gapless(log, BaseVersion(init, a))
    && (a.Slot? || a.Project? ==> Truthful(BaseCells(init, a), log))
    && (state.Some? ==>
          && state.value.version == BaseVersion(init, a) + |log| && !EndsDeleted(log)
          && (log != [] || State(init, a).Some?)
          && (state.value.cells.Some? ==> SameCells(ReplayAll(BaseCells(init, a), log), state.value.cells.value)))
    && (state.None? ==> EndsDeleted(log) || (log == [] && State(init, a).None?))
  }

  // ---- audit -----------------------------------------------------------------------------------------------------------

  predicate IsVersioned(b: AuditBatch) {
    b.eventId.Some? && b.version.Some?
  }

  /** The audit batches that belong to a version of an aggregate. */
  function Versioned(audit: seq<AuditBatch>): seq<AuditBatch> {
    if |audit| == 0 then []
    else
      var rest, b := Versioned(audit[..|audit| - 1]), audit[|audit| - 1];
      if IsVersioned(b) then rest + [b] else rest
  }

  /** The audit batches the events call for; a notification has none. */
  function Batches(events: seq<Event>): seq<AuditBatch> {
    if |events| == 0 then []
    else
      var rest, e := Batches(events[..|events| - 1]), events[|events| - 1];
      if e.agg.Notification? then rest else rest + [BatchOf(e)]
  }

  lemma {:induction false} VersionedJoin(a: seq<AuditBatch>, b: seq<AuditBatch>)
    ensures Versioned(a + b) == Versioned(a) + Versioned(b)
    decreases |b|
  {
    if |b| == 0 {
      assert a + b == a;
    } else {
      VersionedJoin(a, b[..|b| - 1]);
      assert (a + b)[..|a + b| - 1] == a + b[..|b| - 1];
    }
  }

  // ---- the invariant ---------------------------------------------------------------------------------------------------

  /** Ids already given out are below the counters. */
  ghost predicate Known(db: Tables, a: Aggregate) {
    match a
    case Slot(id) => true
    case Checklist(id) => id < db.nextChecklist
    case Project(id) => id < db.nextProject
    case Notification(id) => id < db.nextNotification
  }

  ghost predicate AllJournaled(init: Tables, db: Tables) {
    forall a :: Journaled(init, db, a)
  }

  ghost predicate AllKnown(db: Tables) {
    && (forall a :: State(db, a).Some? ==> Known(db, a))
    && (forall i :: 0 <= i < |db.events| ==> Known(db, db.events[i].agg))
  }

  ghost predicate Numbered(events: seq<Event>) {
    forall i :: 0 <= i < |events| ==> events[i].id == i
  }

  ghost predicate Kept(init: Tables, db: Tables) {
    && AllJournaled(init, db) && AllKnown(db) && Numbered(db.events)
    && (forall a :: Known(init, a) ==> Known(db, a))
    && Versioned(db.audit) == Batches(db.events)
  }

  /** A store with rows but no history yet. */
  ghost predicate Start(init: Tables) {
    && init.events == [] && Versioned(init.audit) == []
    && forall a :: State(init, a).Some? ==> Known(init, a)
  }

  lemma StartIsKept(init: Tables)
    requires Start(init)
    ensures Kept(init, init)
  {
    forall a ensures Journaled(init, init, a) {
      assert Of(init.events, a) == [];
    }
  }

  // ---- steps that append an event --------------------------------------------------------------------------------------

  /** These changes lead from one content to the other and say what was there before. */
  ghost predicate Records(before: Cells, changes: Changes, after: Cells) {
    && (forall k :: k in changes ==> changes[k].from == Get(before, k))
    && SameCells(Replayed(before, changes), after)
  }

  /** The step of the event's own aggregate. */
  ghost predicate Moves(before: Option<Tracked>, e: Event, after: Option<Tracked>) {
    && e.version == (if before.Some? then before.value.version else 0) + 1
    && (after.Some? ==> after.value.version == e.version && e.kind != ProjectDeleted)
    && (after.None? ==> before.Some? && e.kind == ProjectDeleted)
    && (e.agg.Slot? || e.agg.Project? ==>
          var cells := if before.Some? && before.value.cells.Some? then before.value.cells.value else map[];
          && (after.Some? ==> after.value.cells.Some? && Records(cells, e.changes, after.value.cells.value))
          && (after.None? ==> e.changes == map[]))
    && (after.Some? && after.value.cells.Some? ==> e.agg.Slot? || e.agg.Project?)
  }

  ghost predicate Advances(db: Tables, after: Tables, e: Event) {
    && after.events == db.events + [e] && e.id == |db.events|
    && (forall a :: a != e.agg ==> State(after, a) == State(db, a))
    && Moves(State(db, e.agg), e, State(after, e.agg))
    && (State(db, e.agg).None? ==> !Known(db, e.agg))
    && (forall a :: Known(db, a) || a == e.agg ==> Known(after, a))
    && Versioned(after.audit) == Versioned(db.audit) + if e.agg.Notification? then [] else [BatchOf(e)]
  }

  lemma OfNext(events: seq<Event>, e: Event, a: Aggregate)
    ensures Of(events + [e], a) == Of(events, a) + if e.agg == a then [e] else []
  {
    assert (events + [e])[..|events|] == events;
  }

  lemma {:induction false} OfKnown(db: Tables, events: seq<Event>, a: Aggregate)
    requires (forall i :: 0 <= i < |events| ==> Known(db, events[i].agg)) && !Known(db, a)
    ensures Of(events, a) == []
  {
    if |events| > 0 { OfKnown(db, events[..|events| - 1], a); }
  }

  lemma ReplayRespects(a: Cells, b: Cells, changes: Changes)
    requires SameCells(a, b)
    ensures SameCells(Replayed(a, changes), Replayed(b, changes))
  {
    forall k ensures Get(Replayed(a, changes), k) == Get(Replayed(b, changes), k) {
      assert Get(a, k) == Get(b, k);
    }
  }

  /** The log of the aggregate that moved. */
  lemma OwnLog(init: Tables, db: Tables, after: Tables, e: Event)
    requires Kept(init, db) && Advances(db, after, e)
    ensures Journaled(init, after, e.agg)
  {
    var a, log := e.agg, Of(db.events, e.agg);
    OfNext(db.events, e, a);
    assert Journaled(init, db, a);
    assert (log + [e])[..|log|] == log;
    if State(db, a).None? {
      OfKnown(db, db.events, a);
      NeverThere(init, db, a);
    }
    if a.Slot? || a.Project? {
      var start := BaseCells(init, a);
      var cells := if State(db, a).Some? && State(db, a).value.cells.Some? then State(db, a).value.cells.value else map[];
      assert SameCells(ReplayAll(start, log), cells);
      ReplayRespects(ReplayAll(start, log), cells, e.changes);
      forall k | k in e.changes ensures e.changes[k].from == Get(ReplayAll(start, log), k) {
        assert Get(ReplayAll(start, log), k) == Get(cells, k);
      }
      if State(after, a).Some? {
        SameTwice(ReplayAll(start, log + [e]), Replayed(cells, e.changes), State(after, a).value.cells.value);
      }
    }
  }

  lemma SameTwice(a: Cells, b: Cells, c: Cells)
    requires SameCells(a, b) && SameCells(b, c)
    ensures SameCells(a, c)
  {
    forall k ensures Get(a, k) == Get(c, k) { assert Get(a, k) == Get(b, k); }
  }

  lemma NeverThere(init: Tables, db: Tables, a: Aggregate)
    requires Kept(init, db) && !Known(db, a) && Of(db.events, a) == []
    ensures State(init, a).None?
  {
    assert Journaled(init, db, a);
    assert State(db, a).None?;
  }

  lemma OtherLog(init: Tables, db: Tables, after: Tables, e: Event, a: Aggregate)
    requires Kept(init, db) && Advances(db, after, e) && a != e.agg
    ensures Journaled(init, after, a)
  {
    OfNext(db.events, e, a);
    assert Journaled(init, db, a);
    assert Of(after.events, a) == Of(db.events, a);
  }

  lemma AdvancingKeeps(init: Tables, db: Tables, after: Tables, e: Event)
    requires Kept(init, db) && Advances(db, after, e)
    ensures Kept(init, after)
  {
    forall a ensures Journaled(init, after, a) {
      if a == e.agg { OwnLog(init, db, after, e); } else { OtherLog(init, db, after, e, a); }
    }
    assert after.events[..|db.events|] == db.events;
    forall a | State(after, a).Some? ensures Known(after, a) {
      if a != e.agg { assert State(db, a).Some?; }
    }
  }

  // ---- steps that do not -----------------------------------------------------------------------------------------------

  ghost predicate Silent(db: Tables, after: Tables) {
    && after.events == db.events && (forall a :: State(after, a) == State(db, a) && (Known(db, a) ==> Known(after, a)))
    && Versioned(after.audit) == Versioned(db.audit)
  }

  lemma SilenceKeeps(init: Tables, db: Tables, after: Tables)
    requires Kept(init, db) && Silent(db, after)
    ensures Kept(init, after)
  {
    forall a ensures Journaled(init, after, a) { assert Journaled(init, db, a); }
  }

  // ---- step by step ----------------------------------------------------------------------------------------------------

  lemma VersionedNext(audit: seq<AuditBatch>, b: AuditBatch)
    ensures Versioned(audit + [b]) == Versioned(audit) + if IsVersioned(b) then [b] else []
  {
    assert (audit + [b])[..|audit|] == audit;
  }

  lemma DiffRecords(cur: Cells, set_: Cells)
    ensures Records(cur, Diff(cur, set_), cur + set_)
  {
  }

  lemma CreationRecords(cells: Cells)
    ensures Records(map[], CreationChanges(cells), Filled(cells))
  {
  }

  lemma SlotsElse(db: Tables, after: Tables, id: int)
    requires after.checklists == db.checklists && after.projects == db.projects
    requires after.nextNotification == db.nextNotification
    requires forall x :: x != id ==> (x in after.slots <==> x in db.slots)
    requires forall x :: x != id && x in db.slots ==> after.slots[x] == db.slots[x]
    ensures forall a :: a != Slot(id) ==> State(after, a) == State(db, a)
  {
  }

  lemma ProjectsElse(db: Tables, after: Tables, id: int)
    requires after.checklists == db.checklists && after.slots == db.slots && after.nextNotification == db.nextNotification
    requires forall x :: x != id ==> (x in after.projects <==> x in db.projects)
    requires forall x :: x != id && x in db.projects ==> after.projects[x] == db.projects[x]
    ensures forall a :: a != Project(id) ==> State(after, a) == State(db, a)
  {
  }

  lemma SlotMoves(cur: SlotRow, set_: Cells, e: Event)
    requires e.agg.Slot? && e.kind == BookingUpdated && e.version == cur.version + 1 && e.changes == Diff(cur.cells, set_)
    ensures Moves(Some(Tracked(cur.version, Some(cur.cells))), e, Some(Tracked(cur.version + 1, Some(cur.cells + set_))))
  {
    DiffRecords(cur.cells, set_);
  }

  lemma SlotAdvances(db: Tables, p: Principal, id: int, set_: Cells, checklistId: Option<int>, ws: Option<string>)
    requires id in db.slots
    ensures var cur := db.slots[id];
            Advances(db, SlotStep(db, p, id, set_, checklistId, ws),
                     SlotEvent(db, p, id, cur.version + 1, Diff(cur.cells, set_), ws))
  {
    var cur := db.slots[id];
    var e := SlotEvent(db, p, id, cur.version + 1, Diff(cur.cells, set_), ws);
    SlotMoves(cur, set_, e);
    SlotsElse(db, SlotStep(db, p, id, set_, checklistId, ws), id);
    VersionedNext(db.audit, BatchOf(e));
  }

  lemma ChecklistAdvances(db: Tables, p: Principal, kind: Kind, id: int, row: ChecklistRow, changes: Changes,
                          ws: Option<string>, recipient: Option<string>)
    requires AllKnown(db) && kind != ProjectDeleted && id in db.checklists && row.version == db.checklists[id].version + 1
    ensures Advances(db, ChecklistStep(db, p, kind, id, row, changes, ws, recipient),
                     ChecklistEvent(db, p, kind, id, row.version, changes, ws, recipient))
  {
    VersionedNext(db.audit, BatchOf(ChecklistEvent(db, p, kind, id, row.version, changes, ws, recipient)));
  }

  lemma InsertAdvances(db: Tables, p: Principal, row: ChecklistRow, changes: Changes, ws: Option<string>)
    requires AllKnown(db) && row.version == 1
    ensures Advances(db, InsertStep(db, p, row, changes, ws),
                     ChecklistEvent(db, p, ChecklistCreated, db.nextChecklist, 1, changes, ws, Some(p.id)))
  {
    var e := ChecklistEvent(db, p, ChecklistCreated, db.nextChecklist, 1, changes, ws, Some(p.id));
    assert !Known(db, e.agg);
    VersionedNext(db.audit, BatchOf(e));
  }

  lemma BirthMoves(cells: Cells, e: Event)
    requires e.agg.Project? && e.kind == ProjectCreated && e.version == 1 && e.changes == CreationChanges(cells)
    ensures Moves(None, e, Some(Tracked(1, Some(Filled(cells)))))
  {
    CreationRecords(cells);
  }

  lemma EditMoves(cur: ProjectRow, set_: Cells, e: Event)
    requires e.agg.Project? && e.kind == ProjectUpdated && e.version == cur.version + 1 && e.changes == Diff(cur.cells, set_)
    ensures Moves(Some(Tracked(cur.version, Some(cur.cells))), e, Some(Tracked(cur.version + 1, Some(cur.cells + set_))))
  {
    DiffRecords(cur.cells, set_);
  }

  lemma BirthAdvances(db: Tables, p: Principal, cells: Cells)
    requires AllKnown(db)
    ensures Advances(db, BirthStep(db, p, cells),
                     ProjectEvent(db, p, ProjectCreated, db.nextProject, 1, CreationChanges(cells), WorkspaceOf(cells), None))
  {
    var e := ProjectEvent(db, p, ProjectCreated, db.nextProject, 1, CreationChanges(cells), WorkspaceOf(cells), None);
    assert !Known(db, e.agg);
    BirthMoves(cells, e);
    VersionedNext(db.audit, BatchOf(e));
  }

  function EditEvent(db: Tables, p: Principal, id: int, set_: Cells): Event
    requires id in db.projects
  {
    var cur := db.projects[id];
    var ws := WorkspaceOf(cur.cells + set_);
    ProjectEvent(db, p, ProjectUpdated, id, cur.version + 1, Diff(cur.cells, set_), ws,
                 if ws != WorkspaceOf(cur.cells) then WorkspaceOf(cur.cells) else None)
  }

  lemma EditAdvances(db: Tables, p: Principal, id: int, set_: Cells)
    requires AllKnown(db) && id in db.projects
    ensures Advances(db, ProjectStep(db, p, id, set_, Diff(db.projects[id].cells, set_)), EditEvent(db, p, id, set_))
  {
    EditMoves(db.projects[id], set_, EditEvent(db, p, id, set_));
    ProjectsElse(db, ProjectStep(db, p, id, set_, Diff(db.projects[id].cells, set_)), id);
    VersionedNext(db.audit, BatchOf(EditEvent(db, p, id, set_)));
  }

  lemma {:induction false} UnlinksAreUnversioned(ids: set<int>, projectId: int, eventId: nat)
    ensures Versioned(UnlinkAudit(ids, projectId, eventId)) == []
    decreases |ids|
  {
    if ids != {} {
      HasSmallest(ids);
      var r :| r in ids && forall i :: i in ids ==> r <= i;
      var b := AuditBatch(OfReport(r), map[Field("projectId") := Change(Number(projectId), Null)], Some(eventId), None, None);
      UnlinksAreUnversioned(ids - {r}, projectId, eventId);
      VersionedJoin([b], UnlinkAudit(ids - {r}, projectId, eventId));
      VersionedNext([], b);
      assert [] + [b] == [b];
    }
  }

  lemma DeletionAdvances(db: Tables, p: Principal, id: int)
    requires AllKnown(db) && id in db.projects
    ensures Advances(db, DeleteStep(db, p, id),
                     ProjectEvent(db, p, ProjectDeleted, id, db.projects[id].version + 1, map[],
                                  WorkspaceOf(db.projects[id].cells), None))
  {
    var unlinks := UnlinkAudit(ReportsOf(db.reports, id), id, |db.events|);
    UnlinksAreUnversioned(ReportsOf(db.reports, id), id, |db.events|);
    VersionedJoin(db.audit, unlinks);
    VersionedNext(db.audit + unlinks, BatchOf(ProjectEvent(db, p, ProjectDeleted, id, db.projects[id].version + 1, map[],
                                                           WorkspaceOf(db.projects[id].cells), None)));
  }

  lemma TellAdvances(db: Tables, p: Principal, key: NotificationKey, ws: Option<string>)
    requires key !in db.notified && AllKnown(db)
    ensures Advances(db, NotifyOne(db, p, key, ws),
                     NotificationEvent(db, p, db.nextNotification, key.user, ws, key.department))
  {
    var e := NotificationEvent(db, p, db.nextNotification, key.user, ws, key.department);
    assert !Known(db, e.agg);
  }

  lemma AuditIsSilent(db: Tables, after: Tables, b: AuditBatch)
    requires !IsVersioned(b) && after.audit in {db.audit, db.audit + [b]}
    requires after.events == db.events && after.slots == db.slots && after.checklists == db.checklists
    requires after.projects == db.projects && after.nextChecklist == db.nextChecklist
    requires after.nextProject == db.nextProject && after.nextNotification == db.nextNotification
    ensures Silent(db, after)
  {
    VersionedNext(db.audit, b);
  }

  lemma RelinkIsSilent(db: Tables, report: int, link: Option<int>, source: LinkSource)
    requires report in db.reports
    ensures Silent(db, LinkStep(db, report, link, source))
  {
    AuditIsSilent(db, LinkStep(db, report, link, source), LinkAudit(report, db.reports[report], link));
  }

  lemma SlotStepKeeps(init: Tables, db: Tables, p: Principal, id: int, set_: Cells, checklistId: Option<int>,
                      ws: Option<string>)
    requires Kept(init, db) && id in db.slots
    ensures Kept(init, SlotStep(db, p, id, set_, checklistId, ws))
  {
    SlotAdvances(db, p, id, set_, checklistId, ws);
    AdvancingKeeps(init, db, SlotStep(db, p, id, set_, checklistId, ws),
                   SlotEvent(db, p, id, db.slots[id].version + 1, Diff(db.slots[id].cells, set_), ws));
  }

  lemma ChecklistStepKeeps(init: Tables, db: Tables, p: Principal, kind: Kind, id: int, row: ChecklistRow, changes: Changes,
                           ws: Option<string>, recipient: Option<string>)
    requires Kept(init, db) && kind != ProjectDeleted && id in db.checklists && row.version == db.checklists[id].version + 1
    ensures Kept(init, ChecklistStep(db, p, kind, id, row, changes, ws, recipient))
  {
    ChecklistAdvances(db, p, kind, id, row, changes, ws, recipient);
    AdvancingKeeps(init, db, ChecklistStep(db, p, kind, id, row, changes, ws, recipient),
                   ChecklistEvent(db, p, kind, id, row.version, changes, ws, recipient));
  }

  lemma ChecklistStepsKeep(init: Tables, db: Tables, s: Step)
    requires Kept(init, db) && Legal(db, s) && (s.OpenDraft? || s.EditDraft? || s.SubmitDraft?)
    ensures Kept(init, Next(db, s))
  {
    match s
    case OpenDraft(p, row, changes, ws) =>
      InsertAdvances(db, p, row, changes, ws);
      AdvancingKeeps(init, db, InsertStep(db, p, row, changes, ws),
                     ChecklistEvent(db, p, ChecklistCreated, db.nextChecklist, 1, changes, ws, Some(p.id)));
    case EditDraft(p, id, row, changes, ws) =>
      ChecklistStepKeeps(init, db, p, ChecklistUpdated, id, row, changes, ws, Some(p.id));
    case SubmitDraft(p, id, projectId) =>
      var cur := db.checklists[id];
      ChecklistStepKeeps(init, db, p, ChecklistSubmitted, id,
                         cur.(status := Submitted, projectId := Some(projectId), version := cur.version + 1),
                         SubmissionChanges(projectId), Checklists.Workspace(cur.header), None);
  }

  lemma ProjectStepsKeep(init: Tables, db: Tables, s: Step)
    requires Kept(init, db) && Legal(db, s) && (s.CreateProject? || s.EditProject? || s.RemoveProject?)
    ensures Kept(init, Next(db, s))
  {
    match s
    case CreateProject(p, cells) =>
      BirthAdvances(db, p, cells);
      AdvancingKeeps(init, db, BirthStep(db, p, cells),
                     ProjectEvent(db, p, ProjectCreated, db.nextProject, 1, CreationChanges(cells), WorkspaceOf(cells), None));
    case EditProject(p, id, cells) =>
      EditAdvances(db, p, id, cells);
      AdvancingKeeps(init, db, Next(db, s), EditEvent(db, p, id, cells));
    case RemoveProject(p, id) =>
      DeletionAdvances(db, p, id);
      AdvancingKeeps(init, db, DeleteStep(db, p, id),
                     ProjectEvent(db, p, ProjectDeleted, id, db.projects[id].version + 1, map[],
                                  WorkspaceOf(db.projects[id].cells), None));
  }

  lemma {:induction false} LinksAreUnversioned(rows: seq<AuditBatch>)
    requires forall b :: b in rows ==> b.eventId.None?
    ensures Versioned(rows) == []
  {
    if |rows| > 0 { LinksAreUnversioned(rows[..|rows| - 1]); }
  }

  /** Steps on keys, audit notes and report links. */
  predicate Aside(s: Step) {
    s.OwnKey? || s.ExcludeRow? || s.IncludeRow? || s.Note? || s.Relink? || s.LinkReport? || s.LogLinks?
  }

  lemma AsideIsSilent(db: Tables, s: Step)
    requires Legal(db, s) && Aside(s)
    ensures Silent(db, Next(db, s))
  {
    match s
    case OwnKey(_, _) => AuditIsSilent(db, Next(db, s), ImportAudit("", 0));
    case ExcludeRow(rec) => AuditIsSilent(db, Next(db, s), ImportAudit("import.skip", rec.ref));
    case IncludeRow(rec) => AuditIsSilent(db, Next(db, s), ImportAudit("import.unskip", rec.ref));
    case Note(field, total) => AuditIsSilent(db, Next(db, s), ImportAudit(field, total));
    case Relink(report, link, source) => RelinkIsSilent(db, report, link, source);
    case LinkReport(_) => AuditIsSilent(db, Next(db, s), ImportAudit("", 0));
    case LogLinks(rows) =>
      VersionedJoin(db.audit, rows);
      LinksAreUnversioned(rows);
  }

  /** Every legal step keeps the journal. */
  lemma StepKeeps(init: Tables, db: Tables, s: Step)
    requires Kept(init, db) && Legal(db, s)
    ensures Kept(init, Next(db, s))
  {
    if Aside(s) {
      AsideIsSilent(db, s);
      SilenceKeeps(init, db, Next(db, s));
    } else if s.CreateProject? || s.EditProject? || s.RemoveProject? {
      ProjectStepsKeep(init, db, s);
    } else if s.OpenDraft? || s.EditDraft? || s.SubmitDraft? {
      ChecklistStepsKeep(init, db, s);
    } else {
      match s
      case TakeSlot(p, id, booked, ws) => SlotStepKeeps(init, db, p, id, booked, db.slots[id].checklistId, ws);
      case FreeSlot(p, id, ws) => SlotStepKeeps(init, db, p, id, FreedCells(), None, ws);
      case Tell(p, key, ws) =>
        TellAdvances(db, p, key, ws);
        AdvancingKeeps(init, db, NotifyOne(db, p, key, ws),
                       NotificationEvent(db, p, db.nextNotification, key.user, ws, key.department));
    }
  }
}
