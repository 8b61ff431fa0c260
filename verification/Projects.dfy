/** The steps of the project aggregate that other services take inside their own transaction (server/domain/projectService.ts). */
module Projects {
  import opened Wrappers
  import opened Store
  import opened Contracts
  import opened Permissions
  import opened Booking

  const BM := Field("bahnhofsmanagement")

  function ProjectEvent(db: Tables, p: Principal, kind: Kind, id: int, version: int, changes: Changes,
                        ws: Option<string>, before: Option<string>): Event {
    Event(|db.events|, kind, Project(id), version, p.id, changes, ws, before, None)
  }

  /** Only cells that hold something are part of a creation. */
  function Filled(cells: Cells): Cells {
    map k | k in cells && cells[k] != Null :: cells[k]
  }

  function CreationChanges(cells: Cells): Changes {
    map k | k in cells && cells[k] != Null :: Change(Null, cells[k])
  }

  /** A project with its initial reviews, version 1, one event. */
  function BirthStep(db: Tables, p: Principal, cells: Cells): Tables {
    var id := db.nextProject;
    Record(db.(projects := db.projects[id := ProjectRow(Filled(cells), 1)], nextProject := id + 1),
           ProjectEvent(db, p, ProjectCreated, id, 1, CreationChanges(cells), WorkspaceOf(cells), None))
  }

  /** `createWithin`. */
  function CreateWithin(w: World, db: Tables, p: Principal, cells: Cells): Result<Tables, Error> {
    if !CanEdit(w.fold, p, WorkspaceOf(cells)) then Failure(Forbidden) else Success(BirthStep(db, p, cells))
  }

  function NormalizedCells(w: World, cells: Cells): Cells {
    map k | k in cells && w.normalize(k, cells[k]).Some? :: w.normalize(k, cells[k]).value
  }

  predicate Normalizable(w: World, cells: Cells) {
    forall k :: k in cells ==> w.normalize(k, cells[k]).Some?
  }

  /** One version step of a project, with the given changes as its audit rows and its event. */
  function ProjectStep(db: Tables, p: Principal, id: int, set_: Cells, changes: Changes): Tables
    requires id in db.projects
  {
    var cur := db.projects[id];
    var ws := WorkspaceOf(cur.cells + set_);
    Record(db.(projects := db.projects[id := ProjectRow(cur.cells + set_, cur.version + 1)]),
           ProjectEvent(db, p, ProjectUpdated, id, cur.version + 1, changes, ws,
                        if ws != WorkspaceOf(cur.cells) then WorkspaceOf(cur.cells) else None))
  }

  /** `updateWithin` of a project the caller holds locked: nothing at all when no cell changes. */
  function UpdateWithin(db: Tables, p: Principal, id: int, set_: Cells): Tables
    requires id in db.projects
  {
    var changes := Diff(db.projects[id].cells, set_);
    if changes == map[] then db else ProjectStep(db, p, id, set_, changes)
  }

  /** A direct edit: visible, editable, up to date; moving it needs the right to edit at the destination too. */
  function EditWithin(w: World, db: Tables, p: Principal, input: UpdateInput): Result<Tables, Error> {
    if !Normalizable(w, input.cells) then Failure(Invalid)
    else if input.id !in db.projects then Failure(NotFound)
    else
      var cur := db.projects[input.id];
      var set_ := NormalizedCells(w, input.cells);
      var ws, newWs := WorkspaceOf(cur.cells), WorkspaceOf(cur.cells + set_);
      if !CanView(w.fold, p, ws) then Failure(NotFound)
      else if !CanEdit(w.fold, p, ws) || (newWs != ws && !CanEdit(w.fold, p, newWs)) then Failure(Forbidden)
      else if cur.version != input.expectedVersion then
        Failure(Conflict(StaleVersion, input.expectedVersion, cur.version))
      else Success(UpdateWithin(db, p, input.id, set_))
  }

  lemma {:induction false} HasSmallest(ids: set<int>)
    requires ids != {}
    ensures exists m :: m in ids && forall i :: i in ids ==> m <= i
    decreases |ids|
  {
    assert (forall x: int :: x !in ids) ==> ids == {};
    var x :| x in ids;
    if ids - {x} != {} {
      HasSmallest(ids - {x});
      var m :| m in ids - {x} && forall i :: i in ids - {x} ==> m <= i;
      var least := if x <= m then x else m;
      assert forall i :: i in ids ==> i == x || i in ids - {x};
      assert least in ids && forall i :: i in ids ==> least <= i;
    } else {
      assert forall i :: i in ids ==> i == x || i in ids - {x};
    }
  }

  /** The lost link of each report, in the order of the reports. */
  function UnlinkAudit(ids: set<int>, projectId: int, eventId: nat): seq<AuditBatch>
    decreases |ids|
  {
    if ids == {} then []
    else
      HasSmallest(ids);
      var r :| r in ids && forall i :: i in ids ==> r <= i;
      [AuditBatch(OfReport(r), map[Field("projectId") := Change(Number(projectId), Null)], Some(eventId), None, None)] +
      UnlinkAudit(ids - {r}, projectId, eventId)
  }

  function DeleteWithin(w: World, db: Tables, p: Principal, input: DeleteInput): Result<Tables, Error> {
    if input.id !in db.projects then Failure(NotFound)
    else
      var cur := db.projects[input.id];
      if !CanView(w.fold, p, WorkspaceOf(cur.cells)) then Failure(NotFound)
      else if !p.role.Admin? then Failure(Forbidden)
      else if cur.version != input.expectedVersion then
        Failure(Conflict(StaleVersion, input.expectedVersion, cur.version))
      else
        Success(DeleteStep(db, p, input.id))
  }

  /** The project and its source keys go; its reports stay, without a link and with an audit row each. */
  function DeleteStep(db: Tables, p: Principal, id: int): Tables
    requires id in db.projects
  {
    var cur := db.projects[id];
    var unlinked := UnlinkAudit(ReportsOf(db.reports, id), id, |db.events|);
    Record(db.(projects := db.projects - {id}, reports := UnlinkReports(db.reports, id),
               sourceKeys := DropKeysOf(db.sourceKeys, id), audit := db.audit + unlinked),
           ProjectEvent(db, p, ProjectDeleted, id, cur.version + 1, map[], WorkspaceOf(cur.cells), None))
  }

  // ---- statement by statement ------------------------------------------------------------------------------------------

  method CreateInTransaction(w: World, db: TxDatabase, p: Principal, cells: Cells) returns (r: Result<int, Error>)
    modifies db
    ensures var spec := CreateWithin(w, old(db.state), p, cells);
            && (spec.Success? ==> db.state == spec.value && r == Success(old(db.state).nextProject))
            && (spec.Failure? ==> db.state == old(db.state) && r == Failure(spec.error))
  {
    if !CanEdit(w.fold, p, WorkspaceOf(cells)) { return Failure(Forbidden); }
    var id := db.InsertProject(Filled(cells));
    var event := ProjectEvent(db.state, p, ProjectCreated, id, 1, CreationChanges(cells), WorkspaceOf(cells), None);
    db.Publish(event);
    return Success(id);
  }

  method WriteProject(db: TxDatabase, p: Principal, id: int, set_: Cells, changes: Changes)
    requires id in db.state.projects
    modifies db
    ensures db.state == ProjectStep(old(db.state), p, id, set_, changes)
  {
    var cur := db.state.projects[id];
    var ok := db.UpdateProjectVersioned(id, cur.version, set_);
    var ws, before := WorkspaceOf(cur.cells + set_), WorkspaceOf(cur.cells);
    var event := ProjectEvent(db.state, p, ProjectUpdated, id, cur.version + 1, changes, ws,
                              if ws != before then before else None);
    db.Publish(event);
  }

  method UpdateInTransaction(db: TxDatabase, p: Principal, id: int, set_: Cells)
    requires id in db.state.projects
    modifies db
    ensures db.state == UpdateWithin(old(db.state), p, id, set_)
  {
    var changes := Diff(db.state.projects[id].cells, set_);
    if changes != map[] { WriteProject(db, p, id, set_, changes); }
  }

  method EditInTransaction(w: World, db: TxDatabase, p: Principal, input: UpdateInput) returns (r: Result<int, Error>)
    modifies db
    ensures var spec := EditWithin(w, old(db.state), p, input);
            && db.state == (if spec.Success? then spec.value else old(db.state))
            && (spec.Success? ==> input.id in spec.value.projects && r == Success(spec.value.projects[input.id].version))
            && (spec.Failure? ==> r == Failure(spec.error))
  {
    if !Normalizable(w, input.cells) { return Failure(Invalid); }
    var current := db.LockProject(input.id);
    if current.None? { return Failure(NotFound); }
    var set_ := NormalizedCells(w, input.cells);
    var ws, newWs := WorkspaceOf(current.value.cells), WorkspaceOf(current.value.cells + set_);
    if !CanView(w.fold, p, ws) { return Failure(NotFound); }
    if !CanEdit(w.fold, p, ws) { return Failure(Forbidden); }
    if newWs != ws && !CanEdit(w.fold, p, newWs) { return Failure(Forbidden); }
    if current.value.version != input.expectedVersion {
      return Failure(Conflict(StaleVersion, input.expectedVersion, current.value.version));
    }
    UpdateInTransaction(db, p, input.id, set_);
    return Success(db.state.projects[input.id].version);
  }

  method RemoveProject(db: TxDatabase, p: Principal, id: int)
    requires id in db.state.projects
    modifies db
    ensures db.state == DeleteStep(old(db.state), p, id)
  {
    var cur := db.state.projects[id];
    var event := ProjectEvent(db.state, p, ProjectDeleted, id, cur.version + 1, map[], WorkspaceOf(cur.cells), None);
    var unlinked := db.UnlinkReportsOf(id);
    db.AppendAudits(UnlinkAudit(unlinked, id, event.id));
    db.DeleteProject(id);
    db.Publish(event);
  }

  method DeleteInTransaction(w: World, db: TxDatabase, p: Principal, input: DeleteInput) returns (r: Result<int, Error>)
    modifies db
    ensures var spec := DeleteWithin(w, old(db.state), p, input);
            && db.state == (if spec.Success? then spec.value else old(db.state))
            && r == (if spec.Success? then Success(input.id) else Failure(spec.error))
  {
    var current := db.LockProject(input.id);
    if current.None? || !CanView(w.fold, p, WorkspaceOf(current.value.cells)) { return Failure(NotFound); }
    if !p.role.Admin? { return Failure(Forbidden); }
    if current.value.version != input.expectedVersion {
      return Failure(Conflict(StaleVersion, input.expectedVersion, current.value.version));
    }
    RemoveProject(db, p, input.id);
    return Success(input.id);
  }
}
