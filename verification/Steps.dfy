/** The elementary transitions every call of the write path is made of. */
module Steps {
  import opened Wrappers
  import opened Store
  import opened Contracts
  import opened Permissions
  import opened Booking
  import opened Projects
  import opened Checklists
  import opened RegisterImport
  import opened ReportLinks
  import opened AutoLinks

  datatype Step =
    | TakeSlot(actor: Principal, slot: int, booked: Cells, ws: Option<string>)
    | FreeSlot(actor: Principal, slot: int, ws: Option<string>)
    | OpenDraft(actor: Principal, draft: ChecklistRow, changes: Changes, ws: Option<string>)
    | EditDraft(actor: Principal, checklist: int, draft: ChecklistRow, changes: Changes, ws: Option<string>)
    | SubmitDraft(actor: Principal, checklist: int, projectId: int)
    | CreateProject(actor: Principal, cells: Cells)
    | EditProject(actor: Principal, projectId: int, cells: Cells)
    | RemoveProject(actor: Principal, projectId: int)
    | Tell(actor: Principal, key: NotificationKey, ws: Option<string>)
    | OwnKey(identity: string, projectId: int)
    | ExcludeRow(record: RegisterRecord)
    | IncludeRow(record: RegisterRecord)
    | Note(field: string, total: int)
    | Relink(report: int, link: Option<int>, source: LinkSource)
    | LinkReport(candidate: Candidate)
    | LogLinks(rows: seq<AuditBatch>)

  /** What a service has made sure of before it takes a step. */
  ghost predicate Legal(db: Tables, s: Step) {
    match s
    case TakeSlot(_, id, booked, _) =>
      id in db.slots && IsFree(db.slots[id]) && STATUS in booked && booked[STATUS] != FREE
    case FreeSlot(_, id, _) => id in db.slots
    case OpenDraft(_, row, _, _) => row.status.Draft? && row.projectId.None? && row.version == 1
    case EditDraft(_, id, row, _, _) =>
      && id in db.checklists && db.checklists[id].status.Draft? && row.status.Draft?
      && row.projectId == db.checklists[id].projectId && row.version == db.checklists[id].version + 1
    case SubmitDraft(_, id, projectId) =>
      id in db.checklists && db.checklists[id].status.Draft? && projectId in db.projects
    case CreateProject(_, _) => true
    case EditProject(_, id, cells) => id in db.projects && Diff(db.projects[id].cells, cells) != map[]
    case RemoveProject(_, id) => id in db.projects
    case Tell(_, key, _) => key !in db.notified
    case OwnKey(identity, id) => MatchKey(identity) !in db.sourceKeys && id in db.projects
    case ExcludeRow(_) => true
    case IncludeRow(_) => true
    case Note(_, _) => true
    case Relink(report, link, _) => report in db.reports && (link.Some? ==> link.value in db.projects)
    case LinkReport(c) => Guarded(db, c) && c.projectId in db.projects
    case LogLinks(rows) => forall b :: b in rows ==> b.eventId.None?
  }

  function Next(db: Tables, s: Step): Tables
    requires Legal(db, s)
  {
    match s
    case TakeSlot(p, id, booked, ws) => SlotStep(db, p, id, booked, db.slots[id].checklistId, ws)
    case FreeSlot(p, id, ws) => SlotStep(db, p, id, FreedCells(), None, ws)
    case OpenDraft(p, row, changes, ws) => InsertStep(db, p, row, changes, ws)
    case EditDraft(p, id, row, changes, ws) => ChecklistStep(db, p, ChecklistUpdated, id, row, changes, ws, Some(p.id))
    case SubmitDraft(p, id, projectId) => SubmitStep(db, p, id, db.checklists[id], projectId)
    case CreateProject(p, cells) => BirthStep(db, p, cells)
    case EditProject(p, id, cells) => ProjectStep(db, p, id, cells, Diff(db.projects[id].cells, cells))
    case RemoveProject(p, id) => DeleteStep(db, p, id)
    case Tell(p, key, ws) => NotifyOne(db, p, key, ws)
    case OwnKey(identity, id) => db.(sourceKeys := db.sourceKeys[MatchKey(identity) := Some(id)])
    case ExcludeRow(rec) => SkipRow(db, rec)
    case IncludeRow(rec) => UnskipRow(db, rec)
    case Note(field, total) => db.(audit := db.audit + [ImportAudit(field, total)])
    case Relink(report, link, source) => LinkStep(db, report, link, source)
    case LinkReport(c) => WithLink(db, c.report.id, LinkedRow(db.reports[c.report.id], c.projectId))
    case LogLinks(rows) => db.(audit := db.audit + rows)
  }

  // ---- chains ----------------------------------------------------------------------------------------------------------

  type Relation = (Tables, Step, Tables) -> bool

  /** One legal step, as a relation that keeps its definition to itself. */
  ghost function Legally(): Relation {
    (db: Tables, s: Step, after: Tables) => Legal(db, s) && after == Next(db, s)
  }

  ghost predicate Takes(r: Relation, db: Tables, s: Step, after: Tables) {
    r(db, s, after)
  }

  ghost predicate Chain(r: Relation, db: Tables, steps: seq<Step>, after: Tables)
    decreases |steps|
  {
    if |steps| == 0 then after == db
    else
      var last := |steps| - 1;
      exists before :: Chain(r, db, steps[..last], before) && Takes(r, before, steps[last], after)
  }

  lemma Extend(r: Relation, db: Tables, steps: seq<Step>, before: Tables, s: Step, after: Tables)
    requires Chain(r, db, steps, before) && Takes(r, before, s, after)
    ensures Chain(r, db, steps + [s], after)
  {
    assert (steps + [s])[..|steps|] == steps;
  }

  lemma {:induction false} Join(r: Relation, db: Tables, first: seq<Step>, mid: Tables, second: seq<Step>, after: Tables)
    requires Chain(r, db, first, mid) && Chain(r, mid, second, after)
    ensures Chain(r, db, first + second, after)
    decreases |second|
  {
    if |second| == 0 {
      assert first + second == first;
    } else {
      var last := |second| - 1;
      var before :| Chain(r, mid, second[..last], before) && Takes(r, before, second[last], after);
      Join(r, db, first, mid, second[..last], before);
      Extend(r, db, first + second[..last], before, second[last], after);
      assert (first + second[..last]) + [second[last]] == first + second;
    }
  }

  /** What every step keeps, a chain keeps. */
  lemma {:induction false} ChainKeeps(r: Relation, inv: Tables -> bool, db: Tables, steps: seq<Step>, after: Tables)
    requires Chain(r, db, steps, after) && inv(db)
    requires forall x, s, y :: s in steps && inv(x) && Takes(r, x, s, y) ==> inv(y)
    ensures inv(after)
    decreases |steps|
  {
    if |steps| > 0 {
      var last := |steps| - 1;
      var before :| Chain(r, db, steps[..last], before) && Takes(r, before, steps[last], after);
      ChainKeeps(r, inv, db, steps[..last], before);
    }
  }
}
