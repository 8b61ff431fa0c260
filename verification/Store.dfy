/**
 * The tables the write path touches inside one transaction (server/domain/ports.ts, drizzle/schema.ts) and the operations
 * of the transaction handle on them (server/infra/mysqlProjectStore.ts).
 */
module Store {
  import opened Wrappers

  /** A stored or transported cell. `Number(n)` stands for the text of a number. */
  datatype Value = Null | Text(text: string) | Number(number: int)

  /** The name of a changed cell: a column, one part of a checklist answer, or one part of a department review. */
  datatype Key = Field(name: string) | Answer(question: string, part: string) | Review(department: string, part: string)

  datatype Change = Change(from: Value, to: Value)

  type Cells = map<Key, Value>
  type Changes = map<Key, Change>

  /** A cell that is not there reads as null. */
  function Get(cells: Cells, k: Key): Value {
    if k in cells then cells[k] else Null
  }

  datatype Aggregate = Slot(id: int) | Checklist(id: int) | Project(id: int) | Notification(id: int)

  datatype Kind =
    | BookingUpdated | ChecklistCreated | ChecklistUpdated | ChecklistSubmitted
    | ProjectCreated | ProjectUpdated | ProjectDeleted | NotificationCreated

  /** One outbox row. The random event id is modelled by the row's position, which is as unique. */
  datatype Event = Event(
    id: nat, kind: Kind, agg: Aggregate, version: int, actor: string, changes: Changes,
    workspace: Option<string>, workspaceBefore: Option<string>, recipient: Option<string>)

  datatype Entity = OfAggregate(agg: Aggregate) | OfReport(report: int) | OfImport

  /** What one call appends to the audit log: a row for every changed cell, or one row without a cell. */
  datatype AuditBatch = AuditBatch(
    entity: Entity, changes: Changes, eventId: Option<nat>, version: Option<int>, workspace: Option<string>)

  datatype AuditRow = AuditRow(
    entity: Entity, field: Option<Key>, oldValue: Value, newValue: Value, eventId: Option<nat>, version: Option<int>)

  function RowsOf(b: AuditBatch): set<AuditRow> {
    if b.changes == map[] then {AuditRow(b.entity, None, Null, Null, b.eventId, b.version)}
    else set k | k in b.changes ::
           AuditRow(b.entity, Some(k), b.changes[k].from, b.changes[k].to, b.eventId, b.version)
  }

  datatype SlotRow = SlotRow(cells: Cells, checklistId: Option<int>, version: int)

  datatype ChecklistStatus = Draft | Submitted | Cancelled

  datatype AnswerRow = AnswerRow(answer: Value, secondary: Value, comment: Value)

  /** The columns of a checklist that its form fills in; the mode is a column of its own. */
  type HeaderCells = h: map<string, Value> | "mode" !in h witness map[]

  datatype ChecklistRow = ChecklistRow(
    createdBy: string, status: ChecklistStatus, projectId: Option<int>, mode: string,
    header: HeaderCells, answers: map<string, AnswerRow>, version: int)

  /** A project with its department reviews, one cell per column and per part of a review. */
  datatype ProjectRow = ProjectRow(cells: Cells, version: int)

  datatype LinkSource = Unset | Auto | Manual | Detached

  /** An ITK report: its evidence (opaque to the link service) and its link. */
  datatype ReportRow = ReportRow(evidence: string, projectId: Option<int>, source: LinkSource, version: int)

  /** A registration's identity, or the exact content of a row excluded from the import: two separate hash spaces. */
  datatype SourceKey = MatchKey(hash: string) | SkipKey(hash: string)

  datatype NotificationKey = NotificationKey(user: string, checklist: int, department: string)

  /** Ledger rows: the canonical request (its hash is taken to be injective) and, once stored, the response. */
  datatype LedgerRow<H, R> = LedgerRow(request: H, response: Option<R>)

  datatype Db<H, R> = Db(
    slots: map<int, SlotRow>, checklists: map<int, ChecklistRow>, projects: map<int, ProjectRow>,
    reports: map<int, ReportRow>, sourceKeys: map<SourceKey, Option<int>>, notified: map<NotificationKey, int>,
    ledger: map<(string, string), LedgerRow<H, R>>, audit: seq<AuditBatch>, events: seq<Event>,
    nextChecklist: int, nextProject: int, nextNotification: int)

  // ---- outbox and audit ------------------------------------------------------------------------------------------------

  function BatchOf(e: Event): AuditBatch {
    // what happens to a draft stays with its author, so no workspace may read it
    AuditBatch(OfAggregate(e.agg), e.changes, Some(e.id), Some(e.version), if e.recipient.Some? then None else e.workspace)
  }

  /** Append the audit rows of an event and the event itself. */
  function Record<H, R>(db: Db<H, R>, e: Event): Db<H, R> {
    db.(audit := db.audit + [BatchOf(e)], events := db.events + [e])
  }

  /** The cells a write changes, with the values before and after. */
  function Diff(cur: Cells, set_: Cells): Changes {
    map k | k in set_ && Get(cur, k) != set_[k] :: Change(Get(cur, k), set_[k])
  }

  /** What a consumer holds after applying an event's changes. */
  function Replayed(cells: Cells, changes: Changes): Cells {
    cells + map k | k in changes :: changes[k].to
  }

  /** Equal to every reader, for whom a cell that is not there is null. */
  ghost predicate SameCells(a: Cells, b: Cells) {
    forall k :: Get(a, k) == Get(b, k)
  }

  /** The reports pointing at a project lose their link before it goes. */
  function UnlinkReports(reports: map<int, ReportRow>, projectId: int): map<int, ReportRow> {
    map r | r in reports ::
      if reports[r].projectId == Some(projectId)
      then reports[r].(projectId := None, source := Unset, version := reports[r].version + 1)
      else reports[r]
  }

  function ReportsOf(reports: map<int, ReportRow>, projectId: int): set<int> {
    set r | r in reports && reports[r].projectId == Some(projectId)
  }

  function DropKeysOf(keys: map<SourceKey, Option<int>>, projectId: int): map<SourceKey, Option<int>> {
    map k | k in keys && keys[k] != Some(projectId) :: keys[k]
  }

  // ---- the transaction handle ------------------------------------------------------------------------------------------

  datatype Claim<R> = New | Replay(response: R) | Mismatch

  function ClaimOf<H(==), R>(db: Db<H, R>, actor: string, key: string, request: H): Claim<R> {
    if (actor, key) !in db.ledger then New
    else
      var row := db.ledger[(actor, key)];
      if row.request == request && row.response.Some? then Replay(row.response.value) else Mismatch
  }

  function Claimed<H, R>(db: Db<H, R>, actor: string, key: string, request: H): Db<H, R> {
    db.(ledger := db.ledger[(actor, key) := LedgerRow(request, None)])
  }

  function Completed<H, R>(db: Db<H, R>, actor: string, key: string, request: H, response: R): Db<H, R> {
    db.(ledger := db.ledger[(actor, key) := LedgerRow(request, Some(response))])
  }

  /** The database as one open transaction sees and changes it. */
  class Database<!H(==), !R> {
    var state: Db<H, R>

    constructor (initial: Db<H, R>)
      ensures state == initial
    {
      state := initial;
    }

    method ClaimIdempotency(actor: string, key: string, request: H) returns (claim: Claim<R>)
      modifies this
      ensures claim == ClaimOf(old(state), actor, key, request)
      ensures state == if claim.New? then Claimed(old(state), actor, key, request) else old(state)
    {
      claim := ClaimOf(state, actor, key, request);
      if claim.New? { state := Claimed(state, actor, key, request); }
    }

    method CompleteIdempotency(actor: string, key: string, request: H, response: R)
      modifies this
      ensures state == Completed(old(state), actor, key, request, response)
    {
      state := Completed(state, actor, key, request, response);
    }

    method LockSlot(id: int) returns (row: Option<SlotRow>)
      ensures row == if id in state.slots then Some(state.slots[id]) else None
    {
      row := if id in state.slots then Some(state.slots[id]) else None;
    }

    /** UPDATE ... WHERE id = ? AND syncVersion = ?; the version goes up by one. */
    method UpdateSlotVersioned(id: int, expected: int, set_: Cells, checklistId: Option<int>) returns (ok: bool)
      modifies this
      ensures ok <==> id in old(state).slots && old(state).slots[id].version == expected
      ensures state ==
              if ok then old(state).(slots := old(state).slots[id :=
                              SlotRow(old(state).slots[id].cells + set_, checklistId, expected + 1)])
              else old(state)
    {
      ok := id in state.slots && state.slots[id].version == expected;
      if ok {
        state := state.(slots := state.slots[id := SlotRow(state.slots[id].cells + set_, checklistId, expected + 1)]);
      }
    }

    method LockChecklist(id: int) returns (row: Option<ChecklistRow>)
      ensures row == if id in state.checklists then Some(state.checklists[id]) else None
    {
      row := if id in state.checklists then Some(state.checklists[id]) else None;
    }

    method InsertChecklist(row: ChecklistRow) returns (id: int)
      modifies this
      ensures id == old(state).nextChecklist
      ensures state == old(state).(checklists := old(state).checklists[id := row.(version := 1)],
                                   nextChecklist := id + 1)
    {
      id := state.nextChecklist;
      state := state.(checklists := state.checklists[id := row.(version := 1)], nextChecklist := id + 1);
    }

    method UpdateChecklistVersioned(id: int, expected: int, row: ChecklistRow) returns (ok: bool)
      modifies this
      ensures ok <==> id in old(state).checklists && old(state).checklists[id].version == expected
      ensures state ==
              if ok then old(state).(checklists := old(state).checklists[id := row.(version := expected + 1)])
              else old(state)
    {
      ok := id in state.checklists && state.checklists[id].version == expected;
      if ok { state := state.(checklists := state.checklists[id := row.(version := expected + 1)]); }
    }

    method InsertProject(cells: Cells) returns (id: int)
      modifies this
      ensures id == old(state).nextProject
      ensures state == old(state).(projects := old(state).projects[id := ProjectRow(cells, 1)], nextProject := id + 1)
    {
      id := state.nextProject;
      state := state.(projects := state.projects[id := ProjectRow(cells, 1)], nextProject := id + 1);
    }

    method LockProject(id: int) returns (row: Option<ProjectRow>)
      ensures row == if id in state.projects then Some(state.projects[id]) else None
    {
      row := if id in state.projects then Some(state.projects[id]) else None;
    }

    method UpdateProjectVersioned(id: int, expected: int, set_: Cells) returns (ok: bool)
      modifies this
      ensures ok <==> id in old(state).projects && old(state).projects[id].version == expected
      ensures state ==
              if ok then old(state).(projects := old(state).projects[id :=
                              ProjectRow(old(state).projects[id].cells + set_, expected + 1)])
              else old(state)
    {
      ok := id in state.projects && state.projects[id].version == expected;
      if ok {
        state := state.(projects := state.projects[id := ProjectRow(state.projects[id].cells + set_, expected + 1)]);
      }
    }

    /** None for a recipient who was told before. */
    method InsertNotification(key: NotificationKey) returns (id: Option<int>)
      modifies this
      ensures id == if key in old(state).notified then None else Some(old(state).nextNotification)
      ensures state == if id.None? then old(state)
                       else old(state).(notified := old(state).notified[key := id.value], nextNotification := id.value + 1)
    {
      if key in state.notified { return None; }
      id := Some(state.nextNotification);
      state := state.(notified := state.notified[key := id.value], nextNotification := id.value + 1);
    }

    method AppendAudit(batch: AuditBatch)
      modifies this
      ensures state == old(state).(audit := old(state).audit + [batch])
    {
      state := state.(audit := state.audit + [batch]);
    }

    method AppendAudits(batches: seq<AuditBatch>)
      modifies this
      ensures state == old(state).(audit := old(state).audit + batches)
    {
      state := state.(audit := state.audit + batches);
    }

    /** SELECT ... FOR SHARE: which of these projects still exist; they keep existing until this transaction ends. */
    method ShareLockProjects(ids: set<int>) returns (alive: set<int>)
      ensures alive == ids * state.projects.Keys
    {
      alive := ids * state.projects.Keys;
    }

    method AppendEvent(e: Event)
      modifies this
      ensures state == old(state).(events := old(state).events + [e])
    {
      state := state.(events := state.events + [e]);
    }

    /** The audit rows of an event and the event itself, as every transition appends them. */
    method Publish(e: Event)
      modifies this
      ensures state == Record(old(state), e)
    {
      AppendAudit(BatchOf(e));
      AppendEvent(e);
    }

    /** INSERT IGNORE of one key: nothing happens when the key is there already. */
    method RecordSourceKey(key: SourceKey, owner: Option<int>) returns (inserted: bool)
      modifies this
      ensures inserted <==> key !in old(state).sourceKeys
      ensures state == if inserted then old(state).(sourceKeys := old(state).sourceKeys[key := owner]) else old(state)
    {
      inserted := key !in state.sourceKeys;
      if inserted { state := state.(sourceKeys := state.sourceKeys[key := owner]); }
    }

    method AssignSourceKey(key: SourceKey, owner: int)
      modifies this
      ensures state == if key in old(state).sourceKeys
                       then old(state).(sourceKeys := old(state).sourceKeys[key := Some(owner)]) else old(state)
    {
      if key in state.sourceKeys { state := state.(sourceKeys := state.sourceKeys[key := Some(owner)]); }
    }

    method DeleteSkipKey(key: SourceKey) returns (deleted: bool)
      requires key.SkipKey?
      modifies this
      ensures deleted <==> key in old(state).sourceKeys
      ensures state == old(state).(sourceKeys := old(state).sourceKeys - {key})
    {
      deleted := key in state.sourceKeys;
      state := state.(sourceKeys := state.sourceKeys - {key});
    }

    method LockReport(id: int) returns (row: Option<ReportRow>)
      ensures row == if id in state.reports then Some(state.reports[id]) else None
    {
      row := if id in state.reports then Some(state.reports[id]) else None;
    }

    method SetReportProject(id: int, expected: int, projectId: Option<int>, source: LinkSource) returns (ok: bool)
      modifies this
      ensures ok <==> id in old(state).reports && old(state).reports[id].version == expected
      ensures state ==
              if ok then old(state).(reports := old(state).reports[id :=
                              old(state).reports[id].(projectId := projectId, source := source, version := expected + 1)])
              else old(state)
    {
      ok := id in state.reports && state.reports[id].version == expected;
      if ok {
        state := state.(reports := state.reports[id :=
                            state.reports[id].(projectId := projectId, source := source, version := expected + 1)]);
      }
    }

    /** The reports pointing at this project lose their link; which ones they were. */
    method UnlinkReportsOf(projectId: int) returns (unlinked: set<int>)
      modifies this
      ensures unlinked == ReportsOf(old(state).reports, projectId)
      ensures state == old(state).(reports := UnlinkReports(old(state).reports, projectId))
    {
      unlinked := ReportsOf(state.reports, projectId);
      state := state.(reports := UnlinkReports(state.reports, projectId));
    }

    /** The project and the source keys it owns. */
    method DeleteProject(id: int)
      modifies this
      ensures state == old(state).(projects := old(state).projects - {id},
                                   sourceKeys := DropKeysOf(old(state).sourceKeys, id))
    {
      state := state.(projects := state.projects - {id}, sourceKeys := DropKeysOf(state.sourceKeys, id));
    }

    /** ROLLBACK: every write of the transaction is undone. */
    method Rollback(before: Db<H, R>)
      modifies this
      ensures state == before
    {
      state := before;
    }
  }
}
