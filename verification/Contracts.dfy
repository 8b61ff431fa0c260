/** Requests, answers and errors of the write path, and the parts of the system the model takes as given. */
module Contracts {
  import opened Wrappers
  import opened Store
  import opened Permissions
  import DomainEvents

  datatype Reason = StaleVersion | SlotTaken | NotDraft

  datatype Error =
    | Forbidden | NotFound | KeyReuse | Invalid | Internal
    | Conflict(reason: Reason, expectedVersion: int, currentVersion: int)

  /** What a booking may set a slot to; freeing it is a release. */
  type HeldStatus = s: string | s == "Gebucht" || s == "Vorgebucht für IM" || s == "Vorgebucht für IT" witness "Gebucht"

  datatype BookInput = BookInput(
    id: int, expectedVersion: int, status: HeldStatus, station: Option<string>, projektleitung: Option<string>,
    projektstand: Option<string>, info: Option<string>, hinweis: Option<string>, projectId: Option<int>)

  datatype ReleaseInput = ReleaseInput(id: int, expectedVersion: int)

  /** A draft to create (no id) or update, after header and answers were normalised; header cells left out stay as they are. */
  datatype SaveInput = SaveInput(
    id: Option<int>, expectedVersion: Option<int>, mode: string, header: HeaderCells, answers: map<string, AnswerRow>)

  datatype SlotChoice = SlotChoice(id: int, expectedVersion: int, status: HeldStatus)

  datatype SubmitInput = SubmitInput(id: int, expectedVersion: int, slot: Option<SlotChoice>)

  datatype UpdateInput = UpdateInput(id: int, expectedVersion: int, cells: Cells)

  datatype DeleteInput = DeleteInput(id: int, expectedVersion: int)

  datatype LinkInput = LinkInput(id: int, expectedVersion: int, projectId: Option<int>)

  /** One record of the Übersichtsliste: the hashes of its identity and of its content, and its cells that are not blank. */
  datatype RegisterRecord = RegisterRecord(ref: int, identity: string, content: string, cells: Cells)

  datatype RowAction = Create | Update | Skip | Unskip

  datatype Target = Target(projectId: int, expectedVersion: int)

  datatype ApplyRow = ApplyRow(
    record: RegisterRecord, action: RowAction, target: Option<Target>, overwrite: bool, confirmed: bool)

  datatype PlanStatus = Add | PlannedUnchanged | PlannedUpdate | PlannedConflict | Ambiguous | Skipped

  datatype PlanRow = PlanRow(status: PlanStatus, byCore: bool, matched: Option<int>, candidates: set<int>)

  datatype Phase = VEP | EP | AP

  /** What a report says about its project, or a project about itself, already normalised; an empty text says nothing. */
  datatype Evidence = Evidence(number: string, station: string, phase: Option<Phase>)

  datatype LinkProject = LinkProject(id: int, evidence: Evidence)

  /** A report as a snapshot shows it. */
  datatype Snapshot = Snapshot(id: int, evidence: Evidence, version: int)

  datatype UnmatchedReason = NoNumber | UnknownNumber | NoStation | OtherStation | OtherPhase | Gone | Changed

  /** What an automatic linking reads without locks: the reports without a link, and all projects. */
  datatype LinkPlan = LinkPlan(reports: seq<Snapshot>, projects: seq<LinkProject>)

  datatype AutoLinkResult = AutoLinkResult(
    dryRun: bool, examined: nat, linked: nat, ambiguous: nat, samples: seq<int>, unmatched: map<UnmatchedReason, nat>)

  datatype Request =
    | Book(book: BookInput) | Release(release: ReleaseInput) | Save(save: SaveInput) | Submit(submit: SubmitInput)
    | UpdateProject(update: UpdateInput) | DeleteProject(delete: DeleteInput) | SetLink(link: LinkInput)
    | ApplyRegister(rows: seq<ApplyRow>) | LinkReports

  datatype SlotDTO = SlotDTO(id: int, version: int, cells: Cells, redacted: bool)

  datatype ChecklistDTO = ChecklistDTO(id: int, row: ChecklistRow)

  datatype OutcomeKind = Created | Updated | Unchanged | Held | Stale | Exists | WasSkipped | Unskipped | Refused

  datatype ApplyOutcome = ApplyOutcome(ref: int, kind: OutcomeKind, projectId: Option<int>)

  datatype Response =
    | SlotResponse(slot: SlotDTO, eventId: nat)
    | ChecklistResponse(checklist: ChecklistDTO, eventId: nat)
    | SubmitResponse(submitted: ChecklistDTO, projectId: int, eventId: nat)
    | ProjectResponse(projectId: int, version: int)
    | DeleteResponse(eventId: nat)
    | LinkResponse(reportId: int, linkedTo: Option<int>, version: int)
    | ImportResponse(outcomes: seq<ApplyOutcome>, counts: map<OutcomeKind, nat>)
    | LinkingResponse(result: AutoLinkResult)

  type Tables = Db<Request, Response>

  type TxDatabase = Database<Request, Response>

  /**
   * What the write path calls and the model leaves open: Unicode folding, the station index, the review trigger table, and
   * the canonicalisation of project cells (None when a cell is refused).
   */
  datatype World = World(
    fold: DomainEvents.Folding,
    stationBm: string -> Option<string>,
    reviewsFor: map<string, AnswerRow> -> map<string, bool>,
    normalize: (Key, Value) -> Option<Value>,
    sameCell: (Key, Value, Value) -> bool)

  /**
   * One service call. Besides the request it carries what the transaction reads without locks: the import's plan and the
   * candidate projects it was made from (possibly out of date), the recipients a submission would notify, and the reports and
   * projects an automatic linking goes by.
   */
  datatype Call = Call(
    actor: Principal, key: string, request: Request,
    plan: map<int, PlanRow>, seen: map<int, ProjectRow>, recipients: seq<(string, string)>,
    linking: LinkPlan)

  datatype Outcome = Done(response: Response, replayed: bool) | Failed(error: Error)
}
