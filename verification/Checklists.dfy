/** The checklist aggregate (server/domain/checklistService.ts): drafts, and their submission as a project. */
module Checklists {
  import opened Wrappers
  import opened Text
  import opened Store
  import opened Contracts
  import opened Permissions
  import opened Booking
  import opened Projects

  const MODE := Field("mode")

  const PARTS: set<string> := {"answer", "secondary", "comment"}

  function Header(header: map<string, Value>, name: string): Value {
    if name in header then header[name] else Null
  }

  function HeaderText(header: map<string, Value>, name: string): Option<string> {
    match Header(header, name)
    case Text(s) => Some(s)
    case _ => None
  }

  function Workspace(header: map<string, Value>): Option<string> {
    HeaderText(header, "bahnhofsmanagement")
  }

  predicate IsAuthorOrAdmin(p: Principal, row: ChecklistRow) {
    p.role.Admin? || row.createdBy == p.id
  }

  function PartOf(a: AnswerRow, part: string): Value {
    if part == "answer" then a.answer else if part == "secondary" then a.secondary else a.comment
  }

  /** The cells of a checklist's answers; a part without content is no cell. */
  function AnswerCells(answers: map<string, AnswerRow>): Cells {
    map q, part | q in answers && part in PARTS && PartOf(answers[q], part) != Null ::
      Answer(q, part) := PartOf(answers[q], part)
  }

  /** `diffDto` on the answers: it walks the questions present afterwards. */
  function AnswerChanges(before: map<string, AnswerRow>, after: map<string, AnswerRow>): Changes {
    map q, part | q in after && part in PARTS &&
                  PartOf(after[q], part) != (if q in before then PartOf(before[q], part) else Null) ::
      Answer(q, part) := Change(if q in before then PartOf(before[q], part) else Null, PartOf(after[q], part))
  }

  function HeaderChanges(before: map<string, Value>, after: map<string, Value>): Changes {
    map h | h in after && after[h] != Header(before, h) :: Field(h) := Change(Header(before, h), after[h])
  }

  function EditChanges(before: ChecklistRow, after: ChecklistRow): Changes {
    HeaderChanges(before.header, after.header) + AnswerChanges(before.answers, after.answers)
  }

  function DraftChanges(after: ChecklistRow): Changes {
    HeaderChanges(map[], after.header) + AnswerChanges(map[], after.answers) +
    map[MODE := Change(Null, Value.Text(after.mode))]
  }

  /** What a save records: header and answers, and the mode of a new draft. */
  function SaveChanges(before: Option<ChecklistRow>, after: ChecklistRow): Changes {
    if before.Some? then EditChanges(before.value, after) else DraftChanges(after)
  }

  /** A draft's events go to the person who saved it; once submitted they go to the workspace. */
  function ChecklistEvent(db: Tables, p: Principal, kind: Kind, id: int, version: int, changes: Changes,
                          ws: Option<string>, recipient: Option<string>): Event {
    Event(|db.events|, kind, Checklist(id), version, p.id, changes, ws, None, recipient)
  }

  /** Write a checklist row and record its step. */
  function ChecklistStep(db: Tables, p: Principal, kind: Kind, id: int, row: ChecklistRow, changes: Changes,
                         ws: Option<string>, recipient: Option<string>): Tables {
    Record(db.(checklists := db.checklists[id := row]),
           ChecklistEvent(db, p, kind, id, row.version, changes, ws, recipient))
  }

  // ---- save ------------------------------------------------------------------------------------------------------------

  function NewDraft(p: Principal, input: SaveInput): ChecklistRow {
    ChecklistRow(p.id, Draft, None, input.mode, input.header, input.answers, 1)
  }

  function EditedDraft(cur: ChecklistRow, input: SaveInput): ChecklistRow {
    cur.(mode := input.mode, header := cur.header + input.header, answers := input.answers, version := cur.version + 1)
  }

  function InsertStep(db: Tables, p: Principal, row: ChecklistRow, changes: Changes, ws: Option<string>): Tables {
    ChecklistStep(db.(nextChecklist := db.nextChecklist + 1), p, ChecklistCreated, db.nextChecklist, row, changes, ws,
                  Some(p.id))
  }

  function CreateStep(db: Tables, p: Principal, input: SaveInput, ws: Option<string>): Tables {
    var row := NewDraft(p, input);
    InsertStep(db, p, row, SaveChanges(None, row), ws)
  }

  function EditStep(db: Tables, p: Principal, id: int, cur: ChecklistRow, input: SaveInput, ws: Option<string>): Tables {
    var row := EditedDraft(cur, input);
    ChecklistStep(db, p, ChecklistUpdated, id, row, SaveChanges(Some(cur), row), ws, Some(p.id))
  }

  /** Why a save is refused. */
  function SaveRefusal(w: World, db: Tables, p: Principal, input: SaveInput): Option<Error> {
    var ws := Workspace(input.header);
    if p.role.Viewer? then Some(Forbidden)
    else if input.id.None? then
      if (ws.Some? && !CanEdit(w.fold, p, ws)) || (ws.None? && !Unrestricted(p)) then Some(Forbidden) else None
    else if input.id.value !in db.checklists || !IsAuthorOrAdmin(p, db.checklists[input.id.value]) then Some(NotFound)
    else
      var cur := db.checklists[input.id.value];
      var expected := if input.expectedVersion.Some? then input.expectedVersion.value else 0;
      if !cur.status.Draft? then Some(Conflict(NotDraft, expected, cur.version))
      else if input.expectedVersion != Some(cur.version) then Some(Conflict(StaleVersion, expected, cur.version))
      else if ws.Some? && !CanEdit(w.fold, p, ws) then Some(Forbidden)
      else None
  }

  function SaveWithin(w: World, db: Tables, p: Principal, input: SaveInput): Result<Tables, Error> {
    var refusal := SaveRefusal(w, db, p, input);
    if refusal.Some? then Failure(refusal.value)
    else if input.id.None? then Success(CreateStep(db, p, input, Workspace(input.header)))
    else Success(EditStep(db, p, input.id.value, db.checklists[input.id.value], input, Workspace(input.header)))
  }

  /** The checklist a save has written. */
  function SavedId(db: Tables, input: SaveInput): int {
    if input.id.Some? then input.id.value else db.nextChecklist
  }

  /** The header and the mode beside it. */
  function Columns(row: ChecklistRow): map<string, Value> {
    row.header["mode" := Value.Text(row.mode)]
  }

  /** A checklist as cells: its columns, and the content of its answers. */
  function RowCells(row: ChecklistRow): Cells {
    var columns := Columns(row);
    (map h | h in columns :: Field(h) := columns[h]) + AnswerCells(row.answers)
  }

  /** One cell of a checklist. */
  function CellOf(row: ChecklistRow, k: Key): Value {
    match k
    case Field(h) => Header(Columns(row), h)
    case Answer(q, part) => if q in row.answers && part in PARTS then PartOf(row.answers[q], part) else Null
    case Review(_, _) => Null
  }

  lemma RowCell(row: ChecklistRow, k: Key)
    ensures Get(RowCells(row), k) == CellOf(row, k)
  {
    match k
    case Field(h) => assert k !in AnswerCells(row.answers);
    case Answer(q, part) =>
    case Review(_, _) =>
  }

  /** The cells an edit says nothing about: the mode, and the answers to questions that are not there afterwards. */
  predicate Unrecorded(row: ChecklistRow, k: Key) {
    k == MODE || (k.Answer? && k.question !in row.answers)
  }

  /** An edit records exactly the other cells that differ afterwards. */
  lemma RecordedCell(cur: ChecklistRow, row: ChecklistRow, k: Key)
    requires forall h :: h in cur.header ==> h in row.header
    ensures var changes := EditChanges(cur, row);
            && (k in changes <==> !Unrecorded(row, k) && CellOf(cur, k) != CellOf(row, k))
            && (k in changes ==> changes[k] == Change(CellOf(cur, k), CellOf(row, k)))
  {
    match k
    case Field(h) =>
      assert k !in AnswerChanges(cur.answers, row.answers);
      assert h != "mode" ==> CellOf(cur, k) == Header(cur.header, h) && CellOf(row, k) == Header(row.header, h);
    case Answer(q, part) => assert k !in HeaderChanges(cur.header, row.header);
    case Review(_, _) =>
  }

  lemma ReplayedGet(told: Cells, changes: Changes, k: Key)
    ensures Get(Replayed(told, changes), k) == if k in changes then changes[k].to else Get(told, k)
  {
  }

  lemma ReplayedCell(cur: ChecklistRow, row: ChecklistRow, told: Cells, k: Key)
    requires forall h :: h in cur.header ==> h in row.header
    requires Get(told, k) == CellOf(cur, k)
    ensures Get(Replayed(told, EditChanges(cur, row)), k) == if Unrecorded(row, k) then CellOf(cur, k) else CellOf(row, k)
  {
    RecordedCell(cur, row, k);
    ReplayedGet(told, EditChanges(cur, row), k);
  }

  /** Does this edit leave the mode and every question that had content in place? */
  ghost predicate Keeps(cur: ChecklistRow, input: SaveInput) {
    && input.mode == cur.mode
    && forall q :: q in cur.answers && cur.answers[q] != AnswerRow(Null, Null, Null) ==> q in input.answers
  }

  ghost predicate UnrecordedStay(cur: ChecklistRow, row: ChecklistRow) {
    forall k: Key :: Unrecorded(row, k) ==> CellOf(cur, k) == CellOf(row, k)
  }

  lemma UnrecordedCells(cur: ChecklistRow, input: SaveInput)
    ensures UnrecordedStay(cur, EditedDraft(cur, input)) <==> Keeps(cur, input)
  {
    var row := EditedDraft(cur, input);
    if UnrecordedStay(cur, row) {
      assert Unrecorded(row, MODE) && CellOf(cur, MODE) == CellOf(row, MODE);
      forall q | q in cur.answers && cur.answers[q] != AnswerRow(Null, Null, Null) ensures q in row.answers {
        assert q in row.answers || (CellOf(cur, Answer(q, "answer")) == CellOf(cur, Answer(q, "secondary")) ==
                                    CellOf(cur, Answer(q, "comment")) == Null);
      }
    }
  }

  lemma OneCell(cur: ChecklistRow, row: ChecklistRow, told: Cells, k: Key)
    requires forall h :: h in cur.header ==> h in row.header
    requires SameCells(told, RowCells(cur))
    ensures Get(Replayed(told, EditChanges(cur, row)), k) == Get(RowCells(row), k) <==>
            (Unrecorded(row, k) ==> CellOf(cur, k) == CellOf(row, k))
  {
    assert Get(told, k) == Get(RowCells(cur), k);
    RowCell(cur, k);
    RowCell(row, k);
    ReplayedCell(cur, row, told, k);
  }

  lemma CellByCell(cur: ChecklistRow, row: ChecklistRow, replayed: Cells, after: Cells)
    requires forall k: Key :: Get(replayed, k) == Get(after, k) <==>
                              (Unrecorded(row, k) ==> CellOf(cur, k) == CellOf(row, k))
    ensures SameCells(replayed, after) <==> UnrecordedStay(cur, row)
  {
  }

  /**
   * From cells that are the draft, a save's event leads to the saved draft exactly when the save keeps the mode and drops no
   * question with content: `diffDto` records the mode of new drafts only, and walks only the answers there afterwards.
   */
  lemma DraftReplays(cur: ChecklistRow, input: SaveInput, told: Cells)
    requires SameCells(told, RowCells(cur))
    ensures var row := EditedDraft(cur, input);
            SameCells(Replayed(told, SaveChanges(Some(cur), row)), RowCells(row)) <==> Keeps(cur, input)
  {
    var row := EditedDraft(cur, input);
    var replayed, after := Replayed(told, EditChanges(cur, row)), RowCells(row);
    forall k: Key ensures Get(replayed, k) == Get(after, k) <==>
                          (Unrecorded(row, k) ==> CellOf(cur, k) == CellOf(row, k)) {
      OneCell(cur, row, told, k);
    }
    CellByCell(cur, row, replayed, after);
    UnrecordedCells(cur, input);
  }

  /** A cell that one of three disjoint parts may have changed. */
  lemma OfOnePart(a: Changes, b: Changes, c: Changes, k: Key)
    requires k !in b || (k !in a && k !in c)
    requires k !in a || k !in c
    ensures Get(Replayed(map[], a + b + c), k) ==
            if k in a then a[k].to else if k in b then b[k].to else if k in c then c[k].to else Null
  {
    ReplayedGet(map[], a + b + c, k);
  }

  lemma ColumnChange(after: HeaderCells, k: Key)
    ensures var changes := HeaderChanges(map[], after);
            && (k in changes ==> k.Field? && k != MODE)
            && (k.Field? ==> (if k in changes then changes[k].to else Null) == Header(after, k.name))
  {
  }

  lemma AnswerChange(after: map<string, AnswerRow>, k: Key)
    ensures var changes := AnswerChanges(map[], after);
            && (k in changes ==> k.Answer?)
            && (k.Answer? ==>
                  (if k in changes then changes[k].to else Null) ==
                  if k.question in after && k.part in PARTS then PartOf(after[k.question], k.part) else Null)
  {
  }

  lemma CellOfParts(row: ChecklistRow, header: Changes, answers: Changes, k: Key)
    requires k in header ==> k.Field? && k != MODE
    requires k.Field? ==> (if k in header then header[k].to else Null) == Header(row.header, k.name)
    requires k in answers ==> k.Answer?
    requires k.Answer? ==>
               (if k in answers then answers[k].to else Null) ==
               if k.question in row.answers && k.part in PARTS then PartOf(row.answers[k.question], k.part) else Null
    ensures Get(Replayed(map[], header + answers + map[MODE := Change(Null, Value.Text(row.mode))]), k) == CellOf(row, k)
  {
    OfOnePart(header, answers, map[MODE := Change(Null, Value.Text(row.mode))], k);
  }

  lemma NewCell(row: ChecklistRow, k: Key)
    ensures Get(Replayed(map[], DraftChanges(row)), k) == CellOf(row, k)
  {
    ColumnChange(row.header, k);
    AnswerChange(row.answers, k);
    CellOfParts(row, HeaderChanges(map[], row.header), AnswerChanges(map[], row.answers), k);
  }

  /** A draft's first event alone leads to it, whatever it holds. */
  lemma NewDraftReplays(row: ChecklistRow)
    ensures SameCells(Replayed(map[], SaveChanges(None, row)), RowCells(row))
  {
    forall k: Key ensures Get(Replayed(map[], DraftChanges(row)), k) == Get(RowCells(row), k) {
      RowCell(row, k);
      NewCell(row, k);
    }
  }

  /** A draft after a series of saves. */
  function Drafted(first: ChecklistRow, saves: seq<SaveInput>): ChecklistRow {
    if |saves| == 0 then first
    else EditedDraft(Drafted(first, saves[..|saves| - 1]), saves[|saves| - 1])
  }

  /** What its events, from the first one on, say it holds. */
  function Told(first: ChecklistRow, saves: seq<SaveInput>): Cells {
    if |saves| == 0 then Replayed(map[], SaveChanges(None, first))
    else
      var front := saves[..|saves| - 1];
      Replayed(Told(first, front), SaveChanges(Some(Drafted(first, front)), Drafted(first, saves)))
  }

  ghost predicate ToldTruly(first: ChecklistRow, saves: seq<SaveInput>) {
    SameCells(Told(first, saves), RowCells(Drafted(first, saves)))
  }

  /** Its events lead to the draft after every one of the saves. */
  ghost predicate AlwaysToldTruly(first: ChecklistRow, saves: seq<SaveInput>) {
    ToldTruly(first, saves) && (|saves| > 0 ==> AlwaysToldTruly(first, saves[..|saves| - 1]))
  }

  /** Every one of the saves keeps the mode and the questions with content. */
  ghost predicate AlwaysKeeps(first: ChecklistRow, saves: seq<SaveInput>) {
    |saves| > 0 ==>
      AlwaysKeeps(first, saves[..|saves| - 1]) && Keeps(Drafted(first, saves[..|saves| - 1]), saves[|saves| - 1])
  }

  lemma OneMoreSave(first: ChecklistRow, saves: seq<SaveInput>)
    requires |saves| > 0 && ToldTruly(first, saves[..|saves| - 1])
    ensures ToldTruly(first, saves) <==> Keeps(Drafted(first, saves[..|saves| - 1]), saves[|saves| - 1])
  {
    var front := saves[..|saves| - 1];
    DraftReplays(Drafted(first, front), saves[|saves| - 1], Told(first, front));
  }

  /** However often a draft is saved, its events tell it truly all along exactly when every save keeps what it must. */
  lemma {:induction false} DraftIsToldTruly(first: ChecklistRow, saves: seq<SaveInput>)
    ensures AlwaysToldTruly(first, saves) <==> AlwaysKeeps(first, saves)
  {
    if |saves| == 0 {
      NewDraftReplays(first);
    } else {
      DraftIsToldTruly(first, saves[..|saves| - 1]);
      if ToldTruly(first, saves[..|saves| - 1]) { OneMoreSave(first, saves); }
    }
  }

  lemma StaleCell(cur: ChecklistRow, row: ChecklistRow, k: Key)
    requires forall h :: h in cur.header ==> h in row.header
    requires Unrecorded(row, k)
    ensures Get(Replayed(RowCells(cur), SaveChanges(Some(cur), row)), k) == CellOf(cur, k)
    ensures Get(RowCells(row), k) == CellOf(row, k)
  {
    RowCell(cur, k);
    ReplayedCell(cur, row, RowCells(cur), k);
    RowCell(row, k);
  }

  /** One question answered, then left out of the next save: the event says nothing and the answer survives in a replay. */
  lemma DroppedAnswerSurvives()
    ensures var cur := ChecklistRow("7", Draft, None, "Projektanmeldung", map[],
                                    map["q1" := AnswerRow(Value.Text("Ja"), Null, Null)], 1);
            var row := EditedDraft(cur, SaveInput(Some(1), Some(1), "Projektanmeldung", map[], map[]));
            && Get(Replayed(RowCells(cur), SaveChanges(Some(cur), row)), Answer("q1", "answer")) == Value.Text("Ja")
            && Get(RowCells(row), Answer("q1", "answer")) == Null
  {
    var cur := ChecklistRow("7", Draft, None, "Projektanmeldung", map[],
                            map["q1" := AnswerRow(Value.Text("Ja"), Null, Null)], 1);
    StaleCell(cur, EditedDraft(cur, SaveInput(Some(1), Some(1), "Projektanmeldung", map[], map[])), Answer("q1", "answer"));
  }

  /** An edit of the mode alone writes a new version whose event has no change in it: a replay stays in the old mode. */
  lemma ModeChangeIsSilent(cur: ChecklistRow)
    requires cur.mode == "Projektanmeldung"
    ensures var row := EditedDraft(cur, SaveInput(Some(1), Some(cur.version), "Projektkonfiguration", map[], cur.answers));
            && SaveChanges(Some(cur), row) == map[] && row.version == cur.version + 1
            && Get(Replayed(RowCells(cur), SaveChanges(Some(cur), row)), MODE) == Value.Text("Projektanmeldung")
            && Get(RowCells(row), MODE) == Value.Text("Projektkonfiguration")
  {
    var row := EditedDraft(cur, SaveInput(Some(1), Some(cur.version), "Projektkonfiguration", map[], cur.answers));
    assert row.header == cur.header;
    forall k: Key ensures k !in SaveChanges(Some(cur), row) { RecordedCell(cur, row, k); }
    StaleCell(cur, row, MODE);
  }

  // ---- submit ----------------------------------------------------------------------------------------------------------

  const OPEN: Value := Value.Text("offen")
  const NOT_REQUIRED: Value := Value.Text("nicht erforderlich")

  /** The cells of the project a submission creates: its columns from the header, a review per department. */
  function SubmittedCells(w: World, row: ChecklistRow): Cells {
    var h := row.header;
    var reviews := w.reviewsFor(row.answers);
    map[Field("projektnummer") := CleanCell(h, "projektnummer"),
        Field("station") := CleanCell(h, "stationsname"),
        Field("bahnhofsnummer") := CleanCell(h, "bahnhofsnummer"),
        Field("streckennummer") := CleanCell(h, "streckennummer"),
        Field("projektbeschreibung") := CleanCell(h, "projektbezeichnung"),
        Field("projektstand") := CleanCell(h, "projektstand"),
        BM := CleanCell(h, "bahnhofsmanagement"),
        Field("projektleiter") := CleanCell(h, "projektleitung"),
        Field("kommentar") := CleanCell(h, "anmerkungen"),
        Field("projektLink") := CleanCell(h, "pkpLink")] +
    map d | d in reviews :: Review(d, "status") := if reviews[d] then OPEN else NOT_REQUIRED
  }

  /** `cleanStr` of a column. */
  function CleanCell(h: map<string, Value>, column: string): Value {
    match Header(h, column)
    case Text(s) => (var t := CleanString(s); if t.Some? then Value.Text(t.value) else Null)
    case v => v
  }

  /** The slot booking that belongs to a submission. */
  function SlotBooking(row: ChecklistRow, slot: SlotChoice, projectId: int): BookInput {
    var h := row.header;
    var part := (name: string) => (var t := HeaderText(h, name); if t.Some? then t.value else "");
    BookInput(slot.id, slot.expectedVersion, slot.status, HeaderText(h, "stationsname"), HeaderText(h, "projektleitung"),
              HeaderText(h, "projektstand"),
              Some(part("projektleitung") + " - " + part("stationsname") + " - " + part("projektstand")), None,
              Some(projectId))
  }

  function NotificationEvent(db: Tables, p: Principal, id: int, user: string, ws: Option<string>, department: string): Event {
    Event(|db.events|, NotificationCreated, Notification(id), 1, p.id,
          map[Field("department") := Change(Null, Value.Text(department))], ws, None, Some(user))
  }

  /** One recipient of one department: told once, whatever calls for it. */
  function NotifyOne(db: Tables, p: Principal, key: NotificationKey, ws: Option<string>): Tables {
    if key in db.notified then db
    else
      var id := db.nextNotification;
      var e := NotificationEvent(db, p, id, key.user, ws, key.department);
      db.(notified := db.notified[key := id], nextNotification := id + 1, events := db.events + [e])
  }

  /** Part of the submission: each recipient of a department that has work hears of it, but not the actor. */
  function Notify(db: Tables, p: Principal, checklist: int, reviews: map<string, bool>, ws: Option<string>,
                  recipients: seq<(string, string)>): (after: Tables)
    ensures after == db.(notified := after.notified, nextNotification := after.nextNotification, events := after.events)
    decreases |recipients|
  {
    if |recipients| == 0 then db
    else
      var rest := Notify(db, p, checklist, reviews, ws, recipients[..|recipients| - 1]);
      var (user, department) := recipients[|recipients| - 1];
      if user == p.id || department !in reviews || !reviews[department] then rest
      else NotifyOne(rest, p, NotificationKey(user, checklist, department), ws)
  }

  function SubmissionChanges(projectId: int): Changes {
    map[Field("status") := Change(Value.Text("draft"), Value.Text("submitted")),
        Field("projectId") := Change(Null, Number(projectId))]
  }

  predicate Present(v: Value) {
    v.Text? && v.text != ""
  }

  /** What a submission demands of the draft before it writes anything. */
  function SubmitRefusal(db: Tables, p: Principal, input: SubmitInput): Option<Error> {
    if input.id !in db.checklists || !IsAuthorOrAdmin(p, db.checklists[input.id]) then Some(NotFound)
    else
      var cur := db.checklists[input.id];
      if !cur.status.Draft? then Some(Conflict(NotDraft, input.expectedVersion, cur.version))
      else if cur.version != input.expectedVersion then Some(Conflict(StaleVersion, input.expectedVersion, cur.version))
      else if !Present(Header(cur.header, "bahnhofsmanagement")) then Some(Invalid)
      else if !Present(Header(cur.header, "stationsname")) && !Present(Header(cur.header, "projektbezeichnung"))
      then Some(Invalid)
      else None
  }

  /** The slot of a submission, when one was chosen: booked in the same transaction. */
  function BookForSubmission(w: World, db: Tables, p: Principal, row: ChecklistRow, slot: Option<SlotChoice>, projectId: int)
    : Result<Tables, Error>
  {
    if slot.None? then Success(db) else BookWithin(w, db, p, SlotBooking(row, slot.value, projectId))
  }

  function SubmitStep(db: Tables, p: Principal, id: int, cur: ChecklistRow, projectId: int): Tables {
    ChecklistStep(db, p, ChecklistSubmitted, id,
                  cur.(status := Submitted, projectId := Some(projectId), version := cur.version + 1),
                  SubmissionChanges(projectId), Workspace(cur.header), None)
  }

  function SubmitWithin(w: World, db: Tables, p: Principal, input: SubmitInput, recipients: seq<(string, string)>)
    : (r: Result<Tables, Error>)
    ensures r.Success? ==> input.id in r.value.checklists
  {
    var refusal := SubmitRefusal(db, p, input);
    if refusal.Some? then Failure(refusal.value)
    else
      var cur := db.checklists[input.id];
      var projectId := db.nextProject;
      match CreateWithin(w, db, p, SubmittedCells(w, cur))
      case Failure(e) => Failure(e)
      case Success(created) =>
        match BookForSubmission(w, created, p, cur, input.slot, projectId)
        case Failure(e) => Failure(e)
        case Success(booked) =>
          Success(Notify(SubmitStep(booked, p, input.id, cur, projectId), p, input.id, w.reviewsFor(cur.answers),
                         Workspace(cur.header), recipients))
  }

  // ---- statement by statement ------------------------------------------------------------------------------------------

  /** The header part of `diffDto`, column by column. */
  method DiffHeader(before: map<string, Value>, after: map<string, Value>) returns (out: Changes)
    ensures out == HeaderChanges(before, after)
  {
    out := map[];
    var todo := after.Keys;
    while todo != {}
      invariant todo <= after.Keys
      invariant forall k :: k in out <==> k in HeaderChanges(before, after) && k.Field? && k.name !in todo
      invariant forall k :: k in out ==> out[k] == HeaderChanges(before, after)[k]
    {
      var h :| h in todo;
      var from := Header(before, h);
      if from != after[h] { out := out[Field(h) := Change(from, after[h])]; }
      todo := todo - {h};
    }
  }

  /** The answer part of `diffDto`: the questions present afterwards, three parts each. */
  method DiffAnswers(before: map<string, AnswerRow>, after: map<string, AnswerRow>) returns (out: Changes)
    ensures out == AnswerChanges(before, after)
  {
    out := map[];
    var todo := after.Keys;
    while todo != {}
      invariant todo <= after.Keys
      invariant forall k :: k in out <==> k in AnswerChanges(before, after) && k.Answer? && k.question !in todo
      invariant forall k :: k in out ==> out[k] == AnswerChanges(before, after)[k]
    {
      var q :| q in todo;
      var parts := PARTS;
      while parts != {}
        invariant parts <= PARTS && q in todo && todo <= after.Keys
        invariant forall k :: k in out <==> k in AnswerChanges(before, after) && k.Answer? &&
                                            (k.question !in todo || (k.question == q && k.part !in parts))
        invariant forall k :: k in out ==> out[k] == AnswerChanges(before, after)[k]
      {
        var part :| part in parts;
        var from := if q in before then PartOf(before[q], part) else Null;
        if from != PartOf(after[q], part) { out := out[Answer(q, part) := Change(from, PartOf(after[q], part))]; }
        parts := parts - {part};
      }
      todo := todo - {q};
    }
  }

  method DiffDto(before: Option<ChecklistRow>, after: ChecklistRow) returns (out: Changes)
    ensures out == SaveChanges(before, after)
  {
    var header := DiffHeader(if before.Some? then before.value.header else map[], after.header);
    var answers := DiffAnswers(if before.Some? then before.value.answers else map[], after.answers);
    out := header + answers + if before.Some? then map[] else map[MODE := Change(Null, Value.Text(after.mode))];
  }

  method InsertDraft(db: TxDatabase, p: Principal, row: ChecklistRow, changes: Changes, ws: Option<string>)
    returns (id: int)
    requires row.version == 1
    modifies db
    ensures id == old(db.state).nextChecklist
    ensures db.state == InsertStep(old(db.state), p, row, changes, ws)
  {
    id := db.InsertChecklist(row);
    var event := ChecklistEvent(db.state, p, ChecklistCreated, id, 1, changes, ws, Some(p.id));
    db.Publish(event);
  }

  method RewriteDraft(db: TxDatabase, p: Principal, id: int, row: ChecklistRow, changes: Changes, ws: Option<string>)
    requires id in db.state.checklists && row.version == db.state.checklists[id].version + 1
    modifies db
    ensures db.state == ChecklistStep(old(db.state), p, ChecklistUpdated, id, row, changes, ws, Some(p.id))
  {
    var ok := db.UpdateChecklistVersioned(id, row.version - 1, row);
    var event := ChecklistEvent(db.state, p, ChecklistUpdated, id, row.version, changes, ws, Some(p.id));
    db.Publish(event);
  }

  method CreateDraft(db: TxDatabase, p: Principal, input: SaveInput, ws: Option<string>) returns (id: int)
    modifies db
    ensures id == old(db.state).nextChecklist && db.state == CreateStep(old(db.state), p, input, ws)
  {
    var row := NewDraft(p, input);
    var changes := DiffDto(None, row);
    id := InsertDraft(db, p, row, changes, ws);
  }

  method EditDraft(db: TxDatabase, p: Principal, id: int, cur: ChecklistRow, input: SaveInput, ws: Option<string>)
    requires id in db.state.checklists && cur == db.state.checklists[id]
    modifies db
    ensures db.state == EditStep(old(db.state), p, id, cur, input, ws)
  {
    var row := EditedDraft(cur, input);
    var changes := DiffDto(Some(cur), row);
    RewriteDraft(db, p, id, row, changes, ws);
  }

  method SaveInTransaction(w: World, db: TxDatabase, p: Principal, input: SaveInput) returns (r: Result<int, Error>)
    modifies db
    ensures var spec := SaveWithin(w, old(db.state), p, input);
            && db.state == (if spec.Success? then spec.value else old(db.state))
            && r == (if spec.Success? then Success(SavedId(old(db.state), input)) else Failure(spec.error))
            && (spec.Success? ==> SavedId(old(db.state), input) in db.state.checklists)
  {
    if p.role.Viewer? { return Failure(Forbidden); }
    var ws := Workspace(input.header);
    if input.id.None? {
      if ws.Some? && !CanEdit(w.fold, p, ws) { return Failure(Forbidden); }
      if ws.None? && !Unrestricted(p) { return Failure(Forbidden); }
      var id := CreateDraft(db, p, input, ws);
      return Success(id);
    }
    var cur := db.LockChecklist(input.id.value);
    if cur.None? || !IsAuthorOrAdmin(p, cur.value) { return Failure(NotFound); }
    var expected := if input.expectedVersion.Some? then input.expectedVersion.value else 0;
    if !cur.value.status.Draft? { return Failure(Conflict(NotDraft, expected, cur.value.version)); }
    if input.expectedVersion != Some(cur.value.version) {
      return Failure(Conflict(StaleVersion, expected, cur.value.version));
    }
    if ws.Some? && !CanEdit(w.fold, p, ws) { return Failure(Forbidden); }
    EditDraft(db, p, input.id.value, cur.value, input, ws);
    return Success(input.id.value);
  }

  method NotifyDepartments(db: TxDatabase, p: Principal, checklist: int, reviews: map<string, bool>, ws: Option<string>,
                           recipients: seq<(string, string)>)
    modifies db
    ensures db.state == Notify(old(db.state), p, checklist, reviews, ws, recipients)
  {
    for n := 0 to |recipients|
      invariant db.state == Notify(old(db.state), p, checklist, reviews, ws, recipients[..n])
    {
      var (user, department) := recipients[n];
      assert recipients[..n + 1][..n] == recipients[..n];
      if user == p.id || department !in reviews || !reviews[department] { continue; }
      var id := db.InsertNotification(NotificationKey(user, checklist, department));
      if id.None? { continue; }
      db.AppendEvent(NotificationEvent(db.state, p, id.value, user, ws, department));
    }
    assert recipients[..|recipients|] == recipients;
  }

  method MarkSubmitted(db: TxDatabase, p: Principal, id: int, cur: ChecklistRow, projectId: int)
    requires id in db.state.checklists && cur == db.state.checklists[id]
    modifies db
    ensures db.state == SubmitStep(old(db.state), p, id, cur, projectId)
  {
    var ok := db.UpdateChecklistVersioned(id, cur.version, cur.(status := Submitted, projectId := Some(projectId)));
    db.Publish(ChecklistEvent(db.state, p, ChecklistSubmitted, id, cur.version + 1, SubmissionChanges(projectId),
                              Workspace(cur.header), None));
  }

  /** `input.slot` is booked, if there is one. */
  method BookChosenSlot(w: World, db: TxDatabase, p: Principal, row: ChecklistRow, slot: Option<SlotChoice>, projectId: int)
    returns (r: Result<int, Error>)
    modifies db
    ensures var spec := BookForSubmission(w, old(db.state), p, row, slot, projectId);
            && (spec.Success? ==> r.Success? && db.state == spec.value && db.state.checklists == old(db.state).checklists)
            && (spec.Failure? ==> r == Failure(spec.error))
  {
    if slot.None? { return Success(projectId); }
    r := BookInTransaction(w, db, p, SlotBooking(row, slot.value, projectId));
  }

  method SubmitInTransaction(w: World, db: TxDatabase, p: Principal, input: SubmitInput, recipients: seq<(string, string)>)
    returns (r: Result<int, Error>)
    modifies db
    ensures var spec := SubmitWithin(w, old(db.state), p, input, recipients);
            && (spec.Success? ==> db.state == spec.value && r == Success(old(db.state).nextProject))
            && (spec.Success? ==> input.id in db.state.checklists)
            && (spec.Failure? ==> r == Failure(spec.error))
  {
    var locked := db.LockChecklist(input.id);
    if locked.None? || !IsAuthorOrAdmin(p, locked.value) { return Failure(NotFound); }
    var cur := locked.value;
    if !cur.status.Draft? { return Failure(Conflict(NotDraft, input.expectedVersion, cur.version)); }
    if cur.version != input.expectedVersion {
      return Failure(Conflict(StaleVersion, input.expectedVersion, cur.version));
    }
    if !Present(Header(cur.header, "bahnhofsmanagement")) { return Failure(Invalid); }
    if !Present(Header(cur.header, "stationsname")) && !Present(Header(cur.header, "projektbezeichnung")) {
      return Failure(Invalid);
    }
    var created := CreateInTransaction(w, db, p, SubmittedCells(w, cur));
    if created.Failure? { return Failure(created.error); }
    var projectId := created.value;
    var booked := BookChosenSlot(w, db, p, cur, input.slot, projectId);
    if booked.Failure? { return Failure(booked.error); }
    MarkSubmitted(db, p, input.id, cur, projectId);
    NotifyDepartments(db, p, input.id, w.reviewsFor(cur.answers), Workspace(cur.header), recipients);
    return Success(projectId);
  }
}
