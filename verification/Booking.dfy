/** The booking aggregate (server/domain/bookingService.ts): calendar slots, booked and released inside a transaction. */
module Booking {
  import opened Wrappers
  import opened Store
  import opened Contracts
  import opened Permissions
  import Text

  const STATUS := Field("status")
  const FREE: Value := Value.Text("Frei")

  const FIELDS: seq<Key> := [STATUS, Field("station"), Field("projektleitung"), Field("projektstand"), Field("info"),
                             Field("hinweis"), Field("projectId"), Field("bahnhofsmanagement")]

  /** The cells a slot answer shows: every tracked field but the Bahnhofsmanagement. */
  const SHOWN: set<Key> := {STATUS, Field("station"), Field("projektleitung"), Field("projektstand"), Field("info"),
                            Field("hinweis"), Field("projectId")}

  function TextOrNull(v: Option<string>): Value {
    if v.Some? then Value.Text(v.value) else Null
  }

  function NumberOrNull(v: Option<int>): Value {
    if v.Some? then Number(v.value) else Null
  }

  /** The workspace of a row: its Bahnhofsmanagement cell. */
  function WorkspaceOf(cells: Cells): Option<string> {
    match Get(cells, Field("bahnhofsmanagement"))
    case Text(s) => Some(s)
    case _ => None
  }

  predicate IsFree(row: SlotRow) {
    Get(row.cells, STATUS) == FREE
  }

  /** A slot as it is shown: of a slot that is held in a workspace out of sight, only its status. */
  function View(w: World, p: Principal, id: int, row: SlotRow): SlotDTO {
    var redacted := !IsFree(row) && !CanView(w.fold, p, WorkspaceOf(row.cells));
    SlotDTO(id, row.version,
            map k | k in SHOWN :: if redacted && k != STATUS then Null else Get(row.cells, k),
            redacted)
  }

  /** The request as its hash sees it: every text cleaned. */
  function Canonical(input: BookInput): BookInput {
    input.(station := Text.Clean(input.station), projektleitung := Text.Clean(input.projektleitung),
           projektstand := Text.Clean(input.projektstand), info := Text.Clean(input.info),
           hinweis := Text.Clean(input.hinweis))
  }

  function BookingWorkspace(w: World, input: BookInput): Option<string> {
    var station := Text.Clean(input.station);
    if station.Some? then w.stationBm(station.value) else None
  }

  function BookedCells(w: World, input: BookInput): Cells {
    map[STATUS := Value.Text(input.status), Field("station") := TextOrNull(Text.Clean(input.station)),
        Field("bahnhofsmanagement") := TextOrNull(BookingWorkspace(w, input)),
        Field("projektleitung") := TextOrNull(Text.Clean(input.projektleitung)),
        Field("projektstand") := TextOrNull(Text.Clean(input.projektstand)),
        Field("info") := TextOrNull(Text.Clean(input.info)), Field("hinweis") := TextOrNull(Text.Clean(input.hinweis)),
        Field("projectId") := NumberOrNull(input.projectId)]
  }

  function FreedCells(): Cells {
    map k | k in FIELDS :: if k == STATUS then FREE else Null
  }

  function SlotEvent(db: Tables, p: Principal, id: int, version: int, changes: Changes, ws: Option<string>): Event {
    Event(|db.events|, BookingUpdated, Slot(id), version, p.id, changes, ws, None, None)
  }

  /** A slot moves one version on, with the cells written, its audit rows and its event. */
  function SlotStep(db: Tables, p: Principal, id: int, set_: Cells, checklistId: Option<int>, ws: Option<string>): Tables
    requires id in db.slots
  {
    var cur := db.slots[id];
    Record(db.(slots := db.slots[id := SlotRow(cur.cells + set_, checklistId, cur.version + 1)]),
           SlotEvent(db, p, id, cur.version + 1, Diff(cur.cells, set_), ws))
  }

  function BookWithin(w: World, db: Tables, p: Principal, input: BookInput): Result<Tables, Error> {
    var bm := BookingWorkspace(w, input);
    if p.role.Viewer? || !CanEdit(w.fold, p, bm) then Failure(Forbidden)
    else if input.projectId.Some? &&
            (input.projectId.value !in db.projects ||
             !CanView(w.fold, p, WorkspaceOf(db.projects[input.projectId.value].cells))) then Failure(NotFound)
    else if input.id !in db.slots then Failure(NotFound)
    else
      var cur := db.slots[input.id];
      if cur.version != input.expectedVersion || !IsFree(cur) then
        Failure(Conflict(if IsFree(cur) then StaleVersion else SlotTaken, input.expectedVersion, cur.version))
      else
        Success(SlotStep(db, p, input.id, BookedCells(w, input), cur.checklistId, bm))
  }

  function ReleaseWithin(w: World, db: Tables, p: Principal, input: ReleaseInput): Result<Tables, Error> {
    if input.id !in db.slots then Failure(NotFound)
    else
      var cur := db.slots[input.id];
      if p.role.Viewer? || !(p.role.Admin? || CanEdit(w.fold, p, WorkspaceOf(cur.cells))) then Failure(Forbidden)
      else if cur.version != input.expectedVersion then
        Failure(Conflict(StaleVersion, input.expectedVersion, cur.version))
      else
        Success(SlotStep(db, p, input.id, FreedCells(), None, WorkspaceOf(cur.cells)))
  }

  /** Requests with one hash make one and the same transition, so a retry is answered with what it would have done. */
  lemma SameHashSameBooking(w: World, db: Tables, p: Principal, a: BookInput, b: BookInput)
    requires Canonical(a) == Canonical(b)
    ensures BookWithin(w, db, p, a) == BookWithin(w, db, p, b)
  {
    assert Text.Clean(a.station) == Canonical(a).station == Canonical(b).station == Text.Clean(b.station);
    assert Text.Clean(a.projektleitung) == Canonical(a).projektleitung == Text.Clean(b.projektleitung);
    assert Text.Clean(a.projektstand) == Canonical(a).projektstand == Text.Clean(b.projektstand);
    assert Text.Clean(a.info) == Canonical(a).info == Text.Clean(b.info);
    assert Text.Clean(a.hinweis) == Canonical(a).hinweis == Text.Clean(b.hinweis);
  }

  // ---- the transition, statement by statement --------------------------------------------------------------------------

  /** `diff`: the given fields, one by one. */
  method DiffFields(fields: seq<Key>, cur: Cells, set_: Cells) returns (out: Changes)
    requires forall k :: k in set_ ==> k in fields
    ensures out == Diff(cur, set_)
  {
    out := map[];
    for n := 0 to |fields|
      invariant forall k :: k in out <==> k in fields[..n] && k in set_ && Get(cur, k) != set_[k]
      invariant forall k :: k in out ==> out[k] == Change(Get(cur, k), set_[k])
    {
      var f := fields[n];
      if f in set_ {
        var from, to_ := Get(cur, f), set_[f];
        if from != to_ { out := out[f := Change(from, to_)]; }
      }
    }
    assert fields[..|fields|] == fields;
  }

  method Write(db: TxDatabase, p: Principal, id: int, set_: Cells, checklistId: Option<int>, ws: Option<string>)
    requires id in db.state.slots && forall k :: k in set_ ==> k in FIELDS
    modifies db
    ensures db.state == SlotStep(old(db.state), p, id, set_, checklistId, ws)
  {
    var cur := db.state.slots[id];
    var ok := db.UpdateSlotVersioned(id, cur.version, set_, checklistId);
    var changes := DiffFields(FIELDS, cur.cells, set_);
    var event := SlotEvent(db.state, p, id, cur.version + 1, changes, ws);
    db.Publish(event);
  }

  method BookInTransaction(w: World, db: TxDatabase, p: Principal, input: BookInput) returns (r: Result<int, Error>)
    modifies db
    ensures var spec := BookWithin(w, old(db.state), p, input);
            && db.state == (if spec.Success? then spec.value else old(db.state))
            && r == (if spec.Success? then Success(input.id) else Failure(spec.error))
  {
    var station := Text.Clean(input.station);
    var bm := if station.Some? then w.stationBm(station.value) else None;
    if p.role.Viewer? { return Failure(Forbidden); }
    if !CanEdit(w.fold, p, bm) { return Failure(Forbidden); }
    if input.projectId.Some? {
      var linked := db.LockProject(input.projectId.value);
      if linked.None? || !CanView(w.fold, p, WorkspaceOf(linked.value.cells)) { return Failure(NotFound); }
    }
    var cur := db.LockSlot(input.id);
    if cur.None? { return Failure(NotFound); }
    if cur.value.version != input.expectedVersion || !IsFree(cur.value) {
      return Failure(Conflict(if !IsFree(cur.value) then SlotTaken else StaleVersion, input.expectedVersion, cur.value.version));
    }
    Write(db, p, input.id, BookedCells(w, input), cur.value.checklistId, bm);
    return Success(input.id);
  }

  method ReleaseInTransaction(w: World, db: TxDatabase, p: Principal, input: ReleaseInput) returns (r: Result<int, Error>)
    modifies db
    ensures var spec := ReleaseWithin(w, old(db.state), p, input);
            && db.state == (if spec.Success? then spec.value else old(db.state))
            && r == (if spec.Success? then Success(input.id) else Failure(spec.error))
  {
    var cur := db.LockSlot(input.id);
    if cur.None? { return Failure(NotFound); }
    var ws := WorkspaceOf(cur.value.cells);
    if p.role.Viewer? || !(p.role.Admin? || CanEdit(w.fold, p, ws)) { return Failure(Forbidden); }
    if cur.value.version != input.expectedVersion {
      return Failure(Conflict(StaleVersion, input.expectedVersion, cur.value.version));
    }
    Write(db, p, input.id, FreedCells(), None, ws);
    return Success(input.id);
  }
}
