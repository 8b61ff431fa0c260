/** When an import reports one project as updated more than once (server/domain/registerImportService.ts). */
module HollowUpdates {
  import opened Wrappers
  import opened Store
  import opened Contracts
  import opened Permissions
  import opened Text
  import opened Booking
  import opened Projects
  import opened RegisterImport

  /** Every cell the row would change is, once normalised, what the project holds already. */
  ghost predicate Hollow(w: World, cur: ProjectRow, changes: Changes) {
    forall k :: k in changes ==> w.normalize(k, changes[k].to) == Some(Get(cur.cells, k))
  }

  lemma HollowWritesNothing(w: World, cur: ProjectRow, changes: Changes)
    requires Normalizable(w, Patch(changes))
    ensures Diff(cur.cells, NormalizedCells(w, Patch(changes))) == map[] <==> Hollow(w, cur, changes)
  {
    var set_ := NormalizedCells(w, Patch(changes));
    forall k | k in changes ensures k in set_ && w.normalize(k, changes[k].to) == Some(set_[k]) {
      assert k in Patch(changes) && w.normalize(k, Patch(changes)[k]).Some?;
    }
    if Diff(cur.cells, set_) == map[] {
      forall k | k in changes ensures w.normalize(k, changes[k].to) == Some(Get(cur.cells, k)) {
        assert k !in Diff(cur.cells, set_);
      }
    }
  }

  /** What a row has found when it is reported as an update. */
  ghost predicate Updates(w: World, db: Tables, p: Principal, row: ApplyRow, seen: map<int, ProjectRow>, id: int) {
    && id in db.projects && row.target.Some? && row.target.value.projectId == id
    && !Outdated(db.projects[id], row.target.value, seen) && CanEdit(w.fold, p, WorkspaceOf(db.projects[id].cells))
    && var changes := PlannedChanges(w, seen, id, row.record);
       changes != map[] && (OverwrittenKeys(changes) == {} || row.overwrite) && Normalizable(w, Patch(changes))
  }

  lemma ReportedMeansUpdates(w: World, db: Tables, p: Principal, row: ApplyRow, planned: PlanRow,
                             seen: map<int, ProjectRow>, id: int)
    requires row.target.Some? && row.target.value.projectId == id && UpdateRow(w, db, p, row, planned, seen).Success?
    requires UpdateRow(w, db, p, row, planned, seen).value.1.kind == Updated
    ensures Updates(w, db, p, row, seen, id) && Targetable(row, planned, id)
  {
    var changes := PlannedChanges(w, seen, id, row.record);
    assert Targetable(row, planned, id) && id in db.projects;
    assert !Outdated(db.projects[id], row.target.value, seen);
    assert CanEdit(w.fold, p, WorkspaceOf(db.projects[id].cells));
    assert OverwrittenKeys(changes) == {} || row.overwrite;
    assert changes != map[];
    assert Normalizable(w, Patch(changes));
  }

  lemma UpdatesMeansReported(w: World, db: Tables, p: Principal, row: ApplyRow, planned: PlanRow,
                             seen: map<int, ProjectRow>, id: int)
    requires Updates(w, db, p, row, seen, id) && Targetable(row, planned, id)
    ensures var r := UpdateRow(w, db, p, row, planned, seen);
            var set_ := NormalizedCells(w, Patch(PlannedChanges(w, seen, id, row.record)));
            && r.Success? && r.value.1 == ApplyOutcome(row.record.ref, Updated, Some(id))
            && r.value.0 == Remember(UpdateWithin(db, p, id, set_), row.record, id)
  {
  }

  /** Where an update leaves its project: as it was, or one version on. */
  lemma AfterUpdate(w: World, db: Tables, p: Principal, row: ApplyRow, seen: map<int, ProjectRow>, id: int)
    requires Updates(w, db, p, row, seen, id)
    ensures var changes := PlannedChanges(w, seen, id, row.record);
            var after := Remember(UpdateWithin(db, p, id, NormalizedCells(w, Patch(changes))), row.record, id);
            && id in after.projects
            && (Hollow(w, db.projects[id], changes) ==> after.projects[id] == db.projects[id])
            && (!Hollow(w, db.projects[id], changes) ==> after.projects[id].version == db.projects[id].version + 1)
  {
    HollowWritesNothing(w, db.projects[id], PlannedChanges(w, seen, id, row.record));
  }

  // ---- what one row reports --------------------------------------------------------------------------------------------

  /** Judged on these tables, this row is an update of this project. */
  ghost predicate ReportsOn(w: World, db: Tables, p: Principal, row: ApplyRow, plan: map<int, PlanRow>,
                            seen: map<int, ProjectRow>, id: int)
  {
    && row.action.Update? && row.record.ref in plan && !plan[row.record.ref].status.Skipped?
    && Targetable(row, plan[row.record.ref], id) && Updates(w, db, p, row, seen, id)
  }

  /** The cells this row would write are no news to the project. */
  ghost predicate HollowOn(w: World, db: Tables, row: ApplyRow, seen: map<int, ProjectRow>, id: int)
    requires id in db.projects
  {
    Hollow(w, db.projects[id], PlannedChanges(w, seen, id, row.record))
  }

  lemma RowIsUpdate(w: World, db: Tables, p: Principal, row: ApplyRow, plan: map<int, PlanRow>, seen: map<int, ProjectRow>)
    requires row.action.Update? && row.record.ref in plan && !plan[row.record.ref].status.Skipped? && row.target.Some?
    ensures RowStep(w, db, p, row, plan, seen) == UpdateRow(w, db, p, row, plan[row.record.ref], seen)
  {
  }

  lemma ReportsGives(w: World, db: Tables, p: Principal, row: ApplyRow, plan: map<int, PlanRow>,
                     seen: map<int, ProjectRow>, id: int)
    requires ReportsOn(w, db, p, row, plan, seen, id)
    ensures var set_ := NormalizedCells(w, Patch(PlannedChanges(w, seen, id, row.record)));
            RowStep(w, db, p, row, plan, seen) ==
            Success((Remember(UpdateWithin(db, p, id, set_), row.record, id), ApplyOutcome(row.record.ref, Updated, Some(id))))
  {
    RowIsUpdate(w, db, p, row, plan, seen);
    UpdatesMeansReported(w, db, p, row, plan[row.record.ref], seen, id);
  }

  lemma ReportedIsOn(w: World, db: Tables, p: Principal, row: ApplyRow, plan: map<int, PlanRow>,
                     seen: map<int, ProjectRow>, id: int)
    requires RowStep(w, db, p, row, plan, seen).Success?
    requires ReportsUpdate(RowStep(w, db, p, row, plan, seen).value.1, id)
    ensures ReportsOn(w, db, p, row, plan, seen, id)
  {
    ReportIsOfUpdateRow(w, db, p, row, plan, seen, id);
    ReportedMeansUpdates(w, db, p, row, plan[row.record.ref], seen, id);
  }

  lemma ReportIsOfUpdateRow(w: World, db: Tables, p: Principal, row: ApplyRow, plan: map<int, PlanRow>,
                            seen: map<int, ProjectRow>, id: int)
    requires RowStep(w, db, p, row, plan, seen).Success?
    requires ReportsUpdate(RowStep(w, db, p, row, plan, seen).value.1, id)
    ensures row.action.Update? && row.record.ref in plan && !plan[row.record.ref].status.Skipped?
    ensures row.target.Some? && row.target.value.projectId == id
    ensures UpdateRow(w, db, p, row, plan[row.record.ref], seen) == RowStep(w, db, p, row, plan, seen)
  {
  }

  /** A row reports exactly the update it is. */
  lemma ReportedExactly(w: World, db: Tables, p: Principal, row: ApplyRow, plan: map<int, PlanRow>,
                        seen: map<int, ProjectRow>, id: int, after: Tables, o: ApplyOutcome)
    requires Stepper(w, p, plan, seen)(db, row) == Success((after, o))
    ensures ReportsUpdate(o, id) <==> ReportsOn(w, db, p, row, plan, seen, id)
  {
    if ReportsUpdate(o, id) {
      ReportedIsOn(w, db, p, row, plan, seen, id);
    } else if ReportsOn(w, db, p, row, plan, seen, id) {
      ReportsGives(w, db, p, row, plan, seen, id);
      assert false;
    }
  }

  lemma UpdateMoves(w: World, db: Tables, p: Principal, row: ApplyRow, plan: map<int, PlanRow>, seen: map<int, ProjectRow>,
                    id: int, after: Tables, o: ApplyOutcome)
    requires ReportsOn(w, db, p, row, plan, seen, id) && Stepper(w, p, plan, seen)(db, row) == Success((after, o))
    ensures id in after.projects
    ensures if HollowOn(w, db, row, seen, id) then after.projects[id] == db.projects[id]
            else after.projects[id].version == db.projects[id].version + 1
  {
    ReportsGives(w, db, p, row, plan, seen, id);
    AfterUpdate(w, db, p, row, seen, id);
  }

  /** A row leaves a project alone unless it is an update of it that is not hollow; then the project is one version on. */
  lemma RowMoves(w: World, db: Tables, p: Principal, row: ApplyRow, plan: map<int, PlanRow>, seen: map<int, ProjectRow>,
                 id: int, after: Tables, o: ApplyOutcome)
    requires FreshIds(db) && id in db.projects && Stepper(w, p, plan, seen)(db, row) == Success((after, o))
    ensures id in after.projects
    ensures if ReportsOn(w, db, p, row, plan, seen, id) && !HollowOn(w, db, row, seen, id)
            then after.projects[id].version == db.projects[id].version + 1
            else after.projects[id] == db.projects[id]
  {
    if ReportsOn(w, db, p, row, plan, seen, id) {
      UpdateMoves(w, db, p, row, plan, seen, id, after, o);
    } else {
      ReportedExactly(w, db, p, row, plan, seen, id, after, o);
      OthersStay(w, db, p, row, plan, seen, id);
    }
  }

  lemma OthersStay(w: World, db: Tables, p: Principal, row: ApplyRow, plan: map<int, PlanRow>, seen: map<int, ProjectRow>,
                   id: int)
    requires FreshIds(db) && id in db.projects && RowStep(w, db, p, row, plan, seen).Success?
    requires !ReportsUpdate(RowStep(w, db, p, row, plan, seen).value.1, id)
    ensures var after := RowStep(w, db, p, row, plan, seen).value.0;
            id in after.projects && after.projects[id] == db.projects[id]
  {
    if row.action.Skip? {
      SkipIsQuiet(db, row.record);
    } else if row.action.Unskip? {
      UnskipIsQuiet(db, row.record);
    } else if !plan[row.record.ref].status.Skipped? {
      if row.action.Create? {
        CreationStays(w, db, p, row, plan[row.record.ref], id);
      } else {
        UpdateStays(w, db, p, row, plan[row.record.ref], seen, id);
      }
    }
  }

  lemma CreationStays(w: World, db: Tables, p: Principal, row: ApplyRow, planned: PlanRow, id: int)
    requires FreshIds(db) && id in db.projects && CreateRow(w, db, p, row, planned).Success?
    ensures var after := CreateRow(w, db, p, row, planned).value.0;
            id in after.projects && after.projects[id] == db.projects[id]
  {
  }

  lemma UpdateStays(w: World, db: Tables, p: Principal, row: ApplyRow, planned: PlanRow, seen: map<int, ProjectRow>, id: int)
    requires id in db.projects && row.target.Some? && UpdateRow(w, db, p, row, planned, seen).Success?
    requires !ReportsUpdate(UpdateRow(w, db, p, row, planned, seen).value.1, id)
    ensures var after := UpdateRow(w, db, p, row, planned, seen).value.0;
            id in after.projects && after.projects[id] == db.projects[id]
  {
    var target := row.target.value.projectId;
    if UpdateRow(w, db, p, row, planned, seen).value.1.kind == Updated {
      ReportedMeansUpdates(w, db, p, row, planned, seen, target);
      UpdatesMeansReported(w, db, p, row, planned, seen, target);
      OtherUpdateStays(db, p, row, target, NormalizedCells(w, Patch(PlannedChanges(w, seen, target, row.record))), id);
    } else {
      UnreportedStays(w, db, p, row, planned, seen);
    }
  }

  lemma OtherUpdateStays(db: Tables, p: Principal, row: ApplyRow, target: int, set_: Cells, id: int)
    requires id in db.projects && target in db.projects && target != id
    ensures var after := Remember(UpdateWithin(db, p, target, set_), row.record, target);
            id in after.projects && after.projects[id] == db.projects[id]
  {
  }

  lemma UnreportedStays(w: World, db: Tables, p: Principal, row: ApplyRow, planned: PlanRow, seen: map<int, ProjectRow>)
    requires row.target.Some? && UpdateRow(w, db, p, row, planned, seen).Success?
    requires UpdateRow(w, db, p, row, planned, seen).value.1.kind != Updated
    ensures UpdateRow(w, db, p, row, planned, seen).value.0.projects == db.projects
  {
    var id := row.target.value.projectId;
    var after := UpdateRow(w, db, p, row, planned, seen).value.0;
    assert after == db || after == Remember(db, row.record, id);
  }

  // ---- what the rows of an import report -------------------------------------------------------------------------------

  /** None of the first rows writes to this project: those that are updates of it are hollow. */
  ghost predicate UnwrittenBefore(w: World, db: Tables, p: Principal, rows: seq<ApplyRow>, plan: map<int, PlanRow>,
                                  seen: map<int, ProjectRow>, j: nat, id: int)
    requires id in db.projects && j <= |rows|
  {
    forall i :: 0 <= i < j && ReportsOn(w, db, p, rows[i], plan, seen, id) ==> HollowOn(w, db, rows[i], seen, id)
  }

  /** Only what the tables say of the project itself matters. */
  lemma JudgedByProject(w: World, a: Tables, b: Tables, p: Principal, row: ApplyRow, plan: map<int, PlanRow>,
                        seen: map<int, ProjectRow>, id: int)
    requires id in a.projects && id in b.projects && a.projects[id] == b.projects[id]
    ensures ReportsOn(w, a, p, row, plan, seen, id) <==> ReportsOn(w, b, p, row, plan, seen, id)
    ensures HollowOn(w, a, row, seen, id) <==> HollowOn(w, b, row, seen, id)
  {
  }

  /** A row that is an update of a project was planned on the version it finds. */
  lemma JudgedAtItsVersion(w: World, db: Tables, p: Principal, row: ApplyRow, plan: map<int, PlanRow>,
                           seen: map<int, ProjectRow>, id: int)
    requires ReportsOn(w, db, p, row, plan, seen, id)
    ensures id in db.projects && id in seen && seen[id].version == db.projects[id].version
  {
  }

  /** Before row j the project stands as it was, or a version on once some row has written to it. */
  lemma {:induction false} StandsUntilWritten(w: World, db: Tables, p: Principal, rows: seq<ApplyRow>,
                                              plan: map<int, PlanRow>, seen: map<int, ProjectRow>, j: nat, id: int)
    requires j <= |rows| && FreshIds(db) && id in db.projects && Rows(Stepper(w, p, plan, seen), db, rows).Success?
    ensures var before := Before(Stepper(w, p, plan, seen), db, rows, j);
            && FreshIds(before) && id in before.projects
            && (if UnwrittenBefore(w, db, p, rows, plan, seen, j, id) then before.projects[id] == db.projects[id]
                else id in seen && seen[id].version == db.projects[id].version &&
                     before.projects[id].version > db.projects[id].version)
    decreases j
  {
    var step := Stepper(w, p, plan, seen);
    if j == 0 {
      assert rows[..0] == [];
    } else {
      StandsUntilWritten(w, db, p, rows, plan, seen, j - 1, id);
      var before := Before(step, db, rows, j - 1);
      RowAt(step, db, rows, j - 1);
      StepperIsEffective(w, p, plan, seen);
      NextState(w, step, db, rows, seen, j - 1);
      MoveOfRow(w, db, before, Before(step, db, rows, j), Rows(step, db, rows).value.1[j - 1], p, rows, plan, seen, j - 1, id);
    }
  }

  lemma MoveOfRow(w: World, db: Tables, before: Tables, after: Tables, o: ApplyOutcome, p: Principal, rows: seq<ApplyRow>,
                  plan: map<int, PlanRow>, seen: map<int, ProjectRow>, j: nat, id: int)
    requires j < |rows| && id in db.projects && FreshIds(before) && id in before.projects
    requires Stepper(w, p, plan, seen)(before, rows[j]) == Success((after, o))
    requires if UnwrittenBefore(w, db, p, rows, plan, seen, j, id) then before.projects[id] == db.projects[id]
             else id in seen && seen[id].version == db.projects[id].version &&
                  before.projects[id].version > db.projects[id].version
    ensures id in after.projects
    ensures if UnwrittenBefore(w, db, p, rows, plan, seen, j + 1, id) then after.projects[id] == db.projects[id]
            else id in seen && seen[id].version == db.projects[id].version &&
                 after.projects[id].version > db.projects[id].version
  {
    RowMoves(w, before, p, rows[j], plan, seen, id, after, o);
    if UnwrittenBefore(w, db, p, rows, plan, seen, j, id) {
      JudgedByProject(w, db, before, p, rows[j], plan, seen, id);
      if ReportsOn(w, db, p, rows[j], plan, seen, id) { JudgedAtItsVersion(w, db, p, rows[j], plan, seen, id); }
    } else {
      assert !UnwrittenBefore(w, db, p, rows, plan, seen, j + 1, id);
    }
  }

  /**
   * Exactly when row j is reported as an update of a project, in terms of the tables the import started on: it is one judged
   * on those, and no row before it writes to the project; those that are updates of it too are hollow.
   */
  lemma ReportedInImportExactly(w: World, db: Tables, p: Principal, rows: seq<ApplyRow>, plan: map<int, PlanRow>,
                                seen: map<int, ProjectRow>, j: nat, id: int)
    requires j < |rows| && FreshIds(db) && id in db.projects && Rows(Stepper(w, p, plan, seen), db, rows).Success?
    ensures var outcomes := Rows(Stepper(w, p, plan, seen), db, rows).value.1;
            && |outcomes| == |rows|
            && (ReportsUpdate(outcomes[j], id) <==>
                ReportsOn(w, db, p, rows[j], plan, seen, id) && UnwrittenBefore(w, db, p, rows, plan, seen, j, id))
  {
    var step := Stepper(w, p, plan, seen);
    RowAt(step, db, rows, j);
    StandsUntilWritten(w, db, p, rows, plan, seen, j, id);
    var before := Before(step, db, rows, j);
    ReportedExactly(w, before, p, rows[j], plan, seen, id, Before(step, db, rows, j + 1), Rows(step, db, rows).value.1[j]);
    if UnwrittenBefore(w, db, p, rows, plan, seen, j, id) {
      JudgedByProject(w, db, before, p, rows[j], plan, seen, id);
    } else if ReportsOn(w, before, p, rows[j], plan, seen, id) {
      JudgedAtItsVersion(w, before, p, rows[j], plan, seen, id);
      assert false;
    }
  }

  /** A project is reported as updated at most once, unless a row that is an update of it follows only hollow ones, and at least one. */
  lemma UpdatedTwiceExactly(w: World, db: Tables, p: Principal, rows: seq<ApplyRow>, plan: map<int, PlanRow>,
                            seen: map<int, ProjectRow>, i: nat, j: nat, id: int)
    requires i < j < |rows| && FreshIds(db) && id in db.projects && ApplyWithin(w, db, p, rows, plan, seen).Success?
    ensures var outcomes := ApplyWithin(w, db, p, rows, plan, seen).value.1;
            && |outcomes| == |rows|
            && (ReportsUpdate(outcomes[i], id) && ReportsUpdate(outcomes[j], id) <==>
                ReportsOn(w, db, p, rows[i], plan, seen, id) && ReportsOn(w, db, p, rows[j], plan, seen, id) &&
                UnwrittenBefore(w, db, p, rows, plan, seen, j, id))
  {
    ReportedInImportExactly(w, db, p, rows, plan, seen, i, id);
    ReportedInImportExactly(w, db, p, rows, plan, seen, j, id);
  }

  // ---- an import that does ---------------------------------------------------------------------------------------------

  /** The canonicalisation of text cells: white space collapsed and trimmed; the rest of the world does not matter here. */
  function Trimming(): World {
    World((s: string) => s, (s: string) => None, (a: map<string, AnswerRow>) => map[],
          (k: Key, v: Value) => Some(if v.Text? then TextOrNull(CleanText(Some(v.text))) else v),
          (k: Key, a: Value, b: Value) => false)
  }

  const OPERATOR: Principal := Principal("1", None, Admin, AllWorkspaces, [])
  const SITE: Key := Field("station")
  const STAND: Key := Field("projektstand")
  const COMMENT: Key := Field("kommentar")
  const STORED: ProjectRow := ProjectRow(
    map[SITE := Value.Text("Mainz"), STAND := Value.Text("EP"), COMMENT := Value.Text("alt")], 3)

  /** The registration as the project has it, its comment with a blank behind it: matched by its fields. */
  const PADDED: ApplyRow := ApplyRow(
    RegisterRecord(1, "mainz ep", "mainz ep alt",
                   map[SITE := Value.Text("Mainz"), STAND := Value.Text("EP"), COMMENT := Value.Text("alt ")]),
    Update, Some(Target(1, 3)), true, false)

  /** The registration an earlier import saw without a phase, with a new comment: matched by the key stored then. */
  const RENEWED: ApplyRow := ApplyRow(
    RegisterRecord(2, "mainz", "mainz neu", map[SITE := Value.Text("Mainz"), COMMENT := Value.Text("neu")]),
    Update, Some(Target(1, 3)), true, false)

  const PLAN: map<int, PlanRow> := map[1 := PlanRow(PlannedConflict, false, Some(1), {}),
                                       2 := PlanRow(PlannedConflict, false, Some(1), {})]

  lemma Unpadded(s: string)
    requires Tidy(s) && |s| > 0 && !Text.Blank(s[0]) && !Text.Blank(s[|s| - 1])
    ensures CleanText(Some(s)) == Some(s)
  {
    TidyStays(s, false);
  }

  lemma PaddingIsTrimmed()
    ensures CleanText(Some("alt ")) == Some("alt")
  {
    var padded := "alt ";
    assert Tidy(padded);
    TidyStays(padded, false);
    assert padded[..3] == "alt";
    assert TrimFront(padded) == padded && TrimBack(padded) == TrimBack(padded[..3]) == "alt";
  }

  /** What of a world matters to these two rows. */
  ghost predicate Trims(w: World) {
    && w.normalize(COMMENT, Value.Text("alt ")) == Some(Value.Text("alt"))
    && w.normalize(COMMENT, Value.Text("neu")) == Some(Value.Text("neu"))
    && !w.sameCell(COMMENT, Value.Text("alt"), Value.Text("alt ")) && !w.sameCell(COMMENT, Value.Text("alt"), Value.Text("neu"))
  }

  lemma TrimmingNormalizes(k: Key, dirty: string, clean: string)
    requires CleanText(Some(dirty)) == Some(clean)
    ensures Trimming().normalize(k, Value.Text(dirty)) == Some(Value.Text(clean))
  {
  }

  lemma TrimmingTrims()
    ensures Trims(Trimming())
  {
    PaddingIsTrimmed();
    Unpadded("neu");
    TrimmingNormalizes(COMMENT, "alt ", "alt");
    TrimmingNormalizes(COMMENT, "neu", "neu");
  }

  /** A record of the stored phase, or of none, changes the comment and nothing else. */
  lemma PlannedComment(w: World, rec: RegisterRecord, comment: string)
    requires comment != "alt" && !w.sameCell(COMMENT, Value.Text("alt"), Value.Text(comment))
    requires rec.cells == map[SITE := Value.Text("Mainz"), COMMENT := Value.Text(comment)] ||
             rec.cells == map[SITE := Value.Text("Mainz"), STAND := Value.Text("EP"), COMMENT := Value.Text(comment)]
    ensures PlannedChanges(w, map[1 := STORED], 1, rec) == map[COMMENT := Change(Value.Text("alt"), Value.Text(comment))]
  {
    assert Get(STORED.cells, SITE) == Value.Text("Mainz") && Get(STORED.cells, STAND) == Value.Text("EP");
    assert Get(STORED.cells, COMMENT) == Value.Text("alt");
  }

  /** A row that would change the comment is an update of the project; it is hollow when it is the stored one, normalised. */
  lemma CommentUpdates(w: World, db: Tables, row: ApplyRow, comment: string, clean: string)
    requires 1 in db.projects && db.projects[1] == STORED
    requires row.action.Update? && row.target == Some(Target(1, 3)) && row.overwrite && row.record.ref in PLAN
    requires PLAN[row.record.ref] == PlanRow(PlannedConflict, false, Some(1), {})
    requires PlannedChanges(w, map[1 := STORED], 1, row.record) ==
             map[COMMENT := Change(Value.Text("alt"), Value.Text(comment))]
    requires w.normalize(COMMENT, Value.Text(comment)) == Some(Value.Text(clean))
    ensures ReportsOn(w, db, OPERATOR, row, PLAN, map[1 := STORED], 1)
    ensures NormalizedCells(w, Patch(PlannedChanges(w, map[1 := STORED], 1, row.record))) ==
            map[COMMENT := Value.Text(clean)]
    ensures clean == "alt" ==> HollowOn(w, db, row, map[1 := STORED], 1)
  {
    var changes := PlannedChanges(w, map[1 := STORED], 1, row.record);
    assert COMMENT in changes && Patch(changes) == map[COMMENT := Value.Text(comment)];
    assert !Outdated(db.projects[1], row.target.value, map[1 := STORED]);
    assert Targetable(row, PLAN[row.record.ref], 1);
  }

  lemma CommentIsWritten(db: Tables, comment: string)
    requires 1 in db.projects && db.projects[1] == STORED && comment != "alt"
    ensures var after := UpdateWithin(db, OPERATOR, 1, map[COMMENT := Value.Text(comment)]);
            && 1 in after.projects && after.projects[1].version == 4
            && Get(after.projects[1].cells, COMMENT) == Value.Text(comment)
  {
    var set_ := map[COMMENT := Value.Text(comment)];
    assert Get(STORED.cells, COMMENT) == Value.Text("alt");
    assert COMMENT in Diff(STORED.cells, set_);
  }

  /** Two rows after each other. */
  lemma TwoRows(step: Decision, db: Tables, a: ApplyRow, b: ApplyRow)
    requires step(db, a).Success? && step(step(db, a).value.0, b).Success?
    ensures var second := step(step(db, a).value.0, b).value;
            Rows(step, db, [a, b]) == Success((second.0, [step(db, a).value.1, second.1]))
  {
    var rows := [a, b];
    var (mid, first) := step(db, a).value;
    assert rows[..0] == [] && Rows(step, db, rows[..0]) == Success((db, []));
    RowsNext(step, db, rows, 0);
    assert Rows(step, db, rows[..1]) == Success((mid, [] + [first])) && [] + [first] == [first];
    RowsNext(step, db, rows, 1);
    assert rows[..2] == rows && [first] + [step(mid, b).value.1] == [first, step(mid, b).value.1];
  }

  lemma StepperSteps(w: World, db: Tables, p: Principal, row: ApplyRow, plan: map<int, PlanRow>, seen: map<int, ProjectRow>)
    ensures Stepper(w, p, plan, seen)(db, row) == RowStep(w, db, p, row, plan, seen)
  {
  }

  lemma RememberedProjects(db: Tables, rec: RegisterRecord, id: int)
    ensures Remember(db, rec, id).projects == db.projects
  {
  }

  /** One row that is an update of a project. */
  lemma RowReports(w: World, db: Tables, p: Principal, row: ApplyRow, plan: map<int, PlanRow>, seen: map<int, ProjectRow>,
                   id: int, set_: Cells) returns (after: Tables)
    requires ReportsOn(w, db, p, row, plan, seen, id)
    requires set_ == NormalizedCells(w, Patch(PlannedChanges(w, seen, id, row.record)))
    ensures RowStep(w, db, p, row, plan, seen) == Success((after, ApplyOutcome(row.record.ref, Updated, Some(id))))
    ensures after == Remember(UpdateWithin(db, p, id, set_), row.record, id)
  {
    ReportsGives(w, db, p, row, plan, seen, id);
    after := Remember(UpdateWithin(db, p, id, set_), row.record, id);
  }

  lemma FirstReport(w: World, db: Tables) returns (after: Tables)
    requires Trims(w) && 1 in db.projects && db.projects[1] == STORED
    ensures Stepper(w, OPERATOR, PLAN, map[1 := STORED])(db, PADDED) == Success((after, ApplyOutcome(1, Updated, Some(1))))
    ensures 1 in after.projects && after.projects[1] == STORED
  {
    assert |"alt"| != |"alt "|;
    PlannedComment(w, PADDED.record, "alt ");
    CommentUpdates(w, db, PADDED, "alt ", "alt");
    after := RowReports(w, db, OPERATOR, PADDED, PLAN, map[1 := STORED], 1, map[COMMENT := Value.Text("alt")]);
    StepperSteps(w, db, OPERATOR, PADDED, PLAN, map[1 := STORED]);
    AfterUpdate(w, db, OPERATOR, PADDED, map[1 := STORED], 1);
  }

  lemma SecondReport(w: World, db: Tables) returns (after: Tables)
    requires Trims(w) && 1 in db.projects && db.projects[1] == STORED
    ensures Stepper(w, OPERATOR, PLAN, map[1 := STORED])(db, RENEWED) == Success((after, ApplyOutcome(2, Updated, Some(1))))
    ensures 1 in after.projects && after.projects[1].version == 4
    ensures Get(after.projects[1].cells, COMMENT) == Value.Text("neu")
  {
    assert "alt"[0] != "neu"[0];
    PlannedComment(w, RENEWED.record, "neu");
    CommentUpdates(w, db, RENEWED, "neu", "neu");
    after := RowReports(w, db, OPERATOR, RENEWED, PLAN, map[1 := STORED], 1, map[COMMENT := Value.Text("neu")]);
    StepperSteps(w, db, OPERATOR, RENEWED, PLAN, map[1 := STORED]);
    RememberedProjects(UpdateWithin(db, OPERATOR, 1, map[COMMENT := Value.Text("neu")]), RENEWED.record, 1);
    CommentIsWritten(db, "neu");
  }

  /** Two rows, two different registrations that found their way to one project, two reports; only the second one wrote. */
  lemma TwoReportsOneWrite(db: Tables)
    requires 1 in db.projects && db.projects[1] == STORED
    ensures var r := ApplyWithin(Trimming(), db, OPERATOR, [PADDED, RENEWED], PLAN, map[1 := STORED]);
            && r.Success?
            && r.value.1 == [ApplyOutcome(1, Updated, Some(1)), ApplyOutcome(2, Updated, Some(1))]
            && 1 in r.value.0.projects && r.value.0.projects[1].version == 4
            && Get(r.value.0.projects[1].cells, COMMENT) == Value.Text("neu")
  {
    TrimmingTrims();
    var mid := FirstReport(Trimming(), db);
    var after := SecondReport(Trimming(), mid);
    TwoRows(Stepper(Trimming(), OPERATOR, PLAN, map[1 := STORED]), db, PADDED, RENEWED);
  }
}
