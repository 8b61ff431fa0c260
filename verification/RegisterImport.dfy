/** The bulk import of the Übersichtsliste (server/domain/registerImportService.ts): one chunk of rows in one transaction. */
module RegisterImport {
  import opened Wrappers
  import opened Store
  import opened Contracts
  import opened Permissions
  import opened Booking
  import opened Projects

  // ---- what a record would change (shared/register/register-plan.ts) ---------------------------------------------------

  /** Does an incoming cell differ from the stored one? Blank incoming cells never do. */
  predicate Differs(w: World, k: Key, from: Value, incoming: Value) {
    incoming != Null && (from == Null || (from != incoming && !w.sameCell(k, from, incoming)))
  }

  function RecordChanges(w: World, cells: Cells, rec: RegisterRecord): Changes {
    map k | k in rec.cells && Differs(w, k, Get(cells, k), rec.cells[k]) :: Change(Get(cells, k), rec.cells[k])
  }

  /** An empty cell may be filled; anything else would be overwritten. */
  predicate Blank(k: Key, v: Value) {
    v == Null || (k.Field? && v == Value.Text(""))
  }

  function OverwrittenKeys(changes: Changes): set<Key> {
    set k | k in changes && !Blank(k, changes[k].from)
  }

  function Patch(changes: Changes): Cells {
    map k | k in changes :: changes[k].to
  }

  /** The cells of a project created from a record: its columns normalised, its reviews as they came. */
  function CreationCells(w: World, rec: RegisterRecord): Cells {
    map k | k in rec.cells && rec.cells[k] != Null ::
      if k.Field? && w.normalize(k, rec.cells[k]).Some? then w.normalize(k, rec.cells[k]).value else rec.cells[k]
  }

  predicate Creatable(w: World, rec: RegisterRecord) {
    forall k :: k in rec.cells && k.Field? && rec.cells[k] != Null ==> w.normalize(k, rec.cells[k]).Some?
  }

  // ---- one row ---------------------------------------------------------------------------------------------------------

  function Remember(db: Tables, rec: RegisterRecord, projectId: int): Tables {
    var key := MatchKey(rec.identity);
    if key in db.sourceKeys then db else db.(sourceKeys := db.sourceKeys[key := Some(projectId)])
  }

  function ImportAudit(field: string, value: int): AuditBatch {
    AuditBatch(OfImport, map[Field(field) := Change(Null, Number(value))], None, None, None)
  }

  function SkipRow(db: Tables, rec: RegisterRecord): Tables {
    var key := SkipKey(rec.content);
    if key in db.sourceKeys then db
    else db.(sourceKeys := db.sourceKeys[key := None], audit := db.audit + [ImportAudit("import.skip", rec.ref)])
  }

  function UnskipRow(db: Tables, rec: RegisterRecord): Tables {
    var key := SkipKey(rec.content);
    if key !in db.sourceKeys then db
    else db.(sourceKeys := db.sourceKeys - {key}, audit := db.audit + [ImportAudit("import.unskip", rec.ref)])
  }

  predicate NewRegistrationAllowed(row: ApplyRow, planned: PlanRow) {
    row.confirmed && (planned.status.Ambiguous? || (planned.status.PlannedConflict? && planned.byCore))
  }

  function ProjectFromRecord(w: World, db: Tables, p: Principal, rec: RegisterRecord): Result<Tables, Error> {
    if !Creatable(w, rec) then Failure(Invalid) else CreateWithin(w, db, p, CreationCells(w, rec))
  }

  function CreateRow(w: World, db: Tables, p: Principal, row: ApplyRow, planned: PlanRow)
    : Result<(Tables, ApplyOutcome), Error>
  {
    var rec, key := row.record, MatchKey(row.record.identity);
    var exists_ := ApplyOutcome(rec.ref, Exists, None);
    if planned.status.Add? then
      if key in db.sourceKeys then Success((db, exists_))
      else
        match ProjectFromRecord(w, db.(sourceKeys := db.sourceKeys[key := None]), p, rec)
        case Failure(e) => Failure(e)
        case Success(created) =>
          Success((created.(sourceKeys := created.sourceKeys[key := Some(db.nextProject)]),
                   ApplyOutcome(rec.ref, Created, Some(db.nextProject))))
    else if !NewRegistrationAllowed(row, planned) then Success((db, exists_))
    else
      match ProjectFromRecord(w, db, p, rec)
      case Failure(e) => Failure(e)
      case Success(created) =>
        Success((Remember(created, rec, db.nextProject), ApplyOutcome(rec.ref, Created, Some(db.nextProject))))
  }

  /** May this target receive this row? */
  predicate Targetable(row: ApplyRow, planned: PlanRow, id: int) {
    planned.matched == Some(id) || (row.confirmed && id in planned.candidates)
  }

  predicate Outdated(cur: ProjectRow, target: Target, seen: map<int, ProjectRow>) {
    cur.version != target.expectedVersion ||
    (target.projectId in seen && seen[target.projectId].version != cur.version)
  }

  function PlannedChanges(w: World, seen: map<int, ProjectRow>, id: int, rec: RegisterRecord): Changes {
    if id in seen then RecordChanges(w, seen[id].cells, rec) else map[]
  }

  function UpdateRow(w: World, db: Tables, p: Principal, row: ApplyRow, planned: PlanRow, seen: map<int, ProjectRow>)
    : Result<(Tables, ApplyOutcome), Error>
    requires row.target.Some?
  {
    var rec, target := row.record, row.target.value;
    var id := target.projectId;
    var told := (kind: OutcomeKind) => ApplyOutcome(rec.ref, kind, Some(id));
    if !Targetable(row, planned, id) || id !in db.projects then Success((db, told(Refused)))
    else if Outdated(db.projects[id], target, seen) then Success((db, told(Stale)))
    else if !CanEdit(w.fold, p, WorkspaceOf(db.projects[id].cells)) then Failure(Forbidden)
    else
      var changes := PlannedChanges(w, seen, id, rec);
      if OverwrittenKeys(changes) != {} && !row.overwrite then Success((db, told(Held)))
      else if changes == map[] then Success((Remember(db, rec, id), told(Unchanged)))
      else if !Normalizable(w, Patch(changes)) then Failure(Invalid)
      else Success((Remember(UpdateWithin(db, p, id, NormalizedCells(w, Patch(changes))), rec, id), told(Updated)))
  }

  function RowStep(w: World, db: Tables, p: Principal, row: ApplyRow, plan: map<int, PlanRow>, seen: map<int, ProjectRow>)
    : Result<(Tables, ApplyOutcome), Error>
  {
    var rec := row.record;
    if row.action.Skip? then Success((SkipRow(db, rec), ApplyOutcome(rec.ref, WasSkipped, None)))
    else if row.action.Unskip? then Success((UnskipRow(db, rec), ApplyOutcome(rec.ref, Unskipped, None)))
    else if rec.ref !in plan then Failure(Internal)
    else if plan[rec.ref].status.Skipped? then Success((db, ApplyOutcome(rec.ref, Held, None)))
    else if row.action.Create? then CreateRow(w, db, p, row, plan[rec.ref])
    else if row.target.None? then Failure(Internal)
    else UpdateRow(w, db, p, row, plan[rec.ref], seen)
  }

  // ---- all rows --------------------------------------------------------------------------------------------------------

  type Decision = (Tables, ApplyRow) -> Result<(Tables, ApplyOutcome), Error>

  function Stepper(w: World, p: Principal, plan: map<int, PlanRow>, seen: map<int, ProjectRow>): Decision {
    (db: Tables, row: ApplyRow) => RowStep(w, db, p, row, plan, seen)
  }

  /** The rows of a request, one after the other; a row that throws ends the import. */
  function Rows(step: Decision, db: Tables, rows: seq<ApplyRow>): Result<(Tables, seq<ApplyOutcome>), Error> {
    if |rows| == 0 then Success((db, []))
    else
      match Rows(step, db, rows[..|rows| - 1])
      case Failure(e) => Failure(e)
      case Success((before, outcomes)) =>
        match step(before, rows[|rows| - 1])
        case Failure(e) => Failure(e)
        case Success((after, outcome)) => Success((after, outcomes + [outcome]))
  }

  const KINDS: set<OutcomeKind> := {Created, Updated, Unchanged, Held, Stale, Exists, WasSkipped, Unskipped, Refused}

  function CountOf(outcomes: seq<ApplyOutcome>, kind: OutcomeKind): nat {
    if |outcomes| == 0 then 0
    else CountOf(outcomes[..|outcomes| - 1], kind) + if outcomes[|outcomes| - 1].kind == kind then 1 else 0
  }

  function CountsOf(outcomes: seq<ApplyOutcome>): map<OutcomeKind, nat> {
    map kind | kind in KINDS :: CountOf(outcomes, kind)
  }

  function ApplyWithin(w: World, db: Tables, p: Principal, rows: seq<ApplyRow>, plan: map<int, PlanRow>,
                       seen: map<int, ProjectRow>): Result<(Tables, seq<ApplyOutcome>), Error>
  {
    match Rows(Stepper(w, p, plan, seen), db, rows)
    case Failure(e) => Failure(e)
    case Success((after, outcomes)) =>
      Success((after.(audit := after.audit + [ImportAudit("import", |outcomes|)]), outcomes))
  }

  // ---- statement by statement ------------------------------------------------------------------------------------------

  method RememberKey(db: TxDatabase, rec: RegisterRecord, projectId: int)
    modifies db
    ensures db.state == Remember(old(db.state), rec, projectId)
  {
    var inserted := db.RecordSourceKey(MatchKey(rec.identity), Some(projectId));
  }

  method DecideSkip(db: TxDatabase, row: ApplyRow) returns (o: ApplyOutcome)
    requires row.action.Skip? || row.action.Unskip?
    modifies db
    ensures db.state == if row.action.Skip? then SkipRow(old(db.state), row.record) else UnskipRow(old(db.state), row.record)
    ensures o == ApplyOutcome(row.record.ref, if row.action.Skip? then WasSkipped else Unskipped, None)
  {
    var key := SkipKey(row.record.content);
    var changed: bool;
    if row.action.Skip? { changed := db.RecordSourceKey(key, None); } else { changed := db.DeleteSkipKey(key); }
    assert key !in old(db.state).sourceKeys ==> old(db.state).sourceKeys - {key} == old(db.state).sourceKeys;
    if changed {
      db.AppendAudit(ImportAudit(if row.action.Skip? then "import.skip" else "import.unskip", row.record.ref));
    }
    o := ApplyOutcome(row.record.ref, if row.action.Skip? then WasSkipped else Unskipped, None);
  }

  method InsertFromRecord(w: World, db: TxDatabase, p: Principal, rec: RegisterRecord) returns (r: Result<int, Error>)
    modifies db
    ensures var spec := ProjectFromRecord(w, old(db.state), p, rec);
            && (spec.Success? ==> db.state == spec.value && r == Success(old(db.state).nextProject))
            && (spec.Failure? ==> r == Failure(spec.error))
  {
    if !Creatable(w, rec) { return Failure(Invalid); }
    r := CreateInTransaction(w, db, p, CreationCells(w, rec));
  }

  method DecideCreate(w: World, db: TxDatabase, p: Principal, row: ApplyRow, planned: PlanRow)
    returns (r: Result<ApplyOutcome, Error>)
    modifies db
    ensures var spec := CreateRow(w, old(db.state), p, row, planned);
            && (spec.Success? ==> db.state == spec.value.0 && r == Success(spec.value.1))
            && (spec.Failure? ==> r == Failure(spec.error))
  {
    var rec, key := row.record, MatchKey(row.record.identity);
    if !planned.status.Add? && !NewRegistrationAllowed(row, planned) {
      return Success(ApplyOutcome(rec.ref, Exists, None));
    }
    if planned.status.Add? {
      var claimed := db.RecordSourceKey(key, None);
      if !claimed { return Success(ApplyOutcome(rec.ref, Exists, None)); }
    }
    var created := InsertFromRecord(w, db, p, rec);
    if created.Failure? { return Failure(created.error); }
    if planned.status.Add? { db.AssignSourceKey(key, created.value); } else { RememberKey(db, rec, created.value); }
    return Success(ApplyOutcome(rec.ref, Created, Some(created.value)));
  }

  method DecideUpdate(w: World, db: TxDatabase, p: Principal, row: ApplyRow, planned: PlanRow, seen: map<int, ProjectRow>)
    returns (r: Result<ApplyOutcome, Error>)
    requires row.target.Some?
    modifies db
    ensures var spec := UpdateRow(w, old(db.state), p, row, planned, seen);
            && (spec.Success? ==> db.state == spec.value.0 && r == Success(spec.value.1))
            && (spec.Failure? ==> r == Failure(spec.error))
  {
    var rec, target := row.record, row.target.value;
    var id := target.projectId;
    if !Targetable(row, planned, id) { return Success(ApplyOutcome(rec.ref, Refused, Some(id))); }
    var current := db.LockProject(id);
    if current.None? { return Success(ApplyOutcome(rec.ref, Refused, Some(id))); }
    if Outdated(current.value, target, seen) { return Success(ApplyOutcome(rec.ref, Stale, Some(id))); }
    if !CanEdit(w.fold, p, WorkspaceOf(current.value.cells)) { return Failure(Forbidden); }
    var changes := PlannedChanges(w, seen, id, rec);
    if OverwrittenKeys(changes) != {} && !row.overwrite { return Success(ApplyOutcome(rec.ref, Held, Some(id))); }
    if changes == map[] {
      RememberKey(db, rec, id);
      return Success(ApplyOutcome(rec.ref, Unchanged, Some(id)));
    }
    if !Normalizable(w, Patch(changes)) { return Failure(Invalid); }
    UpdateInTransaction(db, p, id, NormalizedCells(w, Patch(changes)));
    RememberKey(db, rec, id);
    return Success(ApplyOutcome(rec.ref, Updated, Some(id)));
  }

  method DecideRow(w: World, db: TxDatabase, p: Principal, row: ApplyRow, plan: map<int, PlanRow>,
                   seen: map<int, ProjectRow>) returns (r: Result<ApplyOutcome, Error>)
    modifies db
    ensures var spec := RowStep(w, old(db.state), p, row, plan, seen);
            && (spec.Success? ==> db.state == spec.value.0 && r == Success(spec.value.1))
            && (spec.Failure? ==> r == Failure(spec.error))
  {
    var rec := row.record;
    if row.action.Skip? || row.action.Unskip? {
      var o := DecideSkip(db, row);
      return Success(o);
    }
    if rec.ref !in plan { return Failure(Internal); }
    if plan[rec.ref].status.Skipped? { return Success(ApplyOutcome(rec.ref, Held, None)); }
    if row.action.Create? {
      r := DecideCreate(w, db, p, row, plan[rec.ref]);
      return;
    }
    if row.target.None? { return Failure(Internal); }
    r := DecideUpdate(w, db, p, row, plan[rec.ref], seen);
  }

  /** The rows one after the other: every outcome is pushed and counted. */
  method ApplyInTransaction(w: World, db: TxDatabase, p: Principal, rows: seq<ApplyRow>, plan: map<int, PlanRow>,
                            seen: map<int, ProjectRow>)
    returns (r: Result<(seq<ApplyOutcome>, map<OutcomeKind, nat>), Error>)
    modifies db
    ensures var spec := ApplyWithin(w, old(db.state), p, rows, plan, seen);
            && (spec.Success? ==> db.state == spec.value.0 && r == Success((spec.value.1, CountsOf(spec.value.1))))
            && (spec.Failure? ==> r == Failure(spec.error))
  {
    var outcomes, counts, failed := DecideRows(w, db, p, rows, plan, seen);
    if failed.Some? { return Failure(failed.value); }
    db.AppendAudit(ImportAudit("import", |outcomes|));
    return Success((outcomes, counts));
  }

  /** A row's decision, as the fold over all rows sees it. */
  method DecideStep(w: World, db: TxDatabase, p: Principal, row: ApplyRow, plan: map<int, PlanRow>,
                    seen: map<int, ProjectRow>) returns (r: Result<ApplyOutcome, Error>)
    modifies db
    ensures var spec := Stepper(w, p, plan, seen)(old(db.state), row);
            && (spec.Success? ==> db.state == spec.value.0 && r == Success(spec.value.1))
            && (spec.Failure? ==> r == Failure(spec.error))
  {
    r := DecideRow(w, db, p, row, plan, seen);
  }

  /** `done`: the outcome is pushed and counted. */
  method Done(outcomes: seq<ApplyOutcome>, counts: map<OutcomeKind, nat>, o: ApplyOutcome)
    returns (outcomes': seq<ApplyOutcome>, counts': map<OutcomeKind, nat>)
    requires counts == CountsOf(outcomes)
    ensures outcomes' == outcomes + [o] && counts' == CountsOf(outcomes')
  {
    CountOne(outcomes, o);
    return outcomes + [o], counts[o.kind := counts[o.kind] + 1];
  }

  /** The loop over the rows, with its early end. */
  method DecideRows(w: World, db: TxDatabase, p: Principal, rows: seq<ApplyRow>, plan: map<int, PlanRow>,
                    seen: map<int, ProjectRow>)
    returns (outcomes: seq<ApplyOutcome>, counts: map<OutcomeKind, nat>, failed: Option<Error>)
    modifies db
    ensures var spec := Rows(Stepper(w, p, plan, seen), old(db.state), rows);
            && (spec.Success? ==> db.state == spec.value.0 && outcomes == spec.value.1 && failed == None)
            && (spec.Failure? ==> failed == Some(spec.error))
    ensures failed.None? ==> counts == CountsOf(outcomes)
  {
    ghost var step := Stepper(w, p, plan, seen);
    outcomes, failed := [], None;
    counts := map kind | kind in KINDS :: 0 as nat;
    for n := 0 to |rows|
      invariant Rows(step, old(db.state), rows[..n]) == Success((db.state, outcomes))
      invariant counts == CountsOf(outcomes) && failed == None
    {
      RowsNext(step, old(db.state), rows, n);
      var decided := DecideStep(w, db, p, rows[n], plan, seen);
      if decided.Failure? {
        FailedPrefix(step, old(db.state), rows, n + 1);
        failed := Some(decided.error);
        return;
      }
      outcomes, counts := Done(outcomes, counts, decided.value);
    }
    assert rows[..|rows|] == rows;
  }

  lemma RowsNext(step: Decision, db: Tables, rows: seq<ApplyRow>, n: nat)
    requires n < |rows| && Rows(step, db, rows[..n]).Success?
    ensures var (before, outcomes) := Rows(step, db, rows[..n]).value;
            Rows(step, db, rows[..n + 1]) ==
            if step(before, rows[n]).Failure? then Failure(step(before, rows[n]).error)
            else Success((step(before, rows[n]).value.0, outcomes + [step(before, rows[n]).value.1]))
  {
    assert rows[..n + 1][..n] == rows[..n];
  }

  /** A row that throws ends the whole import, whatever comes after it. */
  lemma {:induction false} FailedPrefix(step: Decision, db: Tables, rows: seq<ApplyRow>, n: nat)
    requires n <= |rows| && Rows(step, db, rows[..n]).Failure?
    ensures Rows(step, db, rows) == Rows(step, db, rows[..n])
  {
    if n == |rows| {
      assert rows[..n] == rows;
    } else {
      var shorter := rows[..|rows| - 1];
      assert shorter[..n] == rows[..n];
      FailedPrefix(step, db, shorter, n);
    }
  }

  lemma CountOne(outcomes: seq<ApplyOutcome>, o: ApplyOutcome)
    ensures o.kind in KINDS
    ensures CountsOf(outcomes + [o]) == CountsOf(outcomes)[o.kind := CountsOf(outcomes)[o.kind] + 1]
  {
    assert (outcomes + [o])[..|outcomes|] == outcomes;
    match o.kind
    case Created => case Updated => case Unchanged => case Held => case Stale =>
    case Exists => case WasSkipped => case Unskipped => case Refused =>
  }

  // ---- what one import promises ----------------------------------------------------------------------------------------

  /** Every row has exactly one outcome, in order. */
  lemma {:induction false} OneOutcomePerRow(w: World, db: Tables, p: Principal, rows: seq<ApplyRow>,
                                            plan: map<int, PlanRow>, seen: map<int, ProjectRow>)
    requires ApplyWithin(w, db, p, rows, plan, seen).Success?
    ensures var outcomes := ApplyWithin(w, db, p, rows, plan, seen).value.1;
            && |outcomes| == |rows|
            && forall i | 0 <= i < |rows| :: outcomes[i].ref == rows[i].record.ref
  {
    StepperNames(w, p, plan, seen);
    OutcomesInOrder(Stepper(w, p, plan, seen), db, rows);
  }

  /** Every decision is about its own row. */
  ghost predicate NamesItsRow(step: Decision) {
    forall db, row :: step(db, row).Success? ==> step(db, row).value.1.ref == row.record.ref
  }

  lemma StepperNames(w: World, p: Principal, plan: map<int, PlanRow>, seen: map<int, ProjectRow>)
    ensures NamesItsRow(Stepper(w, p, plan, seen))
  {
  }

  lemma OutcomesInOrder(step: Decision, db: Tables, rows: seq<ApplyRow>)
    requires NamesItsRow(step) && Rows(step, db, rows).Success?
    ensures var outcomes := Rows(step, db, rows).value.1;
            |outcomes| == |rows| && forall i | 0 <= i < |rows| :: outcomes[i].ref == rows[i].record.ref
  {
    RowCount(step, db, rows);
    forall i | 0 <= i < |rows| ensures Rows(step, db, rows).value.1[i].ref == rows[i].record.ref {
      RowAt(step, db, rows, i);
    }
  }

  lemma {:induction false} RowCount(step: Decision, db: Tables, rows: seq<ApplyRow>)
    requires Rows(step, db, rows).Success?
    ensures |Rows(step, db, rows).value.1| == |rows|
  {
    if |rows| > 0 { RowCount(step, db, rows[..|rows| - 1]); }
  }

  /** The state before row i of an import that went through. */
  function Before(step: Decision, db: Tables, rows: seq<ApplyRow>, i: nat): (r: Tables)
    requires i <= |rows| && Rows(step, db, rows).Success?
    ensures Rows(step, db, rows[..i]).Success? && r == Rows(step, db, rows[..i]).value.0
  {
    if Rows(step, db, rows[..i]).Failure? then
      FailedPrefix(step, db, rows, i);
      db
    else Rows(step, db, rows[..i]).value.0
  }

  /** Row i runs on the state before it and decides outcome i. */
  lemma {:induction false} RowAt(step: Decision, db: Tables, rows: seq<ApplyRow>, i: nat)
    requires i < |rows| && Rows(step, db, rows).Success?
    ensures |Rows(step, db, rows).value.1| == |rows|
    ensures step(Before(step, db, rows, i), rows[i]) ==
            Success((Before(step, db, rows, i + 1), Rows(step, db, rows).value.1[i]))
  {
    RowCount(step, db, rows);
    var last := |rows| - 1;
    if i == last {
      assert rows[..i + 1] == rows;
    } else {
      RowAt(step, db, rows[..last], i);
      RowCount(step, db, rows[..last]);
      assert rows[..last][..i] == rows[..i] && rows[..last][..i + 1] == rows[..i + 1];
    }
  }

  function Total(counts: map<OutcomeKind, nat>): nat
    requires counts.Keys == KINDS
  {
    counts[Created] + counts[Updated] + counts[Unchanged] + counts[Held] + counts[Stale] + counts[Exists] +
    counts[WasSkipped] + counts[Unskipped] + counts[Refused]
  }

  /** The counts of an import add up to its rows. */
  lemma {:induction false} CountsSumToRows(outcomes: seq<ApplyOutcome>)
    ensures Total(CountsOf(outcomes)) == |outcomes|
    decreases |outcomes|
  {
    if |outcomes| > 0 {
      var rest, o := outcomes[..|outcomes| - 1], outcomes[|outcomes| - 1];
      CountsSumToRows(rest);
      assert rest + [o] == outcomes;
      CountOne(rest, o);
    }
  }

  ghost predicate FreshIds(db: Tables) {
    forall id :: id in db.projects ==> id < db.nextProject
  }

  /** This row moved this project one version on: it wrote its own cells, and replaced a value only where it was allowed to. */
  ghost predicate TouchedBy(w: World, before: ProjectRow, after: ProjectRow, row: ApplyRow, seen: map<int, ProjectRow>,
                            id: int)
  {
    && row.action.Update? && row.target.Some? && row.target.value == Target(id, before.version)
    && id in seen && seen[id].version == before.version && after.version == before.version + 1
    && forall k :: Get(after.cells, k) == Get(before.cells, k) ||
                   (WrittenBy(w, after, row, k) && (row.overwrite || Blank(k, Get(seen[id].cells, k))))
  }

  /** This cell holds what the row's record says, normalised. */
  predicate WrittenBy(w: World, after: ProjectRow, row: ApplyRow, k: Key) {
    k in row.record.cells && w.normalize(k, row.record.cells[k]) == Some(Get(after.cells, k))
  }

  /** No step takes an identity away from the project that has it. */
  ghost predicate KeysKept(before: map<SourceKey, Option<int>>, after: map<SourceKey, Option<int>>) {
    forall key: SourceKey :: key.MatchKey? && key in before ==> key in after && after[key] == before[key]
  }

  /** What a row may do to the projects there are and to the keys they own. */
  ghost predicate RowEffect(w: World, db: Tables, after: Tables, row: ApplyRow, seen: map<int, ProjectRow>) {
    && FreshIds(after) && KeysKept(db.sourceKeys, after.sourceKeys)
    && forall id :: id in db.projects ==>
         id in after.projects && (after.projects[id] == db.projects[id] ||
                                  TouchedBy(w, db.projects[id], after.projects[id], row, seen, id))
  }

  /** A step that leaves every project there is alone. */
  ghost predicate Quiet(db: Tables, after: Tables) {
    && KeysKept(db.sourceKeys, after.sourceKeys)
    && db.nextProject <= after.nextProject
    && (forall id :: id in db.projects ==> id in after.projects && after.projects[id] == db.projects[id])
    && (forall id :: id in after.projects ==> id in db.projects || id < after.nextProject)
  }

  lemma QuietEffect(w: World, db: Tables, after: Tables, row: ApplyRow, seen: map<int, ProjectRow>)
    requires FreshIds(db) && Quiet(db, after)
    ensures RowEffect(w, db, after, row, seen)
  {
  }

  lemma RememberIsQuiet(db: Tables, rec: RegisterRecord, id: int)
    ensures Quiet(db, Remember(db, rec, id))
  {
  }

  lemma CreationIsQuiet(w: World, db: Tables, p: Principal, rec: RegisterRecord)
    requires FreshIds(db) && ProjectFromRecord(w, db, p, rec).Success?
    ensures var after := ProjectFromRecord(w, db, p, rec).value;
            Quiet(db, after) && after.sourceKeys == db.sourceKeys
  {
  }

  lemma CreateEffect(w: World, db: Tables, p: Principal, row: ApplyRow, planned: PlanRow, seen: map<int, ProjectRow>)
    requires FreshIds(db) && CreateRow(w, db, p, row, planned).Success?
    ensures RowEffect(w, db, CreateRow(w, db, p, row, planned).value.0, row, seen)
  {
    var (after, outcome) := CreateRow(w, db, p, row, planned).value;
    var rec, key := row.record, MatchKey(row.record.identity);
    if outcome.kind == Created {
      if planned.status.Add? {
        CreationIsQuiet(w, db.(sourceKeys := db.sourceKeys[key := None]), p, rec);
      } else {
        CreationIsQuiet(w, db, p, rec);
        RememberIsQuiet(ProjectFromRecord(w, db, p, rec).value, rec, db.nextProject);
      }
    }
    QuietEffect(w, db, after, row, seen);
  }

  /** Only cells the record changes are written. */
  lemma PatchedCell(w: World, cells: Cells, changes: Changes, k: Key)
    ensures k !in changes ==> Get(cells + NormalizedCells(w, Patch(changes)), k) == Get(cells, k)
  {
  }

  lemma UpdateTouches(w: World, db: Tables, p: Principal, row: ApplyRow, seen: map<int, ProjectRow>)
    requires row.action.Update? && row.target.Some? && row.target.value.projectId in db.projects
    requires !Outdated(db.projects[row.target.value.projectId], row.target.value, seen)
    requires var changes := PlannedChanges(w, seen, row.target.value.projectId, row.record);
             changes != map[] && (OverwrittenKeys(changes) == {} || row.overwrite)
    ensures var id := row.target.value.projectId;
            var set_ := NormalizedCells(w, Patch(PlannedChanges(w, seen, id, row.record)));
            var after := UpdateWithin(db, p, id, set_).projects[id];
            after == db.projects[id] || TouchedBy(w, db.projects[id], after, row, seen, id)
  {
    var id := row.target.value.projectId;
    var changes := PlannedChanges(w, seen, id, row.record);
    var cells := db.projects[id].cells;
    var after := ProjectRow(cells + NormalizedCells(w, Patch(changes)), db.projects[id].version + 1);
    forall k ensures Get(after.cells, k) == Get(cells, k) ||
                     (WrittenBy(w, after, row, k) && (row.overwrite || Blank(k, Get(seen[id].cells, k)))) {
      PatchedCell(w, cells, changes, k);
      assert k in changes && !Blank(k, changes[k].from) ==> k in OverwrittenKeys(changes);
      assert k in changes ==> k in row.record.cells && Patch(changes)[k] == row.record.cells[k];
    }
  }

  lemma UpdateEffect(w: World, db: Tables, p: Principal, row: ApplyRow, planned: PlanRow, seen: map<int, ProjectRow>)
    requires FreshIds(db) && row.action.Update? && row.target.Some? && UpdateRow(w, db, p, row, planned, seen).Success?
    ensures RowEffect(w, db, UpdateRow(w, db, p, row, planned, seen).value.0, row, seen)
  {
    var (after, outcome) := UpdateRow(w, db, p, row, planned, seen).value;
    var id := row.target.value.projectId;
    if outcome.kind == Updated {
      UpdateTouches(w, db, p, row, seen);
      var set_ := NormalizedCells(w, Patch(PlannedChanges(w, seen, id, row.record)));
      UpdatedEffect(w, db, p, row, seen, set_);
    } else {
      RememberIsQuiet(db, row.record, id);
      QuietEffect(w, db, after, row, seen);
    }
  }

  lemma UpdatedEffect(w: World, db: Tables, p: Principal, row: ApplyRow, seen: map<int, ProjectRow>, set_: Cells)
    requires FreshIds(db) && row.target.Some? && row.target.value.projectId in db.projects
    requires var id := row.target.value.projectId;
             var after := UpdateWithin(db, p, id, set_).projects[id];
             after == db.projects[id] || TouchedBy(w, db.projects[id], after, row, seen, id)
    ensures RowEffect(w, db, Remember(UpdateWithin(db, p, row.target.value.projectId, set_), row.record,
                                      row.target.value.projectId), row, seen)
  {
    var id := row.target.value.projectId;
    var updated := UpdateWithin(db, p, id, set_);
    RememberIsQuiet(updated, row.record, id);
  }

  lemma SkipIsQuiet(db: Tables, rec: RegisterRecord)
    ensures KeysKept(db.sourceKeys, SkipRow(db, rec).sourceKeys) && SkipRow(db, rec).projects == db.projects
  {
  }

  lemma UnskipIsQuiet(db: Tables, rec: RegisterRecord)
    ensures KeysKept(db.sourceKeys, UnskipRow(db, rec).sourceKeys) && UnskipRow(db, rec).projects == db.projects
  {
  }

  lemma SkipEffect(w: World, db: Tables, after: Tables, row: ApplyRow, seen: map<int, ProjectRow>)
    requires FreshIds(db) && after in {SkipRow(db, row.record), UnskipRow(db, row.record)}
    ensures RowEffect(w, db, after, row, seen)
  {
    SkipIsQuiet(db, row.record);
    UnskipIsQuiet(db, row.record);
    QuietEffect(w, db, after, row, seen);
  }

  lemma RowTouches(w: World, db: Tables, p: Principal, row: ApplyRow, plan: map<int, PlanRow>, seen: map<int, ProjectRow>)
    requires FreshIds(db) && RowStep(w, db, p, row, plan, seen).Success?
    ensures RowEffect(w, db, RowStep(w, db, p, row, plan, seen).value.0, row, seen)
  {
    if row.action.Skip? || row.action.Unskip? {
      SkipEffect(w, db, RowStep(w, db, p, row, plan, seen).value.0, row, seen);
    } else if !plan[row.record.ref].status.Skipped? {
      if row.action.Create? {
        CreateEffect(w, db, p, row, plan[row.record.ref], seen);
      } else {
        UpdateEffect(w, db, p, row, plan[row.record.ref], seen);
      }
    }
  }

  /** Every row this step takes has the effect of a row. */
  ghost predicate Effective(w: World, step: Decision, seen: map<int, ProjectRow>) {
    forall db, row :: FreshIds(db) && step(db, row).Success? ==> RowEffect(w, db, step(db, row).value.0, row, seen)
  }

  lemma StepperIsEffective(w: World, p: Principal, plan: map<int, PlanRow>, seen: map<int, ProjectRow>)
    ensures Effective(w, Stepper(w, p, plan, seen), seen)
  {
    var step := Stepper(w, p, plan, seen);
    forall db, row | FreshIds(db) && step(db, row).Success? ensures RowEffect(w, db, step(db, row).value.0, row, seen) {
      RowTouches(w, db, p, row, plan, seen);
    }
  }

  /** The states between the rows of an import follow one another by the effect of a row. */
  lemma {:induction false} NextState(w: World, step: Decision, db: Tables, rows: seq<ApplyRow>, seen: map<int, ProjectRow>, i: nat)
    requires i < |rows| && FreshIds(db) && Effective(w, step, seen) && Rows(step, db, rows).Success?
    ensures FreshIds(Before(step, db, rows, i))
    ensures RowEffect(w, Before(step, db, rows, i), Before(step, db, rows, i + 1), rows[i], seen)
    decreases i
  {
    RowAt(step, db, rows, i);
    if i == 0 { assert rows[..0] == []; } else { NextState(w, step, db, rows, seen, i - 1); }
  }

  lemma EffectOnVersion(w: World, db: Tables, after: Tables, row: ApplyRow, seen: map<int, ProjectRow>, id: int)
    requires RowEffect(w, db, after, row, seen) && id in db.projects
    ensures id in after.projects && db.projects[id].version <= after.projects[id].version
    ensures after.projects[id] == db.projects[id] || after.projects[id].version == db.projects[id].version + 1
  {
  }

  /** Is this project as it was, or moved by one of the first rows? */
  ghost predicate MovedOnce(w: World, before: ProjectRow, after: ProjectRow, rows: seq<ApplyRow>,
                            seen: map<int, ProjectRow>, id: int)
  {
    after == before || exists i :: 0 <= i < |rows| && TouchedBy(w, before, after, rows[i], seen, id)
  }

  /** Of the rows of one import at most one moves a project, and by one version. */
  lemma {:induction false} RowsTouch(w: World, step: Decision, db: Tables, rows: seq<ApplyRow>, seen: map<int, ProjectRow>, i: nat,
                                     id: int)
    requires i <= |rows| && FreshIds(db) && Effective(w, step, seen) && Rows(step, db, rows).Success?
    requires id in db.projects
    ensures var after := Before(step, db, rows, i);
            id in after.projects && MovedOnce(w, db.projects[id], after.projects[id], rows, seen, id)
    decreases i
  {
    if i == 0 {
      assert rows[..0] == [];
    } else {
      RowsTouch(w, step, db, rows, seen, i - 1, id);
      NextState(w, step, db, rows, seen, i - 1);
    }
  }

  /**
   * A whole import moves a project by at most one version, and whatever was not empty is replaced only by the one row that
   * moved it, which says `overwrite`. The snapshot may be out of date: all it takes is that one version of a project is one content.
   */
  lemma NothingReplacedUnasked(w: World, db: Tables, p: Principal, rows: seq<ApplyRow>, plan: map<int, PlanRow>,
                               seen: map<int, ProjectRow>, id: int, k: Key)
    requires FreshIds(db) && id in db.projects && ApplyWithin(w, db, p, rows, plan, seen).Success?
    requires id in seen && seen[id].version == db.projects[id].version ==> SameCells(seen[id].cells, db.projects[id].cells)
    ensures var after := ApplyWithin(w, db, p, rows, plan, seen).value.0;
            && id in after.projects
            && db.projects[id].version <= after.projects[id].version <= db.projects[id].version + 1
            && (Get(after.projects[id].cells, k) != Get(db.projects[id].cells, k) ==>
                after.projects[id].version == db.projects[id].version + 1)
            && (Get(after.projects[id].cells, k) != Get(db.projects[id].cells, k) &&
                !Blank(k, Get(db.projects[id].cells, k)) ==>
                exists i :: 0 <= i < |rows| && rows[i].overwrite && WrittenBy(w, after.projects[id], rows[i], k) &&
                            TouchedBy(w, db.projects[id], after.projects[id], rows[i], seen, id))
  {
    StepperIsEffective(w, p, plan, seen);
    RowsTouch(w, Stepper(w, p, plan, seen), db, rows, seen, |rows|, id);
    assert rows[..|rows|] == rows;
  }

  // ---- source keys -----------------------------------------------------------------------------------------------------

  /** A key owned before row i has the same owner before row j. */
  lemma {:induction false} KeyPersists(w: World, step: Decision, db: Tables, rows: seq<ApplyRow>, seen: map<int, ProjectRow>,
                                       i: nat, j: nat)
    requires i <= j <= |rows| && FreshIds(db) && Effective(w, step, seen) && Rows(step, db, rows).Success?
    ensures KeysKept(Before(step, db, rows, i).sourceKeys, Before(step, db, rows, j).sourceKeys)
    decreases j
  {
    if i < j {
      KeyPersists(w, step, db, rows, seen, i, j - 1);
      NextState(w, step, db, rows, seen, j - 1);
    }
  }

  predicate AddsProject(row: ApplyRow, plan: map<int, PlanRow>, o: ApplyOutcome) {
    row.action.Create? && o.kind == Created && row.record.ref in plan && plan[row.record.ref].status.Add?
  }

  /** A row that creates on an `add` plan found its key free and leaves it with an owner. */
  lemma AddClaimsKey(w: World, db: Tables, p: Principal, row: ApplyRow, plan: map<int, PlanRow>, seen: map<int, ProjectRow>)
    requires RowStep(w, db, p, row, plan, seen).Success?
    requires AddsProject(row, plan, RowStep(w, db, p, row, plan, seen).value.1)
    ensures MatchKey(row.record.identity) !in db.sourceKeys
    ensures var (after, outcome) := RowStep(w, db, p, row, plan, seen).value;
            MatchKey(row.record.identity) in after.sourceKeys &&
            after.sourceKeys[MatchKey(row.record.identity)] == outcome.projectId == Some(db.nextProject)
  {
  }

  /** On an `add` plan a registration becomes a project only while nobody owns its key, so at most once in an import. */
  lemma OneProjectPerKey(w: World, db: Tables, p: Principal, rows: seq<ApplyRow>, plan: map<int, PlanRow>,
                         seen: map<int, ProjectRow>, i: nat, j: nat)
    requires i < j < |rows| && FreshIds(db) && Rows(Stepper(w, p, plan, seen), db, rows).Success?
    requires rows[i].record.identity == rows[j].record.identity
    ensures var outcomes := Rows(Stepper(w, p, plan, seen), db, rows).value.1;
            && |outcomes| == |rows|
            && (AddsProject(rows[i], plan, outcomes[i]) ==>
                MatchKey(rows[i].record.identity) !in db.sourceKeys && !AddsProject(rows[j], plan, outcomes[j]))
  {
    var step := Stepper(w, p, plan, seen);
    RowAt(step, db, rows, i);
    RowAt(step, db, rows, j);
    var outcomes := Rows(step, db, rows).value.1;
    if AddsProject(rows[i], plan, outcomes[i]) {
      AddClaimsKey(w, Before(step, db, rows, i), p, rows[i], plan, seen);
      assert rows[..0] == [];
      StepperIsEffective(w, p, plan, seen);
      KeyPersists(w, step, db, rows, seen, 0, i);
      KeyPersists(w, step, db, rows, seen, i + 1, j);
      if AddsProject(rows[j], plan, outcomes[j]) {
        AddClaimsKey(w, Before(step, db, rows, j), p, rows[j], plan, seen);
        assert false;
      }
    }
  }

  // ---- "updated" -------------------------------------------------------------------------------------------------------

  predicate ReportsUpdate(o: ApplyOutcome, id: int) {
    o.kind == Updated && o.projectId == Some(id)
  }

  /** A row reported as an update found its project at the version it was planned against. */
  lemma UpdateWasCurrent(w: World, db: Tables, p: Principal, row: ApplyRow, plan: map<int, PlanRow>,
                         seen: map<int, ProjectRow>, id: int)
    requires RowStep(w, db, p, row, plan, seen).Success?
    requires ReportsUpdate(RowStep(w, db, p, row, plan, seen).value.1, id)
    ensures id in db.projects && id in seen && seen[id].version == db.projects[id].version
  {
  }

  lemma {:induction false} VersionPersists(w: World, step: Decision, db: Tables, rows: seq<ApplyRow>, seen: map<int, ProjectRow>,
                                           i: nat, j: nat, id: int)
    requires i <= j <= |rows| && FreshIds(db) && Effective(w, step, seen) && Rows(step, db, rows).Success?
    requires id in Before(step, db, rows, i).projects
    ensures id in Before(step, db, rows, j).projects
    ensures Before(step, db, rows, i).projects[id].version <= Before(step, db, rows, j).projects[id].version
    decreases j
  {
    if i < j {
      VersionPersists(w, step, db, rows, seen, i, j - 1, id);
      NextState(w, step, db, rows, seen, j - 1);
      EffectOnVersion(w, Before(step, db, rows, j - 1), Before(step, db, rows, j), rows[j - 1], seen, id);
    }
  }

  /** When an import reports two updates of one project, the first of them wrote nothing. */
  lemma OnlyOneUpdateWrites(w: World, db: Tables, p: Principal, rows: seq<ApplyRow>, plan: map<int, PlanRow>,
                            seen: map<int, ProjectRow>, i: nat, j: nat, id: int)
    requires i < j < |rows| && FreshIds(db) && Rows(Stepper(w, p, plan, seen), db, rows).Success?
    ensures var step := Stepper(w, p, plan, seen);
            var outcomes := Rows(step, db, rows).value.1;
            && |outcomes| == |rows|
            && (ReportsUpdate(outcomes[i], id) && ReportsUpdate(outcomes[j], id) ==>
                && id in Before(step, db, rows, i).projects && id in Before(step, db, rows, i + 1).projects
                && Before(step, db, rows, i + 1).projects[id] == Before(step, db, rows, i).projects[id])
  {
    var step := Stepper(w, p, plan, seen);
    RowAt(step, db, rows, i);
    RowAt(step, db, rows, j);
    var outcomes := Rows(step, db, rows).value.1;
    if ReportsUpdate(outcomes[i], id) && ReportsUpdate(outcomes[j], id) {
      UpdateWasCurrent(w, Before(step, db, rows, i), p, rows[i], plan, seen, id);
      UpdateWasCurrent(w, Before(step, db, rows, j), p, rows[j], plan, seen, id);
      StepperIsEffective(w, p, plan, seen);
      NextState(w, step, db, rows, seen, i);
      EffectOnVersion(w, Before(step, db, rows, i), Before(step, db, rows, i + 1), rows[i], seen, id);
      VersionPersists(w, step, db, rows, seen, i + 1, j, id);
    }
  }
}
