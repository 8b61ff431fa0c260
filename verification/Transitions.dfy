/** Every call of the write path is a chain of legal steps, and of no other steps than its request allows. */
module Transitions {
  import opened Wrappers
  import opened Store
  import opened Contracts
  import opened Permissions
  import opened Booking
  import opened Projects
  import opened Checklists
  import opened RegisterImport
  import opened ReportLinks
  import opened AutoLinks
  import opened Steps
  import opened Transactions
  import opened Commands

  /** The steps a request may lead to. */
  ghost predicate Allowed(call: Call, s: Step) {
    var request := call.request;
    match s
    case TakeSlot(_, id, _, _) =>
      (request.Book? && request.book.id == id) ||
      (request.Submit? && request.submit.slot.Some? && request.submit.slot.value.id == id)
    case FreeSlot(_, id, _) => request.Release? && request.release.id == id
    case OpenDraft(_, _, _, _) => request.Save? && request.save.id.None?
    case EditDraft(_, id, _, _, _) => request.Save? && request.save.id == Some(id)
    case SubmitDraft(_, id, _) => request.Submit? && request.submit.id == id
    case CreateProject(_, _) => request.Submit? || request.ApplyRegister?
    case EditProject(_, id, _) => (request.UpdateProject? && request.update.id == id) || request.ApplyRegister?
    case RemoveProject(_, id) => request.DeleteProject? && request.delete.id == id
    case Tell(_, _, _) => request.Submit?
    case Relink(report, _, _) => request.SetLink? && request.link.id == report
    case LinkReport(_) => request.LinkReports?
    case LogLinks(_) => request.LinkReports?
    case _ => request.ApplyRegister?
  }

  /** The chain of a call. */
  ghost predicate Lawful(call: Call, db: Tables, after: Tables) {
    exists steps :: Chain(Legally(), db, steps, after) && AllAllowed(call, steps)
  }

  ghost predicate AllAllowed(call: Call, steps: seq<Step>) {
    forall s :: s in steps ==> Allowed(call, s)
  }

  lemma AllowedTogether(call: Call, first: seq<Step>, second: seq<Step>)
    requires AllAllowed(call, first) && AllAllowed(call, second)
    ensures AllAllowed(call, first + second)
  {
  }

  lemma NoStep(call: Call, db: Tables)
    ensures Lawful(call, db, db)
  {
    assert Chain(Legally(), db, [], db);
  }

  lemma OneStep(call: Call, db: Tables, s: Step)
    requires Legal(db, s) && Allowed(call, s)
    ensures Lawful(call, db, Next(db, s))
  {
    assert Chain(Legally(), db, [], db);
    Extend(Legally(), db, [], db, s, Next(db, s));
    assert [] + [s] == [s];
  }

  lemma Then(call: Call, db: Tables, mid: Tables, after: Tables)
    requires Lawful(call, db, mid) && Lawful(call, mid, after)
    ensures Lawful(call, db, after)
  {
    var r := Legally();
    var first :| Chain(r, db, first, mid) && AllAllowed(call, first);
    var second :| Chain(r, mid, second, after) && AllAllowed(call, second);
    Join(r, db, first, mid, second, after);
    AllowedTogether(call, first, second);
  }

  // ---- the calls, one by one -------------------------------------------------------------------------------------------

  lemma TakingIsLawful(w: World, db: Tables, call: Call, input: BookInput)
    requires BookWithin(w, db, call.actor, input).Success?
    requires forall cells, ws :: Allowed(call, TakeSlot(call.actor, input.id, cells, ws))
    ensures Lawful(call, db, BookWithin(w, db, call.actor, input).value)
  {
    assert BookedCells(w, input)[STATUS] == Value.Text(input.status) != FREE;
    OneStep(call, db, TakeSlot(call.actor, input.id, BookedCells(w, input), BookingWorkspace(w, input)));
  }

  lemma BookIsLawful(w: World, db: Tables, call: Call)
    requires call.request.Book? && BookBody(w, db, call.actor, call.request.book).Success?
    ensures Lawful(call, db, BookBody(w, db, call.actor, call.request.book).value.0)
  {
    TakingIsLawful(w, db, call, call.request.book);
  }

  lemma ReleaseIsLawful(w: World, db: Tables, call: Call)
    requires call.request.Release? && ReleaseBody(w, db, call.actor, call.request.release).Success?
    ensures Lawful(call, db, ReleaseBody(w, db, call.actor, call.request.release).value.0)
  {
    var id := call.request.release.id;
    OneStep(call, db, FreeSlot(call.actor, id, WorkspaceOf(db.slots[id].cells)));
  }

  lemma SaveIsLawful(w: World, db: Tables, call: Call)
    requires call.request.Save? && SaveBody(w, db, call.actor, call.request.save).Success?
    ensures Lawful(call, db, SaveBody(w, db, call.actor, call.request.save).value.0)
  {
    var p, input := call.actor, call.request.save;
    var ws := Workspace(input.header);
    if input.id.None? {
      var row := NewDraft(p, input);
      OneStep(call, db, OpenDraft(p, row, SaveChanges(None, row), ws));
    } else {
      var row := EditedDraft(db.checklists[input.id.value], input);
      OneStep(call, db, EditDraft(p, input.id.value, row, SaveChanges(Some(db.checklists[input.id.value]), row), ws));
    }
  }

  lemma CreationIsLawful(w: World, db: Tables, call: Call, cells: Cells)
    requires CreateWithin(w, db, call.actor, cells).Success? && Allowed(call, CreateProject(call.actor, cells))
    ensures Lawful(call, db, CreateWithin(w, db, call.actor, cells).value)
  {
    OneStep(call, db, CreateProject(call.actor, cells));
  }

  lemma {:induction false} NotifyIsLawful(db: Tables, call: Call, checklist: int, reviews: map<string, bool>,
                                          ws: Option<string>, recipients: seq<(string, string)>)
    requires call.request.Submit?
    ensures Lawful(call, db, Notify(db, call.actor, checklist, reviews, ws, recipients))
    decreases |recipients|
  {
    if |recipients| == 0 {
      NoStep(call, db);
    } else {
      var last := |recipients| - 1;
      NotifyIsLawful(db, call, checklist, reviews, ws, recipients[..last]);
      var rest := Notify(db, call.actor, checklist, reviews, ws, recipients[..last]);
      var key := NotificationKey(recipients[last].0, checklist, recipients[last].1);
      if key !in rest.notified {
        OneStep(call, rest, Tell(call.actor, key, ws));
        Then(call, db, rest, NotifyOne(rest, call.actor, key, ws));
      }
    }
  }

  lemma SubmitIsLawful(w: World, db: Tables, call: Call)
    requires call.request.Submit?
    requires SubmitBody(w, db, call.actor, call.request.submit, call.recipients).Success?
    ensures Lawful(call, db, SubmitBody(w, db, call.actor, call.request.submit, call.recipients).value.0)
  {
    var p, input := call.actor, call.request.submit;
    var cur := db.checklists[input.id];
    var created := CreateWithin(w, db, p, SubmittedCells(w, cur)).value;
    var booked := BookForSubmission(w, created, p, cur, input.slot, db.nextProject).value;
    var submitted := SubmitStep(booked, p, input.id, cur, db.nextProject);
    UpToSubmission(w, db, call, created, booked);
    NotifyIsLawful(submitted, call, input.id, w.reviewsFor(cur.answers), Workspace(cur.header), call.recipients);
    Then(call, db, submitted, Notify(submitted, p, input.id, w.reviewsFor(cur.answers), Workspace(cur.header),
                                     call.recipients));
  }

  lemma UpToSubmission(w: World, db: Tables, call: Call, created: Tables, booked: Tables)
    requires call.request.Submit?
    requires call.request.submit.id in db.checklists && db.checklists[call.request.submit.id].status.Draft?
    requires var cur := db.checklists[call.request.submit.id];
             && CreateWithin(w, db, call.actor, SubmittedCells(w, cur)) == Success(created)
             && BookForSubmission(w, created, call.actor, cur, call.request.submit.slot, db.nextProject) == Success(booked)
    ensures var id := call.request.submit.id;
            Lawful(call, db, SubmitStep(booked, call.actor, id, db.checklists[id], db.nextProject))
  {
    var id := call.request.submit.id;
    var cur := db.checklists[id];
    CreationIsLawful(w, db, call, SubmittedCells(w, cur));
    SlotOfSubmission(w, created, call, cur, db.nextProject);
    Then(call, db, created, booked);
    SubmissionStep(db, created, booked, call, db.nextProject);
    Then(call, db, booked, SubmitStep(booked, call.actor, id, cur, db.nextProject));
  }

  lemma SlotOfSubmission(w: World, db: Tables, call: Call, row: ChecklistRow, projectId: int)
    requires call.request.Submit?
    requires BookForSubmission(w, db, call.actor, row, call.request.submit.slot, projectId).Success?
    ensures var booked := BookForSubmission(w, db, call.actor, row, call.request.submit.slot, projectId).value;
            && Lawful(call, db, booked)
            && booked.checklists == db.checklists && booked.projects == db.projects
  {
    var slot := call.request.submit.slot;
    if slot.None? { NoStep(call, db); } else { TakingIsLawful(w, db, call, SlotBooking(row, slot.value, projectId)); }
  }

  lemma SubmissionStep(db: Tables, created: Tables, booked: Tables, call: Call, projectId: int)
    requires call.request.Submit? && projectId == db.nextProject
    requires created.checklists == db.checklists == booked.checklists && projectId in booked.projects
    requires call.request.submit.id in db.checklists && db.checklists[call.request.submit.id].status.Draft?
    ensures var id := call.request.submit.id;
            Lawful(call, booked, SubmitStep(booked, call.actor, id, db.checklists[id], projectId))
  {
    OneStep(call, booked, SubmitDraft(call.actor, call.request.submit.id, projectId));
  }

  lemma UpdateIsLawful(w: World, db: Tables, call: Call)
    requires call.request.UpdateProject? && UpdateBody(w, db, call.actor, call.request.update).Success?
    ensures Lawful(call, db, UpdateBody(w, db, call.actor, call.request.update).value.0)
  {
    EditingIsLawful(db, call, call.request.update.id, NormalizedCells(w, call.request.update.cells));
  }

  lemma EditingIsLawful(db: Tables, call: Call, id: int, cells: Cells)
    requires id in db.projects && Allowed(call, EditProject(call.actor, id, cells))
    ensures Lawful(call, db, UpdateWithin(db, call.actor, id, cells))
  {
    if Diff(db.projects[id].cells, cells) == map[] {
      NoStep(call, db);
    } else {
      OneStep(call, db, EditProject(call.actor, id, cells));
    }
  }

  lemma DeleteIsLawful(w: World, db: Tables, call: Call)
    requires call.request.DeleteProject? && DeleteBody(w, db, call.actor, call.request.delete).Success?
    ensures Lawful(call, db, DeleteBody(w, db, call.actor, call.request.delete).value.0)
  {
    OneStep(call, db, RemoveProject(call.actor, call.request.delete.id));
  }

  lemma SetLinkIsLawful(w: World, db: Tables, call: Call)
    requires call.request.SetLink? && SetLinkBody(w, db, call.actor, call.request.link).Success?
    ensures Lawful(call, db, SetLinkBody(w, db, call.actor, call.request.link).value.0)
  {
    var input := call.request.link;
    if db.reports[input.id].projectId == input.projectId {
      NoStep(call, db);
    } else {
      OneStep(call, db, Relink(input.id, input.projectId, if input.projectId.None? then Detached else Manual));
    }
  }

  // ---- the import ------------------------------------------------------------------------------------------------------

  lemma RememberIsLawful(db: Tables, call: Call, rec: RegisterRecord, id: int)
    requires call.request.ApplyRegister? && id in db.projects
    ensures Lawful(call, db, Remember(db, rec, id))
  {
    if MatchKey(rec.identity) in db.sourceKeys { NoStep(call, db); } else { OneStep(call, db, OwnKey(rec.identity, id)); }
  }

  lemma ClaimThenAssign(db: Tables, p: Principal, cells: Cells, key: SourceKey)
    requires key !in db.sourceKeys
    ensures var created := BirthStep(db.(sourceKeys := db.sourceKeys[key := None]), p, cells);
            var born := BirthStep(db, p, cells);
            created.(sourceKeys := created.sourceKeys[key := Some(db.nextProject)]) ==
            born.(sourceKeys := born.sourceKeys[key := Some(db.nextProject)])
  {
    assert db.sourceKeys[key := None][key := Some(db.nextProject)] == db.sourceKeys[key := Some(db.nextProject)];
  }

  /** Claiming a key, creating its project and naming the owner is creating the project and giving it the key. */
  lemma ClaimedCreation(w: World, db: Tables, call: Call, rec: RegisterRecord)
    requires call.request.ApplyRegister? && MatchKey(rec.identity) !in db.sourceKeys
    requires ProjectFromRecord(w, db.(sourceKeys := db.sourceKeys[MatchKey(rec.identity) := None]), call.actor, rec).Success?
    ensures var key := MatchKey(rec.identity);
            var created := ProjectFromRecord(w, db.(sourceKeys := db.sourceKeys[key := None]), call.actor, rec).value;
            Lawful(call, db, created.(sourceKeys := created.sourceKeys[key := Some(db.nextProject)]))
  {
    var key, cells := MatchKey(rec.identity), CreationCells(w, rec);
    var born := BirthStep(db, call.actor, cells);
    OneStep(call, db, CreateProject(call.actor, cells));
    OneStep(call, born, OwnKey(rec.identity, db.nextProject));
    Then(call, db, born, born.(sourceKeys := born.sourceKeys[key := Some(db.nextProject)]));
    ClaimThenAssign(db, call.actor, cells, key);
  }

  lemma CreateRowIsLawful(w: World, db: Tables, call: Call, row: ApplyRow, planned: PlanRow)
    requires call.request.ApplyRegister? && CreateRow(w, db, call.actor, row, planned).Success?
    ensures Lawful(call, db, CreateRow(w, db, call.actor, row, planned).value.0)
  {
    var (after, outcome) := CreateRow(w, db, call.actor, row, planned).value;
    if outcome.kind != Created {
      NoStep(call, db);
    } else if planned.status.Add? {
      ClaimedCreation(w, db, call, row.record);
    } else {
      var created := BirthStep(db, call.actor, CreationCells(w, row.record));
      OneStep(call, db, CreateProject(call.actor, CreationCells(w, row.record)));
      RememberIsLawful(created, call, row.record, db.nextProject);
      Then(call, db, created, after);
    }
  }

  lemma EditAndRemember(db: Tables, call: Call, rec: RegisterRecord, id: int, cells: Cells)
    requires call.request.ApplyRegister? && id in db.projects
    ensures Lawful(call, db, Remember(UpdateWithin(db, call.actor, id, cells), rec, id))
  {
    var updated := UpdateWithin(db, call.actor, id, cells);
    EditingIsLawful(db, call, id, cells);
    RememberIsLawful(updated, call, rec, id);
    Then(call, db, updated, Remember(updated, rec, id));
  }

  lemma UpdateRowIsLawful(w: World, db: Tables, call: Call, row: ApplyRow, planned: PlanRow)
    requires call.request.ApplyRegister? && row.target.Some? && UpdateRow(w, db, call.actor, row, planned, call.seen).Success?
    ensures Lawful(call, db, UpdateRow(w, db, call.actor, row, planned, call.seen).value.0)
  {
    var (after, outcome) := UpdateRow(w, db, call.actor, row, planned, call.seen).value;
    var id := row.target.value.projectId;
    if outcome.kind == Updated {
      EditAndRemember(db, call, row.record, id, NormalizedCells(w, Patch(PlannedChanges(w, call.seen, id, row.record))));
    } else if outcome.kind == Unchanged {
      RememberIsLawful(db, call, row.record, id);
    } else {
      NoStep(call, db);
    }
  }

  lemma RowIsLawful(w: World, db: Tables, call: Call, row: ApplyRow)
    requires call.request.ApplyRegister? && RowStep(w, db, call.actor, row, call.plan, call.seen).Success?
    ensures Lawful(call, db, RowStep(w, db, call.actor, row, call.plan, call.seen).value.0)
  {
    if row.action.Skip? {
      OneStep(call, db, ExcludeRow(row.record));
    } else if row.action.Unskip? {
      OneStep(call, db, IncludeRow(row.record));
    } else if call.plan[row.record.ref].status.Skipped? {
      NoStep(call, db);
    } else if row.action.Create? {
      CreateRowIsLawful(w, db, call, row, call.plan[row.record.ref]);
    } else {
      UpdateRowIsLawful(w, db, call, row, call.plan[row.record.ref]);
    }
  }

  lemma {:induction false} RowsAreLawful(w: World, db: Tables, call: Call, rows: seq<ApplyRow>)
    requires call.request.ApplyRegister? && Rows(Stepper(w, call.actor, call.plan, call.seen), db, rows).Success?
    ensures Lawful(call, db, Rows(Stepper(w, call.actor, call.plan, call.seen), db, rows).value.0)
    decreases |rows|
  {
    if |rows| == 0 {
      NoStep(call, db);
    } else {
      var step, last := Stepper(w, call.actor, call.plan, call.seen), |rows| - 1;
      RowsAreLawful(w, db, call, rows[..last]);
      var before := Rows(step, db, rows[..last]).value.0;
      RowIsLawful(w, before, call, rows[last]);
      Then(call, db, before, Rows(step, db, rows).value.0);
    }
  }

  lemma ApplyIsLawful(w: World, db: Tables, call: Call)
    requires call.request.ApplyRegister?
    requires ApplyBody(w, db, call.actor, call.request.rows, call.plan, call.seen).Success?
    ensures Lawful(call, db, ApplyBody(w, db, call.actor, call.request.rows, call.plan, call.seen).value.0)
  {
    var (after, outcomes) := Rows(Stepper(w, call.actor, call.plan, call.seen), db, call.request.rows).value;
    RowsAreLawful(w, db, call, call.request.rows);
    OneStep(call, after, Note("import", |outcomes|));
    Then(call, db, after, after.(audit := after.audit + [ImportAudit("import", |outcomes|)]));
  }

  lemma AccountIsLawful(call: Call, t: Tally, c: Candidate, alive: set<int>)
    requires call.request.LinkReports? && alive <= t.at.db.projects.Keys
    ensures var u := Account(Alone(), t, c, alive);
            Lawful(call, t.at.db, u.at.db) && u.at.db.projects == t.at.db.projects
  {
    if c.projectId in alive && Guarded(t.at.db, c) {
      OneStep(call, t.at.db, LinkReport(c));
    } else {
      NoStep(call, t.at.db);
    }
  }

  ghost predicate Unversioned(rows: seq<AuditBatch>) {
    forall b :: b in rows ==> b.eventId.None?
  }

  lemma {:induction false} AccountsAreLawful(call: Call, t: Tally, part: seq<Candidate>, alive: set<int>)
    requires call.request.LinkReports? && alive <= t.at.db.projects.Keys && Unversioned(t.audits)
    ensures var u := Accounts(Alone(), t, part, alive);
            Lawful(call, t.at.db, u.at.db) && u.at.db.projects == t.at.db.projects && Unversioned(u.audits)
  {
    if |part| == 0 {
      NoStep(call, t.at.db);
    } else {
      AccountsAreLawful(call, t, part[..|part| - 1], alive);
      var before := Accounts(Alone(), t, part[..|part| - 1], alive);
      AccountIsLawful(call, before, part[|part| - 1], alive);
      Then(call, t.at.db, before.at.db, Accounts(Alone(), t, part, alive).at.db);
    }
  }

  lemma ChunkIsLawful(call: Call, t: Tally, part: seq<Candidate>)
    requires call.request.LinkReports? && t.audits == []
    ensures var u := Chunk(Alone(), t, part); Lawful(call, t.at.db, u.at.db) && u.audits == []
  {
    var (locked, alive) := ShareLock(Alone(), t, part);
    AccountsAreLawful(call, locked, part, alive);
    var u := Accounts(Alone(), locked, part, alive);
    if u.audits != [] {
      OneStep(call, u.at.db, LogLinks(u.audits));
      Then(call, t.at.db, u.at.db, Chunk(Alone(), t, part).at.db);
    }
  }

  lemma {:induction false} ChunksAreLawful(call: Call, t: Tally, candidates: seq<Candidate>)
    requires call.request.LinkReports? && t.audits == []
    ensures Lawful(call, t.at.db, Chunks(Alone(), t, candidates).at.db)
    decreases |candidates|
  {
    if |candidates| == 0 {
      NoStep(call, t.at.db);
    } else {
      var n := FirstChunk(candidates);
      var mid := Chunk(Alone(), t, candidates[..n]);
      ChunkIsLawful(call, t, candidates[..n]);
      ChunksAreLawful(call, mid, candidates[n..]);
      Then(call, t.at.db, mid.at.db, Chunks(Alone(), t, candidates).at.db);
    }
  }

  lemma LinkingIsLawful(call: Call, db: Tables)
    requires call.request.LinkReports?
    ensures Lawful(call, db, AutoLinkWith(Alone(), db, call.linking, false).0)
  {
    var plan := call.linking;
    ChunksAreLawful(call, Tally(Moment(db, NO_LOCKS), [], Reasons(plan.reports, plan.projects), 0),
                    Candidates(plan.reports, plan.projects));
  }

  /** Whatever a call commits, it got there by legal steps its request allows. */
  lemma EveryCallIsLawful(w: World, db: Tables, call: Call)
    requires Body(w, db, call).Success?
    ensures Lawful(call, db, Body(w, db, call).value.0)
  {
    match call.request
    case Book(_) => BookIsLawful(w, db, call);
    case Release(_) => ReleaseIsLawful(w, db, call);
    case Save(_) => SaveIsLawful(w, db, call);
    case Submit(_) => SubmitIsLawful(w, db, call);
    case UpdateProject(_) => UpdateIsLawful(w, db, call);
    case DeleteProject(_) => DeleteIsLawful(w, db, call);
    case SetLink(_) => SetLinkIsLawful(w, db, call);
    case ApplyRegister(_) => ApplyIsLawful(w, db, call);
    case LinkReports => LinkingIsLawful(call, db);
  }

  // ---- what no step touches --------------------------------------------------------------------------------------------

  lemma StepKeepsLedger(db: Tables, s: Step)
    requires Legal(db, s)
    ensures Next(db, s).ledger == db.ledger
  {
  }

  /** The ledger is written by the claim and the completion of a call, never by its steps. */
  lemma LawfulKeepsLedger(call: Call, db: Tables, after: Tables)
    requires Lawful(call, db, after)
    ensures after.ledger == db.ledger
  {
    var steps :| Chain(Legally(), db, steps, after) && AllAllowed(call, steps);
    var inv := (d: Tables) => d.ledger == db.ledger;
    forall x, s, y | s in steps && inv(x) && Takes(Legally(), x, s, y) ensures inv(y) { StepKeepsLedger(x, s); }
    ChainKeeps(Legally(), inv, db, steps, after);
  }

  lemma ServicesKeepLedger(w: World)
    ensures KeepsLedger(Services(w))
  {
    forall db, call | Services(w).body(db, call).Success?
      ensures Services(w).body(db, call).value.0.ledger == db.ledger
    {
      EveryCallIsLawful(w, db, call);
      LawfulKeepsLedger(call, db, Body(w, db, call).value.0);
    }
  }
}
