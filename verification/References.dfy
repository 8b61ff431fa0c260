/** Links, keys, submissions and notifications over whole runs. */
module References {
  import opened Wrappers
  import opened Store
  import opened Contracts
  import opened Permissions
  import opened Booking
  import opened Projects
  import opened Checklists
  import opened RegisterImport
  import opened ReportLinks
  import opened AutoLinks
  import opened Steps
  import opened Transactions
  import opened Commands
  import opened Transitions
  import opened Journal
  import opened Replay
  import opened Runs

  // ---- links and keys point at projects --------------------------------------------------------------------------------

  /** An identity key has one owner, which exists; an exclusion has none; a report is linked to a project that exists. */
  ghost predicate Sound(db: Tables) {
    && (forall key :: key in db.sourceKeys ==>
          if key.MatchKey? then db.sourceKeys[key].Some? && db.sourceKeys[key].value in db.projects
          else db.sourceKeys[key].None?)
    && (forall r :: r in db.reports && db.reports[r].projectId.Some? ==> db.reports[r].projectId.value in db.projects)
  }

  ghost function Soundness(): Tables -> bool {
    (db: Tables) => Sound(db)
  }

  lemma DeletionIsSound(db: Tables, p: Principal, id: int)
    requires Sound(db) && id in db.projects
    ensures Sound(DeleteStep(db, p, id))
  {
  }

  lemma ProjectStepsAreSound(db: Tables, s: Step)
    requires Sound(db) && Legal(db, s) && (s.CreateProject? || s.EditProject? || s.RemoveProject?)
    ensures Sound(Next(db, s))
  {
    match s
    case CreateProject(p, cells) =>
    case EditProject(p, id, cells) =>
    case RemoveProject(p, id) => DeletionIsSound(db, p, id);
  }

  lemma AsideStepsAreSound(db: Tables, s: Step)
    requires Sound(db) && Legal(db, s) && Aside(s)
    ensures Sound(Next(db, s))
  {
  }

  lemma StepIsSound(db: Tables, s: Step)
    requires Sound(db) && Legal(db, s)
    ensures Sound(Next(db, s))
  {
    if Aside(s) {
      AsideStepsAreSound(db, s);
    } else if s.CreateProject? || s.EditProject? || s.RemoveProject? {
      ProjectStepsAreSound(db, s);
    }
  }

  lemma SoundnessIsKept(call: Call)
    ensures LedgerBlind(Soundness()) && KeptBy(Soundness(), call)
  {
    forall x, s, y | Allowed(call, s) && Soundness()(x) && Takes(Legally(), x, s, y) ensures Soundness()(y) {
      StepIsSound(x, s);
    }
  }

  /** In no run does a report link or a source key ever point at a project that is not there. */
  lemma NothingDangles(w: World, init: Tables, calls: seq<Call>, i: nat)
    requires Sound(init) && i <= |calls|
    ensures Sound(Found(Services(w), init, calls, i))
  {
    forall k | 0 <= k < i ensures KeptBy(Soundness(), calls[k]) { SoundnessIsKept(calls[k]); }
    if i > 0 {
      SoundnessIsKept(calls[0]);
      RunKeeps(w, Soundness(), init, calls, 0, i);
    }
  }

  ghost function Owns(identity: string, id: int): Tables -> bool {
    (db: Tables) => MatchKey(identity) in db.sourceKeys && db.sourceKeys[MatchKey(identity)] == Some(id)
  }

  lemma KeyAfterStep(db: Tables, s: Step, identity: string, id: int)
    requires Legal(db, s) && Owns(identity, id)(db) && !(s.RemoveProject? && s.projectId == id)
    ensures Owns(identity, id)(Next(db, s))
  {
  }

  /** A registration stays with its project until that project is deleted, whatever is imported meanwhile. */
  lemma KeyStaysWithOwner(w: World, init: Tables, calls: seq<Call>, i: nat, j: nat, identity: string, id: int)
    requires i <= j <= |calls| && Owns(identity, id)(Found(Services(w), init, calls, i))
    requires forall k :: i <= k < j && calls[k].request.DeleteProject? && calls[k].request.delete.id == id ==>
                         !Fresh(OutcomeAt(Services(w), init, calls, k))
    ensures Owns(identity, id)(Found(Services(w), init, calls, j))
  {
    var inv := Owns(identity, id);
    forall k | i <= k < j ensures !Fresh(OutcomeAt(Services(w), init, calls, k)) || KeptBy(inv, calls[k]) {
      if !(calls[k].request.DeleteProject? && calls[k].request.delete.id == id) {
        forall x, s, y | Allowed(calls[k], s) && inv(x) && Takes(Legally(), x, s, y) ensures inv(y) {
          KeyAfterStep(x, s, identity, id);
        }
      }
    }
    RunKeeps(w, inv, init, calls, i, j);
  }

  // ---- submissions -----------------------------------------------------------------------------------------------------

  /** A checklist is submitted exactly when it has a project, and no two have the same. */
  ghost predicate Linked(db: Tables) {
    && (forall c :: c in db.checklists ==>
          && (db.checklists[c].status.Submitted? <==> db.checklists[c].projectId.Some?)
          && (db.checklists[c].projectId.Some? ==> db.checklists[c].projectId.value < db.nextProject))
    && (forall c, d :: c in db.checklists && d in db.checklists && c != d && db.checklists[c].projectId.Some? ==>
                       db.checklists[c].projectId != db.checklists[d].projectId)
  }

  ghost function Linkage(): Tables -> bool {
    (db: Tables) => Linked(db)
  }

  lemma StepKeepsLinks(db: Tables, s: Step)
    requires Linked(db) && Legal(db, s) && !s.SubmitDraft?
    ensures Linked(Next(db, s))
  {
  }

  /** What a submission leaves behind: the checklist with the project it created. */
  ghost predicate SubmittedWith(db: Tables, after: Tables, id: int) {
    && id in db.checklists && db.checklists[id].status.Draft?
    && after.checklists == db.checklists[id := db.checklists[id].(status := Submitted, projectId := Some(db.nextProject),
                                                                  version := db.checklists[id].version + 1)]
    && after.nextProject == db.nextProject + 1
  }

  lemma CreationForSubmission(w: World, db: Tables, p: Principal, cells: Cells)
    requires CreateWithin(w, db, p, cells).Success?
    ensures var created := CreateWithin(w, db, p, cells).value;
            created.checklists == db.checklists && created.nextProject == db.nextProject + 1
  {
  }

  lemma BookingForSubmission(w: World, db: Tables, p: Principal, row: ChecklistRow, slot: Option<SlotChoice>, projectId: int)
    requires BookForSubmission(w, db, p, row, slot, projectId).Success?
    ensures var booked := BookForSubmission(w, db, p, row, slot, projectId).value;
            booked.checklists == db.checklists && booked.nextProject == db.nextProject
  {
  }

  lemma SubmissionLinks(w: World, db: Tables, p: Principal, input: SubmitInput, recipients: seq<(string, string)>)
    requires SubmitWithin(w, db, p, input, recipients).Success?
    ensures SubmittedWith(db, SubmitWithin(w, db, p, input, recipients).value, input.id)
  {
    var cur := db.checklists[input.id];
    var created := CreateWithin(w, db, p, SubmittedCells(w, cur)).value;
    CreationForSubmission(w, db, p, SubmittedCells(w, cur));
    BookingForSubmission(w, created, p, cur, input.slot, db.nextProject);
  }

  lemma SubmittedWithKeepsLinks(db: Tables, after: Tables, id: int)
    requires Linked(db) && SubmittedWith(db, after, id)
    ensures Linked(after)
  {
  }

  lemma SubmitCallKeepsLinks(w: World, db: Tables, call: Call)
    requires Linked(db) && call.request.Submit? && Fresh(Exec(Services(w), db, call).1)
    ensures Linked(Exec(Services(w), db, call).0)
  {
    var mid := CommitIsLawful(w, db, call);
    var claimed := Claimed(db, call.actor.id, call.key, CanonicalRequest(w, call.request));
    SubmissionLinks(w, claimed, call.actor, call.request.submit, call.recipients);
    SubmittedWithKeepsLinks(claimed, mid, call.request.submit.id);
  }

  lemma OtherCallKeepsLinks(w: World, db: Tables, call: Call)
    requires Linked(db) && !call.request.Submit?
    ensures Linked(Exec(Services(w), db, call).0)
  {
    forall x, s, y | Allowed(call, s) && Linkage()(x) && Takes(Legally(), x, s, y) ensures Linkage()(y) {
      StepKeepsLinks(x, s);
    }
    CallKeeps(w, Linkage(), db, call);
  }

  lemma CallKeepsLinks(w: World, db: Tables, call: Call)
    requires Linked(db)
    ensures Linked(Exec(Services(w), db, call).0)
  {
    if !call.request.Submit? {
      OtherCallKeepsLinks(w, db, call);
    } else if Fresh(Exec(Services(w), db, call).1) {
      SubmitCallKeepsLinks(w, db, call);
    } else {
      ServicesKeepLedger(w);
      CommitsWithItsKey(Services(w), db, call);
    }
  }

  /** In every run a checklist is submitted exactly when it has a project, and distinct checklists have distinct projects. */
  lemma {:induction false} SubmittedHaveTheirProjects(w: World, init: Tables, calls: seq<Call>, i: nat)
    requires Linked(init) && i <= |calls|
    ensures Linked(Found(Services(w), init, calls, i))
    decreases i
  {
    if i > 0 {
      SubmittedHaveTheirProjects(w, init, calls, i - 1);
      NextFound(Services(w), init, calls, i - 1);
      CallKeepsLinks(w, Found(Services(w), init, calls, i - 1), calls[i - 1]);
    }
  }

  ghost function Final(id: int, row: ChecklistRow): Tables -> bool {
    (db: Tables) => id in db.checklists && db.checklists[id] == row && id < db.nextChecklist
  }

  lemma FinalAfterStep(db: Tables, s: Step, id: int, row: ChecklistRow)
    requires Legal(db, s) && Final(id, row)(db) && !row.status.Draft?
    ensures Final(id, row)(Next(db, s))
  {
  }

  /** Once submitted (or cancelled), a checklist is never written again. */
  lemma SubmittedIsFinal(w: World, init: Tables, calls: seq<Call>, i: nat, j: nat, id: int)
    requires i <= j <= |calls| && id in Found(Services(w), init, calls, i).checklists
    requires !Found(Services(w), init, calls, i).checklists[id].status.Draft?
    requires id < Found(Services(w), init, calls, i).nextChecklist
    ensures id in Found(Services(w), init, calls, j).checklists
    ensures Found(Services(w), init, calls, j).checklists[id] == Found(Services(w), init, calls, i).checklists[id]
  {
    var row := Found(Services(w), init, calls, i).checklists[id];
    var inv := Final(id, row);
    forall k | i <= k < j ensures KeptBy(inv, calls[k]) {
      forall x, s, y | Allowed(calls[k], s) && inv(x) && Takes(Legally(), x, s, y) ensures inv(y) {
        FinalAfterStep(x, s, id, row);
      }
    }
    RunKeeps(w, inv, init, calls, i, j);
  }

  // ---- a submission's project, once deleted ------------------------------------------------------------------------------

  /** Every project a checklist names has existed. */
  ghost predicate OnceThere(init: Tables, db: Tables) {
    Kept(init, db) &&
    forall c :: c in db.checklists && db.checklists[c].projectId.Some? ==>
      var a := Project(db.checklists[c].projectId.value); Of(db.events, a) != [] || State(init, a).Some?
  }

  ghost function ExistedOnce(init: Tables): Tables -> bool {
    (db: Tables) => OnceThere(init, db)
  }

  lemma LogOnlyGrows(db: Tables, s: Step, a: Aggregate)
    requires Legal(db, s) && Of(db.events, a) != []
    ensures Of(Next(db, s).events, a) != []
  {
    if Next(db, s).events != db.events {
      var e := Next(db, s).events[|db.events|];
      assert Next(db, s).events == db.events + [e];
      OfNext(db.events, e, a);
    }
  }

  lemma OnceThereAfterStep(init: Tables, db: Tables, s: Step)
    requires OnceThere(init, db) && Legal(db, s)
    ensures OnceThere(init, Next(db, s))
  {
    StepKeeps(init, db, s);
    var after := Next(db, s);
    forall c | c in after.checklists && after.checklists[c].projectId.Some?
      ensures var a := Project(after.checklists[c].projectId.value); Of(after.events, a) != [] || State(init, a).Some?
    {
      var a := Project(after.checklists[c].projectId.value);
      assert Journaled(init, db, a);
      if Of(db.events, a) != [] { LogOnlyGrows(db, s, a); }
      LinkAfterStep(db, s, c);
    }
  }

  lemma LinkAfterStep(db: Tables, s: Step, c: int)
    requires Legal(db, s) && c in Next(db, s).checklists && Next(db, s).checklists[c].projectId.Some?
    ensures (c in db.checklists && db.checklists[c].projectId == Next(db, s).checklists[c].projectId) ||
            Next(db, s).checklists[c].projectId.value in db.projects
  {
  }

  /**
   * A submitted checklist keeps naming its project for ever; the project is gone exactly when its event log ends with its
   * deletion.
   */
  lemma LinkDanglesExactlyAfterDeletion(w: World, init: Tables, calls: seq<Call>, i: nat, c: int)
    requires Start(init) && OnceThere(init, init) && i <= |calls|
    requires c in Found(Services(w), init, calls, i).checklists
    requires Found(Services(w), init, calls, i).checklists[c].projectId.Some?
    ensures var db := Found(Services(w), init, calls, i);
            var id := db.checklists[c].projectId.value;
            id !in db.projects <==> EndsDeleted(Of(db.events, Project(id)))
  {
    var inv := ExistedOnce(init);
    forall k | 0 <= k < i ensures KeptBy(inv, calls[k]) {
      forall x, s, y | Allowed(calls[k], s) && inv(x) && Takes(Legally(), x, s, y) ensures inv(y) {
        OnceThereAfterStep(init, x, s);
      }
    }
    forall db, ledger | inv(db) ensures inv(WithLedger(db, ledger)) { SilenceKeeps(init, db, WithLedger(db, ledger)); }
    RunKeeps(w, inv, init, calls, 0, i);
    var db := Found(Services(w), init, calls, i);
    GoneExactlyWhenDeleted(init, db, db.checklists[c].projectId.value);
  }

  /** It does happen: deleting a submission's project leaves the checklist naming it. */
  lemma DeletionLeavesTheLink(w: World, db: Tables, call: Call, c: int)
    requires call.request.DeleteProject? && Fresh(Exec(Services(w), db, call).1)
    requires c in db.checklists && db.checklists[c].projectId == Some(call.request.delete.id)
    ensures var after := Exec(Services(w), db, call).0;
            c in after.checklists && after.checklists[c] == db.checklists[c] && call.request.delete.id !in after.projects
  {
    var mid := CommitIsLawful(w, db, call);
  }
}
