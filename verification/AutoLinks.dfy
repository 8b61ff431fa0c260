/**
 * Linking every report whose evidence is unique (server/domain/pruefberichtLinkService.ts, `autoLink`): planned on a snapshot,
 * written chunk by chunk, while other transactions commit between any two of its statements.
 */
module AutoLinks {
  import opened Wrappers
  import opened Store
  import opened Contracts
  import opened ReportLinks

  const SAMPLE_LIMIT: nat := 50
  const CHUNK: nat := 100

  // ---- other transactions ----------------------------------------------------------------------------------------------

  /** What the database knows of this transaction: its statements so far, the reports it wrote, the projects it share-locked. */
  datatype Locks = Locks(statements: nat, held: set<int>, kept: set<int>)

  /** What others commit before a statement, given the locks they have to respect and the tables they find. */
  type Environment = (Locks, Tables) -> Tables

  /**
   * What other transactions may commit: anything, except to reports this one has written or to the existence of projects it
   * holds a share lock on; a report's content never changes under the same version.
   */
  ghost predicate Rely(before: Tables, after: Tables, held: set<int>, kept: set<int>) {
    && (forall r :: r in before.reports ==>
          && r in after.reports && before.reports[r].version <= after.reports[r].version
          && (r in held || before.reports[r].version == after.reports[r].version ==>
              after.reports[r] == before.reports[r]))
    && (forall id :: id in kept && id in before.projects ==> id in after.projects)
    && before.audit <= after.audit
  }

  ghost predicate KeepsOff(env: Environment) {
    forall locks, db :: Rely(db, env(locks, db), locks.held, locks.kept)
  }

  /** Nobody else commits anything. */
  function Alone(): Environment {
    (locks: Locks, db: Tables) => db
  }

  /** The tables and the locks between two statements. */
  datatype Moment = Moment(db: Tables, locks: Locks)

  const NO_LOCKS: Locks := Locks(0, {}, {})

  function Await(env: Environment, m: Moment): Moment {
    Moment(env(m.locks, m.db), m.locks.(statements := m.locks.statements + 1))
  }

  // ---- the transition ---------------------------------------------------------------------------------------------------

  function LinkedRow(row: ReportRow, projectId: int): ReportRow {
    row.(projectId := Some(projectId), source := Auto, version := row.version + 1)
  }

  function WithLink(db: Tables, report: int, row: ReportRow): Tables {
    db.(reports := db.reports[report := row])
  }

  /** Does the version guard let this write through? */
  predicate Guarded(db: Tables, c: Candidate) {
    c.report.id in db.reports && db.reports[c.report.id].version == c.report.version
  }

  /** One guarded write; a project that is gone or a report somebody changed is left alone and named. */
  function LinkStatement(env: Environment, m: Moment, c: Candidate, alive: set<int>): (Moment, Option<UnmatchedReason>) {
    if c.projectId !in alive then (m, Some(Gone))
    else
      var w := Await(env, m);
      if !Guarded(w.db, c) then (w, Some(Changed))
      else (Moment(WithLink(w.db, c.report.id, LinkedRow(w.db.reports[c.report.id], c.projectId)),
                   w.locks.(held := w.locks.held + {c.report.id})), None)
  }

  /** The audit row of an automatic link: the report had none before. */
  function CandidateAudit(c: Candidate): AuditBatch {
    AuditBatch(OfReport(c.report.id), map[Field("projectId") := Change(Null, Number(c.projectId))], None,
               Some(c.report.version + 1), None)
  }

  /** Where a linking stands: its moment, the audit rows it has still to append, and its figures. */
  datatype Tally = Tally(at: Moment, audits: seq<AuditBatch>, unmatched: map<UnmatchedReason, nat>, linked: nat)

  function Account(env: Environment, t: Tally, c: Candidate, alive: set<int>): Tally {
    var (at, reason) := LinkStatement(env, t.at, c, alive);
    if reason.Some? then t.(at := at, unmatched := Counted(t.unmatched, reason.value))
    else t.(at := at, audits := t.audits + [CandidateAudit(c)], linked := t.linked + 1)
  }

  function Accounts(env: Environment, t: Tally, part: seq<Candidate>, alive: set<int>): Tally {
    if |part| == 0 then t
    else Account(env, Accounts(env, t, part[..|part| - 1], alive), part[|part| - 1], alive)
  }

  /** Share-lock the chunk's projects: those that exist now exist until the end. */
  function ShareLock(env: Environment, t: Tally, part: seq<Candidate>): (Tally, set<int>) {
    var w := Await(env, t.at);
    var alive := (set c | c in part :: c.projectId) * w.db.projects.Keys;
    (t.(at := w.(locks := w.locks.(kept := w.locks.kept + alive))), alive)
  }

  function AppendAudits(env: Environment, t: Tally): Tally {
    if t.audits == [] then t
    else
      var w := Await(env, t.at);
      t.(at := w.(db := w.db.(audit := w.db.audit + t.audits)), audits := [])
  }

  function Chunk(env: Environment, t: Tally, part: seq<Candidate>): Tally {
    var (locked, alive) := ShareLock(env, t, part);
    AppendAudits(env, Accounts(env, locked, part, alive))
  }

  function FirstChunk(candidates: seq<Candidate>): (n: nat)
    ensures n <= |candidates| && (|candidates| > 0 ==> n > 0)
  {
    if |candidates| <= CHUNK then |candidates| else CHUNK
  }

  function Chunks(env: Environment, t: Tally, candidates: seq<Candidate>): Tally
    decreases |candidates|
  {
    if |candidates| == 0 then t
    else
      var n := FirstChunk(candidates);
      Chunks(env, Chunk(env, t, candidates[..n]), candidates[n..])
  }

  function First<T>(s: seq<T>, n: nat): seq<T> {
    if |s| <= n then s else s[..n]
  }

  function Linking(env: Environment, db: Tables, plan: LinkPlan): Tally {
    Chunks(env, Tally(Moment(db, NO_LOCKS), [], Reasons(plan.reports, plan.projects), 0),
           Candidates(plan.reports, plan.projects))
  }

  function LinkingResult(plan: LinkPlan, dryRun: bool, linked: nat, unmatched: map<UnmatchedReason, nat>): AutoLinkResult {
    AutoLinkResult(dryRun, |plan.reports|, linked, |Undecided(plan.reports, plan.projects)|,
                   First(Undecided(plan.reports, plan.projects), SAMPLE_LIMIT), unmatched)
  }

  /** `autoLink`: a dry run only counts. */
  function AutoLinkWith(env: Environment, db: Tables, plan: LinkPlan, dryRun: bool): (Tables, AutoLinkResult) {
    if dryRun then
      (db, LinkingResult(plan, true, |Candidates(plan.reports, plan.projects)|, Reasons(plan.reports, plan.projects)))
    else
      var t := Linking(env, db, plan);
      (t.at.db, LinkingResult(plan, false, t.linked, t.unmatched))
  }

  // ---- statement by statement ------------------------------------------------------------------------------------------

  method Interfere(db: TxDatabase, env: Environment, locks: Locks) returns (locks': Locks)
    modifies db
    ensures Moment(db.state, locks') == Await(env, Moment(old(db.state), locks))
  {
    db.state := env(locks, db.state);
    locks' := locks.(statements := locks.statements + 1);
  }

  method LinkOne(db: TxDatabase, env: Environment, locks: Locks, c: Candidate, alive: set<int>)
    returns (locks': Locks, reason: Option<UnmatchedReason>)
    modifies db
    ensures (Moment(db.state, locks'), reason) == LinkStatement(env, Moment(old(db.state), locks), c, alive)
  {
    if c.projectId !in alive { return locks, Some(Gone); }
    locks' := Interfere(db, env, locks);
    var ok := db.SetReportProject(c.report.id, c.report.version, Some(c.projectId), Auto);
    if !ok { return locks', Some(Changed); }
    return locks'.(held := locks'.held + {c.report.id}), None;
  }

  method LinkChunk(db: TxDatabase, env: Environment, locks: Locks, part: seq<Candidate>,
                   unmatched: map<UnmatchedReason, nat>, linked: nat)
    returns (locks': Locks, unmatched': map<UnmatchedReason, nat>, linked': nat)
    modifies db
    ensures Tally(Moment(db.state, locks'), [], unmatched', linked') ==
            Chunk(env, Tally(Moment(old(db.state), locks), [], unmatched, linked), part)
  {
    ghost var start := Tally(Moment(db.state, locks), [], unmatched, linked);
    locks' := Interfere(db, env, locks);
    var alive := db.ShareLockProjects(set c | c in part :: c.projectId);
    locks' := locks'.(kept := locks'.kept + alive);
    ghost var locked := ShareLock(env, start, part).0;
    var audits: seq<AuditBatch> := [];
    unmatched', linked' := unmatched, linked;
    for n := 0 to |part|
      invariant Tally(Moment(db.state, locks'), audits, unmatched', linked') == Accounts(env, locked, part[..n], alive)
    {
      assert part[..n + 1][..n] == part[..n];
      var reason;
      locks', reason := LinkOne(db, env, locks', part[n], alive);
      if reason.Some? {
        unmatched' := Counted(unmatched', reason.value);
      } else {
        linked' := linked' + 1;
        audits := audits + [CandidateAudit(part[n])];
      }
    }
    assert part[..|part|] == part;
    if audits != [] {
      locks' := Interfere(db, env, locks');
      db.AppendAudits(audits);
    }
  }

  lemma ChunksNext(env: Environment, t: Tally, candidates: seq<Candidate>, i: nat, end: nat)
    requires i < |candidates| && end == if i + CHUNK <= |candidates| then i + CHUNK else |candidates|
    ensures Chunks(env, t, candidates[i..]) == Chunks(env, Chunk(env, t, candidates[i..end]), candidates[end..])
  {
    var rest := candidates[i..];
    assert FirstChunk(rest) == end - i && rest[..end - i] == candidates[i..end] && rest[end - i..] == candidates[end..];
  }

  method LinkAll(db: TxDatabase, env: Environment, candidates: seq<Candidate>, unmatched0: map<UnmatchedReason, nat>)
    returns (linked: nat, unmatched: map<UnmatchedReason, nat>, locks: Locks)
    modifies db
    ensures Tally(Moment(db.state, locks), [], unmatched, linked) ==
            Chunks(env, Tally(Moment(old(db.state), NO_LOCKS), [], unmatched0, 0), candidates)
  {
    linked, unmatched, locks := 0, unmatched0, NO_LOCKS;
    ghost var whole := Chunks(env, Tally(Moment(db.state, NO_LOCKS), [], unmatched0, 0), candidates);
    var i := 0;
    while i < |candidates|
      invariant i <= |candidates|
      invariant Chunks(env, Tally(Moment(db.state, locks), [], unmatched, linked), candidates[i..]) == whole
    {
      var end := if i + CHUNK <= |candidates| then i + CHUNK else |candidates|;
      ChunksNext(env, Tally(Moment(db.state, locks), [], unmatched, linked), candidates, i, end);
      locks, unmatched, linked := LinkChunk(db, env, locks, candidates[i..end], unmatched, linked);
      i := end;
    }
  }

  method AutoLink(db: TxDatabase, env: Environment, plan: LinkPlan, dryRun: bool) returns (result: AutoLinkResult)
    modifies db
    ensures (db.state, result) == AutoLinkWith(env, old(db.state), plan, dryRun)
  {
    var reports, projects := plan.reports, plan.projects;
    var candidates: seq<Candidate> := [];
    var ambiguous: nat, samples: seq<int>, unmatched: map<UnmatchedReason, nat> := 0, [], map[];
    for n := 0 to |reports|
      invariant candidates == Candidates(reports[..n], projects)
      invariant ambiguous == |Undecided(reports[..n], projects)|
      invariant samples == First(Undecided(reports[..n], projects), SAMPLE_LIMIT)
      invariant unmatched == Reasons(reports[..n], projects)
    {
      assert reports[..n + 1][..n] == reports[..n];
      match Match(reports[n].evidence, projects)
      case Unique(id) => candidates := candidates + [Candidate(reports[n], id)];
      case Several(_) =>
        ambiguous := ambiguous + 1;
        if |samples| < SAMPLE_LIMIT { samples := samples + [reports[n].id]; }
      case Unmatched(reason) => unmatched := Counted(unmatched, reason);
    }
    assert reports[..|reports|] == reports;
    var linked: nat := |candidates|;
    if !dryRun {
      var locks;
      linked, unmatched, locks := LinkAll(db, env, candidates, unmatched);
    }
    result := AutoLinkResult(dryRun, |reports|, linked, ambiguous, samples, unmatched);
  }

  // ---- what a linking is made of ---------------------------------------------------------------------------------------

  /** One write of `autoLink`: the report before and after. */
  datatype Write = Write(report: int, before: ReportRow, after: ReportRow)

  /** What happens in the course of a linking: others commit, projects are locked, a report is written, audit rows are appended. */
  datatype Act = Waits | Keeps(projects: set<int>) | Links(write: Write) | Logs(audits: seq<AuditBatch>)

  function Do(env: Environment, m: Moment, a: Act): Moment {
    match a
    case Waits => Await(env, m)
    case Keeps(projects) => m.(locks := m.locks.(kept := m.locks.kept + projects))
    case Links(wr) => Moment(WithLink(m.db, wr.report, wr.after), m.locks.(held := m.locks.held + {wr.report}))
    case Logs(audits) => m.(db := m.db.(audit := m.db.audit + audits))
  }

  function Played(env: Environment, m: Moment, acts: seq<Act>): Moment {
    if |acts| == 0 then m else Do(env, Played(env, m, acts[..|acts| - 1]), acts[|acts| - 1])
  }

  function Writes(acts: seq<Act>): seq<Write> {
    if |acts| == 0 then []
    else Writes(acts[..|acts| - 1]) + if acts[|acts| - 1].Links? then [acts[|acts| - 1].write] else []
  }

  function Logged(acts: seq<Act>): seq<AuditBatch> {
    if |acts| == 0 then []
    else Logged(acts[..|acts| - 1]) + if acts[|acts| - 1].Logs? then acts[|acts| - 1].audits else []
  }

  function AuditOf(wr: Write): AuditBatch {
    LinkAudit(wr.report, wr.before, wr.after.projectId)
  }

  function AuditsOf(writes: seq<Write>): seq<AuditBatch> {
    if |writes| == 0 then [] else AuditsOf(writes[..|writes| - 1]) + [AuditOf(writes[|writes| - 1])]
  }

  /** The snapshot the linking plans with shows reports nobody linked and nobody detached on purpose. */
  ghost predicate PlannedFrom(plan: LinkPlan, snap: Tables) {
    forall i :: 0 <= i < |plan.reports| ==>
      && plan.reports[i].id in snap.reports
      && snap.reports[plan.reports[i].id].projectId == None && snap.reports[plan.reports[i].id].source == Unset
      && snap.reports[plan.reports[i].id].version == plan.reports[i].version
  }

  /** A candidate's report and the project it goes to come from the plan. */
  ghost predicate FromPlan(c: Candidate, plan: LinkPlan) {
    c.report in plan.reports && Match(c.report.evidence, plan.projects) == Unique(c.projectId)
  }

  lemma {:induction false} CandidatesFromPlan(reports: seq<Snapshot>, plan: LinkPlan)
    requires forall r :: r in reports ==> r in plan.reports
    ensures forall c :: c in Candidates(reports, plan.projects) ==> FromPlan(c, plan)
  {
    if |reports| > 0 { CandidatesFromPlan(reports[..|reports| - 1], plan); }
  }

  /** A write takes an unlinked, never detached report, as planned, and gives it the project its evidence names. */
  ghost predicate RightWrite(wr: Write, plan: LinkPlan) {
    && wr.before.projectId == None && wr.before.source == Unset && wr.after.projectId.Some?
    && wr.after == LinkedRow(wr.before, wr.after.projectId.value)
    && exists c: Candidate :: FromPlan(c, plan) && c.report.id == wr.report &&
                              c.report.version == wr.before.version && Some(c.projectId) == wr.after.projectId
  }

  /** At its moment, a right write finds the report it says and a project that is there to stay. */
  ghost predicate RightAt(m: Moment, wr: Write, plan: LinkPlan) {
    && RightWrite(wr, plan) && wr.report in m.db.reports && m.db.reports[wr.report] == wr.before
    && wr.after.projectId.value in m.db.projects && wr.after.projectId.value in m.locks.kept
  }

  ghost predicate Proper(env: Environment, m: Moment, acts: seq<Act>, plan: LinkPlan) {
    forall i :: 0 <= i < |acts| && acts[i].Links? ==> RightAt(Played(env, m, acts[..i]), acts[i].write, plan)
  }

  /** Every report of the snapshot is still there, and at the same version it is the same. */
  ghost predicate Trusts(snap: Tables, db: Tables) {
    forall r :: r in snap.reports ==>
      && r in db.reports && snap.reports[r].version <= db.reports[r].version
      && (snap.reports[r].version == db.reports[r].version ==> snap.reports[r] == db.reports[r])
  }

  /** A tally is what its acts make of the start: all of them proper, its links counted, their audit rows appended or pending. */
  ghost predicate Accounted(env: Environment, m0: Moment, t: Tally, acts: seq<Act>, plan: LinkPlan) {
    && t.at == Played(env, m0, acts) && Proper(env, m0, acts, plan)
    && |Writes(acts)| == t.linked && Logged(acts) + t.audits == AuditsOf(Writes(acts))
  }

  lemma OneMoreAct(env: Environment, m0: Moment, acts: seq<Act>, a: Act, plan: LinkPlan)
    requires Proper(env, m0, acts, plan)
    requires a.Links? ==> RightAt(Played(env, m0, acts), a.write, plan)
    ensures Played(env, m0, acts + [a]) == Do(env, Played(env, m0, acts), a) && Proper(env, m0, acts + [a], plan)
    ensures Writes(acts + [a]) == Writes(acts) + if a.Links? then [a.write] else []
    ensures Logged(acts + [a]) == Logged(acts) + if a.Logs? then a.audits else []
  {
    assert (acts + [a])[..|acts|] == acts;
    forall i | 0 <= i < |acts + [a]| && (acts + [a])[i].Links?
      ensures RightAt(Played(env, m0, (acts + [a])[..i]), (acts + [a])[i].write, plan)
    {
      if i < |acts| { assert (acts + [a])[..i] == acts[..i]; }
    }
  }

  lemma OneMoreAudit(writes: seq<Write>, wr: Write)
    ensures AuditsOf(writes + [wr]) == AuditsOf(writes) + [AuditOf(wr)]
  {
    assert (writes + [wr])[..|writes|] == writes;
  }

  lemma AwaitTrusts(env: Environment, m: Moment, snap: Tables)
    requires KeepsOff(env) && Trusts(snap, m.db)
    ensures Trusts(snap, Await(env, m).db)
    ensures forall id :: id in m.locks.kept && id in m.db.projects ==> id in Await(env, m).db.projects
  {
    assert Rely(m.db, env(m.locks, m.db), m.locks.held, m.locks.kept);
  }

  /** A guarded write that goes through hits the report as it was planned. */
  lemma WriteIsRight(m: Moment, c: Candidate, plan: LinkPlan, snap: Tables) returns (wr: Write)
    requires PlannedFrom(plan, snap) && FromPlan(c, plan) && Trusts(snap, m.db) && Guarded(m.db, c)
    requires c.projectId in m.db.projects && c.projectId in m.locks.kept
    ensures wr == Write(c.report.id, m.db.reports[c.report.id], LinkedRow(m.db.reports[c.report.id], c.projectId))
    ensures RightAt(m, wr, plan) && AuditOf(wr) == CandidateAudit(c)
    ensures Trusts(snap, WithLink(m.db, wr.report, wr.after))
  {
    var row := m.db.reports[c.report.id];
    assert row == snap.reports[c.report.id];
    wr := Write(c.report.id, row, LinkedRow(row, c.projectId));
  }

  /** What holds between two statements: the figures are those of proper acts, the snapshot is good, the chunk's projects stay. */
  ghost predicate Midway(env: Environment, m0: Moment, t: Tally, acts: seq<Act>, plan: LinkPlan, snap: Tables,
                         alive: set<int>)
  {
    && Accounted(env, m0, t, acts, plan) && Trusts(snap, t.at.db)
    && alive <= t.at.locks.kept && alive <= t.at.db.projects.Keys
  }

  lemma WaitingIsProper(env: Environment, m0: Moment, t: Tally, acts: seq<Act>, plan: LinkPlan, snap: Tables, alive: set<int>)
    requires KeepsOff(env) && Midway(env, m0, t, acts, plan, snap, alive)
    ensures Midway(env, m0, t.(at := Await(env, t.at)), acts + [Waits], plan, snap, alive)
  {
    OneMoreAct(env, m0, acts, Waits, plan);
    AwaitTrusts(env, t.at, snap);
    assert Logged(acts) + [] == Logged(acts) && Writes(acts) + [] == Writes(acts);
    forall id | id in alive ensures id in Await(env, t.at).db.projects { assert id in t.at.locks.kept; }
  }

  lemma LinkingIsProper(env: Environment, m0: Moment, t: Tally, acts: seq<Act>, plan: LinkPlan, snap: Tables,
                        alive: set<int>, c: Candidate) returns (more: seq<Act>)
    requires KeepsOff(env) && Midway(env, m0, t, acts, plan, snap, alive) && PlannedFrom(plan, snap) && FromPlan(c, plan)
    requires c.projectId in alive && Guarded(t.at.db, c)
    ensures var row := t.at.db.reports[c.report.id];
            var at := Moment(WithLink(t.at.db, c.report.id, LinkedRow(row, c.projectId)),
                             t.at.locks.(held := t.at.locks.held + {c.report.id}));
            Midway(env, m0, Tally(at, t.audits + [CandidateAudit(c)], t.unmatched, t.linked + 1), more, plan, snap, alive)
  {
    var wr := WriteIsRight(t.at, c, plan, snap);
    more := acts + [Links(wr)];
    OneMoreAct(env, m0, acts, Links(wr), plan);
    OneMoreAudit(Writes(acts), wr);
    assert Logged(acts) + [] == Logged(acts);
    assert Logged(acts) + (t.audits + [CandidateAudit(c)]) == (Logged(acts) + t.audits) + [CandidateAudit(c)];
  }

  lemma AccountIsProper(env: Environment, m0: Moment, t: Tally, acts: seq<Act>, plan: LinkPlan, snap: Tables,
                        alive: set<int>, c: Candidate) returns (more: seq<Act>)
    requires KeepsOff(env) && Midway(env, m0, t, acts, plan, snap, alive) && PlannedFrom(plan, snap) && FromPlan(c, plan)
    ensures Midway(env, m0, Account(env, t, c, alive), more, plan, snap, alive)
  {
    more := acts;
    if c.projectId in alive {
      WaitingIsProper(env, m0, t, acts, plan, snap, alive);
      more := acts + [Waits];
      var waited := t.(at := Await(env, t.at));
      if Guarded(waited.at.db, c) {
        more := LinkingIsProper(env, m0, waited, more, plan, snap, alive, c);
      }
    }
  }

  lemma {:induction false} AccountsAreProper(env: Environment, m0: Moment, t: Tally, acts: seq<Act>, plan: LinkPlan,
                                             snap: Tables, alive: set<int>, part: seq<Candidate>) returns (more: seq<Act>)
    requires KeepsOff(env) && Midway(env, m0, t, acts, plan, snap, alive) && PlannedFrom(plan, snap)
    requires forall c :: c in part ==> FromPlan(c, plan)
    ensures Midway(env, m0, Accounts(env, t, part, alive), more, plan, snap, alive)
  {
    if |part| == 0 {
      more := acts;
    } else {
      more := AccountsAreProper(env, m0, t, acts, plan, snap, alive, part[..|part| - 1]);
      more := AccountIsProper(env, m0, Accounts(env, t, part[..|part| - 1], alive), more, plan, snap, alive, part[|part| - 1]);
    }
  }

  lemma ChunkIsProper(env: Environment, m0: Moment, t: Tally, acts: seq<Act>, plan: LinkPlan, snap: Tables,
                      part: seq<Candidate>) returns (more: seq<Act>)
    requires KeepsOff(env) && Midway(env, m0, t, acts, plan, snap, {}) && PlannedFrom(plan, snap)
    requires forall c :: c in part ==> FromPlan(c, plan)
    ensures Midway(env, m0, Chunk(env, t, part), more, plan, snap, {})
  {
    WaitingIsProper(env, m0, t, acts, plan, snap, {});
    var (locked, alive) := ShareLock(env, t, part);
    OneMoreAct(env, m0, acts + [Waits], Keeps(alive), plan);
    more := acts + [Waits] + [Keeps(alive)];
    assert Logged(more) == Logged(acts + [Waits]) && Writes(more) == Writes(acts + [Waits]);
    assert Midway(env, m0, locked, more, plan, snap, alive);
    more := AccountsAreProper(env, m0, locked, more, plan, snap, alive, part);
    more := AppendingIsProper(env, m0, Accounts(env, locked, part, alive), more, plan, snap);
  }

  lemma AppendingIsProper(env: Environment, m0: Moment, t: Tally, acts: seq<Act>, plan: LinkPlan, snap: Tables)
    returns (more: seq<Act>)
    requires KeepsOff(env) && Midway(env, m0, t, acts, plan, snap, {})
    ensures Midway(env, m0, AppendAudits(env, t), more, plan, snap, {})
    ensures AppendAudits(env, t).audits == []
  {
    more := acts;
    if t.audits != [] {
      WaitingIsProper(env, m0, t, acts, plan, snap, {});
      OneMoreAct(env, m0, acts + [Waits], Logs(t.audits), plan);
      more := acts + [Waits] + [Logs(t.audits)];
      assert Writes(more) == Writes(acts + [Waits]) && Logged(more) + [] == Logged(more);
    }
  }

  lemma {:induction false} ChunksAreProper(env: Environment, m0: Moment, t: Tally, acts: seq<Act>, plan: LinkPlan,
                                           snap: Tables, candidates: seq<Candidate>) returns (more: seq<Act>)
    requires KeepsOff(env) && Midway(env, m0, t, acts, plan, snap, {}) && PlannedFrom(plan, snap) && t.audits == []
    requires forall c :: c in candidates ==> FromPlan(c, plan)
    ensures Midway(env, m0, Chunks(env, t, candidates), more, plan, snap, {}) && Chunks(env, t, candidates).audits == []
    decreases |candidates|
  {
    more := acts;
    if |candidates| > 0 {
      var n := FirstChunk(candidates);
      more := ChunkIsProper(env, m0, t, acts, plan, snap, candidates[..n]);
      more := ChunksAreProper(env, m0, Chunk(env, t, candidates[..n]), more, plan, snap, candidates[n..]);
    }
  }

  /**
   * With any other transactions committing in between that respect its locks: the tables a linking leaves are made of their
   * commits and of its own writes and audit rows, and of nothing else. Each write hits a report nobody had linked or detached
   * and gives it an existing project; the audit rows are exactly those of the writes, in order.
   */
  lemma LinkingIsItsWrites(env: Environment, db: Tables, plan: LinkPlan, snap: Tables) returns (acts: seq<Act>)
    requires KeepsOff(env) && PlannedFrom(plan, snap) && Trusts(snap, db)
    ensures var m0 := Moment(db, NO_LOCKS);
            && AutoLinkWith(env, db, plan, false).0 == Played(env, m0, acts).db
            && Proper(env, m0, acts, plan)
            && AutoLinkWith(env, db, plan, false).1.linked == |Writes(acts)|
            && Logged(acts) == AuditsOf(Writes(acts))
  {
    var m0 := Moment(db, NO_LOCKS);
    var t := Tally(m0, [], Reasons(plan.reports, plan.projects), 0);
    CandidatesFromPlan(plan.reports, plan);
    assert Midway(env, m0, t, [], plan, snap, {});
    acts := ChunksAreProper(env, m0, t, [], plan, snap, Candidates(plan.reports, plan.projects));
    assert Logged(acts) + [] == Logged(acts);
  }

  // ---- what follows ----------------------------------------------------------------------------------------------------

  /** At this point of the transaction the write still stands: the report has its link, the project exists. */
  ghost predicate Stands(wr: Write, m: Moment) {
    && wr.report in m.locks.held && wr.report in m.db.reports && m.db.reports[wr.report] == wr.after
    && wr.after.projectId.Some? && wr.after.projectId.value in m.db.projects && wr.after.projectId.value in m.locks.kept
  }

  lemma StandsOn(env: Environment, m: Moment, a: Act, wr: Write, plan: LinkPlan)
    requires KeepsOff(env) && Stands(wr, m) && wr.after.source == Auto && (a.Links? ==> RightAt(m, a.write, plan))
    ensures Stands(wr, Do(env, m, a))
  {
    if a.Waits? {
      assert Rely(m.db, env(m.locks, m.db), m.locks.held, m.locks.kept);
      var id := wr.after.projectId.value;
      assert id in m.locks.kept && id in m.db.projects;
      assert id in env(m.locks, m.db).projects;
    }
  }

  /** Whatever others do, every link made stands when the linking commits. */
  lemma {:induction false} EveryLinkStands(env: Environment, m: Moment, acts: seq<Act>, plan: LinkPlan)
    requires KeepsOff(env) && Proper(env, m, acts, plan)
    ensures forall wr :: wr in Writes(acts) ==> RightWrite(wr, plan) && Stands(wr, Played(env, m, acts))
  {
    if |acts| > 0 {
      var init, last := acts[..|acts| - 1], acts[|acts| - 1];
      forall i | 0 <= i < |init| && init[i].Links? ensures RightAt(Played(env, m, init[..i]), init[i].write, plan) {
        assert init[..i] == acts[..i];
      }
      EveryLinkStands(env, m, init, plan);
      forall wr | wr in Writes(acts) ensures RightWrite(wr, plan) && Stands(wr, Played(env, m, acts)) {
        if wr in Writes(init) { StandsOn(env, Played(env, m, init), last, wr, plan); }
      }
    }
  }

  function Overlay(reports: map<int, ReportRow>, writes: seq<Write>): map<int, ReportRow> {
    if |writes| == 0 then reports
    else Overlay(reports, writes[..|writes| - 1])[writes[|writes| - 1].report := writes[|writes| - 1].after]
  }

  /** With nobody else at work the acts leave the reports written and the audit rows appended, and all else as it was. */
  lemma {:induction false} QuietActs(m: Moment, acts: seq<Act>)
    ensures Played(Alone(), m, acts).db ==
            m.db.(reports := Overlay(m.db.reports, Writes(acts)), audit := m.db.audit + Logged(acts))
  {
    if |acts| > 0 {
      var init, last := acts[..|acts| - 1], acts[|acts| - 1];
      QuietActs(m, init);
      if last.Links? {
        var writes := Writes(init) + [last.write];
        assert writes[..|Writes(init)|] == Writes(init);
      }
      assert Writes(init) + [] == Writes(init) && Logged(init) + [] == Logged(init);
      if last.Logs? { assert m.db.audit + Logged(init) + last.audits == m.db.audit + (Logged(init) + last.audits); }
    } else {
      assert m.db.audit + [] == m.db.audit;
    }
  }

  lemma {:induction false} OverlayElsewhere(reports: map<int, ReportRow>, writes: seq<Write>, report: int)
    requires forall wr :: wr in writes ==> wr.report != report
    ensures report in Overlay(reports, writes) <==> report in reports
    ensures report in reports ==> Overlay(reports, writes)[report] == reports[report]
  {
    if |writes| > 0 { OverlayElsewhere(reports, writes[..|writes| - 1], report); }
  }

  /**
   * On its own, a linking changes the reports it links and the audit log and nothing else; in particular no report that was
   * linked before, or detached on purpose.
   */
  lemma AloneOnlyLinks(db: Tables, plan: LinkPlan, snap: Tables) returns (writes: seq<Write>)
    requires PlannedFrom(plan, snap) && Trusts(snap, db)
    ensures var (after, result) := AutoLinkWith(Alone(), db, plan, false);
            && after == db.(reports := after.reports, audit := db.audit + AuditsOf(writes)) && result.linked == |writes|
            && (forall wr :: wr in writes ==> RightWrite(wr, plan))
            && (forall r :: (forall wr :: wr in writes ==> wr.report != r) ==>
                  (r in after.reports <==> r in db.reports) && (r in db.reports ==> after.reports[r] == db.reports[r]))
            && (forall r :: r in db.reports && (db.reports[r].projectId.Some? || db.reports[r].source != Unset) ==>
                  r in after.reports && after.reports[r] == db.reports[r])
  {
    var m0 := Moment(db, NO_LOCKS);
    assert KeepsOff(Alone());
    var acts := LinkingIsItsWrites(Alone(), db, plan, snap);
    writes := Writes(acts);
    QuietActs(m0, acts);
    EveryLinkStands(Alone(), m0, acts, plan);
    forall r | forall wr :: wr in writes ==> wr.report != r
      ensures (r in Overlay(db.reports, writes) <==> r in db.reports) &&
              (r in db.reports ==> Overlay(db.reports, writes)[r] == db.reports[r])
    {
      OverlayElsewhere(db.reports, writes, r);
    }
    forall r | r in db.reports && (db.reports[r].projectId.Some? || db.reports[r].source != Unset)
      ensures forall wr :: wr in writes ==> wr.report != r
    {
      NeverWritten(m0, acts, plan, r);
    }
  }

  /** A report that is linked or detached is not written, as long as nobody else changes that. */
  lemma {:induction false} NeverWritten(m: Moment, acts: seq<Act>, plan: LinkPlan, r: int)
    requires Proper(Alone(), m, acts, plan)
    requires r in m.db.reports && (m.db.reports[r].projectId.Some? || m.db.reports[r].source != Unset)
    ensures forall wr :: wr in Writes(acts) ==> wr.report != r
    ensures var db := Played(Alone(), m, acts).db; r in db.reports && db.reports[r] == m.db.reports[r]
  {
    if |acts| > 0 {
      var init, last := acts[..|acts| - 1], acts[|acts| - 1];
      forall i | 0 <= i < |init| && init[i].Links? ensures RightAt(Played(Alone(), m, init[..i]), init[i].write, plan) {
        assert init[..i] == acts[..i];
      }
      NeverWritten(m, init, plan, r);
    }
  }

  // ---- every report is accounted for -----------------------------------------------------------------------------------

  lemma {:induction false} AccountsAddUp(env: Environment, t: Tally, part: seq<Candidate>, alive: set<int>)
    ensures var u := Accounts(env, t, part, alive); u.linked + Sum(u.unmatched) == t.linked + Sum(t.unmatched) + |part|
  {
    if |part| > 0 {
      AccountsAddUp(env, t, part[..|part| - 1], alive);
      var before := Accounts(env, t, part[..|part| - 1], alive);
      var (at, reason) := LinkStatement(env, before.at, part[|part| - 1], alive);
      if reason.Some? { CountedAddsOne(before.unmatched, reason.value); }
    }
  }

  lemma {:induction false} ChunksAddUp(env: Environment, t: Tally, candidates: seq<Candidate>)
    ensures var u := Chunks(env, t, candidates); u.linked + Sum(u.unmatched) == t.linked + Sum(t.unmatched) + |candidates|
    decreases |candidates|
  {
    if |candidates| > 0 {
      var n := FirstChunk(candidates);
      var (locked, alive) := ShareLock(env, t, candidates[..n]);
      AccountsAddUp(env, locked, candidates[..n], alive);
      ChunksAddUp(env, Chunk(env, t, candidates[..n]), candidates[n..]);
    }
  }

  /** Dry or real, and whatever others do: the reports examined are the linked, the undecided and the unmatched. */
  lemma EveryReportIsAccountedFor(env: Environment, db: Tables, plan: LinkPlan, dryRun: bool)
    ensures var r := AutoLinkWith(env, db, plan, dryRun).1;
            r.examined == |plan.reports| == r.linked + r.ambiguous + Sum(r.unmatched)
  {
    EveryReportIsCounted(plan.reports, plan.projects);
    ChunksAddUp(env, Tally(Moment(db, NO_LOCKS), [], Reasons(plan.reports, plan.projects), 0),
                Candidates(plan.reports, plan.projects));
  }
}
