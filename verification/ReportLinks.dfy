/** Links between ITK reports and projects (server/domain/pruefberichtLinkService.ts, shared/itk/project-link.ts). */
module ReportLinks {
  import opened Wrappers
  import opened Sequences
  import opened Store
  import opened Contracts
  import opened Permissions
  import opened Booking

  /** Editors who see every workspace, and admins. */
  predicate CanLink(p: Principal) {
    Unrestricted(p) && CanWriteRole(p)
  }

  function LinkedTo(v: Option<int>): Value {
    NumberOrNull(v)
  }

  function LinkAudit(report: int, row: ReportRow, projectId: Option<int>): AuditBatch {
    AuditBatch(OfReport(report), map[Field("projectId") := Change(LinkedTo(row.projectId), LinkedTo(projectId))], None,
               Some(row.version + 1), None)
  }

  /** A report gets another link, by its version guard, with one audit row. */
  function LinkStep(db: Tables, report: int, projectId: Option<int>, source: LinkSource): Tables
    requires report in db.reports
  {
    var row := db.reports[report];
    db.(reports := db.reports[report := row.(projectId := projectId, source := source, version := row.version + 1)],
        audit := db.audit + [LinkAudit(report, row, projectId)])
  }

  // ---- one person's choice ---------------------------------------------------------------------------------------------

  function SetLinkWithin(w: World, db: Tables, p: Principal, input: LinkInput): Result<Tables, Error> {
    if input.projectId.Some? &&
       (input.projectId.value !in db.projects ||
        !CanEdit(w.fold, p, WorkspaceOf(db.projects[input.projectId.value].cells))) then Failure(NotFound)
    else if input.id !in db.reports then Failure(NotFound)
    else
      var row := db.reports[input.id];
      if row.version != input.expectedVersion then Failure(Conflict(StaleVersion, input.expectedVersion, row.version))
      else if row.projectId == input.projectId then Success(db)
      else Success(LinkStep(db, input.id, input.projectId, if input.projectId.None? then Detached else Manual))
  }

  method SetLinkInTransaction(w: World, db: TxDatabase, p: Principal, input: LinkInput) returns (r: Result<int, Error>)
    modifies db
    ensures var spec := SetLinkWithin(w, old(db.state), p, input);
            && db.state == (if spec.Success? then spec.value else old(db.state))
            && (spec.Success? ==> input.id in spec.value.reports && r == Success(spec.value.reports[input.id].version))
            && (spec.Failure? ==> r == Failure(spec.error))
  {
    if input.projectId.Some? {
      var project := db.LockProject(input.projectId.value);
      if project.None? || !CanEdit(w.fold, p, WorkspaceOf(project.value.cells)) { return Failure(NotFound); }
    }
    var row := db.LockReport(input.id);
    if row.None? { return Failure(NotFound); }
    if row.value.version != input.expectedVersion {
      return Failure(Conflict(StaleVersion, input.expectedVersion, row.value.version));
    }
    if row.value.projectId == input.projectId { return Success(row.value.version); }
    var ok := db.SetReportProject(input.id, row.value.version, input.projectId,
                                  if input.projectId.None? then Detached else Manual);
    db.AppendAudit(LinkAudit(input.id, row.value, input.projectId));
    return Success(row.value.version + 1);
  }

  // ---- the evidence rule -----------------------------------------------------------------------------------------------

  datatype Verdict = Unique(projectId: int) | Several(candidates: seq<int>) | Unmatched(reason: UnmatchedReason)

  function Ids(s: seq<LinkProject>): seq<int> {
    seq(|s|, i requires 0 <= i < |s| => s[i].id)
  }

  function OneOrSeveral(s: seq<LinkProject>): Verdict {
    if |s| == 1 then Unique(s[0].id) else Several(Ids(s))
  }

  /** Same number and station; and, where the report states its phase, of that phase or of none. */
  predicate SameNumber(e: Evidence, p: LinkProject) {
    p.evidence.number == e.number
  }

  predicate SamePlace(e: Evidence, p: LinkProject) {
    SameNumber(e, p) && p.evidence.station == e.station
  }

  predicate InPhase(phase: Option<Phase>, p: LinkProject) {
    p.evidence.phase == phase
  }

  function Match(e: Evidence, projects: seq<LinkProject>): Verdict {
    if e.number == "" then Unmatched(NoNumber)
    else
      var sameNumber := Filter(projects, p => SameNumber(e, p));
      if |sameNumber| == 0 then Unmatched(UnknownNumber)
      else if e.station == "" then Unmatched(NoStation)
      else
        var both := Filter(sameNumber, p => SamePlace(e, p));
        if |both| == 0 then Unmatched(OtherStation)
        else if e.phase.None? then OneOrSeveral(both)
        else
          var samePhase := Filter(both, p => InPhase(e.phase, p));
          var open := Filter(both, p => InPhase(None, p));
          if |samePhase| > 0 then OneOrSeveral(samePhase)
          else if |open| == 0 then Unmatched(OtherPhase)
          else OneOrSeveral(open)
  }

  /** How well a project at the report's place fits its phase: 2 exactly, 1 not against it, 0 against it. */
  function Fit(e: Evidence, p: LinkProject): nat {
    if e.number == "" || e.station == "" || !SamePlace(e, p) then 0
    else if e.phase.None? || p.evidence.phase == e.phase then 2
    else if p.evidence.phase.None? then 1
    else 0
  }

  /** The one project that fits, and fits best. */
  ghost predicate OnlyBest(e: Evidence, projects: seq<LinkProject>, i: nat) {
    && i < |projects| && Fit(e, projects[i]) > 0
    && forall j :: 0 <= j < |projects| && j != i ==> Fit(e, projects[j]) < Fit(e, projects[i])
  }

  /** The projects at the report's place whose phase is this one. */
  function PlacePhase(e: Evidence, phase: Option<Phase>): LinkProject -> bool {
    p => SamePlace(e, p) && InPhase(phase, p)
  }

  function Place(e: Evidence): LinkProject -> bool {
    p => SamePlace(e, p)
  }

  /** The rule with its filters taken at once. */
  lemma MatchAtOnce(e: Evidence, projects: seq<LinkProject>)
    requires e.number != "" && e.station != ""
    ensures var both := Filter(projects, Place(e));
            var samePhase, open := Filter(projects, PlacePhase(e, e.phase)), Filter(projects, PlacePhase(e, None));
            (|both| == 0 ==> Match(e, projects).Unmatched?) &&
            (|both| > 0 ==>
             Match(e, projects) == if e.phase.None? then OneOrSeveral(both)
                                   else if |samePhase| > 0 then OneOrSeveral(samePhase)
                                   else if |open| == 0 then Unmatched(OtherPhase)
                                   else OneOrSeveral(open))
  {
    FilterMeet(projects, p => SameNumber(e, p), p => SamePlace(e, p), Place(e));
    FilterMeet(projects, Place(e), p => InPhase(e.phase, p), PlacePhase(e, e.phase));
    FilterMeet(projects, Place(e), p => InPhase(None, p), PlacePhase(e, None));
  }

  /** A project at the report's place decides it alone when no other at the place can. */
  lemma OneAt(e: Evidence, projects: seq<LinkProject>, keep: LinkProject -> bool, i: nat)
    requires i < |projects| && keep(projects[i])
    ensures OneOrSeveral(Filter(projects, keep)).Unique? <==>
            forall j :: 0 <= j < |projects| && keep(projects[j]) ==> j == i
    ensures OneOrSeveral(Filter(projects, keep)).Unique? ==>
            OneOrSeveral(Filter(projects, keep)) == Unique(projects[i].id)
  {
    FilterOne(projects, keep, i);
  }

  lemma FitOf(e: Evidence, p: LinkProject)
    requires e.number != "" && e.station != ""
    ensures Fit(e, p) > 0 ==> Place(e)(p)
    ensures Fit(e, p) == 2 <==> Place(e)(p) && (e.phase.None? || PlacePhase(e, e.phase)(p))
    ensures Fit(e, p) == 1 <==> e.phase.Some? && PlacePhase(e, None)(p)
  {
  }

  lemma FitsOf(e: Evidence, projects: seq<LinkProject>)
    requires e.number != "" && e.station != ""
    ensures forall j :: 0 <= j < |projects| ==>
              && (Fit(e, projects[j]) > 0 ==> Place(e)(projects[j]))
              && (Fit(e, projects[j]) == 2 <==>
                  Place(e)(projects[j]) && (e.phase.None? || PlacePhase(e, e.phase)(projects[j])))
              && (Fit(e, projects[j]) == 1 <==> e.phase.Some? && PlacePhase(e, None)(projects[j]))
  {
    forall j | 0 <= j < |projects| { FitOf(e, projects[j]); }
  }

  lemma OnlyBestIsLinked(e: Evidence, projects: seq<LinkProject>, i: nat)
    requires OnlyBest(e, projects, i)
    ensures Match(e, projects) == Unique(projects[i].id)
  {
    MatchAtOnce(e, projects);
    FitsOf(e, projects);
    FilterSome(projects, Place(e), i);
    if e.phase.None? {
      OneAt(e, projects, Place(e), i);
    } else if Fit(e, projects[i]) == 2 {
      OneAt(e, projects, PlacePhase(e, e.phase), i);
    } else {
      FilterNone(projects, PlacePhase(e, e.phase));
      OneAt(e, projects, PlacePhase(e, None), i);
    }
  }

  lemma LinkedIsOnlyBest(e: Evidence, projects: seq<LinkProject>) returns (i: nat)
    requires Match(e, projects).Unique?
    ensures OnlyBest(e, projects, i)
  {
    MatchAtOnce(e, projects);
    FitsOf(e, projects);
    var samePhase := Filter(projects, PlacePhase(e, e.phase));
    var keep := if e.phase.None? then Place(e)
                else if |samePhase| > 0 then PlacePhase(e, e.phase) else PlacePhase(e, None);
    i := FilterWitness(projects, keep);
    OneAt(e, projects, keep, i);
    if e.phase.Some? && |samePhase| == 0 {
      forall j | 0 <= j < |projects| ensures !PlacePhase(e, e.phase)(projects[j]) {
        if PlacePhase(e, e.phase)(projects[j]) { FilterSome(projects, PlacePhase(e, e.phase), j); }
      }
    }
  }

  /** A report is linked without asking exactly when one project fits it and fits it best, and then to that project. */
  lemma LinkedExactlyWhenOnlyBest(e: Evidence, projects: seq<LinkProject>, id: int)
    ensures Match(e, projects) == Unique(id) <==> exists i: nat :: OnlyBest(e, projects, i) && projects[i].id == id
  {
    if i: nat :| OnlyBest(e, projects, i) && projects[i].id == id { OnlyBestIsLinked(e, projects, i); }
    if Match(e, projects) == Unique(id) {
      var i := LinkedIsOnlyBest(e, projects);
      OnlyBestIsLinked(e, projects, i);
    }
  }

  // ---- every report whose evidence is unique ---------------------------------------------------------------------------

  datatype Candidate = Candidate(report: Snapshot, projectId: int)

  function CountAt(m: map<UnmatchedReason, nat>, r: UnmatchedReason): nat {
    if r in m then m[r] else 0
  }

  function Counted(m: map<UnmatchedReason, nat>, r: UnmatchedReason): map<UnmatchedReason, nat> {
    m[r := CountAt(m, r) + 1]
  }

  function Sum(m: map<UnmatchedReason, nat>): nat {
    CountAt(m, NoNumber) + CountAt(m, UnknownNumber) + CountAt(m, NoStation) + CountAt(m, OtherStation) +
    CountAt(m, OtherPhase) + CountAt(m, Gone) + CountAt(m, Changed)
  }

  /** The reports to link, in order. */
  function Candidates(reports: seq<Snapshot>, projects: seq<LinkProject>): seq<Candidate> {
    if |reports| == 0 then []
    else
      var rest, r := Candidates(reports[..|reports| - 1], projects), reports[|reports| - 1];
      match Match(r.evidence, projects)
      case Unique(id) => rest + [Candidate(r, id)]
      case _ => rest
  }

  /** The reports a person has to decide, in order. */
  function Undecided(reports: seq<Snapshot>, projects: seq<LinkProject>): seq<int> {
    if |reports| == 0 then []
    else
      var rest, r := Undecided(reports[..|reports| - 1], projects), reports[|reports| - 1];
      if Match(r.evidence, projects).Several? then rest + [r.id] else rest
  }

  /** The reasons of the others, counted. */
  function Reasons(reports: seq<Snapshot>, projects: seq<LinkProject>): map<UnmatchedReason, nat> {
    if |reports| == 0 then map[]
    else
      var rest := Reasons(reports[..|reports| - 1], projects);
      match Match(reports[|reports| - 1].evidence, projects)
      case Unmatched(reason) => Counted(rest, reason)
      case _ => rest
  }

  lemma CountedAddsOne(m: map<UnmatchedReason, nat>, r: UnmatchedReason)
    ensures Sum(Counted(m, r)) == Sum(m) + 1
  {
    match r
    case NoNumber => case UnknownNumber => case NoStation => case OtherStation =>
    case OtherPhase => case Gone => case Changed =>
  }

  /** Every report examined is linked, undecided or counted under a reason. */
  lemma {:induction false} EveryReportIsCounted(reports: seq<Snapshot>, projects: seq<LinkProject>)
    ensures |Candidates(reports, projects)| + |Undecided(reports, projects)| + Sum(Reasons(reports, projects)) == |reports|
  {
    if |reports| > 0 {
      var rest := reports[..|reports| - 1];
      EveryReportIsCounted(rest, projects);
      match Match(reports[|reports| - 1].evidence, projects)
      case Unmatched(reason) => CountedAddsOne(Reasons(rest, projects), reason);
      case _ =>
    }
  }
}
