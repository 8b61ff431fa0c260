/** The dashboard's passes give the same numbers, on every dataset where they can. */
module Agreement {
  import opened Wrappers
  import opened Sequences
  import opened Portfolio
  import opened Standings
  import opened Dashboard

  // ---- overdue ---------------------------------------------------------------------------------------------------------

  /** Standings and needs for action agree on what is overdue, row by row, exactly when `today` is a midnight. */
  lemma OverdueAgreesAtMidnight(today: int)
    ensures (forall r: Review :: AgedOpen(today)(r) <==> MatchesBedarf(Overdue, today)(r)) <==> today % DAY == 0
  {
    var due := today / DAY;
    var r: Review := Row("EEA", "offen", Some(Offen), "", Some(due));
    assert today - due * DAY == today % DAY;
    assert AgeInDays(r.due, today) == Some(0);
    assert !AgedOpen(today)(r);
    assert MatchesBedarf(Overdue, today)(r) <==> today % DAY != 0;
    if today % DAY == 0 {
      forall r: Review ensures AgedOpen(today)(r) <==> MatchesBedarf(Overdue, today)(r) {
        if r.due.Some? { AgeAtMidnight(r.due.value, today / DAY); }
      }
    }
  }

  lemma AgeAtMidnight(due: int, day: int)
    ensures (day * DAY - due * DAY) / DAY == day - due
  {
    assert day * DAY - due * DAY == (day - due) * DAY;
  }

  // ---- standings, summed -------------------------------------------------------------------------------------------------

  /** The sum over all Gewerke of one figure. */
  function SumFirst(projects: seq<Project>, departments: seq<string>, test: Test): nat {
    if |departments| == 0 then 0
    else SumFirst(projects, departments[..|departments| - 1], test) +
         CountFirst(projects, departments[|departments| - 1], test)
  }

  function InDepartment(department: string, test: Test): Test {
    (r: Review) => r.department == department && test(r)
  }

  function AmongDepartments(departments: seq<string>, test: Test): Test {
    (r: Review) => r.department in departments && test(r)
  }

  /** A project has at most one row of a listed Gewerk. */
  ghost predicate OneRowEach(p: Project, departments: seq<string>) {
    forall i, j :: 0 <= i < j < |p.reviews| && p.reviews[i].department in departments ==>
                   p.reviews[i].department != p.reviews[j].department
  }

  lemma {:induction false} NoRow(reviews: seq<Review>, department: string, test: Test)
    requires forall i :: 0 <= i < |reviews| ==> reviews[i].department != department
    ensures Count(reviews, InDepartment(department, test)) == 0
  {
    if |reviews| > 0 { NoRow(reviews[..|reviews| - 1], department, test); }
  }

  lemma {:induction false} FirstIsThere(reviews: seq<Review>, department: string) returns (i: nat)
    ensures FirstOf(reviews, department).Some? ==>
              i < |reviews| && FirstOf(reviews, department).value == reviews[i] && reviews[i].department == department
    ensures FirstOf(reviews, department).None? ==> forall k :: 0 <= k < |reviews| ==> reviews[k].department != department
  {
    i := 0;
    if |reviews| > 0 && reviews[0].department != department {
      var k := FirstIsThere(reviews[1..], department);
      assert forall n :: 1 <= n < |reviews| ==> reviews[n] == reviews[1..][n - 1];
      i := k + 1;
    }
  }

  lemma {:induction false} OnlyRow(reviews: seq<Review>, department: string, test: Test, i: nat)
    requires i < |reviews| && reviews[i].department == department
    requires forall k :: 0 <= k < |reviews| && k != i ==> reviews[k].department != department
    ensures Count(reviews, InDepartment(department, test)) == if test(reviews[i]) then 1 else 0
  {
    var rest := reviews[..|reviews| - 1];
    if i == |reviews| - 1 { NoRow(rest, department, test); } else { OnlyRow(rest, department, test, i); }
  }

  /** With one row per listed Gewerk, the first row is every row. */
  lemma FirstIsAll(p: Project, departments: seq<string>, department: string, test: Test)
    requires OneRowEach(p, departments) && department in departments
    ensures var first := FirstOf(p.reviews, department);
            Count(p.reviews, InDepartment(department, test)) == if first.Some? && test(first.value) then 1 else 0
  {
    var i := FirstIsThere(p.reviews, department);
    if FirstOf(p.reviews, department).Some? {
      OnlyRow(p.reviews, department, test, i);
    } else {
      NoRow(p.reviews, department, test);
    }
  }

  lemma {:induction false} FirstCountsAll(projects: seq<Project>, departments: seq<string>, department: string, test: Test)
    requires department in departments && forall i :: 0 <= i < |projects| ==> OneRowEach(projects[i], departments)
    ensures CountFirst(projects, department, test) == CountAll(projects, InDepartment(department, test))
  {
    if |projects| > 0 {
      FirstCountsAll(projects[..|projects| - 1], departments, department, test);
      FirstIsAll(projects[|projects| - 1], departments, department, test);
    }
  }

  lemma {:induction false} SumCountsListed(projects: seq<Project>, listed: seq<string>, departments: seq<string>, test: Test)
    requires Distinct(departments) && (forall d :: d in departments ==> d in listed)
    requires forall i :: 0 <= i < |projects| ==> OneRowEach(projects[i], listed)
    ensures SumFirst(projects, departments, test) == CountAll(projects, AmongDepartments(departments, test))
    decreases |departments|
  {
    if |departments| == 0 {
      CountNone(projects, AmongDepartments([], test));
    } else {
      var last := |departments| - 1;
      var rest, d := departments[..last], departments[last];
      SumCountsListed(projects, listed, rest, test);
      FirstCountsAll(projects, listed, d, test);
      assert departments == rest + [d] && d !in rest;
      CountAllSplits(projects, AmongDepartments(departments, test), AmongDepartments(rest, test), InDepartment(d, test));
    }
  }

  lemma {:induction false} CountNone(projects: seq<Project>, test: Test)
    requires forall r: Review :: !test(r)
    ensures CountAll(projects, test) == 0
  {
    if |projects| > 0 {
      CountNone(projects[..|projects| - 1], test);
      CountNoneIn(projects[|projects| - 1].reviews, test);
    }
  }

  lemma {:induction false} CountNoneIn(reviews: seq<Review>, test: Test)
    requires forall r: Review :: !test(r)
    ensures Count(reviews, test) == 0
  {
    if |reviews| > 0 { CountNoneIn(reviews[..|reviews| - 1], test); }
  }

  // ---- rows the standings pass over ------------------------------------------------------------------------------------

  /** This row is the one a standing looks at: of a listed Gewerk, and its project's first of that Gewerk. */
  ghost predicate LookedAt(reviews: seq<Review>, j: nat, departments: seq<string>)
    requires j < |reviews|
  {
    reviews[j].department in departments && forall i :: 0 <= i < j ==> reviews[i].department != reviews[j].department
  }

  /** No row that passes is passed over. */
  ghost predicate AllLookedAt(reviews: seq<Review>, departments: seq<string>, test: Test) {
    forall j :: 0 <= j < |reviews| && test(reviews[j]) ==> LookedAt(reviews, j, departments)
  }

  ghost predicate NothingPassedOver(projects: seq<Project>, departments: seq<string>, test: Test) {
    forall i :: 0 <= i < |projects| ==> AllLookedAt(projects[i].reviews, departments, test)
  }

  /** The first row of every Gewerk. */
  function Firsts(reviews: seq<Review>): seq<Review> {
    if |reviews| == 0 then []
    else
      var init, last := reviews[..|reviews| - 1], reviews[|reviews| - 1];
      Firsts(init) + if FirstOf(init, last.department).None? then [last] else []
  }

  /** The rows that pass and are passed over. */
  function Missed(reviews: seq<Review>, departments: seq<string>, test: Test): nat {
    if |reviews| == 0 then 0
    else
      var init, last := reviews[..|reviews| - 1], reviews[|reviews| - 1];
      Missed(init, departments, test) +
      if test(last) && (last.department !in departments || FirstOf(init, last.department).Some?) then 1 else 0
  }

  lemma {:induction false} FirstOfAppended(reviews: seq<Review>, r: Review, department: string)
    ensures FirstOf(reviews + [r], department) ==
            if FirstOf(reviews, department).Some? then FirstOf(reviews, department)
            else if r.department == department then Some(r) else None
  {
    if |reviews| == 0 {
      assert FirstOf([r][1..], department) == None;
    } else {
      assert (reviews + [r])[1..] == reviews[1..] + [r];
      FirstOfAppended(reviews[1..], r, department);
    }
  }

  lemma {:induction false} FirstsKeepFirst(reviews: seq<Review>, department: string)
    ensures FirstOf(Firsts(reviews), department) == FirstOf(reviews, department)
  {
    if |reviews| > 0 {
      var init, last := reviews[..|reviews| - 1], reviews[|reviews| - 1];
      assert reviews == init + [last];
      FirstsKeepFirst(init, department);
      FirstOfAppended(init, last, department);
      FirstOfAppended(Firsts(init), last, department);
      assert Firsts(init) + [] == Firsts(init);
    }
  }

  lemma {:induction false} FirstsAreDistinct(reviews: seq<Review>)
    ensures var f := Firsts(reviews); forall i, j :: 0 <= i < j < |f| ==> f[i].department != f[j].department
  {
    if |reviews| > 0 {
      var init, last := reviews[..|reviews| - 1], reviews[|reviews| - 1];
      FirstsAreDistinct(init);
      FirstsKeepFirst(init, last.department);
      var _ := FirstIsThere(Firsts(init), last.department);
    }
  }

  lemma {:induction false} FirstsAndMissed(reviews: seq<Review>, departments: seq<string>, test: Test)
    ensures Count(reviews, test) ==
            Count(Firsts(reviews), AmongDepartments(departments, test)) + Missed(reviews, departments, test)
  {
    if |reviews| > 0 {
      var init, last := reviews[..|reviews| - 1], reviews[|reviews| - 1];
      FirstsAndMissed(init, departments, test);
      var f := Firsts(init);
      assert (f + [last])[..|f|] == f && f + [] == f;
    }
  }

  lemma {:induction false} NoneMissed(reviews: seq<Review>, departments: seq<string>, test: Test)
    ensures Missed(reviews, departments, test) == 0 <==> AllLookedAt(reviews, departments, test)
  {
    if |reviews| > 0 {
      var last := |reviews| - 1;
      var init := reviews[..last];
      NoneMissed(init, departments, test);
      var _ := FirstIsThere(init, reviews[last].department);
      assert forall j :: 0 <= j < last ==> (LookedAt(init, j, departments) <==> LookedAt(reviews, j, departments));
      assert LookedAt(reviews, last, departments) <==>
             reviews[last].department in departments && FirstOf(init, reviews[last].department).None?;
    }
  }

  /** Every project with the first row of every Gewerk only. */
  function FirstRows(projects: seq<Project>): seq<Project> {
    if |projects| == 0 then []
    else
      var last := projects[|projects| - 1];
      FirstRows(projects[..|projects| - 1]) + [Project(last.id, Firsts(last.reviews))]
  }

  lemma {:induction false} FirstRowsOnce(projects: seq<Project>, departments: seq<string>)
    ensures forall p :: p in FirstRows(projects) ==> OneRowEach(p, departments)
  {
    if |projects| > 0 {
      var last := projects[|projects| - 1];
      FirstRowsOnce(projects[..|projects| - 1], departments);
      FirstsAreDistinct(last.reviews);
      assert OneRowEach(Project(last.id, Firsts(last.reviews)), departments);
    }
  }

  lemma {:induction false} FirstRowsCountFirst(projects: seq<Project>, department: string, test: Test)
    ensures CountFirst(FirstRows(projects), department, test) == CountFirst(projects, department, test)
  {
    if |projects| > 0 {
      var init := projects[..|projects| - 1];
      FirstRowsCountFirst(init, department, test);
      FirstsKeepFirst(projects[|projects| - 1].reviews, department);
      assert FirstRows(projects)[..|FirstRows(init)|] == FirstRows(init);
    }
  }

  lemma {:induction false} FirstRowsSumFirst(projects: seq<Project>, departments: seq<string>, test: Test)
    ensures SumFirst(FirstRows(projects), departments, test) == SumFirst(projects, departments, test)
  {
    if |departments| > 0 {
      FirstRowsSumFirst(projects, departments[..|departments| - 1], test);
      FirstRowsCountFirst(projects, departments[|departments| - 1], test);
    }
  }

  /** One project: what its first rows show, against all its rows. */
  lemma ShownOfProject(reviews: seq<Review>, departments: seq<string>, test: Test)
    ensures var shown := Count(Firsts(reviews), AmongDepartments(departments, test));
            && shown <= Count(reviews, test)
            && (shown == Count(reviews, test) <==> AllLookedAt(reviews, departments, test))
  {
    FirstsAndMissed(reviews, departments, test);
    NoneMissed(reviews, departments, test);
  }

  lemma PassedOverNext(projects: seq<Project>, departments: seq<string>, test: Test)
    requires |projects| > 0
    ensures NothingPassedOver(projects, departments, test) <==>
            NothingPassedOver(projects[..|projects| - 1], departments, test) &&
            AllLookedAt(projects[|projects| - 1].reviews, departments, test)
  {
    var init := projects[..|projects| - 1];
    assert forall i :: 0 <= i < |init| ==> projects[i] == init[i];
  }

  lemma FirstRowsNext(projects: seq<Project>, among: Test)
    requires |projects| > 0
    ensures CountAll(FirstRows(projects), among) ==
            CountAll(FirstRows(projects[..|projects| - 1]), among) + Count(Firsts(projects[|projects| - 1].reviews), among)
  {
    var init := projects[..|projects| - 1];
    assert FirstRows(projects)[..|FirstRows(init)|] == FirstRows(init);
  }

  lemma {:induction false} AllButMissed(projects: seq<Project>, departments: seq<string>, test: Test)
    ensures var shown := CountAll(FirstRows(projects), AmongDepartments(departments, test));
            && shown <= CountAll(projects, test)
            && (shown == CountAll(projects, test) <==> NothingPassedOver(projects, departments, test))
  {
    if |projects| > 0 {
      AllButMissed(projects[..|projects| - 1], departments, test);
      ShownOfProject(projects[|projects| - 1].reviews, departments, test);
      FirstRowsNext(projects, AmongDepartments(departments, test));
      PassedOverNext(projects, departments, test);
    }
  }

  /**
   * Summed over the Gewerke, a standing figure never exceeds the number of rows of the whole dataset, and is that number
   * exactly when every row counted is its project's first of a listed Gewerk.
   */
  lemma StandingsSumUp(projects: seq<Project>, departments: seq<string>, test: Test)
    requires Distinct(departments)
    ensures SumFirst(projects, departments, test) <= CountAll(projects, test)
    ensures SumFirst(projects, departments, test) == CountAll(projects, test) <==>
            NothingPassedOver(projects, departments, test)
  {
    var first := FirstRows(projects);
    FirstRowsOnce(projects, departments);
    SumCountsListed(first, departments, departments, test);
    FirstRowsSumFirst(projects, departments, test);
    AllButMissed(projects, departments, test);
  }

  /** A second row of a Gewerk is counted by the needs for action and not by the standings. */
  lemma SecondRowIsMissed()
    ensures var r: Review := Row("EEA", "gestoppt", Some(Gestoppt), "", None);
            var projects := [Project(1, [r, r])];
            SumFirst(projects, ["EEA"], Stopped()) == 1 && CountAll(projects, Stopped()) == 2
  {
    var r: Review := Row("EEA", "gestoppt", Some(Gestoppt), "", None);
    var reviews := [r, r];
    assert reviews[..1] == [r] && [r][..0] == [];
    assert Count([r], Stopped()) == 1 && Count(reviews, Stopped()) == 2;
    var projects := [Project(1, reviews)];
    assert projects[..0] == [] && ["EEA"][..0] == [];
    assert SumFirst(projects, ["EEA"], Stopped()) == SumFirst(projects, [], Stopped()) + CountFirst(projects, "EEA", Stopped());
  }

  // ---- row partitions --------------------------------------------------------------------------------------------------

  /** An open row has no date, or an age in one cohort. */
  lemma OpenIsAgedOrUndated(projects: seq<Project>, today: int)
    ensures CountAll(projects, Open()) ==
            CountAll(projects, AgedInto(0, today)) + CountAll(projects, AgedInto(1, today)) +
            CountAll(projects, AgedInto(2, today)) + CountAll(projects, AgedInto(3, today)) +
            CountAll(projects, AgedInto(4, today)) + CountAll(projects, Undated())
  {
    var from4 := AgedFrom(4, today);
    CountAllSplits(projects, Open(), AgedFrom(0, today), Undated());
    CountAllSplits(projects, AgedFrom(0, today), AgedInto(0, today), AgedFrom(1, today));
    CountAllSplits(projects, AgedFrom(1, today), AgedInto(1, today), AgedFrom(2, today));
    CountAllSplits(projects, AgedFrom(2, today), AgedInto(2, today), AgedFrom(3, today));
    CountAllSplits(projects, AgedFrom(3, today), AgedInto(3, today), from4);
    CountAllSame(projects, from4, AgedInto(4, today));
  }

  function CohortStart(k: nat): int {
    match k
    case 0 => 0
    case 1 => 31
    case 2 => 91
    case 3 => 181
    case _ => 366
  }

  function AgedFrom(k: nat, today: int): Test {
    (r: Review) =>
      r.status.Some? && IsOpen(r.status.value) && r.due.Some? && Clamped(r.due.value, today) >= CohortStart(k)
  }

  /** A canonical status is in exactly one group. */
  lemma OneGroup(s: Status)
    ensures (if IsOpen(s) then 1 else 0) + (if IsDone(s) then 1 else 0) + (if IsBlocked(s) then 1 else 0) +
            (if s == NichtErforderlich then 1 else 0) + (if OutsideBuckets(s) then 1 else 0) == 1
    ensures OutsideBuckets(s) <==> s in {Projektkonfig, PruefungErfolgt, Zurueckgestellt}
  {
    match s
    case NichtErforderlich => case Offen => case Projektkonfig => case InBearbeitung => case Nachforderung =>
    case Prueffaehig => case PruefungErfolgt => case ZustimmungErteilt => case NiederschriftErstellt =>
    case Abgelehnt => case Zurueckgestellt => case Gestoppt =>
  }

  /** Every row is open, approved, not required, blocked or unresolved. */
  lemma RowsPartition(projects: seq<Project>)
    ensures CountAll(projects, Any()) ==
            CountAll(projects, Open()) + CountAll(projects, Approved()) + CountAll(projects, NotRequired()) +
            CountAll(projects, Stopped()) + CountAll(projects, Unresolved())
  {
    var notOpen := (r: Review) => r.status.None? || !IsOpen(r.status.value);
    var notApproved := (r: Review) => r.status.None? || (!IsOpen(r.status.value) && !IsDone(r.status.value));
    var rest := (r: Review) => r.status.None? || IsBlocked(r.status.value) || OutsideBuckets(r.status.value);
    forall r: Review
      ensures (notApproved(r) <==> NotRequired()(r) || rest(r)) && !(NotRequired()(r) && rest(r))
      ensures !(Open()(r) && Approved()(r)) && !(Stopped()(r) && Unresolved()(r))
    {
      if r.status.Some? { OneGroup(r.status.value); }
    }
    CountAllSplits(projects, Any(), Open(), notOpen);
    CountAllSplits(projects, notOpen, Approved(), notApproved);
    CountAllSplits(projects, notApproved, NotRequired(), rest);
    CountAllSplits(projects, rest, Stopped(), Unresolved());
  }

  /** Every project is in one bucket. */
  lemma {:induction false} ProjectsPartition(projects: seq<Project>)
    ensures |projects| == CountBucket(projects, InActive) + CountBucket(projects, InCompleted) +
                          CountBucket(projects, InBlocked) + CountBucket(projects, InNotStarted) +
                          CountBucket(projects, InUnclassified)
  {
    if |projects| > 0 { ProjectsPartition(projects[..|projects| - 1]); }
  }

  /** The KPI's unresolved rows are the blank, the unmapped and the unclassified of the quality panel. */
  lemma UnresolvedIsExplained(projects: seq<Project>)
    ensures CountAll(projects, Unresolved()) ==
            CountAll(projects, WithoutStatus()) + CountAll(projects, Unmapped()) +
            CountAll(projects, UnclassifiedAs(Projektkonfig)) + CountAll(projects, UnclassifiedAs(PruefungErfolgt)) +
            CountAll(projects, UnclassifiedAs(Zurueckgestellt))
  {
    var none := (r: Review) => r.status.None?;
    var two := (r: Review) => r.status in {Some(PruefungErfolgt), Some(Zurueckgestellt)};
    forall r: Review
      ensures Unresolved()(r) <==> none(r) || Unclassified()(r)
      ensures Unclassified()(r) <==> UnclassifiedAs(Projektkonfig)(r) || two(r)
    {
      if r.status.Some? { OneGroup(r.status.value); }
    }
    CountAllSplits(projects, Unresolved(), none, Unclassified());
    CountAllSplits(projects, none, WithoutStatus(), Unmapped());
    CountAllSplits(projects, Unclassified(), UnclassifiedAs(Projektkonfig), two);
    CountAllSplits(projects, two, UnclassifiedAs(PruefungErfolgt), UnclassifiedAs(Zurueckgestellt));
  }

  // ---- the tone bands that are work ------------------------------------------------------------------------------------

  const WORK_TONES: seq<Tone> := [Pending, Paused, Active, Attention, InReview, Done, Blocked]

  /** `requiredTones`: the rows in every band but "neutral", and the rows left out. */
  method RequiredTones(projects: seq<Project>, department: Option<string>) returns (required: nat, notRequired: nat)
    ensures required == CountAll(projects, OfGewerk(department, Required()))
    ensures notRequired == CountAll(projects, OfGewerk(department, NotRequired()))
  {
    var rows, hit := CountTones(projects, department);
    required := 0;
    CountNone(projects, InTones(WORK_TONES[..0], department));
    for k := 0 to |WORK_TONES|
      invariant required == CountAll(projects, InTones(WORK_TONES[..k], department))
    {
      var tone := WORK_TONES[k];
      assert WORK_TONES[..k + 1] == WORK_TONES[..k] + [tone] && tone !in WORK_TONES[..k];
      CountAllSplits(projects, InTones(WORK_TONES[..k + 1], department), InTones(WORK_TONES[..k], department),
                     MatchesTone(tone, department));
      required := required + Figure(rows)(tone);
    }
    assert WORK_TONES[..|WORK_TONES|] == WORK_TONES;
    notRequired := Figure(rows)(Neutral);
    WorkIsRequired(projects, department);
  }

  function OfGewerk(department: Option<string>, test: Test): Test {
    (r: Review) => (department.None? || r.department == department.value) && test(r)
  }

  function InTones(tones: seq<Tone>, department: Option<string>): Test {
    (r: Review) =>
      (department.None? || r.department == department.value) && r.status.Some? && ToneOf(r.status.value) in tones
  }

  lemma NeutralIsNotWork(s: Status)
    ensures ToneOf(s) in WORK_TONES <==> !s.NichtErforderlich?
    ensures ToneOf(s) == Neutral <==> s.NichtErforderlich?
  {
    match s
    case NichtErforderlich => assert Neutral !in WORK_TONES;
    case Offen => assert WORK_TONES[0] == Pending;
    case Projektkonfig => assert WORK_TONES[1] == Paused;
    case InBearbeitung => assert WORK_TONES[2] == Active;
    case Nachforderung => assert WORK_TONES[3] == Attention;
    case Prueffaehig => assert WORK_TONES[4] == InReview;
    case PruefungErfolgt => assert WORK_TONES[4] == InReview;
    case ZustimmungErteilt => assert WORK_TONES[5] == Done;
    case NiederschriftErstellt => assert WORK_TONES[5] == Done;
    case Abgelehnt => assert WORK_TONES[6] == Portfolio.Blocked;
    case Zurueckgestellt => assert WORK_TONES[1] == Paused;
    case Gestoppt => assert WORK_TONES[6] == Portfolio.Blocked;
  }

  lemma WorkIsRequired(projects: seq<Project>, department: Option<string>)
    ensures CountAll(projects, InTones(WORK_TONES, department)) == CountAll(projects, OfGewerk(department, Required()))
    ensures CountAll(projects, MatchesTone(Neutral, department)) == CountAll(projects, OfGewerk(department, NotRequired()))
  {
    forall r: Review
      ensures InTones(WORK_TONES, department)(r) <==> OfGewerk(department, Required())(r)
      ensures MatchesTone(Neutral, department)(r) <==> OfGewerk(department, NotRequired())(r)
    {
      if r.status.Some? { NeutralIsNotWork(r.status.value); }
    }
    CountAllSame(projects, InTones(WORK_TONES, department), OfGewerk(department, Required()));
    CountAllSame(projects, MatchesTone(Neutral, department), OfGewerk(department, NotRequired()));
  }

  // ---- one dashboard ---------------------------------------------------------------------------------------------------

  function SumOverdue(s: seq<Standing>): nat { if |s| == 0 then 0 else SumOverdue(s[..|s| - 1]) + s[|s| - 1].overdue }

  function SumBlocked(s: seq<Standing>): nat { if |s| == 0 then 0 else SumBlocked(s[..|s| - 1]) + s[|s| - 1].blocked }

  function SumUnassigned(s: seq<Standing>): nat {
    if |s| == 0 then 0 else SumUnassigned(s[..|s| - 1]) + s[|s| - 1].unassigned
  }

  lemma {:induction false} SumsOfStandings(standings: seq<Standing>, projects: seq<Project>, departments: seq<string>, today: int)
    requires |standings| == |departments|
    requires forall k :: 0 <= k < |standings| ==>
               standings[k].department == departments[k] && Figures(standings[k], projects, today)
    ensures SumOverdue(standings) == SumFirst(projects, departments, AgedOpen(today))
    ensures SumBlocked(standings) == SumFirst(projects, departments, Stopped())
    ensures SumUnassigned(standings) == SumFirst(projects, departments, Unassigned())
  {
    if |standings| > 0 {
      var last := |standings| - 1;
      SumsOfStandings(standings[..last], projects, departments[..last], today);
      var s := standings[last];
      assert Value(s, FOverdue) == CountFirst(projects, s.department, TestOf(FOverdue, today));
      assert Value(s, FBlocked) == CountFirst(projects, s.department, TestOf(FBlocked, today));
      assert Value(s, FUnassigned) == CountFirst(projects, s.department, TestOf(FUnassigned, today));
    }
  }

  /**
   * All panels on one dataset, at midnight: what they show of the same thing is the same number; only the standings, which
   * look at the first row of each listed Gewerk, show the same number exactly when no such row is passed over.
   */
  method ShowDashboard(projects: seq<Project>, departments: seq<string>, today: int)
    returns (standings: seq<Standing>, bedarf: map<Bedarf, nat>, cohorts: seq<nat>, undatedOpen: nat, unassignedOpen: nat,
             q: Quality, m: Metrics)
    requires today % DAY == 0 && Distinct(departments)
    ensures AllKeys(bedarf) && |cohorts| == COHORTS
    ensures bedarf[BlockedWork] == m.blockedReviews && bedarf[NoReviewer] == unassignedOpen == q.openWithoutPruefer
    ensures SumOverdue(standings) == bedarf[Overdue] <==> NothingPassedOver(projects, departments, AgedOpen(today))
    ensures SumBlocked(standings) == bedarf[BlockedWork] <==> NothingPassedOver(projects, departments, Stopped())
    ensures SumUnassigned(standings) == bedarf[NoReviewer] <==> NothingPassedOver(projects, departments, Unassigned())
    ensures undatedOpen == q.openWithoutDate
    ensures cohorts[0] + cohorts[1] + cohorts[2] + cohorts[3] + cohorts[4] + undatedOpen == m.openReviews
    ensures m.openReviews + m.approvedReviews + m.notRequiredReviews + m.blockedReviews + m.unresolvedReviews ==
            m.totalReviews == q.totalReviews
    ensures m.active + m.completed + m.blocked + m.notStarted + m.unclassified == m.total == |projects|
    ensures m.unresolvedReviews ==
            q.reviewsWithoutStatus + q.unmappedStatus + CountOf(q.unclassified, Projektkonfig) +
            CountOf(q.unclassified, PruefungErfolgt) + CountOf(q.unclassified, Zurueckgestellt)
  {
    standings := GewerkStandings(projects, departments, today);
    var hit;
    bedarf, hit := CountBedarf(projects, today);
    cohorts, undatedOpen := AgingOfOpenReviews(projects, today);
    var loads, totalOpen;
    loads, unassignedOpen, totalOpen := ReviewerConcentration(projects);
    q := DataQuality(projects);
    m := DeriveProjectMetrics(projects);
    SumsOfStandings(standings, projects, departments, today);
    StandingsSumUp(projects, departments, AgedOpen(today));
    StandingsSumUp(projects, departments, Stopped());
    StandingsSumUp(projects, departments, Unassigned());
    BedarfIsCounted(projects, today);
    OpenIsAgedOrUndated(projects, today);
    RowsPartition(projects);
    ProjectsPartition(projects);
    UnresolvedIsExplained(projects);
  }

  lemma BedarfIsCounted(projects: seq<Project>, today: int)
    requires today % DAY == 0
    ensures CountAll(projects, MatchesBedarf(Overdue, today)) == CountAll(projects, AgedOpen(today))
    ensures CountAll(projects, MatchesBedarf(BlockedWork, today)) == CountAll(projects, Stopped())
    ensures CountAll(projects, MatchesBedarf(NoReviewer, today)) == CountAll(projects, Unassigned())
  {
    OverdueAgreesAtMidnight(today);
    CountAllSame(projects, MatchesBedarf(Overdue, today), AgedOpen(today));
    CountAllSame(projects, MatchesBedarf(BlockedWork, today), Stopped());
    CountAllSame(projects, MatchesBedarf(NoReviewer, today), Unassigned());
  }
}
