/** The dashboard passes (shared/portfolio-metrics.ts, shared/project-metrics.ts), each proved against the one way of counting. */
module Standings {
  import opened Wrappers
  import opened Portfolio

  // ---- standing of each Gewerk -----------------------------------------------------------------------------------------

  function FirstOf(reviews: seq<Review>, department: string): Option<Review> {
    if |reviews| == 0 then None
    else if reviews[0].department == department then Some(reviews[0])
    else FirstOf(reviews[1..], department)
  }

  /** The projects whose first row of this Gewerk passes. */
  function CountFirst(projects: seq<Project>, department: string, test: Test): nat {
    if |projects| == 0 then 0
    else
      var first := FirstOf(projects[|projects| - 1].reviews, department);
      CountFirst(projects[..|projects| - 1], department, test) + if first.Some? && test(first.value) then 1 else 0
  }

  lemma CountFirstNext(projects: seq<Project>, i: nat, department: string, test: Test)
    requires i < |projects|
    ensures var first := FirstOf(projects[i].reviews, department);
            CountFirst(projects[..i + 1], department, test) ==
            CountFirst(projects[..i], department, test) + if first.Some? && test(first.value) then 1 else 0
  {
    assert projects[..i + 1][..i] == projects[..i];
  }

  datatype Standing = Standing(
    department: string, required: nat, open: nat, approved: nat, blocked: nat, other: nat, notRequired: nat,
    unassigned: nat, overdue: nat, oldestOpenDays: Option<int>, riskScore: nat)

  /** Every figure of a standing but the oldest age. */
  ghost predicate Figures(s: Standing, projects: seq<Project>, today: int) {
    forall f: Column :: Value(s, f) == CountFirst(projects, s.department, TestOf(f, today))
  }

  /** The figures of a standing, by name. */
  datatype Column = FRequired | FOpen | FApproved | FBlocked | FOther | FNotRequired | FUnassigned | FOverdue

  function Value(s: Standing, f: Column): nat {
    match f
    case FRequired => s.required
    case FOpen => s.open
    case FApproved => s.approved
    case FBlocked => s.blocked
    case FOther => s.other
    case FNotRequired => s.notRequired
    case FUnassigned => s.unassigned
    case FOverdue => s.overdue
  }

  /** What each figure counts. */
  function TestOf(f: Column, today: int): Test {
    match f
    case FRequired => Required()
    case FOpen => Open()
    case FApproved => Approved()
    case FBlocked => Stopped()
    case FOther => Unclassified()
    case FNotRequired => NotRequired()
    case FUnassigned => Unassigned()
    case FOverdue => AgedOpen(today)
  }

  /** The greatest age in days among the overdue rows of a Gewerk; none when there is none. */
  ghost predicate OldestOf(oldest: Option<int>, projects: seq<Project>, department: string, today: int) {
    && (oldest.Some? ==> exists i :: 0 <= i < |projects| && AgedAt(projects[i], department, today) == oldest)
    && forall i :: 0 <= i < |projects| && AgedAt(projects[i], department, today).Some? ==>
                   oldest.Some? && AgedAt(projects[i], department, today).value <= oldest.value
  }

  /** The age of a project's row of this Gewerk, if the row is open and overdue. */
  function AgedAt(p: Project, department: string, today: int): Option<int> {
    var first := FirstOf(p.reviews, department);
    if first.Some? && AgedOpen(today)(first.value) then AgeInDays(first.value.due, today) else None
  }

  method Find(reviews: seq<Review>, department: string) returns (r: Option<Review>)
    ensures r == FirstOf(reviews, department)
  {
    for j := 0 to |reviews|
      invariant FirstOf(reviews, department) == FirstOf(reviews[j..], department)
    {
      assert reviews[j..][1..] == reviews[j + 1..];
      if reviews[j].department == department { return Some(reviews[j]); }
    }
    return None;
  }

  /** One Gewerk: one pass over the projects. */
  method StandingOf(projects: seq<Project>, department: string, today: int) returns (s: Standing)
    ensures s.department == department && Figures(s, projects, today)
    ensures OldestOf(s.oldestOpenDays, projects, department, today)
    ensures s.riskScore == 3 * s.blocked + 2 * s.overdue + s.unassigned
  {
    s := Standing(department, 0, 0, 0, 0, 0, 0, 0, 0, None, 0);
    for i := 0 to |projects|
      invariant s.department == department && Figures(s, projects[..i], today)
      invariant OldestOf(s.oldestOpenDays, projects[..i], department, today)
    {
      var review := Find(projects[i].reviews, department);
      OldestNext(s.oldestOpenDays, projects, i, department, today);
      if review.None? || review.value.status.None? {
        NoFigure(s, review, today);
        FiguresNext(s, s, projects, i, today);
        continue;
      }
      var s' := Tally(s, review.value, today);
      EveryFigure(s, s', review.value, today);
      FiguresNext(s, s', projects, i, today);
      s := s';
    }
    assert projects[..|projects|] == projects;
    var ranked := s.(riskScore := 3 * s.blocked + 2 * s.overdue + s.unassigned);
    assert forall f: Column :: Value(ranked, f) == Value(s, f);
    s := ranked;
  }

  /** One row of the Gewerk. */
  method Tally(s0: Standing, r: Review, today: int) returns (s: Standing)
    requires r.status.Some?
    ensures s.department == s0.department
    ensures s.required == s0.required + One(Required()(r)) && s.open == s0.open + One(Open()(r))
    ensures s.approved == s0.approved + One(Approved()(r)) && s.blocked == s0.blocked + One(Stopped()(r))
    ensures s.other == s0.other + One(Unclassified()(r)) && s.notRequired == s0.notRequired + One(NotRequired()(r))
    ensures s.unassigned == s0.unassigned + One(Unassigned()(r)) && s.overdue == s0.overdue + One(AgedOpen(today)(r))
    ensures s.oldestOpenDays == if AgedOpen(today)(r) then Some(Older(s0.oldestOpenDays, AgeInDays(r.due, today).value))
                                else s0.oldestOpenDays
  {
    s := s0;
    var status := r.status.value;
    if status.NichtErforderlich? {
      s := s.(notRequired := s.notRequired + 1);
      return;
    }
    s := s.(required := s.required + 1);
    if IsOpen(status) {
      s := s.(open := s.open + 1);
      if r.pruefer == "" { s := s.(unassigned := s.unassigned + 1); }
      var age := AgeInDays(r.due, today);
      if age.Some? && age.value > 0 {
        s := s.(overdue := s.overdue + 1);
        if s.oldestOpenDays.None? || age.value > s.oldestOpenDays.value { s := s.(oldestOpenDays := age); }
      }
    } else if IsDone(status) {
      s := s.(approved := s.approved + 1);
    } else if IsBlocked(status) {
      s := s.(blocked := s.blocked + 1);
    } else {
      s := s.(other := s.other + 1);
    }
  }

  function One(b: bool): nat {
    if b then 1 else 0
  }

  function Older(oldest: Option<int>, age: int): int {
    if oldest.None? || age > oldest.value then age else oldest.value
  }

  predicate Passing(first: Option<Review>, f: Column, today: int) {
    first.Some? && TestOf(f, today)(first.value)
  }

  /** Every figure has gone up by one for this row if the row is of its kind. */
  ghost predicate Counted(s: Standing, s': Standing, first: Option<Review>, today: int) {
    forall f :: Value(s', f) == Value(s, f) + One(Passing(first, f, today))
  }

  lemma FiguresNext(s: Standing, s': Standing, projects: seq<Project>, i: nat, today: int)
    requires i < |projects| && Figures(s, projects[..i], today) && s'.department == s.department
    requires Counted(s, s', FirstOf(projects[i].reviews, s.department), today)
    ensures Figures(s', projects[..i + 1], today)
  {
    forall f: Column ensures Value(s', f) == CountFirst(projects[..i + 1], s'.department, TestOf(f, today)) {
      CountFirstNext(projects, i, s.department, TestOf(f, today));
    }
  }

  /** The figures after a row that is missing or has no canonical status: as they were. */
  lemma NoFigure(s: Standing, first: Option<Review>, today: int)
    requires first.None? || first.value.status.None?
    ensures Counted(s, s, first, today)
  {
    forall f ensures !Passing(first, f, today) {}
  }

  lemma EveryFigure(s0: Standing, s: Standing, r: Review, today: int)
    requires s.required == s0.required + One(Required()(r)) && s.open == s0.open + One(Open()(r))
    requires s.approved == s0.approved + One(Approved()(r)) && s.blocked == s0.blocked + One(Stopped()(r))
    requires s.other == s0.other + One(Unclassified()(r)) && s.notRequired == s0.notRequired + One(NotRequired()(r))
    requires s.unassigned == s0.unassigned + One(Unassigned()(r)) && s.overdue == s0.overdue + One(AgedOpen(today)(r))
    ensures Counted(s0, s, Some(r), today)
  {
    forall f ensures Value(s, f) == Value(s0, f) + One(Passing(Some(r), f, today)) {
      assert Passing(Some(r), f, today) == TestOf(f, today)(r);
    }
  }

  lemma OldestNext(oldest: Option<int>, projects: seq<Project>, i: nat, department: string, today: int)
    requires i < |projects| && OldestOf(oldest, projects[..i], department, today)
    ensures var aged := AgedAt(projects[i], department, today);
            OldestOf(if aged.Some? then Some(Older(oldest, aged.value)) else oldest, projects[..i + 1], department, today)
  {
    var before, after := projects[..i], projects[..i + 1];
    assert forall k :: 0 <= k < i ==> after[k] == before[k];
    assert after[i] == projects[i];
    if oldest.Some? {
      var k :| 0 <= k < |before| && AgedAt(before[k], department, today) == oldest;
      assert AgedAt(after[k], department, today) == oldest;
    }
  }

  method GewerkStandings(projects: seq<Project>, departments: seq<string>, today: int) returns (out: seq<Standing>)
    ensures |out| == |departments|
    ensures forall k :: 0 <= k < |out| ==>
              && out[k].department == departments[k] && Figures(out[k], projects, today)
              && OldestOf(out[k].oldestOpenDays, projects, departments[k], today)
              && out[k].riskScore == 3 * out[k].blocked + 2 * out[k].overdue + out[k].unassigned
  {
    out := [];
    for k := 0 to |departments|
      invariant |out| == k
      invariant forall n :: 0 <= n < k ==>
                  && out[n].department == departments[n] && Figures(out[n], projects, today)
                  && OldestOf(out[n].oldestOpenDays, projects, departments[n], today)
                  && out[n].riskScore == 3 * out[n].blocked + 2 * out[n].overdue + out[n].unassigned
    {
      var s := StandingOf(projects, departments[k], today);
      out := out + [s];
    }
  }
}
