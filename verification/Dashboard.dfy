/** Ageing, reviewers' load, data quality and KPIs (shared/portfolio-metrics.ts, shared/project-metrics.ts). */
module Dashboard {
  import opened Wrappers
  import opened Portfolio

  // ---- ageing ----------------------------------------------------------------------------------------------------------

  const COHORTS: nat := 5

  predicate InCohort(k: nat, age: int) {
    match k
    case 0 => 0 <= age <= 30
    case 1 => 31 <= age <= 90
    case 2 => 91 <= age <= 180
    case 3 => 181 <= age <= 365
    case _ => 366 <= age
  }

  function Clamped(due: int, today: int): int {
    var age := (today - due * DAY) / DAY;
    if age < 0 then 0 else age
  }

  /** Open rows whose age, a date still ahead counting as today, lies in this cohort. */
  function AgedInto(k: nat, today: int): Test {
    (r: Review) => r.status.Some? && IsOpen(r.status.value) && r.due.Some? && InCohort(k, Clamped(r.due.value, today))
  }

  function CountAges(ages: seq<int>, k: nat): nat {
    if |ages| == 0 then 0 else CountAges(ages[..|ages| - 1], k) + if InCohort(k, ages[|ages| - 1]) then 1 else 0
  }

  datatype AgeKey = Cohort(k: nat) | NoDate

  function AgeTests(today: int): AgeKey -> Test {
    (key: AgeKey) => match key case Cohort(k) => AgedInto(k, today) case NoDate => Undated()
  }

  function AgeFigure(ages: seq<int>, undated: nat): AgeKey -> nat {
    (key: AgeKey) => match key case Cohort(k) => CountAges(ages, k) case NoDate => undated
  }

  method AgingOfOpenReviews(projects: seq<Project>, today: int) returns (cohorts: seq<nat>, undatedOpen: nat)
    ensures |cohorts| == COHORTS && forall k :: 0 <= k < COHORTS ==> cohorts[k] == CountAll(projects, AgedInto(k, today))
    ensures undatedOpen == CountAll(projects, Undated())
  {
    ghost var family := AgeTests(today);
    var ages: seq<int> := [];
    undatedOpen := 0;
    for i := 0 to |projects|
      invariant Totalled(family, projects[..i], [], AgeFigure(ages, undatedOpen))
    {
      var p := projects[i];
      for j := 0 to |p.reviews|
        invariant Totalled(family, projects[..i], p.reviews[..j], AgeFigure(ages, undatedOpen))
      {
        var ages', undated' := Age(p.reviews[j], today, ages, undatedOpen);
        TotalledReview(family, projects[..i], p, j, AgeFigure(ages, undatedOpen), AgeFigure(ages', undated'));
        ages, undatedOpen := ages', undated';
      }
      assert p.reviews[..|p.reviews|] == p.reviews;
      TotalledProject(family, projects, i, AgeFigure(ages, undatedOpen));
    }
    assert projects[..|projects|] == projects;
    assert AgeFigure(ages, undatedOpen)(NoDate) == CountAll(projects, family(NoDate));
    cohorts := [];
    for k := 0 to COHORTS
      invariant |cohorts| == k && forall n :: 0 <= n < k ==> cohorts[n] == CountAges(ages, n)
    {
      var count := FilterAges(ages, k);
      cohorts := cohorts + [count];
    }
    forall k | 0 <= k < COHORTS ensures cohorts[k] == CountAll(projects, AgedInto(k, today)) {
      assert AgeFigure(ages, undatedOpen)(Cohort(k)) == CountAll(projects, family(Cohort(k)));
    }
  }

  method Age(r: Review, today: int, ages: seq<int>, undated: nat) returns (ages': seq<int>, undated': nat)
    ensures Adds1(AgeTests(today), r, AgeFigure(ages, undated), AgeFigure(ages', undated'))
  {
    ages', undated' := ages, undated;
    if r.status.None? || !IsOpen(r.status.value) { return; }
    if r.due.None? {
      undated' := undated' + 1;
      return;
    }
    ages' := ages' + [Clamped(r.due.value, today)];
    assert ages'[..|ages|] == ages;
  }

  method FilterAges(ages: seq<int>, k: nat) returns (count: nat)
    ensures count == CountAges(ages, k)
  {
    count := 0;
    for i := 0 to |ages|
      invariant count == CountAges(ages[..i], k)
    {
      assert ages[..i + 1][..i] == ages[..i];
      if InCohort(k, ages[i]) { count := count + 1; }
    }
    assert ages[..|ages|] == ages;
  }

  // ---- who carries the work --------------------------------------------------------------------------------------------

  datatype Load = Load(open: nat, done: nat, total: nat)

  datatype LoadKey = OpenOf(name: string) | DoneOf(name: string) | TotalOf(name: string) | NobodysOpen | AllOpen

  function LoadTests(): LoadKey -> Test {
    (key: LoadKey) =>
      match key
      case OpenOf(name) => OpenBy(name)
      case DoneOf(name) => DoneBy(name)
      case TotalOf(name) => RequiredBy(name)
      case NobodysOpen => Unassigned()
      case AllOpen => Open()
  }

  function OpenBy(name: string): Test {
    (r: Review) => r.status.Some? && IsOpen(r.status.value) && r.pruefer == name && name != ""
  }

  function DoneBy(name: string): Test {
    (r: Review) => r.status.Some? && IsDone(r.status.value) && r.pruefer == name && name != ""
  }

  function RequiredBy(name: string): Test {
    (r: Review) => r.status.Some? && !r.status.value.NichtErforderlich? && r.pruefer == name && name != ""
  }

  function LoadAt(loads: map<string, Load>, name: string): Load {
    if name in loads then loads[name] else Load(0, 0, 0)
  }

  function LoadFigure(loads: map<string, Load>, unassigned: nat, total: nat): LoadKey -> nat {
    (key: LoadKey) =>
      match key
      case OpenOf(name) => LoadAt(loads, name).open
      case DoneOf(name) => LoadAt(loads, name).done
      case TotalOf(name) => LoadAt(loads, name).total
      case NobodysOpen => unassigned
      case AllOpen => total
  }

  method ReviewerConcentration(projects: seq<Project>)
    returns (loads: map<string, Load>, unassignedOpen: nat, totalOpen: nat)
    ensures unassignedOpen == CountAll(projects, Unassigned()) && totalOpen == CountAll(projects, Open())
    ensures forall name ::
              LoadAt(loads, name) == Load(CountAll(projects, OpenBy(name)), CountAll(projects, DoneBy(name)),
                                          CountAll(projects, RequiredBy(name)))
  {
    ghost var family := LoadTests();
    loads, unassignedOpen, totalOpen := map[], 0, 0;
    for i := 0 to |projects|
      invariant Totalled(family, projects[..i], [], LoadFigure(loads, unassignedOpen, totalOpen))
    {
      var p := projects[i];
      for j := 0 to |p.reviews|
        invariant Totalled(family, projects[..i], p.reviews[..j], LoadFigure(loads, unassignedOpen, totalOpen))
      {
        var loads', unassigned', total' := Assign(p.reviews[j], loads, unassignedOpen, totalOpen);
        TotalledReview(family, projects[..i], p, j, LoadFigure(loads, unassignedOpen, totalOpen),
                       LoadFigure(loads', unassigned', total'));
        loads, unassignedOpen, totalOpen := loads', unassigned', total';
      }
      assert p.reviews[..|p.reviews|] == p.reviews;
      TotalledProject(family, projects, i, LoadFigure(loads, unassignedOpen, totalOpen));
    }
    assert projects[..|projects|] == projects;
    ghost var figure := LoadFigure(loads, unassignedOpen, totalOpen);
    assert figure(NobodysOpen) == CountAll(projects, family(NobodysOpen));
    assert figure(AllOpen) == CountAll(projects, family(AllOpen));
    forall name
      ensures LoadAt(loads, name) == Load(CountAll(projects, OpenBy(name)), CountAll(projects, DoneBy(name)),
                                          CountAll(projects, RequiredBy(name)))
    {
      assert figure(OpenOf(name)) == CountAll(projects, family(OpenOf(name)));
      assert figure(DoneOf(name)) == CountAll(projects, family(DoneOf(name)));
      assert figure(TotalOf(name)) == CountAll(projects, family(TotalOf(name)));
    }
  }

  method Assign(r: Review, loads: map<string, Load>, unassigned: nat, total: nat)
    returns (loads': map<string, Load>, unassigned': nat, total': nat)
    ensures Adds1(LoadTests(), r, LoadFigure(loads, unassigned, total), LoadFigure(loads', unassigned', total'))
  {
    loads', unassigned', total' := loads, unassigned, total;
    if r.status.None? || r.status.value.NichtErforderlich? { return; }
    var open := IsOpen(r.status.value);
    if open { total' := total' + 1; }
    if r.pruefer == "" {
      if open { unassigned' := unassigned' + 1; }
      return;
    }
    var entry := LoadAt(loads, r.pruefer);
    entry := entry.(total := entry.total + 1);
    if open { entry := entry.(open := entry.open + 1); }
    else if IsDone(r.status.value) { entry := entry.(done := entry.done + 1); }
    loads' := loads'[r.pruefer := entry];
  }

  // ---- how much can be trusted -----------------------------------------------------------------------------------------

  datatype QualityKey = QUnmapped | QBlank | QUnclassified(status: Status) | QNoReviewer | QNoDate | QRows

  function QualityTests(): QualityKey -> Test {
    (key: QualityKey) =>
      match key
      case QUnmapped => Unmapped()
      case QBlank => WithoutStatus()
      case QUnclassified(s) => UnclassifiedAs(s)
      case QNoReviewer => Unassigned()
      case QNoDate => Undated()
      case QRows => Any()
  }

  predicate OutsideBuckets(s: Status) {
    !s.NichtErforderlich? && !IsOpen(s) && !IsDone(s) && !IsBlocked(s)
  }

  function UnclassifiedAs(s: Status): Test {
    (r: Review) => r.status == Some(s) && OutsideBuckets(s)
  }

  datatype Quality = Quality(
    unmappedStatus: nat, reviewsWithoutStatus: nat, unclassified: map<Status, nat>, openWithoutPruefer: nat,
    openWithoutDate: nat, totalReviews: nat)

  function CountOf(counts: map<Status, nat>, s: Status): nat {
    if s in counts then counts[s] else 0
  }

  function QualityFigure(q: Quality): QualityKey -> nat {
    (key: QualityKey) =>
      match key
      case QUnmapped => q.unmappedStatus
      case QBlank => q.reviewsWithoutStatus
      case QUnclassified(s) => CountOf(q.unclassified, s)
      case QNoReviewer => q.openWithoutPruefer
      case QNoDate => q.openWithoutDate
      case QRows => q.totalReviews
  }

  method DataQuality(projects: seq<Project>) returns (q: Quality)
    ensures q.unmappedStatus == CountAll(projects, Unmapped())
    ensures q.reviewsWithoutStatus == CountAll(projects, WithoutStatus())
    ensures forall s :: CountOf(q.unclassified, s) == CountAll(projects, UnclassifiedAs(s))
    ensures q.openWithoutPruefer == CountAll(projects, Unassigned()) && q.openWithoutDate == CountAll(projects, Undated())
    ensures q.totalReviews == CountAll(projects, Any())
  {
    ghost var family := QualityTests();
    q := Quality(0, 0, map[], 0, 0, 0);
    for i := 0 to |projects|
      invariant Totalled(family, projects[..i], [], QualityFigure(q))
    {
      var p := projects[i];
      for j := 0 to |p.reviews|
        invariant Totalled(family, projects[..i], p.reviews[..j], QualityFigure(q))
      {
        var q' := Inspect(p.reviews[j], q);
        TotalledReview(family, projects[..i], p, j, QualityFigure(q), QualityFigure(q'));
        q := q';
      }
      assert p.reviews[..|p.reviews|] == p.reviews;
      TotalledProject(family, projects, i, QualityFigure(q));
    }
    assert projects[..|projects|] == projects;
    QualityIsCounted(projects, q);
  }

  lemma QualityIsCounted(projects: seq<Project>, q: Quality)
    requires Totalled(QualityTests(), projects, [], QualityFigure(q))
    ensures q.unmappedStatus == CountAll(projects, Unmapped())
    ensures q.reviewsWithoutStatus == CountAll(projects, WithoutStatus())
    ensures forall s :: CountOf(q.unclassified, s) == CountAll(projects, UnclassifiedAs(s))
    ensures q.openWithoutPruefer == CountAll(projects, Unassigned()) && q.openWithoutDate == CountAll(projects, Undated())
    ensures q.totalReviews == CountAll(projects, Any())
  {
    var family := QualityTests();
    forall s ensures CountOf(q.unclassified, s) == CountAll(projects, UnclassifiedAs(s)) {
      assert QualityFigure(q)(QUnclassified(s)) == CountAll(projects, family(QUnclassified(s)));
    }
    assert QualityFigure(q)(QUnmapped) == CountAll(projects, family(QUnmapped));
    assert QualityFigure(q)(QBlank) == CountAll(projects, family(QBlank));
    assert QualityFigure(q)(QNoReviewer) == CountAll(projects, family(QNoReviewer));
    assert QualityFigure(q)(QNoDate) == CountAll(projects, family(QNoDate));
    assert QualityFigure(q)(QRows) == CountAll(projects, family(QRows));
  }

  method Inspect(r: Review, q0: Quality) returns (q: Quality)
    ensures Adds1(QualityTests(), r, QualityFigure(q0), QualityFigure(q))
  {
    q := q0.(totalReviews := q0.totalReviews + 1);
    if r.raw == "" { q := q.(reviewsWithoutStatus := q.reviewsWithoutStatus + 1); }
    if r.raw != "" && r.status.None? { q := q.(unmappedStatus := q.unmappedStatus + 1); }
    if r.status.Some? && OutsideBuckets(r.status.value) {
      var s := r.status.value;
      q := q.(unclassified := q.unclassified[s := CountOf(q.unclassified, s) + 1]);
    }
    if r.status.Some? && IsOpen(r.status.value) {
      if r.pruefer == "" { q := q.(openWithoutPruefer := q.openWithoutPruefer + 1); }
      if r.due.None? { q := q.(openWithoutDate := q.openWithoutDate + 1); }
    }
  }

  // ---- KPIs (shared/project-metrics.ts) --------------------------------------------------------------------------------

  datatype MetricKey = MOpen | MApproved | MNotRequired | MUnresolved | MBlocked | MRows

  /** No canonical status, or one in none of the groups. */
  function Unresolved(): Test {
    (r: Review) => r.status.None? || OutsideBuckets(r.status.value)
  }

  /** Mid-flight: open, and more than queued. */
  function InFlight(): Test {
    (r: Review) => r.status.Some? && (r.status.value.InBearbeitung? || r.status.value.Prueffaehig? ||
                                      r.status.value.Nachforderung?)
  }

  function MetricTests(): MetricKey -> Test {
    (key: MetricKey) =>
      match key
      case MOpen => Open()
      case MApproved => Approved()
      case MNotRequired => NotRequired()
      case MUnresolved => Unresolved()
      case MBlocked => Stopped()
      case MRows => Any()
  }

  /** The one bucket of a project, from its rows. */
  datatype Bucket = InBlocked | InCompleted | InActive | InNotStarted | InUnclassified

  function BucketOf(reviews: seq<Review>): Bucket {
    if Count(reviews, Stopped()) > 0 then InBlocked
    else if Count(reviews, Required()) > 0 && Count(reviews, Approved()) == Count(reviews, Required()) then InCompleted
    else if Count(reviews, InFlight()) > 0 then InActive
    else if Count(reviews, Required()) > 0 then InNotStarted
    else InUnclassified
  }

  function CountBucket(projects: seq<Project>, b: Bucket): nat {
    if |projects| == 0 then 0
    else CountBucket(projects[..|projects| - 1], b) + if BucketOf(projects[|projects| - 1].reviews) == b then 1 else 0
  }

  datatype Metrics = Metrics(
    total: nat, active: nat, completed: nat, blocked: nat, notStarted: nat, unclassified: nat,
    openReviews: nat, approvedReviews: nat, notRequiredReviews: nat, unresolvedReviews: nat, blockedReviews: nat,
    totalReviews: nat)

  function MetricFigure(m: Metrics): MetricKey -> nat {
    (key: MetricKey) =>
      match key
      case MOpen => m.openReviews
      case MApproved => m.approvedReviews
      case MNotRequired => m.notRequiredReviews
      case MUnresolved => m.unresolvedReviews
      case MBlocked => m.blockedReviews
      case MRows => m.totalReviews
  }

  ghost predicate Bucketed(m: Metrics, projects: seq<Project>) {
    && m.active == CountBucket(projects, InActive) && m.completed == CountBucket(projects, InCompleted)
    && m.blocked == CountBucket(projects, InBlocked) && m.notStarted == CountBucket(projects, InNotStarted)
    && m.unclassified == CountBucket(projects, InUnclassified)
  }

  /** The counters of one project while its rows are walked. */
  datatype Counters = Counters(required: nat, approved: nat, inFlight: nat, blocked: nat)

  ghost predicate CountersOf(c: Counters, reviews: seq<Review>) {
    && c.required == Count(reviews, Required()) && c.approved == Count(reviews, Approved())
    && c.inFlight == Count(reviews, InFlight()) && c.blocked == Count(reviews, Stopped())
  }

  method DeriveProjectMetrics(projects: seq<Project>) returns (m: Metrics)
    ensures m.total == |projects| && Bucketed(m, projects)
    ensures m.openReviews == CountAll(projects, Open()) && m.approvedReviews == CountAll(projects, Approved())
    ensures m.notRequiredReviews == CountAll(projects, NotRequired())
    ensures m.unresolvedReviews == CountAll(projects, Unresolved())
    ensures m.blockedReviews == CountAll(projects, Stopped()) && m.totalReviews == CountAll(projects, Any())
  {
    ghost var family := MetricTests();
    m := Metrics(|projects|, 0, 0, 0, 0, 0, 0, 0, 0, 0, 0, 0);
    for i := 0 to |projects|
      invariant m.total == |projects| && Bucketed(m, projects[..i])
      invariant Totalled(family, projects[..i], [], MetricFigure(m))
    {
      var p := projects[i];
      var c := Counters(0, 0, 0, 0);
      for j := 0 to |p.reviews|
        invariant m.total == |projects| && Bucketed(m, projects[..i]) && CountersOf(c, p.reviews[..j])
        invariant Totalled(family, projects[..i], p.reviews[..j], MetricFigure(m))
      {
        var m', c' := Measure(p.reviews[j], m, c);
        CountersNext(p.reviews, j, c, c');
        TotalledReview(family, projects[..i], p, j, MetricFigure(m), MetricFigure(m'));
        m, c := m', c';
      }
      assert p.reviews[..|p.reviews|] == p.reviews;
      TotalledProject(family, projects, i, MetricFigure(m));
      m := Place(projects, i, m, c);
    }
    assert projects[..|projects|] == projects;
    MetricsAreCounted(projects, m);
  }

  lemma MetricsAreCounted(projects: seq<Project>, m: Metrics)
    requires Totalled(MetricTests(), projects, [], MetricFigure(m))
    ensures m.openReviews == CountAll(projects, Open()) && m.approvedReviews == CountAll(projects, Approved())
    ensures m.notRequiredReviews == CountAll(projects, NotRequired())
    ensures m.unresolvedReviews == CountAll(projects, Unresolved())
    ensures m.blockedReviews == CountAll(projects, Stopped()) && m.totalReviews == CountAll(projects, Any())
  {
    var family := MetricTests();
    assert MetricFigure(m)(MOpen) == CountAll(projects, family(MOpen));
    assert MetricFigure(m)(MApproved) == CountAll(projects, family(MApproved));
    assert MetricFigure(m)(MNotRequired) == CountAll(projects, family(MNotRequired));
    assert MetricFigure(m)(MUnresolved) == CountAll(projects, family(MUnresolved));
    assert MetricFigure(m)(MBlocked) == CountAll(projects, family(MBlocked));
    assert MetricFigure(m)(MRows) == CountAll(projects, family(MRows));
  }

  /** Which counters one row moves. */
  predicate Moved(c: Counters, c': Counters, r: Review) {
    && c'.required == c.required + (if Required()(r) then 1 else 0)
    && c'.approved == c.approved + (if Approved()(r) then 1 else 0)
    && c'.inFlight == c.inFlight + (if InFlight()(r) then 1 else 0)
    && c'.blocked == c.blocked + (if Stopped()(r) then 1 else 0)
  }

  method Measure(r: Review, m0: Metrics, c0: Counters) returns (m: Metrics, c: Counters)
    ensures Adds1(MetricTests(), r, MetricFigure(m0), MetricFigure(m)) && Moved(c0, c, r)
    ensures m == m0.(openReviews := m.openReviews, approvedReviews := m.approvedReviews,
                     notRequiredReviews := m.notRequiredReviews, unresolvedReviews := m.unresolvedReviews,
                     blockedReviews := m.blockedReviews, totalReviews := m.totalReviews)
  {
    m, c := m0.(totalReviews := m0.totalReviews + 1), c0;
    if r.status.None? {
      m := m.(unresolvedReviews := m.unresolvedReviews + 1);
      return;
    }
    var status := r.status.value;
    if status.NichtErforderlich? {
      m := m.(notRequiredReviews := m.notRequiredReviews + 1);
      return;
    }
    c := c.(required := c.required + 1);
    if IsDone(status) {
      c, m := c.(approved := c.approved + 1), m.(approvedReviews := m.approvedReviews + 1);
    } else if IsBlocked(status) {
      c, m := c.(blocked := c.blocked + 1), m.(blockedReviews := m.blockedReviews + 1);
    } else if IsOpen(status) {
      m := m.(openReviews := m.openReviews + 1);
      if status.InBearbeitung? || status.Prueffaehig? || status.Nachforderung? { c := c.(inFlight := c.inFlight + 1); }
    } else {
      m := m.(unresolvedReviews := m.unresolvedReviews + 1);
    }
  }

  lemma CountersNext(reviews: seq<Review>, j: nat, c: Counters, c': Counters)
    requires j < |reviews| && CountersOf(c, reviews[..j]) && Moved(c, c', reviews[j])
    ensures CountersOf(c', reviews[..j + 1])
  {
    CountNext(reviews, j, Required());
    CountNext(reviews, j, Approved());
    CountNext(reviews, j, InFlight());
    CountNext(reviews, j, Stopped());
  }

  /** The project goes into its bucket. */
  method Place(projects: seq<Project>, i: nat, m0: Metrics, c: Counters) returns (m: Metrics)
    requires i < |projects| && Bucketed(m0, projects[..i]) && CountersOf(c, projects[i].reviews)
    ensures Bucketed(m, projects[..i + 1]) && m.total == m0.total
    ensures forall key :: MetricFigure(m)(key) == MetricFigure(m0)(key)
  {
    m := m0;
    if c.blocked > 0 {
      m := m.(blocked := m.blocked + 1);
    } else if c.required > 0 && c.approved == c.required {
      m := m.(completed := m.completed + 1);
    } else if c.inFlight > 0 {
      m := m.(active := m.active + 1);
    } else if c.required > 0 {
      m := m.(notStarted := m.notStarted + 1);
    } else {
      m := m.(unclassified := m.unclassified + 1);
    }
    assert projects[..i + 1][..i] == projects[..i];
  }
}
