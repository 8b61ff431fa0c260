/**
 * The read models over department reviews: standings, ageing, quality, needs for action, status tones, KPIs and drill-downs.
 * Each is its own pass over the data; here each is held against one way of counting, and so against the others.
 */
module Portfolio {
  import opened Wrappers

  /** The canonical statuses (shared/review-status.ts, shared/status-appearance.ts). */
  datatype Status =
    | NichtErforderlich | Offen | Projektkonfig | InBearbeitung | Nachforderung | Prueffaehig | PruefungErfolgt
    | ZustimmungErteilt | NiederschriftErstellt | Abgelehnt | Zurueckgestellt | Gestoppt

  datatype Tone = Neutral | Pending | Paused | Active | Attention | InReview | Done | Blocked

  function ToneOf(s: Status): Tone {
    match s
    case NichtErforderlich => Neutral
    case Offen => Pending
    case Projektkonfig => Paused
    case InBearbeitung => Active
    case Nachforderung => Attention
    case Prueffaehig => InReview
    case PruefungErfolgt => InReview
    case ZustimmungErteilt => Done
    case NiederschriftErstellt => Done
    case Abgelehnt => Blocked
    case Zurueckgestellt => Paused
    case Gestoppt => Blocked
  }

  predicate IsOpen(s: Status) {
    s.Offen? || s.InBearbeitung? || s.Nachforderung? || s.Prueffaehig?
  }

  predicate IsDone(s: Status) {
    s.ZustimmungErteilt? || s.NiederschriftErstellt?
  }

  predicate IsBlocked(s: Status) {
    s.Abgelehnt? || s.Gestoppt?
  }

  /**
   * A review row as every pass sees it: its status text and the canonical status it maps to, if any; the trimmed reviewer;
   * and the day its date parses to, counted from 1970-01-01.
   */
  datatype Row = Row(department: string, raw: string, status: Option<Status>, pruefer: string, due: Option<int>)

  /** A blank status maps to no canonical one. */
  type Review = r: Row | r.raw == "" ==> r.status.None? witness Row("", "", None, "", None)

  datatype Project = Project(id: int, reviews: seq<Review>)

  const DAY: int := 86_400_000

  /** `daysBetween` of a day and an instant in milliseconds. */
  function AgeInDays(due: Option<int>, today: int): Option<int> {
    if due.None? then None else Some((today - due.value * DAY) / DAY)
  }

  // ---- one way of counting ---------------------------------------------------------------------------------------------

  type Test = Review -> bool

  function Count(reviews: seq<Review>, test: Test): nat {
    if |reviews| == 0 then 0
    else Count(reviews[..|reviews| - 1], test) + if test(reviews[|reviews| - 1]) then 1 else 0
  }

  /** The rows of the whole dataset that pass. */
  function CountAll(projects: seq<Project>, test: Test): nat {
    if |projects| == 0 then 0
    else CountAll(projects[..|projects| - 1], test) + Count(projects[|projects| - 1].reviews, test)
  }

  predicate Some_(reviews: seq<Review>, test: Test) {
    exists i :: 0 <= i < |reviews| && test(reviews[i])
  }

  /** The distinct projects with a row that passes. */
  function Hits(projects: seq<Project>, test: Test): set<int> {
    set i | 0 <= i < |projects| && Some_(projects[i].reviews, test) :: projects[i].id
  }

  lemma CountNext(reviews: seq<Review>, j: nat, test: Test)
    requires j < |reviews|
    ensures Count(reviews[..j + 1], test) == Count(reviews[..j], test) + if test(reviews[j]) then 1 else 0
  {
    assert reviews[..j + 1][..j] == reviews[..j];
  }

  lemma CountAllNext(projects: seq<Project>, i: nat, test: Test)
    requires i < |projects|
    ensures CountAll(projects[..i + 1], test) == CountAll(projects[..i], test) + Count(projects[i].reviews, test)
  {
    assert projects[..i + 1][..i] == projects[..i];
  }

  lemma {:induction false} CountSplits(reviews: seq<Review>, whole: Test, a: Test, b: Test)
    requires forall r :: r in reviews ==> (whole(r) <==> a(r) || b(r)) && !(a(r) && b(r))
    ensures Count(reviews, whole) == Count(reviews, a) + Count(reviews, b)
  {
    if |reviews| > 0 { CountSplits(reviews[..|reviews| - 1], whole, a, b); }
  }

  /** Two disjoint tests that make up a third count its rows between them. */
  lemma {:induction false} CountAllSplits(projects: seq<Project>, whole: Test, a: Test, b: Test)
    requires forall r: Review :: (whole(r) <==> a(r) || b(r)) && !(a(r) && b(r))
    ensures CountAll(projects, whole) == CountAll(projects, a) + CountAll(projects, b)
  {
    if |projects| > 0 {
      CountAllSplits(projects[..|projects| - 1], whole, a, b);
      CountSplits(projects[|projects| - 1].reviews, whole, a, b);
    }
  }

  lemma {:induction false} CountSame(reviews: seq<Review>, a: Test, b: Test)
    requires forall r :: r in reviews ==> (a(r) <==> b(r))
    ensures Count(reviews, a) == Count(reviews, b)
  {
    if |reviews| > 0 { CountSame(reviews[..|reviews| - 1], a, b); }
  }

  lemma {:induction false} CountAllSame(projects: seq<Project>, a: Test, b: Test)
    requires forall r: Review :: a(r) <==> b(r)
    ensures CountAll(projects, a) == CountAll(projects, b)
  {
    if |projects| > 0 {
      CountAllSame(projects[..|projects| - 1], a, b);
      CountSame(projects[|projects| - 1].reviews, a, b);
    }
  }

  // ---- the tests -------------------------------------------------------------------------------------------------------

  function Open(): Test { (r: Review) => r.status.Some? && IsOpen(r.status.value) }

  function Approved(): Test { (r: Review) => r.status.Some? && IsDone(r.status.value) }

  function Stopped(): Test { (r: Review) => r.status.Some? && IsBlocked(r.status.value) }

  function NotRequired(): Test { (r: Review) => r.status == Some(NichtErforderlich) }

  function Required(): Test { (r: Review) => r.status.Some? && !r.status.value.NichtErforderlich? }

  function Any(): Test { (r: Review) => true }

  function Unassigned(): Test { (r: Review) => r.status.Some? && IsOpen(r.status.value) && r.pruefer == "" }

  function Undated(): Test { (r: Review) => r.status.Some? && IsOpen(r.status.value) && r.due.None? }

  /** Open and overdue by whole days, as the standings count it. */
  function AgedOpen(today: int): Test {
    (r: Review) => r.status.Some? && IsOpen(r.status.value) && r.due.Some? && AgeInDays(r.due, today).value > 0
  }

  /** Canonical, required, and neither open, approved nor blocked. */
  function Unclassified(): Test {
    (r: Review) => r.status.Some? && (r.status.value.Projektkonfig? || r.status.value.PruefungErfolgt? ||
                                      r.status.value.Zurueckgestellt?)
  }

  function Unmapped(): Test { (r: Review) => r.raw != "" && r.status.None? }

  function WithoutStatus(): Test { (r: Review) => r.raw == "" }

  // ---- needs for action (shared/handlungsbedarf.ts) --------------------------------------------------------------------

  datatype Bedarf = Overdue | BlockedWork | Rework | NoReviewer

  function MatchesBedarf(key: Bedarf, today: int): Test {
    (r: Review) =>
      r.status.Some? &&
      match key
      case BlockedWork => IsBlocked(r.status.value)
      case Rework => r.status.value.Nachforderung?
      case Overdue => IsOpen(r.status.value) && r.due.Some? && r.due.value * DAY < today
      case NoReviewer => IsOpen(r.status.value) && r.pruefer == ""
  }

  function MatchesTone(tone: Tone, department: Option<string>): Test {
    (r: Review) => (department.None? || r.department == department.value) && r.status.Some? && ToneOf(r.status.value) == tone
  }

  const BEDARF: seq<Bedarf> := [Overdue, BlockedWork, Rework, NoReviewer]

  lemma HitsNext(projects: seq<Project>, i: nat, test: Test)
    requires i < |projects|
    ensures Hits(projects[..i + 1], test) ==
            Hits(projects[..i], test) + if Some_(projects[i].reviews, test) then {projects[i].id} else {}
  {
    var before, after := projects[..i], projects[..i + 1];
    forall id ensures id in Hits(after, test) <==>
                      id in Hits(before, test) || (Some_(projects[i].reviews, test) && id == projects[i].id) {
      if id in Hits(after, test) {
        var k :| 0 <= k < |after| && Some_(after[k].reviews, test) && after[k].id == id;
        if k < i { assert before[k] == after[k]; }
      }
      if id in Hits(before, test) {
        var k :| 0 <= k < |before| && Some_(before[k].reviews, test) && before[k].id == id;
        assert after[k] == before[k];
      }
      if Some_(projects[i].reviews, test) && id == projects[i].id { assert after[i] == projects[i]; }
    }
  }

  lemma SomeNext(reviews: seq<Review>, j: nat, test: Test)
    requires j < |reviews|
    ensures Some_(reviews[..j + 1], test) <==> Some_(reviews[..j], test) || test(reviews[j])
  {
    if Some_(reviews[..j + 1], test) {
      var i :| 0 <= i < j + 1 && test(reviews[..j + 1][i]);
      if i < j { assert reviews[..j][i] == reviews[i]; }
    }
    if Some_(reviews[..j], test) {
      var i :| 0 <= i < j && test(reviews[..j][i]);
      assert reviews[..j + 1][i] == reviews[i];
    }
    if test(reviews[j]) { assert reviews[..j + 1][j] == reviews[j]; }
  }

  // ---- counting into maps ----------------------------------------------------------------------------------------------

  function Figure<K>(rows: map<K, nat>): K -> nat {
    (key: K) => if key in rows then rows[key] else 0
  }

  function Ids<K>(hit: map<K, set<int>>): K -> set<int> {
    (key: K) => if key in hit then hit[key] else {}
  }

  /** After some projects and part of one more, every key has its rows and its project ids. */
  ghost predicate Tallied<K(!new)>(family: K -> Test, done: seq<Project>, part: seq<Review>, id: int, rows: K -> nat,
                                   hit: K -> set<int>)
  {
    forall key :: && rows(key) == CountAll(done, family(key)) + Count(part, family(key))
                  && hit(key) == Hits(done, family(key)) + if Some_(part, family(key)) then {id} else {}
  }

  /** One review is counted under every key it passes. */
  ghost predicate Adds<K(!new)>(family: K -> Test, r: Review, id: int, rows: K -> nat, hit: K -> set<int>, rows': K -> nat,
                                hit': K -> set<int>)
  {
    forall key :: && rows'(key) == rows(key) + (if family(key)(r) then 1 else 0)
                  && hit'(key) == hit(key) + if family(key)(r) then {id} else {}
  }

  lemma TalliedReview<K(!new)>(family: K -> Test, done: seq<Project>, p: Project, j: nat, rows: K -> nat, hit: K -> set<int>,
                               rows': K -> nat, hit': K -> set<int>)
    requires j < |p.reviews| && Tallied(family, done, p.reviews[..j], p.id, rows, hit)
    requires Adds(family, p.reviews[j], p.id, rows, hit, rows', hit')
    ensures Tallied(family, done, p.reviews[..j + 1], p.id, rows', hit')
  {
    forall key
      ensures rows'(key) == CountAll(done, family(key)) + Count(p.reviews[..j + 1], family(key))
      ensures hit'(key) == Hits(done, family(key)) + if Some_(p.reviews[..j + 1], family(key)) then {p.id} else {}
    {
      CountNext(p.reviews, j, family(key));
      SomeNext(p.reviews, j, family(key));
    }
  }

  lemma TalliedProject<K(!new)>(family: K -> Test, projects: seq<Project>, i: nat, rows: K -> nat, hit: K -> set<int>)
    requires i < |projects| && Tallied(family, projects[..i], projects[i].reviews, projects[i].id, rows, hit)
    ensures var next := i + 1; forall id :: Tallied(family, projects[..next], [], id, rows, hit)
  {
    forall id, key
      ensures rows(key) == CountAll(projects[..i + 1], family(key)) + Count([], family(key))
      ensures hit(key) == Hits(projects[..i + 1], family(key)) + if Some_([], family(key)) then {id} else {}
    {
      CountAllNext(projects, i, family(key));
      HitsNext(projects, i, family(key));
    }
  }

  /** After some projects and part of one more, every figure has its rows. */
  ghost predicate Totalled<K(!new)>(family: K -> Test, done: seq<Project>, part: seq<Review>, figure: K -> nat) {
    forall key :: figure(key) == CountAll(done, family(key)) + Count(part, family(key))
  }

  ghost predicate Adds1<K(!new)>(family: K -> Test, r: Review, figure: K -> nat, figure': K -> nat) {
    forall key :: figure'(key) == figure(key) + if family(key)(r) then 1 else 0
  }

  lemma TotalledReview<K(!new)>(family: K -> Test, done: seq<Project>, p: Project, j: nat, figure: K -> nat, figure': K -> nat)
    requires j < |p.reviews| && Totalled(family, done, p.reviews[..j], figure)
    requires Adds1(family, p.reviews[j], figure, figure')
    ensures Totalled(family, done, p.reviews[..j + 1], figure')
  {
    forall key ensures figure'(key) == CountAll(done, family(key)) + Count(p.reviews[..j + 1], family(key)) {
      CountNext(p.reviews, j, family(key));
    }
  }

  lemma TotalledProject<K(!new)>(family: K -> Test, projects: seq<Project>, i: nat, figure: K -> nat)
    requires i < |projects| && Totalled(family, projects[..i], projects[i].reviews, figure)
    ensures Totalled(family, projects[..i + 1], [], figure)
  {
    forall key ensures figure(key) == CountAll(projects[..i + 1], family(key)) + Count([], family(key)) {
      CountAllNext(projects, i, family(key));
    }
  }

  // ---- the passes, loop by loop ----------------------------------------------------------------------------------------

  function Buckets(today: int): Bedarf -> Test {
    (key: Bedarf) => MatchesBedarf(key, today)
  }

  function Bands(department: Option<string>): Tone -> Test {
    (tone: Tone) => MatchesTone(tone, department)
  }

  predicate AllKeys<T>(m: map<Bedarf, T>) {
    forall key: Bedarf :: key in m
  }

  lemma EveryBucket(key: Bedarf) returns (k: nat)
    ensures k < |BEDARF| && BEDARF[k] == key
  {
    match key
    case Overdue => k := 0;
    case BlockedWork => k := 1;
    case Rework => k := 2;
    case NoReviewer => k := 3;
  }

  /** One review against every bucket. */
  method BedarfRow(r: Review, id: int, today: int, rows: map<Bedarf, nat>, hit: map<Bedarf, set<int>>)
    returns (rows': map<Bedarf, nat>, hit': map<Bedarf, set<int>>)
    requires AllKeys(rows) && AllKeys(hit)
    ensures AllKeys(rows') && AllKeys(hit')
    ensures Adds(Buckets(today), r, id, Figure(rows), Ids(hit), Figure(rows'), Ids(hit'))
  {
    rows', hit' := rows, hit;
    for k := 0 to |BEDARF|
      invariant AllKeys(rows') && AllKeys(hit')
      invariant forall n :: 0 <= n < |BEDARF| ==>
                  && rows'[BEDARF[n]] == rows[BEDARF[n]] + (if n < k && MatchesBedarf(BEDARF[n], today)(r) then 1 else 0)
                  && hit'[BEDARF[n]] == hit[BEDARF[n]] + if n < k && MatchesBedarf(BEDARF[n], today)(r) then {id} else {}
    {
      var key := BEDARF[k];
      if !MatchesBedarf(key, today)(r) { continue; }
      rows' := rows'[key := rows'[key] + 1];
      hit' := hit'[key := hit'[key] + {id}];
    }
    forall key
      ensures Figure(rows')(key) == Figure(rows)(key) + (if Buckets(today)(key)(r) then 1 else 0)
      ensures Ids(hit')(key) == Ids(hit)(key) + if Buckets(today)(key)(r) then {id} else {}
    {
      var n := EveryBucket(key);
    }
  }

  /** `countBedarf`: the rows of every bucket and the distinct projects they sit in, in one pass. */
  method CountBedarf(projects: seq<Project>, today: int) returns (rows: map<Bedarf, nat>, hit: map<Bedarf, set<int>>)
    ensures AllKeys(rows) && AllKeys(hit)
    ensures forall key :: rows[key] == CountAll(projects, MatchesBedarf(key, today))
    ensures forall key :: hit[key] == Hits(projects, MatchesBedarf(key, today))
  {
    ghost var family := Buckets(today);
    rows := map[Overdue := 0, BlockedWork := 0, Rework := 0, NoReviewer := 0];
    hit := map[Overdue := {}, BlockedWork := {}, Rework := {}, NoReviewer := {}];
    forall key: Bedarf ensures key in rows && key in hit { var k := EveryBucket(key); }
    for i := 0 to |projects|
      invariant AllKeys(rows) && AllKeys(hit)
      invariant forall id :: Tallied(family, projects[..i], [], id, Figure(rows), Ids(hit))
    {
      var p := projects[i];
      for j := 0 to |p.reviews|
        invariant AllKeys(rows) && AllKeys(hit)
        invariant Tallied(family, projects[..i], p.reviews[..j], p.id, Figure(rows), Ids(hit))
      {
        var rows', hit' := BedarfRow(p.reviews[j], p.id, today, rows, hit);
        TalliedReview(family, projects[..i], p, j, Figure(rows), Ids(hit), Figure(rows'), Ids(hit'));
        rows, hit := rows', hit';
      }
      assert p.reviews[..|p.reviews|] == p.reviews;
      TalliedProject(family, projects, i, Figure(rows), Ids(hit));
    }
    assert projects[..|projects|] == projects;
    assert Tallied(family, projects, [], 0, Figure(rows), Ids(hit));
    forall key
      ensures rows[key] == CountAll(projects, MatchesBedarf(key, today))
      ensures hit[key] == Hits(projects, MatchesBedarf(key, today))
    {
      assert Figure(rows)(key) == CountAll(projects, family(key)) + Count([], family(key));
    }
  }

  /** `countTones`: every band present in the data, for one Gewerk or all. */
  method CountTones(projects: seq<Project>, department: Option<string>)
    returns (rows: map<Tone, nat>, hit: map<Tone, set<int>>)
    ensures forall tone :: Figure(rows)(tone) == CountAll(projects, MatchesTone(tone, department))
    ensures forall tone :: Ids(hit)(tone) == Hits(projects, MatchesTone(tone, department))
    ensures forall tone :: tone in rows ==> rows[tone] > 0
  {
    ghost var family := Bands(department);
    rows, hit := map[], map[];
    for i := 0 to |projects|
      invariant forall id :: Tallied(family, projects[..i], [], id, Figure(rows), Ids(hit))
      invariant forall tone :: tone in rows ==> rows[tone] > 0
    {
      var p := projects[i];
      for j := 0 to |p.reviews|
        invariant Tallied(family, projects[..i], p.reviews[..j], p.id, Figure(rows), Ids(hit))
        invariant forall tone :: tone in rows ==> rows[tone] > 0
      {
        var rows', hit' := ToneRow(p.reviews[j], p.id, department, rows, hit);
        TalliedReview(family, projects[..i], p, j, Figure(rows), Ids(hit), Figure(rows'), Ids(hit'));
        rows, hit := rows', hit';
      }
      assert p.reviews[..|p.reviews|] == p.reviews;
      TalliedProject(family, projects, i, Figure(rows), Ids(hit));
    }
    assert projects[..|projects|] == projects;
    assert Tallied(family, projects, [], 0, Figure(rows), Ids(hit));
    forall tone
      ensures Figure(rows)(tone) == CountAll(projects, MatchesTone(tone, department))
      ensures Ids(hit)(tone) == Hits(projects, MatchesTone(tone, department))
    {
      assert Figure(rows)(tone) == CountAll(projects, family(tone)) + Count([], family(tone));
    }
  }

  method ToneRow(r: Review, id: int, department: Option<string>, rows: map<Tone, nat>, hit: map<Tone, set<int>>)
    returns (rows': map<Tone, nat>, hit': map<Tone, set<int>>)
    requires forall tone :: tone in rows ==> rows[tone] > 0
    ensures Adds(Bands(department), r, id, Figure(rows), Ids(hit), Figure(rows'), Ids(hit'))
    ensures forall tone :: tone in rows' ==> rows'[tone] > 0
  {
    rows', hit' := rows, hit;
    if department.Some? && r.department != department.value { return; }
    if r.status.None? { return; }
    var tone := ToneOf(r.status.value);
    rows' := rows'[tone := Figure(rows')(tone) + 1];
    if tone !in hit' { hit' := hit'[tone := {}]; }
    hit' := hit'[tone := hit'[tone] + {id}];
  }
}
