/** Drill-downs: exactly the projects behind a number (shared/drilldown.ts). */
module Drilldown {
  import opened Wrappers
  import opened Portfolio

  datatype Drill = Drill(bedarf: Option<Bedarf>, tone: Option<Tone>, department: Option<string>, ids: Option<seq<int>>)

  predicate IsEmptyDrill(d: Drill) {
    d.bedarf.None? && d.tone.None? && d.ids.None?
  }

  /** The test a part of a drill puts to a project's reviews. */
  predicate PassesBedarf(p: Project, d: Drill, today: int) {
    d.bedarf.Some? ==> Some_(p.reviews, MatchesBedarf(d.bedarf.value, today))
  }

  predicate PassesTone(p: Project, d: Drill) {
    d.tone.Some? ==> Some_(p.reviews, MatchesTone(d.tone.value, d.department))
  }

  predicate PassesIds(p: Project, d: Drill) {
    d.ids.Some? ==> p.id in d.ids.value
  }

  /** The ids of the projects that pass every part. */
  function Drilled(projects: seq<Project>, d: Drill, today: int): set<int> {
    set i | 0 <= i < |projects| && PassesIds(projects[i], d) && PassesBedarf(projects[i], d, today) &&
            PassesTone(projects[i], d) :: projects[i].id
  }

  /** `projectMatchesBedarf`, `projectMatchesTone`: does any row pass? */
  method ProjectMatches(p: Project, test: Test) returns (r: bool)
    ensures r <==> Some_(p.reviews, test)
  {
    for j := 0 to |p.reviews|
      invariant !Some_(p.reviews[..j], test)
    {
      SomeNext(p.reviews, j, test);
      if test(p.reviews[j]) { return true; }
    }
    assert p.reviews[..|p.reviews|] == p.reviews;
    return false;
  }

  /** None: no restriction. */
  method DrillProjectIds(projects: seq<Project>, d: Drill, today: int) returns (r: Option<set<int>>)
    ensures r == if IsEmptyDrill(d) then None else Some(Drilled(projects, d, today))
  {
    if IsEmptyDrill(d) { return None; }
    var out: set<int> := {};
    for i := 0 to |projects|
      invariant out == Drilled(projects[..i], d, today)
    {
      var p := projects[i];
      DrilledNext(projects, d, today, i);
      if d.ids.Some? && p.id !in d.ids.value { continue; }
      if d.bedarf.Some? {
        var m := ProjectMatches(p, MatchesBedarf(d.bedarf.value, today));
        if !m { continue; }
      }
      if d.tone.Some? {
        var m := ProjectMatches(p, MatchesTone(d.tone.value, d.department));
        if !m { continue; }
      }
      out := out + {p.id};
    }
    assert projects[..|projects|] == projects;
    return Some(out);
  }

  predicate Passes(p: Project, d: Drill, today: int) {
    PassesIds(p, d) && PassesBedarf(p, d, today) && PassesTone(p, d)
  }

  lemma DrilledNext(projects: seq<Project>, d: Drill, today: int, i: nat)
    requires i < |projects|
    ensures Drilled(projects[..i + 1], d, today) ==
            Drilled(projects[..i], d, today) + if Passes(projects[i], d, today) then {projects[i].id} else {}
  {
    var before, after := projects[..i], projects[..i + 1];
    forall id ensures id in Drilled(after, d, today) <==>
                      id in Drilled(before, d, today) || (Passes(projects[i], d, today) && id == projects[i].id) {
      if id in Drilled(after, d, today) {
        var k :| 0 <= k < |after| && Passes(after[k], d, today) && after[k].id == id;
        if k < i { assert before[k] == after[k]; }
      }
      if id in Drilled(before, d, today) {
        var k :| 0 <= k < |before| && Passes(before[k], d, today) && before[k].id == id;
        assert after[k] == before[k];
      }
      if Passes(projects[i], d, today) && id == projects[i].id { assert after[i] == projects[i]; }
    }
  }

  // ---- a number and the list behind it ---------------------------------------------------------------------------------

  function ByBedarf(key: Bedarf): Drill {
    Drill(Some(key), None, None, None)
  }

  function ByTone(tone: Tone, department: Option<string>): Drill {
    Drill(None, Some(tone), department, None)
  }

  /** The badge's number of projects is the size of the list it opens, for every bucket and every dataset. */
  method BedarfBadge(projects: seq<Project>, key: Bedarf, today: int) returns (badge: nat, list: Option<set<int>>)
    ensures list.Some? && badge == |list.value| && list.value == Hits(projects, MatchesBedarf(key, today))
  {
    var rows, hit := CountBedarf(projects, today);
    badge := |hit[key]|;
    list := DrillProjectIds(projects, ByBedarf(key), today);
    DrillIsHits(projects, ByBedarf(key), MatchesBedarf(key, today), today);
  }

  /** A slice of the status pie and the list it opens, with or without a Gewerk. */
  method ToneSlice(projects: seq<Project>, tone: Tone, department: Option<string>, today: int)
    returns (slice: nat, list: Option<set<int>>)
    ensures list.Some? && slice == |list.value| && list.value == Hits(projects, MatchesTone(tone, department))
  {
    var rows, hit := CountTones(projects, department);
    slice := |Ids(hit)(tone)|;
    list := DrillProjectIds(projects, ByTone(tone, department), today);
    DrillIsHits(projects, ByTone(tone, department), MatchesTone(tone, department), today);
  }

  /** A drill that is a single test lists the projects that test hits. */
  lemma DrillIsHits(projects: seq<Project>, d: Drill, test: Test, today: int)
    requires forall i :: 0 <= i < |projects| ==> (Passes(projects[i], d, today) <==> Some_(projects[i].reviews, test))
    ensures Drilled(projects, d, today) == Hits(projects, test)
  {
    forall id ensures id in Drilled(projects, d, today) <==> id in Hits(projects, test) {
      if id in Drilled(projects, d, today) {
        var i :| 0 <= i < |projects| && Passes(projects[i], d, today) && projects[i].id == id;
        assert Some_(projects[i].reviews, test);
      }
      if id in Hits(projects, test) {
        var i :| 0 <= i < |projects| && Some_(projects[i].reviews, test) && projects[i].id == id;
        assert Passes(projects[i], d, today);
      }
    }
  }

  // ---- parts put together ----------------------------------------------------------------------------------------------

  ghost predicate DistinctIds(projects: seq<Project>) {
    forall i, j :: 0 <= i < j < |projects| ==> projects[i].id != projects[j].id
  }

  function OnlyBedarf(d: Drill): Drill { d.(tone := None, department := None, ids := None) }

  function OnlyTone(d: Drill): Drill { d.(bedarf := None, ids := None) }

  function OnlyIds(d: Drill): Drill { d.(bedarf := None, tone := None, department := None) }

  /** The drill of every part, a missing part being no restriction. */
  function Together(projects: seq<Project>, d: Drill, today: int): set<int> {
    Drilled(projects, OnlyBedarf(d), today) * Drilled(projects, OnlyTone(d), today) * Drilled(projects, OnlyIds(d), today)
  }

  lemma PassesParts(p: Project, d: Drill, today: int)
    ensures Passes(p, d, today) <==>
            Passes(p, OnlyBedarf(d), today) && Passes(p, OnlyTone(d), today) && Passes(p, OnlyIds(d), today)
  {
    assert OnlyBedarf(d).bedarf == d.bedarf && OnlyTone(d).tone == d.tone && OnlyTone(d).department == d.department;
    assert PassesBedarf(p, OnlyBedarf(d), today) <==> PassesBedarf(p, d, today);
    assert PassesTone(p, OnlyTone(d)) <==> PassesTone(p, d);
    assert PassesIds(p, OnlyIds(d)) <==> PassesIds(p, d);
  }

  /** A combined drill never lists more than the intersection of its parts; with one row per project id, exactly that. */
  lemma CombinedDrillIsIntersection(projects: seq<Project>, d: Drill, today: int)
    ensures Drilled(projects, d, today) <= Together(projects, d, today)
    ensures DistinctIds(projects) ==> Drilled(projects, d, today) == Together(projects, d, today)
  {
    forall id | id in Drilled(projects, d, today) ensures id in Together(projects, d, today) {
      var i :| 0 <= i < |projects| && Passes(projects[i], d, today) && projects[i].id == id;
      PassesParts(projects[i], d, today);
    }
    if DistinctIds(projects) {
      forall id | id in Together(projects, d, today) ensures id in Drilled(projects, d, today) {
        var i :| 0 <= i < |projects| && Passes(projects[i], OnlyBedarf(d), today) && projects[i].id == id;
        var j :| 0 <= j < |projects| && Passes(projects[j], OnlyTone(d), today) && projects[j].id == id;
        var k :| 0 <= k < |projects| && Passes(projects[k], OnlyIds(d), today) && projects[k].id == id;
        assert i == j == k;
        PassesParts(projects[i], d, today);
      }
    }
  }

  /** With one id on two rows the parts may each be met by another row: the intersection lists it, the drill does not. */
  lemma RepeatedIdSplits()
    ensures var blocked := Row("EEA", "gestoppt", Some(Gestoppt), "", None);
            var pending := Row("EEA", "offen", Some(Offen), "", None);
            var projects := [Project(1, [blocked]), Project(1, [pending])];
            var d := Drill(Some(BlockedWork), Some(Pending), None, None);
            1 in Together(projects, d, 0) && 1 !in Drilled(projects, d, 0)
  {
    var blocked := Row("EEA", "gestoppt", Some(Gestoppt), "", None);
    var pending := Row("EEA", "offen", Some(Offen), "", None);
    var projects := [Project(1, [blocked]), Project(1, [pending])];
    var d := Drill(Some(BlockedWork), Some(Pending), None, None);
    assert projects[0].reviews[0] == blocked && MatchesBedarf(BlockedWork, 0)(blocked);
    assert Passes(projects[0], OnlyBedarf(d), 0) && Passes(projects[0], OnlyIds(d), 0);
    assert projects[1].reviews[0] == pending && MatchesTone(Pending, None)(pending);
    assert Passes(projects[1], OnlyTone(d), 0);
    assert !Passes(projects[0], d, 0) && !Passes(projects[1], d, 0);
  }
}
