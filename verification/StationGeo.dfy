/** Resolving free-text station names against the station master (shared/stationGeo.ts). */
module StationGeo {
  import opened Wrappers
  import opened Sequences
  import opened Tokens

  datatype StationRow = StationRow(
    nr: int, name: string, bm: string, kategorie: Option<int>, lat: Option<real>, lng: Option<real>, retired: bool)

  datatype Entry = Entry(
    nr: int, name: string, bm: string, kategorie: int, aliased: string, tokenKey: string, toks: set<string>, lat: real,
    lng: real)

  datatype Precision = Exact | SameTokens | Fuzzy | Region

  datatype Resolved = Resolved(
    precision: Precision, nr: Option<int>, name: string, bm: string, lat: real, lng: real, ambiguous: bool)

  type Alias = string -> string

  /** A row with coordinates and a name takes part. */
  function EntryOf(alias: Alias, r: StationRow): Option<Entry> {
    var a := alias(r.name);
    if r.lat.None? || r.lng.None? || a == "" then None
    else Some(Entry(r.nr, r.name, r.bm, if r.kategorie.Some? then r.kategorie.value else 99, a, TokenKey(a), TokenSet(a),
                    r.lat.value, r.lng.value))
  }

  // ---- the winner among equals -----------------------------------------------------------------------------------------

  /** By Bahnhofskategorie, then by number. */
  predicate Better(a: Entry, b: Entry) {
    a.kategorie < b.kategorie || (a.kategorie == b.kategorie && a.nr < b.nr)
  }

  function PickBest(candidates: seq<Entry>): (best: Entry)
    requires |candidates| > 0
    ensures best in candidates && forall e :: e in candidates ==> !Better(e, best)
  {
    var last := candidates[|candidates| - 1];
    if |candidates| == 1 then last
    else
      var best := PickBest(candidates[..|candidates| - 1]);
      assert forall e :: e in candidates ==> e in candidates[..|candidates| - 1] || e == last;
      if Better(last, best) then last else best
  }

  /** With distinct numbers there is one winner: it beats every other. */
  lemma WinnerIsUnique(candidates: seq<Entry>, e: Entry)
    requires |candidates| > 0 && e in candidates
    requires forall a, b :: a in candidates && b in candidates && a.nr == b.nr ==> a == b
    ensures e == PickBest(candidates) || Better(PickBest(candidates), e)
  {
    assert !Better(e, PickBest(candidates));
  }

  method PickBestOf(candidates: seq<Entry>) returns (best: Entry)
    requires |candidates| > 0
    ensures best == PickBest(candidates)
  {
    best := candidates[0];
    assert candidates[..1] == [candidates[0]];
    for i := 1 to |candidates|
      invariant best == PickBest(candidates[..i])
    {
      assert candidates[..i + 1][..i] == candidates[..i];
      var e := candidates[i];
      if e.kategorie != best.kategorie {
        if e.kategorie < best.kategorie { best := e; }
      } else if e.nr < best.nr {
        best := e;
      }
    }
    assert candidates[..|candidates|] == candidates;
  }

  // ---- word containment --------------------------------------------------------------------------------------------------

  /** Shared words count twice, words only one side has count against; one side must contain the other. */
  function Score(e: Entry, q: set<string>): Option<int> {
    var inter := |e.toks * q|;
    if inter == 0 || (inter != |e.toks| && inter != |q|) then None
    else Some(inter * 2 - if |e.toks| >= |q| then |e.toks| - |q| else |q| - |e.toks|)
  }

  function MaxScore(pool: seq<Entry>, q: set<string>): Option<int> {
    if |pool| == 0 then None
    else
      var rest, s := MaxScore(pool[..|pool| - 1], q), Score(pool[|pool| - 1], q);
      if s.Some? && (rest.None? || s.value > rest.value) then s else rest
  }

  function Top(pool: seq<Entry>, q: set<string>): Entry -> bool {
    var best := MaxScore(pool, q);
    (e: Entry) => Score(e, q).Some? && Score(e, q) == best
  }

  /** The entries of greatest score. */
  function Nearest(pool: seq<Entry>, q: set<string>): seq<Entry> {
    Filter(pool, Top(pool, q))
  }

  lemma {:induction false} MaxScoreIsMax(pool: seq<Entry>, q: set<string>, e: Entry)
    requires e in pool && Score(e, q).Some?
    ensures MaxScore(pool, q).Some? && Score(e, q).value <= MaxScore(pool, q).value
  {
    var last := |pool| - 1;
    if e != pool[last] {
      assert pool == pool[..last] + [pool[last]];
      MaxScoreIsMax(pool[..last], q, e);
    }
  }

  lemma {:induction false} MaxScoreIsScored(pool: seq<Entry>, q: set<string>) returns (e: Entry)
    requires MaxScore(pool, q).Some?
    ensures e in pool && Score(e, q) == MaxScore(pool, q)
  {
    var last := |pool| - 1;
    if Score(pool[last], q) == MaxScore(pool, q) {
      e := pool[last];
    } else {
      e := MaxScoreIsScored(pool[..last], q);
    }
  }

  /** The loop with its running best. */
  method FuzzyMatch(pool: seq<Entry>, q: set<string>) returns (best: seq<Entry>)
    ensures best == Nearest(pool, q)
  {
    best := [];
    var bestScore: Option<int> := None;
    for i := 0 to |pool|
      invariant bestScore == MaxScore(pool[..i], q) && best == Nearest(pool[..i], q)
    {
      assert pool[..i + 1][..i] == pool[..i];
      var e, before := pool[i], bestScore;
      NearestNext(pool, q, i);
      var inter := |e.toks * q|;
      if inter == 0 { continue; }
      if inter != |e.toks| && inter != |q| { continue; }
      var score := inter * 2 - if |e.toks| >= |q| then |e.toks| - |q| else |q| - |e.toks|;
      if bestScore.None? || score > bestScore.value {
        bestScore := Some(score);
        best := [e];
      } else if score == bestScore.value {
        best := best + [e];
      }
    }
    assert pool[..|pool|] == pool;
  }

  lemma NearestNext(pool: seq<Entry>, q: set<string>, i: nat)
    requires i < |pool|
    ensures var before, s := MaxScore(pool[..i], q), Score(pool[i], q);
            Nearest(pool[..i + 1], q) ==
            if s.None? then Nearest(pool[..i], q)
            else if before.None? || s.value > before.value then [pool[i]]
            else if s == before then Nearest(pool[..i], q) + [pool[i]]
            else Nearest(pool[..i], q)
  {
    var old_, all := pool[..i], pool[..i + 1];
    assert all[..i] == old_;
    FilterNext(pool, Top(all, q), i);
    if MaxScore(all, q) == MaxScore(old_, q) {
      FilterSame(old_, Top(all, q), Top(old_, q));
    } else {
      forall e | e in old_ ensures !Top(all, q)(e) {
        if Score(e, q).Some? { MaxScoreIsMax(old_, q, e); }
      }
      FilterSame(old_, Top(all, q), e => false);
      FilterNone(old_, e => false);
    }
  }

  // ---- resolution as a linear scan -------------------------------------------------------------------------------------

  function Hit(e: Entry, precision: Precision, ambiguous: bool): Resolved {
    Resolved(precision, Some(e.nr), e.name, e.bm, e.lat, e.lng, ambiguous)
  }

  function InBm(bm: string): Entry -> bool {
    (e: Entry) => e.bm == bm
  }

  function SameAlias(a: string): Entry -> bool {
    (e: Entry) => e.aliased == a
  }

  function SameKey(key: string): Entry -> bool {
    (e: Entry) => e.tokenKey == key
  }

  /** The three tiers within one pool. */
  function ResolveIn(pool: seq<Entry>, a: string): Option<Resolved> {
    var exact, tokens, near := Filter(pool, SameAlias(a)), Filter(pool, SameKey(TokenKey(a))), Nearest(pool, TokenSet(a));
    if |exact| > 0 then Some(Hit(PickBest(exact), Exact, |exact| > 1))
    else if |tokens| > 0 then Some(Hit(PickBest(tokens), SameTokens, |tokens| > 1))
    else if |near| > 0 then Some(Hit(PickBest(near), Fuzzy, |near| > 1))
    else None
  }

  /** The place of a name: the project's own region first, then everywhere. */
  function Scan(entries: seq<Entry>, a: string, bm: string): Option<Resolved> {
    var own := if bm == "" then None else ResolveIn(Filter(entries, InBm(bm)), a);
    if own.Some? then own else ResolveIn(entries, a)
  }

  function Centre(centroids: map<string, (real, real)>, bm: string): Option<Resolved> {
    if bm == "" || bm !in centroids then None
    else Some(Resolved(Region, None, "~bm:" + bm, bm, centroids[bm].0, centroids[bm].1, false))
  }

  function Resolve(entries: seq<Entry>, centroids: map<string, (real, real)>, alias: Alias, station: string, bm: string)
    : Option<Resolved>
  {
    var found := if station == "" || alias(station) == "" then None else Scan(entries, alias(station), bm);
    if found.Some? then found else Centre(centroids, bm)
  }

  // ---- the index -------------------------------------------------------------------------------------------------------

  function Bucket(m: map<string, seq<Entry>>, k: string): seq<Entry> {
    if k in m then m[k] else []
  }

  /** Every bucket holds the entries of its key, in order. */
  ghost predicate Indexes(m: map<string, seq<Entry>>, entries: seq<Entry>, family: string -> Entry -> bool) {
    forall k :: Bucket(m, k) == Filter(entries, family(k))
  }

  function Aliases(): string -> Entry -> bool { (k: string) => SameAlias(k) }

  function Keys(): string -> Entry -> bool { (k: string) => SameKey(k) }

  function Bms(): string -> Entry -> bool { (k: string) => InBm(k) }

  method BuildIndex(entries: seq<Entry>, key: Entry -> string, ghost family: string -> Entry -> bool)
    returns (m: map<string, seq<Entry>>)
    requires forall k, e :: family(k)(e) <==> key(e) == k
    ensures Indexes(m, entries, family)
  {
    m := map[];
    for i := 0 to |entries|
      invariant Indexes(m, entries[..i], family)
    {
      var k := key(entries[i]);
      ghost var before := m;
      m := m[k := Bucket(m, k) + [entries[i]]];
      forall x ensures Bucket(m, x) == Filter(entries[..i + 1], family(x)) {
        FilterNext(entries, family(x), i);
        assert Bucket(before, x) == Filter(entries[..i], family(x));
      }
    }
    assert entries[..|entries|] == entries;
  }

  class StationGeoIndex {
    const entries: seq<Entry>
    const centroids: map<string, (real, real)>
    const byAlias: map<string, seq<Entry>>
    const byTokenKey: map<string, seq<Entry>>
    const byBm: map<string, seq<Entry>>

    ghost predicate Valid() {
      Indexes(byAlias, entries, Aliases()) && Indexes(byTokenKey, entries, Keys()) && Indexes(byBm, entries, Bms())
    }

    constructor (entries: seq<Entry>, centroids: map<string, (real, real)>)
      ensures Valid() && this.entries == entries && this.centroids == centroids
    {
      this.entries := entries;
      this.centroids := centroids;
      var byAlias := BuildIndex(entries, (e: Entry) => e.aliased, Aliases());
      var byTokenKey := BuildIndex(entries, (e: Entry) => e.tokenKey, Keys());
      var byBm := BuildIndex(entries, (e: Entry) => e.bm, Bms());
      this.byAlias := byAlias;
      this.byTokenKey := byTokenKey;
      this.byBm := byBm;
    }

    /** One tier from its bucket, restricted to the region when there is one. */
    method InPool(bucket: seq<Entry>, scoped: bool, bm: string) returns (list: seq<Entry>)
      ensures list == if scoped then Filter(bucket, InBm(bm)) else bucket
    {
      if !scoped { return bucket; }
      list := [];
      for i := 0 to |bucket|
        invariant list == Filter(bucket[..i], InBm(bm))
      {
        FilterNext(bucket, InBm(bm), i);
        if bucket[i].bm == bm { list := list + [bucket[i]]; }
      }
      assert bucket[..|bucket|] == bucket;
    }

    /** The tiers from the index. */
    method Tiers(a: string, scoped: bool, bm: string) returns (r: Option<Resolved>)
      requires Valid()
      ensures r == ResolveIn(if scoped then Filter(entries, InBm(bm)) else entries, a)
    {
      ghost var pool := if scoped then Filter(entries, InBm(bm)) else entries;
      FilterSwap(entries, SameAlias(a), InBm(bm));
      FilterSwap(entries, SameKey(TokenKey(a)), InBm(bm));
      assert Bucket(byAlias, a) == Filter(entries, Aliases()(a));
      var exact := InPool(Bucket(byAlias, a), scoped, bm);
      if |exact| > 0 {
        var best := PickBestOf(exact);
        return Some(Hit(best, Exact, |exact| > 1));
      }
      assert Bucket(byTokenKey, TokenKey(a)) == Filter(entries, Keys()(TokenKey(a)));
      var tokens := InPool(Bucket(byTokenKey, TokenKey(a)), scoped, bm);
      if |tokens| > 0 {
        var best := PickBestOf(tokens);
        return Some(Hit(best, SameTokens, |tokens| > 1));
      }
      assert Bucket(byBm, bm) == Filter(entries, Bms()(bm));
      var near := FuzzyMatch(if scoped then Bucket(byBm, bm) else entries, TokenSet(a));
      if |near| > 0 {
        var best := PickBestOf(near);
        return Some(Hit(best, Fuzzy, |near| > 1));
      }
      return None;
    }

    /** `resolve`: the index answers as a linear scan would. */
    method Find(alias: Alias, station: string, bm: string) returns (r: Option<Resolved>)
      requires Valid()
      ensures r == Resolve(entries, centroids, alias, station, bm)
    {
      if station != "" {
        var a := alias(station);
        if a != "" {
          if bm != "" {
            r := Tiers(a, true, bm);
            if r.Some? { return; }
          }
          r := Tiers(a, false, bm);
          if r.Some? { return; }
        }
      }
      r := Centre(centroids, bm);
    }
  }

  lemma FilterSwap(entries: seq<Entry>, f: Entry -> bool, g: Entry -> bool)
    ensures Filter(Filter(entries, f), g) == Filter(Filter(entries, g), f)
  {
    FilterMeet(entries, f, g, e => f(e) && g(e));
    FilterMeet(entries, g, f, e => f(e) && g(e));
  }
}
