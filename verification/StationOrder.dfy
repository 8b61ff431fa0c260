/** Building the station index (shared/stationGeo.ts, `buildStationGeo`), and what its answers do not depend on. */
module StationOrder {
  import opened Wrappers
  import opened Sequences
  import opened Tokens
  import opened StationGeo

  // ---- the entries -----------------------------------------------------------------------------------------------------

  function Collect(alias: Alias, rows: seq<StationRow>): seq<Entry> {
    if |rows| == 0 then []
    else
      var rest, e := Collect(alias, rows[..|rows| - 1]), EntryOf(alias, rows[|rows| - 1]);
      if e.Some? then rest + [e.value] else rest
  }

  function LowerNr(): (Entry, Entry) -> bool {
    (a: Entry, b: Entry) => a.nr < b.nr
  }

  function Entries(alias: Alias, rows: seq<StationRow>): seq<Entry> {
    SortBy(Collect(alias, rows), LowerNr())
  }

  ghost predicate Rising(entries: seq<Entry>) {
    forall i, j :: 0 <= i < j < |entries| ==> entries[i].nr < entries[j].nr
  }

  ghost predicate DistinctEntries(entries: seq<Entry>) {
    forall i, j :: 0 <= i < j < |entries| ==> entries[i].nr != entries[j].nr
  }

  lemma SortRises(entries: seq<Entry>)
    requires DistinctEntries(entries)
    ensures Rising(SortBy(entries, LowerNr())) && forall x :: x in SortBy(entries, LowerNr()) <==> x in entries
  {
    SortOrders(entries, LowerNr(), LowerNr());
    SortElements(entries, LowerNr());
    assert forall i, j :: 0 <= i < j < |entries| ==> LowerNr()(entries[i], entries[j]) || LowerNr()(entries[j], entries[i]);
  }

  lemma {:induction false} CollectElements(alias: Alias, rows: seq<StationRow>, e: Entry)
    ensures e in Collect(alias, rows) <==> exists r :: r in rows && EntryOf(alias, r) == Some(e)
  {
    if |rows| > 0 {
      var last := rows[|rows| - 1];
      CollectElements(alias, rows[..|rows| - 1], e);
      assert rows == rows[..|rows| - 1] + [last];
      if EntryOf(alias, last) == Some(e) { assert last in rows; }
      if r :| r in rows && EntryOf(alias, r) == Some(e) {
        if r in rows[..|rows| - 1] { assert e in Collect(alias, rows[..|rows| - 1]); }
      }
    }
  }

  ghost predicate DistinctRows(rows: seq<StationRow>) {
    forall i, j :: 0 <= i < j < |rows| ==> rows[i].nr != rows[j].nr
  }

  lemma {:induction false} CollectIsDistinct(alias: Alias, rows: seq<StationRow>)
    requires DistinctRows(rows)
    ensures DistinctEntries(Collect(alias, rows))
  {
    if |rows| > 0 {
      var last := rows[|rows| - 1];
      var front := rows[..|rows| - 1];
      CollectIsDistinct(alias, front);
      var rest := Collect(alias, front);
      forall k | 0 <= k < |rest| ensures rest[k].nr != last.nr {
        CollectElements(alias, front, rest[k]);
        var r :| r in front && EntryOf(alias, r) == Some(rest[k]);
        var j :| 0 <= j < |front| && front[j] == r;
        assert rows[j].nr != last.nr;
      }
    }
  }

  /** Entries strictly by number are determined by which entries they are. */
  lemma {:induction false} RisingIsUnique(a: seq<Entry>, b: seq<Entry>)
    requires Rising(a) && Rising(b) && forall e :: e in a <==> e in b
    ensures a == b
    decreases |a|
  {
    assert |b| == 0 || b[|b| - 1] in b;
    if |a| > 0 {
      var x := a[|a| - 1];
      assert x in a && x in b;
      var y := b[|b| - 1];
      LastIsGreatest(a, y);
      LastIsGreatest(b, x);
      FrontElements(a, b);
      RisingIsUnique(a[..|a| - 1], b[..|b| - 1]);
      assert a == a[..|a| - 1] + [x] && b == b[..|b| - 1] + [y];
    }
  }

  lemma LastIsGreatest(a: seq<Entry>, e: Entry)
    requires Rising(a) && e in a
    ensures e.nr <= a[|a| - 1].nr && (e.nr == a[|a| - 1].nr ==> e == a[|a| - 1])
  {
    var i :| 0 <= i < |a| && a[i] == e;
  }

  lemma FrontElements(a: seq<Entry>, b: seq<Entry>)
    requires Rising(a) && Rising(b) && |a| > 0 && |b| > 0 && a[|a| - 1] == b[|b| - 1] && forall e :: e in a <==> e in b
    ensures var fa, fb := a[..|a| - 1], b[..|b| - 1]; forall e :: e in fa <==> e in fb
  {
    var fa, fb, x := a[..|a| - 1], b[..|b| - 1], a[|a| - 1];
    assert a == fa + [x] && b == fb + [x];
    assert forall k :: 0 <= k < |fa| ==> fa[k].nr < x.nr;
    assert forall k :: 0 <= k < |fb| ==> fb[k].nr < x.nr;
    forall e ensures e in fa <==> e in fb {
      assert e in a <==> e in fa || e == x;
      assert e in b <==> e in fb || e == x;
    }
  }

  // ---- the regional centres --------------------------------------------------------------------------------------------

  /** A row counts towards its region's centre when it takes part and is not retired. */
  predicate Counts(alias: Alias, bm: string, r: StationRow) {
    r.lat.Some? && r.lng.Some? && alias(r.name) != "" && !r.retired && r.bm == bm
  }

  function LatOf(alias: Alias, bm: string): StationRow -> real {
    (r: StationRow) => if Counts(alias, bm, r) then r.lat.value else 0.0
  }

  function LngOf(alias: Alias, bm: string): StationRow -> real {
    (r: StationRow) => if Counts(alias, bm, r) then r.lng.value else 0.0
  }

  function OneOf(alias: Alias, bm: string): StationRow -> real {
    (r: StationRow) => if Counts(alias, bm, r) then 1.0 else 0.0
  }

  function Sum(rows: seq<StationRow>, f: StationRow -> real): real {
    if |rows| == 0 then 0.0 else Sum(rows[..|rows| - 1], f) + f(rows[|rows| - 1])
  }

  lemma SumNext(rows: seq<StationRow>, f: StationRow -> real, i: nat)
    requires i < |rows|
    ensures Sum(rows[..i + 1], f) == Sum(rows[..i], f) + f(rows[i])
  {
    assert rows[..i + 1][..i] == rows[..i];
  }

  lemma {:induction false} SumWithout(rows: seq<StationRow>, f: StationRow -> real, i: nat)
    requires i < |rows|
    ensures Sum(rows, f) == Sum(rows[..i] + rows[i + 1..], f) + f(rows[i])
    decreases |rows|
  {
    var last := |rows| - 1;
    if i == last {
      assert rows[..i] + rows[i + 1..] == rows[..last];
    } else {
      SumWithout(rows[..last], f, i);
      var less := rows[..i] + rows[i + 1..];
      assert less[..|less| - 1] == rows[..last][..i] + rows[..last][i + 1..];
      assert less[|less| - 1] == rows[last];
    }
  }

  lemma WithoutOne(rows: seq<StationRow>, i: nat)
    requires i < |rows|
    ensures multiset(rows[..i] + rows[i + 1..]) == multiset(rows) - multiset{rows[i]}
  {
    assert rows == rows[..i] + [rows[i]] + rows[i + 1..];
  }

  /** A sum over reals does not depend on the order of its terms. */
  lemma {:induction false} SumOfPermutation(a: seq<StationRow>, b: seq<StationRow>, f: StationRow -> real)
    requires multiset(a) == multiset(b)
    ensures Sum(a, f) == Sum(b, f)
    decreases |a|
  {
    if |a| == 0 {
      assert |multiset(b)| == 0;
    } else {
      var last := |a| - 1;
      assert a[last] in multiset(a);
      assert a[last] in b;
      var i :| 0 <= i < |b| && b[i] == a[last];
      WithoutOne(a, last);
      WithoutOne(b, i);
      assert a[..last] + a[last + 1..] == a[..last];
      SumOfPermutation(a[..last], b[..i] + b[i + 1..], f);
      SumWithout(b, f, i);
    }
  }

  datatype Acc = Acc(lat: real, lng: real, n: real)

  function AccOf(alias: Alias, rows: seq<StationRow>, bm: string): Acc {
    Acc(Sum(rows, LatOf(alias, bm)), Sum(rows, LngOf(alias, bm)), Sum(rows, OneOf(alias, bm)))
  }

  function AccAt(acc: map<string, Acc>, bm: string): Acc {
    if bm in acc then acc[bm] else Acc(0.0, 0.0, 0.0)
  }

  /** The centre of a region: the mean of its rows. */
  ghost predicate Centres(alias: Alias, rows: seq<StationRow>, centroids: map<string, (real, real)>) {
    forall bm :: var a := AccOf(alias, rows, bm);
                 && (bm in centroids <==> a.n != 0.0)
                 && (bm in centroids ==> centroids[bm] == (a.lat / a.n, a.lng / a.n))
  }

  // ---- building --------------------------------------------------------------------------------------------------------

  method BuildStationGeo(alias: Alias, rows: seq<StationRow>) returns (index: StationGeoIndex)
    ensures index.Valid() && index.entries == Entries(alias, rows) && Centres(alias, rows, index.centroids)
  {
    var entries, acc := Gather(alias, rows);
    var sorted := SortBy(entries, LowerNr());
    var centroids := map bm | bm in acc :: (acc[bm].lat / acc[bm].n, acc[bm].lng / acc[bm].n);
    forall bm
      ensures bm in centroids <==> AccOf(alias, rows, bm).n != 0.0
      ensures bm in centroids ==> centroids[bm] == (AccOf(alias, rows, bm).lat / AccOf(alias, rows, bm).n,
                                                    AccOf(alias, rows, bm).lng / AccOf(alias, rows, bm).n)
    {
      assert AccAt(acc, bm) == AccOf(alias, rows, bm);
    }
    index := new StationGeoIndex(sorted, centroids);
  }

  /** The rows with coordinates and a name, and the sums of their regions. */
  method Gather(alias: Alias, rows: seq<StationRow>) returns (entries: seq<Entry>, acc: map<string, Acc>)
    ensures entries == Collect(alias, rows)
    ensures forall bm :: AccAt(acc, bm) == AccOf(alias, rows, bm)
    ensures forall bm :: bm in acc ==> acc[bm].n > 0.0
  {
    entries, acc := [], map[];
    for i := 0 to |rows|
      invariant entries == Collect(alias, rows[..i])
      invariant forall bm :: AccAt(acc, bm) == AccOf(alias, rows[..i], bm)
      invariant forall bm :: bm in acc ==> acc[bm].n > 0.0
    {
      var r := rows[i];
      assert rows[..i + 1][..i] == rows[..i];
      ghost var before := acc;
      acc := Accumulate(alias, r, acc);
      forall bm ensures AccAt(acc, bm) == AccOf(alias, rows[..i + 1], bm) {
        SumNext(rows, LatOf(alias, bm), i);
        SumNext(rows, LngOf(alias, bm), i);
        SumNext(rows, OneOf(alias, bm), i);
        assert AccAt(before, bm) == AccOf(alias, rows[..i], bm);
      }
      var e := EntryOf(alias, r);
      if e.None? { continue; }
      entries := entries + [e.value];
    }
    assert rows[..|rows|] == rows;
  }

  method Accumulate(alias: Alias, r: StationRow, acc0: map<string, Acc>) returns (acc: map<string, Acc>)
    requires forall bm :: bm in acc0 ==> acc0[bm].n > 0.0
    ensures forall bm :: bm in acc ==> acc[bm].n > 0.0
    ensures forall bm :: AccAt(acc, bm) == Acc(AccAt(acc0, bm).lat + LatOf(alias, bm)(r), AccAt(acc0, bm).lng + LngOf(alias, bm)(r),
                                               AccAt(acc0, bm).n + OneOf(alias, bm)(r))
  {
    acc := acc0;
    if r.lat.None? || r.lng.None? || alias(r.name) == "" || r.retired { return; }
    var a := AccAt(acc, r.bm);
    acc := acc[r.bm := Acc(a.lat + r.lat.value, a.lng + r.lng.value, a.n + 1.0)];
  }

  // ---- the order of the rows does not matter ---------------------------------------------------------------------------

  lemma SameEntries(alias: Alias, a: seq<StationRow>, b: seq<StationRow>)
    requires multiset(a) == multiset(b) && DistinctRows(a) && DistinctRows(b)
    ensures Entries(alias, a) == Entries(alias, b)
  {
    CollectIsDistinct(alias, a);
    CollectIsDistinct(alias, b);
    SortRises(Collect(alias, a));
    SortRises(Collect(alias, b));
    forall e ensures e in Entries(alias, a) <==> e in Entries(alias, b) {
      CollectElements(alias, a, e);
      CollectElements(alias, b, e);
      forall r ensures r in a <==> r in b { assert r in multiset(a) <==> r in multiset(b); }
    }
    RisingIsUnique(Entries(alias, a), Entries(alias, b));
  }

  lemma SameCentres(alias: Alias, a: seq<StationRow>, b: seq<StationRow>, ca: map<string, (real, real)>,
                    cb: map<string, (real, real)>)
    requires multiset(a) == multiset(b) && Centres(alias, a, ca) && Centres(alias, b, cb)
    ensures ca == cb
  {
    forall bm
      ensures bm in ca <==> bm in cb
      ensures bm in ca && bm in cb ==> ca[bm] == cb[bm]
    {
      SumOfPermutation(a, b, LatOf(alias, bm));
      SumOfPermutation(a, b, LngOf(alias, bm));
      SumOfPermutation(a, b, OneOf(alias, bm));
      assert AccOf(alias, a, bm) == AccOf(alias, b, bm);
    }
  }

  /** Rows with distinct numbers, in whatever order, give an index with the same answers. */
  lemma OrderOfRowsDoesNotMatter(alias: Alias, a: seq<StationRow>, b: seq<StationRow>, ca: map<string, (real, real)>,
                                 cb: map<string, (real, real)>, station: string, bm: string)
    requires multiset(a) == multiset(b) && DistinctRows(a) && DistinctRows(b)
    requires Centres(alias, a, ca) && Centres(alias, b, cb)
    ensures Resolve(Entries(alias, a), ca, alias, station, bm) == Resolve(Entries(alias, b), cb, alias, station, bm)
  {
    SameEntries(alias, a, b);
    SameCentres(alias, a, b, ca, cb);
  }

  // ---- the tiers -------------------------------------------------------------------------------------------------------

  /** An entry's words and key are those of its name. */
  predicate OfItsName(e: Entry) {
    e.tokenKey == TokenKey(e.aliased) && e.toks == TokenSet(e.aliased)
  }

  lemma EntriesAreOfTheirNames(alias: Alias, rows: seq<StationRow>, e: Entry)
    requires e in Entries(alias, rows)
    ensures OfItsName(e)
  {
    SortElements(Collect(alias, rows), LowerNr());
    CollectElements(alias, rows, e);
  }

  /** The greatest score there is, twice the words asked for, is that of the same words and of no others. */
  lemma SameWordsScoreBest(e: Entry, q: set<string>)
    requires q != {}
    ensures e.toks == q ==> Score(e, q) == Some(2 * |q|)
    ensures e.toks != q && Score(e, q).Some? ==> Score(e, q).value < 2 * |q|
  {
    var inter := e.toks * q;
    if e.toks == q {
      assert inter == q;
    } else if Score(e, q).Some? {
      if |inter| == |e.toks| {
        Contained(inter, e.toks);
        if |e.toks| == |q| { Contained(e.toks, q); }
        Smaller(e.toks, q);
      } else {
        Contained(inter, q);
      }
    }
  }

  lemma Contained(a: set<string>, b: set<string>)
    requires a <= b && |a| == |b|
    ensures a == b
  {
    assert |b - a| == |b| - |a|;
    assert b - a == {};
  }

  lemma Smaller(a: set<string>, b: set<string>)
    requires a <= b
    ensures |a| <= |b|
  {
    assert |b - a| == |b| - |a|;
  }

  /** When some name has exactly the words asked for, the tokens tier is exactly the set the fuzzy tier would return. */
  lemma TokensTierIsNearest(pool: seq<Entry>, a: string)
    requires TokenSet(a) != {} && forall e :: e in pool ==> OfItsName(e)
    requires |Filter(pool, SameKey(TokenKey(a)))| > 0
    ensures Filter(pool, SameKey(TokenKey(a))) == Nearest(pool, TokenSet(a))
  {
    var q, key := TokenSet(a), TokenKey(a);
    var first := Filter(pool, SameKey(key))[0];
    FilterElements(pool, SameKey(key), first);
    SameKeySameWords(first.aliased, a);
    SameWordsScoreBest(first, q);
    MaxScoreIsMax(pool, q, first);
    var top := MaxScoreIsScored(pool, q);
    SameWordsScoreBest(top, q);
    forall e | e in pool ensures SameKey(key)(e) <==> Top(pool, q)(e) {
      SameKeySameWords(e.aliased, a);
      SameWordsScoreBest(e, q);
    }
    FilterSame(pool, SameKey(key), Top(pool, q));
  }

  /** The entries `resolve` looks through: those of the project's region, or all. */
  function Pool(alias: Alias, rows: seq<StationRow>, region: Option<string>): seq<Entry> {
    if region.Some? then Filter(Entries(alias, rows), InBm(region.value)) else Entries(alias, rows)
  }

  /** So it is for every built index, in a region and over all of them. */
  lemma IndexTokensTierIsNearest(alias: Alias, rows: seq<StationRow>, region: Option<string>, a: string)
    requires TokenSet(a) != {} && |Filter(Pool(alias, rows, region), SameKey(TokenKey(a)))| > 0
    ensures Filter(Pool(alias, rows, region), SameKey(TokenKey(a))) == Nearest(Pool(alias, rows, region), TokenSet(a))
  {
    var pool := Pool(alias, rows, region);
    forall e | e in pool ensures OfItsName(e) {
      if region.Some? { FilterElements(Entries(alias, rows), InBm(region.value), e); }
      EntriesAreOfTheirNames(alias, rows, e);
    }
    TokensTierIsNearest(pool, a);
  }

  /** Does this entry match the name at any tier? */
  predicate Matches(e: Entry, a: string) {
    e.aliased == a || e.tokenKey == TokenKey(a) || Score(e, TokenSet(a)).Some?
  }

  lemma FilterHas(pool: seq<Entry>, keep: Entry -> bool, e: Entry)
    requires e in pool && keep(e)
    ensures |Filter(pool, keep)| > 0
  {
    FilterElements(pool, keep, e);
  }

  lemma AnswersFromPool(pool: seq<Entry>, a: string, e: Entry)
    requires e in pool && Matches(e, a)
    ensures ResolveIn(pool, a).Some?
  {
    if e.aliased == a {
      FilterHas(pool, SameAlias(a), e);
    } else if e.tokenKey == TokenKey(a) {
      FilterHas(pool, SameKey(TokenKey(a)), e);
    } else {
      MaxScoreIsMax(pool, TokenSet(a), e);
      var top := MaxScoreIsScored(pool, TokenSet(a));
      FilterHas(pool, Top(pool, TokenSet(a)), top);
    }
  }

  lemma AnswerIsFromPool(pool: seq<Entry>, a: string)
    requires ResolveIn(pool, a).Some?
    ensures exists e :: e in pool && ResolveIn(pool, a).value.bm == e.bm && ResolveIn(pool, a).value.nr == Some(e.nr)
  {
    var exact, tokens, near := Filter(pool, SameAlias(a)), Filter(pool, SameKey(TokenKey(a))), Nearest(pool, TokenSet(a));
    var e := if |exact| > 0 then PickBest(exact) else if |tokens| > 0 then PickBest(tokens) else PickBest(near);
    FilterElements(pool, SameAlias(a), e);
    FilterElements(pool, SameKey(TokenKey(a)), e);
    FilterElements(pool, Top(pool, TokenSet(a)), e);
  }

  /**
   * A match in the project's own region, at whatever tier, beats every match elsewhere; without one the answer is that of
   * the scan over all regions.
   */
  lemma OwnRegionWins(entries: seq<Entry>, a: string, bm: string)
    requires bm != ""
    ensures (exists e :: e in entries && e.bm == bm && Matches(e, a)) ==>
              Scan(entries, a, bm).Some? && Scan(entries, a, bm).value.bm == bm && Scan(entries, a, bm).value.nr.Some?
    ensures (forall e :: e in entries && e.bm == bm ==> !Matches(e, a)) ==> Scan(entries, a, bm) == ResolveIn(entries, a)
  {
    var pool := Filter(entries, InBm(bm));
    forall e ensures e in pool <==> e in entries && e.bm == bm { FilterElements(entries, InBm(bm), e); }
    if e :| e in entries && e.bm == bm && Matches(e, a) { AnswersFromPool(pool, a, e); }
    if ResolveIn(pool, a).Some? {
      AnswerIsFromPool(pool, a);
      MatchInPool(pool, a);
    }
  }

  /** An answer comes from a match. */
  lemma MatchInPool(pool: seq<Entry>, a: string)
    requires ResolveIn(pool, a).Some?
    ensures exists e :: e in pool && Matches(e, a)
  {
    var exact, tokens, near := Filter(pool, SameAlias(a)), Filter(pool, SameKey(TokenKey(a))), Nearest(pool, TokenSet(a));
    var e := if |exact| > 0 then exact[0] else if |tokens| > 0 then tokens[0] else near[0];
    FilterElements(pool, SameAlias(a), e);
    FilterElements(pool, SameKey(TokenKey(a)), e);
    FilterElements(pool, Top(pool, TokenSet(a)), e);
    assert Matches(e, a);
  }
}
