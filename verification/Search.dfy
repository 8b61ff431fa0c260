/**
 * The whole of `search` (shared/search.ts) over folded strings: which entries a query hits, that the length prefilters lose
 * nothing, in which order the hits are shown and how many, and which spelling is offered when.
 */
module Search {
  import opened Wrappers
  import opened Levenshtein
  import opened Sequences
  import opened Tokens

  datatype Kind =
    | Seite | Gewerk | Station | Projekt | Person | Region | Status | Audit | Buchung | Benachrichtigung

  /** An index entry: folded strings and their words, the label's own ones first; its weight is a number of records. */
  datatype Entry = Entry(kind: Kind, name: string, weight: nat, haystacks: seq<string>, primaryLen: nat,
                         words: seq<string>, primaryWordLen: nat)

  const LABEL_BONUS: nat := 150

  function ToleranceFor(term: string): nat {
    if |term| <= 3 then 0 else if |term| <= 6 then 1 else 2
  }

  function Max(x: nat, y: nat): nat {
    if x >= y then x else y
  }

  predicate Contains(s: string, t: string) {
    t <= s || (|s| > 0 && Contains(s[1..], t))
  }

  // ---- the declarative score -------------------------------------------------------------------------------------------

  function Bonus(i: nat, primary: nat): nat {
    if i < primary then LABEL_BONUS else 0
  }

  /** What one folded string is worth when it is not the term itself: a prefix, a substring, or nothing. */
  function FieldScore(field: string, term: string, bonus: nat): nat {
    if term <= field then 820 - (if |field| - |term| > 100 then 100 else |field| - |term|) + bonus
    else if Contains(field, term) then 460 + bonus
    else 0
  }

  function WordScore(word: string, term: string, bonus: nat): nat {
    if word == term then 900 + bonus else if term <= word then 700 + bonus else 0
  }

  function FuzzyScore(word: string, term: string, tolerance: nat): nat {
    var d := Lev(term, word);
    if d <= tolerance && 80 * d <= 300 then 300 - 80 * d else 0
  }

  function BestField(e: Entry, term: string, n: nat): nat
    requires n <= |e.haystacks|
  {
    if n == 0 then 0
    else Max(BestField(e, term, n - 1), FieldScore(e.haystacks[n - 1], term, Bonus(n - 1, e.primaryLen)))
  }

  function BestWord(e: Entry, term: string, n: nat): nat
    requires n <= |e.words|
  {
    if n == 0 then 0
    else Max(BestWord(e, term, n - 1), WordScore(e.words[n - 1], term, Bonus(n - 1, e.primaryWordLen)))
  }

  function BestFuzzy(e: Entry, term: string, tolerance: nat, n: nat): nat
    requires n <= |e.words|
  {
    if n == 0 then 0
    else Max(BestFuzzy(e, term, tolerance, n - 1), FuzzyScore(e.words[n - 1], term, tolerance))
  }

  /** The first folded string equal to the term, if any. */
  function ExactAt(e: Entry, term: string, n: nat): Option<nat>
    requires n <= |e.haystacks|
  {
    if n == 0 then None
    else if ExactAt(e, term, n - 1).Some? then ExactAt(e, term, n - 1)
    else if e.haystacks[n - 1] == term then Some(n - 1)
    else None
  }

  /** The best literal match if there is one; a fuzzy one, over every word and with no length filter, only when there is none. */
  function Score(e: Entry, term: string, tolerance: nat): nat {
    var exact := ExactAt(e, term, |e.haystacks|);
    var literal := Max(BestField(e, term, |e.haystacks|), BestWord(e, term, |e.words|));
    if exact.Some? then 1000 + Bonus(exact.value, e.primaryLen)
    else if literal > 0 then literal
    else BestFuzzy(e, term, tolerance, |e.words|)
  }

  // ---- the imperative scorer -------------------------------------------------------------------------------------------

  lemma {:induction false} BestFieldRange(e: Entry, term: string, n: nat)
    requires n <= |e.haystacks|
    ensures BestField(e, term, n) == 0 || 460 <= BestField(e, term, n) <= 820 + LABEL_BONUS
  {
    if n > 0 { BestFieldRange(e, term, n - 1); }
  }

  lemma {:induction false} BestWordRange(e: Entry, term: string, n: nat)
    requires n <= |e.words|
    ensures BestWord(e, term, n) == 0 || BestWord(e, term, n) >= 700
  {
    if n > 0 { BestWordRange(e, term, n - 1); }
  }

  lemma NoExactBefore(e: Entry, term: string, n: nat)
    requires n <= |e.haystacks| && ExactAt(e, term, n).None?
    ensures n < |e.haystacks| && e.haystacks[n] == term ==> ExactAt(e, term, |e.haystacks|) == Some(n)
  {
    if n < |e.haystacks| && e.haystacks[n] == term { ExactStays(e, term, n + 1, |e.haystacks|); }
  }

  lemma {:induction false} ExactStays(e: Entry, term: string, n: nat, m: nat)
    requires n <= m <= |e.haystacks| && ExactAt(e, term, n).Some?
    ensures ExactAt(e, term, m) == ExactAt(e, term, n)
    decreases m - n
  {
    if n < m { ExactStays(e, term, n, m - 1); }
  }

  /** A word the length filter skips is too far away to score. */
  lemma SkippedWordsAreTooFar(word: string, term: string, tolerance: nat)
    requires |word| + tolerance < |term| || |word| - tolerance > |term|
    ensures Lev(term, word) > tolerance && FuzzyScore(word, term, tolerance) == 0
  {
    LengthGapBounds(term, word);
  }

  /** The last loop of the scorer: the best fuzzy score of all words, with the hopeless lengths skipped. */
  method FuzzyPass(e: Entry, term: string, tolerance: nat) returns (best: nat)
    requires tolerance <= 3
    ensures best == BestFuzzy(e, term, tolerance, |e.words|)
  {
    best := 0;
    for i := 0 to |e.words|
      invariant best == BestFuzzy(e, term, tolerance, i)
    {
      var word := e.words[i];
      if |word| + tolerance < |term| || |word| - tolerance > |term| {
        SkippedWordsAreTooFar(word, term, tolerance);
        continue;
      }
      var d := EditDistance(term, word, tolerance);
      if d <= tolerance {
        var s := 300 - d * 80;
        if s > best { best := s; }
      }
    }
  }

  /** `scoreTerm`: three loops with early exits and a length filter, computing exactly the declarative score. */
  method ScoreTerm(e: Entry, term: string, tolerance: nat) returns (best: nat)
    requires tolerance <= 3
    ensures best == Score(e, term, tolerance)
  {
    best := 0;
    for i := 0 to |e.haystacks|
      invariant best == BestField(e, term, i) && ExactAt(e, term, i).None?
    {
      var field := e.haystacks[i];
      var bonus := if i < e.primaryLen then LABEL_BONUS else 0;
      if field == term {
        NoExactBefore(e, term, i);
        return 1000 + bonus;
      }
      if term <= field {
        var excess := |field| - |term|;
        var s := 820 - (if excess > 100 then 100 else excess) + bonus;
        if s > best { best := s; }
      } else if Contains(field, term) && best < 460 + bonus {
        best := 460 + bonus;
      }
    }
    BestFieldRange(e, term, |e.haystacks|);
    if best >= 900 + LABEL_BONUS { assert false; return best; }

    ghost var fields := best;
    for i := 0 to |e.words|
      invariant best == Max(fields, BestWord(e, term, i))
    {
      var word := e.words[i];
      var bonus := if i < e.primaryWordLen then LABEL_BONUS else 0;
      if word == term && best < 900 + bonus { best := 900 + bonus; }
      else if term <= word && best < 700 + bonus { best := 700 + bonus; }
    }
    BestWordRange(e, term, |e.words|);
    if best >= 460 { return; }
    if tolerance == 0 {
      NoFuzzyAtZero(e, term, |e.words|);
      return;
    }
    best := FuzzyPass(e, term, tolerance);
  }

  /** With no tolerance and no literal match nothing scores: distance zero is equality. */
  lemma {:induction false} NoFuzzyAtZero(e: Entry, term: string, n: nat)
    requires n <= |e.words| && BestWord(e, term, |e.words|) == 0
    ensures BestFuzzy(e, term, 0, n) == 0
  {
    if n > 0 {
      NoFuzzyAtZero(e, term, n - 1);
      ZeroOnlyForEqual(term, e.words[n - 1]);
      BestWordAt(e, term, |e.words|, n - 1);
    }
  }

  lemma {:induction false} BestWordAt(e: Entry, term: string, n: nat, i: nat)
    requires i < n <= |e.words|
    ensures BestWord(e, term, n) >= WordScore(e.words[i], term, Bonus(i, e.primaryWordLen))
  {
    if i < n - 1 { BestWordAt(e, term, n - 1, i); }
  }

  // ---- what a hit is ---------------------------------------------------------------------------------------------------

  /** The reader's meaning of "this entry matches this term". */
  ghost predicate Hits(e: Entry, term: string, tolerance: nat) {
    || (exists i :: 0 <= i < |e.haystacks| && Contains(e.haystacks[i], term))
    || (exists i :: 0 <= i < |e.words| && term <= e.words[i])
    || (exists i :: 0 <= i < |e.words| && Lev(term, e.words[i]) <= tolerance)
  }

  lemma {:induction false} BestFieldPositive(e: Entry, term: string, n: nat)
    requires n <= |e.haystacks|
    ensures BestField(e, term, n) > 0 <==> exists i :: 0 <= i < n && Contains(e.haystacks[i], term)
  {
    if n > 0 {
      BestFieldPositive(e, term, n - 1);
      if Contains(e.haystacks[n - 1], term) { assert FieldScore(e.haystacks[n - 1], term, 0) > 0; }
    }
  }

  lemma {:induction false} BestWordPositive(e: Entry, term: string, n: nat)
    requires n <= |e.words|
    ensures BestWord(e, term, n) > 0 <==> exists i :: 0 <= i < n && term <= e.words[i]
  {
    if n > 0 { BestWordPositive(e, term, n - 1); }
  }

  lemma {:induction false} BestFuzzyPositive(e: Entry, term: string, tolerance: nat, n: nat)
    requires n <= |e.words| && tolerance <= 3
    ensures BestFuzzy(e, term, tolerance, n) > 0 <==> exists i :: 0 <= i < n && Lev(term, e.words[i]) <= tolerance
  {
    if n > 0 { BestFuzzyPositive(e, term, tolerance, n - 1); }
  }

  lemma {:induction false} ExactMeansEqual(e: Entry, term: string, n: nat)
    requires n <= |e.haystacks|
    ensures ExactAt(e, term, n).Some? <==> exists i :: 0 <= i < n && e.haystacks[i] == term
  {
    if n > 0 { ExactMeansEqual(e, term, n - 1); }
  }

  /** A term scores exactly when it occurs in a folded string, starts a word, or is within tolerance of a word. */
  lemma ScoresExactlyHits(e: Entry, term: string, tolerance: nat)
    requires tolerance <= 3
    ensures Score(e, term, tolerance) > 0 <==> Hits(e, term, tolerance)
  {
    BestFieldPositive(e, term, |e.haystacks|);
    BestWordPositive(e, term, |e.words|);
    BestFuzzyPositive(e, term, tolerance, |e.words|);
    ExactMeansEqual(e, term, |e.haystacks|);
  }

  // ---- the two passes of `search` --------------------------------------------------------------------------------------

  /** Two words narrow: an entry is a hit when its kind is wanted and every term hits it. */
  ghost predicate IsHit(e: Entry, terms: seq<string>, kinds: Option<set<Kind>>) {
    (kinds.Some? ==> e.kind in kinds.value) && forall t :: t in terms ==> Hits(e, t, ToleranceFor(t))
  }

  ghost function Total(e: Entry, terms: seq<string>, n: nat): nat
    requires n <= |terms|
  {
    if n == 0 then 0 else Total(e, terms, n - 1) + Score(e, terms[n - 1], ToleranceFor(terms[n - 1]))
  }

  /** The loop over the terms of one entry: the first miss ends it. */
  method AllTerms(e: Entry, terms: seq<string>) returns (total: Option<nat>)
    ensures total.Some? <==> forall t :: t in terms ==> Hits(e, t, ToleranceFor(t))
    ensures total.Some? ==> total.value == Total(e, terms, |terms|)
  {
    var sum := 0;
    for i := 0 to |terms|
      invariant sum == Total(e, terms, i)
      invariant forall k :: 0 <= k < i ==> Hits(e, terms[k], ToleranceFor(terms[k]))
    {
      var s := ScoreTerm(e, terms[i], ToleranceFor(terms[i]));
      ScoresExactlyHits(e, terms[i], ToleranceFor(terms[i]));
      if s == 0 { return None; }
      sum := sum + s;
    }
    return Some(sum);
  }

  // ---- what ranks a hit besides its matches ----------------------------------------------------------------------------

  function KindBonus(kind: Kind): nat {
    match kind
    case Seite => 90
    case Gewerk => 70
    case Station => 60
    case Projekt => 50
    case Person => 40
    case Region => 30
    case Status => 20
    case _ => 15
  }

  function Pow(base: nat, exponent: nat): nat {
    if exponent == 0 then 1 else base * Pow(base, exponent - 1)
  }

  /** Is 6 * log2(weight + 1) at least k - 1/2? Both sides doubled and raised, this is a comparison of whole numbers. */
  predicate Reaches(weight: nat, k: nat) {
    k == 0 || Pow(2, 2 * k - 1) <= Pow(weight + 1, 12)
  }

  function BonusUpTo(weight: nat, k: nat): (bonus: nat)
    ensures bonus <= k && Reaches(weight, bonus) && (bonus < k ==> !Reaches(weight, bonus + 1))
  {
    if Reaches(weight, k) then k else BonusUpTo(weight, k - 1)
  }

  /** 6 * log2(weight + 1) rounded to a whole number, and at most 40. */
  function WeightBonus(weight: nat): (bonus: nat)
    ensures bonus <= 40 && Reaches(weight, bonus) && (bonus < 40 ==> !Reaches(weight, bonus + 1))
  {
    BonusUpTo(weight, 40)
  }

  lemma ProductsGrow(a: nat, b: nat, x: nat, y: nat)
    requires a <= b && x <= y
    ensures a * x <= b * y
  {
    assert a * x <= b * x;
    assert b * x <= b * y;
  }

  lemma {:induction false} PowGrowsWithBase(a: nat, b: nat, exponent: nat)
    requires a <= b
    ensures Pow(a, exponent) <= Pow(b, exponent)
  {
    if exponent > 0 {
      PowGrowsWithBase(a, b, exponent - 1);
      ProductsGrow(a, b, Pow(a, exponent - 1), Pow(b, exponent - 1));
    }
  }

  lemma {:induction false} BonusGrows(weight: nat, more: nat, k: nat)
    requires weight <= more
    ensures BonusUpTo(weight, k) <= BonusUpTo(more, k)
  {
    PowGrowsWithBase(weight + 1, more + 1, 12);
    if k > 0 && !Reaches(more, k) { BonusGrows(weight, more, k - 1); }
  }

  /** The weight breaks ties towards the busier answer: with more records a hit never scores less. */
  lemma BusierNeverScoresLess(weight: nat, more: nat)
    requires weight <= more
    ensures WeightBonus(weight) <= WeightBonus(more) <= 40
  {
    BonusGrows(weight, more, 40);
  }

  ghost function HitScore(e: Entry, terms: seq<string>): nat {
    Total(e, terms, |terms|) + KindBonus(e.kind) + WeightBonus(e.weight)
  }

  // ---- the order of the hits -------------------------------------------------------------------------------------------

  /** A hit with the place of its entry in the index. */
  datatype Hit = Hit(index: nat, entry: Entry, score: nat)

  /** `localeCompare`: negative when the first string comes first, zero for strings that collate as one. */
  type Collation = (string, string) -> int

  ghost predicate Collates(collate: Collation) {
    && (forall a, b :: collate(a, b) < 0 <==> collate(b, a) > 0)
    && (forall a, b, c :: collate(a, b) >= 0 && collate(b, c) >= 0 ==> collate(a, c) >= 0)
  }

  /** The comparator: the higher score first, then the label. */
  predicate IsAhead(collate: Collation, x: Hit, y: Hit) {
    x.score > y.score || (x.score == y.score && collate(x.entry.name, y.entry.name) < 0)
  }

  function Ahead(collate: Collation): (Hit, Hit) -> bool {
    (x: Hit, y: Hit) => IsAhead(collate, x, y)
  }

  /** The order hits are shown in: what the comparator leaves open is settled by the place in the index. */
  function Precedes(collate: Collation): (Hit, Hit) -> bool {
    (x: Hit, y: Hit) => IsAhead(collate, x, y) || (!IsAhead(collate, y, x) && x.index < y.index)
  }

  lemma TiesAreConsistent(collate: Collation, x: Hit, y: Hit, z: Hit)
    requires Collates(collate) && !IsAhead(collate, x, y) && !IsAhead(collate, y, z)
    ensures !IsAhead(collate, x, z)
  {
    if x.score == z.score {
      var a, b, c := x.entry.name, y.entry.name, z.entry.name;
      assert collate(a, b) >= 0 && collate(b, c) >= 0;
      assert collate(a, c) >= 0;
    }
  }

  lemma AheadIsConsistent(collate: Collation)
    requires Collates(collate)
    ensures Consistent(Ahead(collate)) && Completes(Precedes(collate), Ahead(collate))
  {
    forall x, y, z | !Ahead(collate)(x, y) && !Ahead(collate)(y, z) ensures !Ahead(collate)(x, z) {
      TiesAreConsistent(collate, x, y, z);
    }
    forall x, y | IsAhead(collate, x, y) ensures !IsAhead(collate, y, x) {
      assert collate(x.entry.name, y.entry.name) < 0 <==> collate(y.entry.name, x.entry.name) > 0;
    }
  }

  /** The entries a query finds, by their places in the index. */
  ghost function FoundAt(index: seq<Entry>, terms: seq<string>, kinds: Option<set<Kind>>): set<nat> {
    set i | 0 <= i < |index| && IsHit(index[i], terms, kinds)
  }

  ghost function HitOf(index: seq<Entry>, terms: seq<string>, i: nat): Hit
    requires i < |index|
  {
    Hit(i, index[i], HitScore(index[i], terms))
  }

  ghost predicate AreHits(index: seq<Entry>, terms: seq<string>, found: set<nat>, hits: seq<Hit>) {
    forall h :: h in hits ==> h.index < |index| && h.index in found && h == HitOf(index, terms, h.index)
  }

  ghost predicate ListsHits(index: seq<Entry>, terms: seq<string>, found: set<nat>, hits: seq<Hit>, n: nat)
    requires n <= |index|
  {
    && AreHits(index, terms, found, hits) && (forall h :: h in hits ==> h.index < n)
    && (forall i :: 0 <= i < n && i in found ==> HitOf(index, terms, i) in hits)
    && (forall i, j :: 0 <= i < j < |hits| ==> hits[i].index < hits[j].index)
  }

  lemma OneMoreHit(index: seq<Entry>, terms: seq<string>, found: set<nat>, hits: seq<Hit>, n: nat)
    requires n < |index| && ListsHits(index, terms, found, hits, n)
    ensures ListsHits(index, terms, found, if n in found then hits + [HitOf(index, terms, n)] else hits, n + 1)
  {
    assert forall k :: 0 <= k < |hits| ==> hits[k] in hits;
  }

  /** The first pass before its sort: the hits in the order of the index. */
  method Gather(index: seq<Entry>, terms: seq<string>, kinds: Option<set<Kind>>) returns (hits: seq<Hit>)
    ensures ListsHits(index, terms, FoundAt(index, terms, kinds), hits, |index|)
  {
    ghost var found := FoundAt(index, terms, kinds);
    hits := [];
    for n := 0 to |index|
      invariant ListsHits(index, terms, found, hits, n)
    {
      OneMoreHit(index, terms, found, hits, n);
      var hit := HitAt(index, terms, kinds, n);
      if hit.None? { continue; }
      hits := hits + [hit.value];
    }
  }

  /** The body of the loop: a hit, unless the kind is not wanted or a term misses. */
  method HitAt(index: seq<Entry>, terms: seq<string>, kinds: Option<set<Kind>>, n: nat) returns (hit: Option<Hit>)
    requires n < |index|
    ensures hit == if n in FoundAt(index, terms, kinds) then Some(HitOf(index, terms, n)) else None
  {
    var e := index[n];
    if kinds.Some? && e.kind !in kinds.value { return None; }
    var total := AllTerms(e, terms);
    if total.None? { return None; }
    hit := Some(Hit(n, e, total.value + KindBonus(e.kind) + WeightBonus(e.weight)));
  }

  /** All hits, ranked: every entry of a wanted kind that every term hits, once, in the order they are shown. */
  method Rank(index: seq<Entry>, terms: seq<string>, kinds: Option<set<Kind>>, collate: Collation)
    returns (hits: seq<Hit>)
    requires Collates(collate)
    ensures AreHits(index, terms, FoundAt(index, terms, kinds), hits) && Ordered(hits, Precedes(collate))
    ensures forall i :: i in FoundAt(index, terms, kinds) ==> HitOf(index, terms, i) in hits
    ensures |hits| == |FoundAt(index, terms, kinds)|
  {
    var found := Gather(index, terms, kinds);
    hits := SortBy(found, Ahead(collate));
    AheadIsConsistent(collate);
    SortElements(found, Ahead(collate));
    SortOrders(found, Ahead(collate), Precedes(collate));
    CountHits(index, terms, FoundAt(index, terms, kinds), found);
  }

  lemma CountHits(index: seq<Entry>, terms: seq<string>, found: set<nat>, hits: seq<Hit>)
    requires ListsHits(index, terms, found, hits, |index|) && forall i :: i in found ==> i < |index|
    ensures |hits| == |found|
  {
    var places := seq(|hits|, k requires 0 <= k < |hits| => hits[k].index);
    AsManyAsElements(places);
    assert forall k :: 0 <= k < |hits| ==> hits[k] in hits && places[k] == hits[k].index;
    forall i ensures i in places <==> i in found {
      if i in found {
        var k :| 0 <= k < |hits| && hits[k] == HitOf(index, terms, i);
        assert places[k] == i;
      }
    }
    assert (set i | i in places) == found;
  }

  // ---- the correction --------------------------------------------------------------------------------------------------

  /** May the correction pass consider this entry, and how far is its label from the word typed? */
  ghost predicate Offerable(e: Entry, longest: string, tolerance: nat, kinds: Option<set<Kind>>) {
    (kinds.Some? ==> e.kind in kinds.value) && |e.haystacks| > 0 && e.haystacks[0] != "" &&
    0 < Lev(longest, e.haystacks[0]) <= tolerance
  }

  /** The first of the offerable labels nearest to the word. */
  ghost predicate FirstNearest(index: seq<Entry>, longest: string, tolerance: nat, kinds: Option<set<Kind>>, c: nat) {
    && c < |index| && Offerable(index[c], longest, tolerance, kinds)
    && forall i :: 0 <= i < |index| && Offerable(index[i], longest, tolerance, kinds) ==>
         Lev(longest, index[c].haystacks[0]) <= Lev(longest, index[i].haystacks[0]) &&
         (i < c ==> Lev(longest, index[c].haystacks[0]) < Lev(longest, index[i].haystacks[0]))
  }

  /**
   * The correction pass offers nothing exactly when no label is within tolerance without being the word itself; otherwise
   * the first of the labels nearest to it.
   */
  method Correct(index: seq<Entry>, longest: string, tolerance: nat, kinds: Option<set<Kind>>)
    returns (correction: Option<nat>)
    ensures correction.None? ==> forall i :: 0 <= i < |index| ==> !Offerable(index[i], longest, tolerance, kinds)
    ensures correction.Some? ==> FirstNearest(index, longest, tolerance, kinds, correction.value)
  {
    var bestDistance := tolerance + 1;
    correction := None;
    for n := 0 to |index|
      invariant correction.None? ==> bestDistance == tolerance + 1
      invariant correction.None? ==> forall i :: 0 <= i < n ==> !Offerable(index[i], longest, tolerance, kinds)
      invariant correction.Some? ==> correction.value < n && Offerable(index[correction.value], longest, tolerance, kinds)
      invariant correction.Some? ==> bestDistance == Lev(longest, index[correction.value].haystacks[0])
      invariant correction.Some? ==>
        forall i :: 0 <= i < n && Offerable(index[i], longest, tolerance, kinds) ==>
          bestDistance <= Lev(longest, index[i].haystacks[0]) &&
          (i < correction.value ==> bestDistance < Lev(longest, index[i].haystacks[0]))
    {
      var e := index[n];
      if kinds.Some? && e.kind !in kinds.value { continue; }
      if |e.haystacks| == 0 || e.haystacks[0] == "" { continue; }
      var candidate := e.haystacks[0];
      LengthGapBounds(longest, candidate);
      if |candidate| - |longest| > tolerance || |longest| - |candidate| > tolerance { continue; }
      var d := EditDistance(longest, candidate, tolerance);
      if 0 < d < bestDistance {
        bestDistance := d;
        correction := Some(n);
      }
    }
  }

  // ---- the search ------------------------------------------------------------------------------------------------------

  datatype SearchResult = SearchResult(hits: seq<Hit>, correction: Option<string>)

  /** The words of a query under the expanding folding, or under the loose one when that leaves none. */
  function QueryTerms(expanded: string -> string, loose: string -> string, query: string): seq<string> {
    if |Words(expanded(query))| > 0 then Words(expanded(query)) else Words(loose(query))
  }

  /** The first of the longest terms. */
  function Longest(terms: seq<string>): (longest: string)
    ensures forall t :: t in terms ==> |t| <= |longest|
    ensures longest != "" ==> exists i :: 0 <= i < |terms| && terms[i] == longest &&
                                            forall j :: 0 <= j < i ==> |terms[j]| < |longest|
  {
    if |terms| == 0 then ""
    else
      var front, last := Longest(terms[..|terms| - 1]), terms[|terms| - 1];
      if |last| > |front| then last else front
  }

  /** The best hits up to the limit, in their order: what is left out comes after all that is shown. */
  ghost predicate Shown(index: seq<Entry>, terms: seq<string>, kinds: Option<set<Kind>>, collate: Collation, limit: nat,
                        hits: seq<Hit>) {
    var found := FoundAt(index, terms, kinds);
    && AreHits(index, terms, found, hits) && Ordered(hits, Precedes(collate))
    && |hits| == (if |found| <= limit then |found| else limit)
    && forall i, h :: i in found && h in hits && HitOf(index, terms, i) !in hits ==>
                        Precedes(collate)(h, HitOf(index, terms, i))
  }

  ghost predicate HasStrongHit(index: seq<Entry>, terms: seq<string>, kinds: Option<set<Kind>>) {
    exists i :: i in FoundAt(index, terms, kinds) && HitScore(index[i], terms) >= 700
  }

  /** A spelling is offered only to a query of some length without a strong hit, and then the nearest there is. */
  ghost predicate Corrected(index: seq<Entry>, terms: seq<string>, kinds: Option<set<Kind>>, correction: Option<string>) {
    var longest := Longest(terms);
    var tolerance := Max(1, ToleranceFor(longest));
    if HasStrongHit(index, terms, kinds) || |longest| < 4 then correction.None?
    else if correction.None? then forall i :: 0 <= i < |index| ==> !Offerable(index[i], longest, tolerance, kinds)
    else exists c: nat :: FirstNearest(index, longest, tolerance, kinds, c) && correction.value == index[c].name
  }

  method Query(index: seq<Entry>, expanded: string -> string, loose: string -> string, collate: Collation, query: string,
                kinds: Option<set<Kind>>, limit: nat)
    returns (r: SearchResult)
    requires Collates(collate)
    ensures var terms := QueryTerms(expanded, loose, query);
            if terms == [] then r == SearchResult([], None)
            else Shown(index, terms, kinds, collate, limit, r.hits) && Corrected(index, terms, kinds, r.correction)
  {
    var terms := QueryTerms(expanded, loose, query);
    if |terms| == 0 { return SearchResult([], None); }
    var hits := Rank(index, terms, kinds, collate);
    var strong := |hits| > 0 && hits[0].score >= 700;
    BestIsFirst(index, terms, kinds, collate, hits);
    var shown := if |hits| <= limit then hits else hits[..limit];
    RestComesAfter(index, terms, kinds, collate, hits, shown);
    var correction := OfferSpelling(index, terms, kinds, strong);
    r := SearchResult(shown, correction);
  }

  lemma PrecedingScores(collate: Collation, x: Hit, y: Hit)
    requires Precedes(collate)(x, y)
    ensures x.score >= y.score
  {
    assert IsAhead(collate, x, y) || !IsAhead(collate, y, x);
  }

  lemma FirstScoresMost(collate: Collation, hits: seq<Hit>)
    requires |hits| > 0 && Ordered(hits, Precedes(collate))
    ensures forall h :: h in hits ==> h.score <= hits[0].score
  {
    forall h | h in hits ensures h.score <= hits[0].score {
      var k :| 0 <= k < |hits| && hits[k] == h;
      if k > 0 { PrecedingScores(collate, hits[0], hits[k]); }
    }
  }

  lemma BestIsFirst(index: seq<Entry>, terms: seq<string>, kinds: Option<set<Kind>>, collate: Collation, hits: seq<Hit>)
    requires AreHits(index, terms, FoundAt(index, terms, kinds), hits) && Ordered(hits, Precedes(collate))
    requires forall i :: i in FoundAt(index, terms, kinds) ==> HitOf(index, terms, i) in hits
    ensures HasStrongHit(index, terms, kinds) <==> |hits| > 0 && hits[0].score >= 700
  {
    if |hits| > 0 {
      FirstScoresMost(collate, hits);
      assert hits[0] in hits;
      assert forall i :: i in FoundAt(index, terms, kinds) ==> HitOf(index, terms, i).score <= hits[0].score;
    }
  }

  lemma ShownIsIn(hits: seq<Hit>, shown: seq<Hit>, n: nat)
    requires shown <= hits && n < |shown|
    ensures hits[n] in shown
  {
    assert hits[n] == shown[n];
  }

  lemma RestComesAfter(index: seq<Entry>, terms: seq<string>, kinds: Option<set<Kind>>, collate: Collation, hits: seq<Hit>,
                       shown: seq<Hit>)
    requires AreHits(index, terms, FoundAt(index, terms, kinds), hits) && Ordered(hits, Precedes(collate)) && shown <= hits
    requires forall i :: i in FoundAt(index, terms, kinds) ==> HitOf(index, terms, i) in hits
    ensures AreHits(index, terms, FoundAt(index, terms, kinds), shown) && Ordered(shown, Precedes(collate))
    ensures forall i, h :: i in FoundAt(index, terms, kinds) && h in shown && HitOf(index, terms, i) !in shown ==>
                             Precedes(collate)(h, HitOf(index, terms, i))
  {
    assert forall k :: 0 <= k < |shown| ==> shown[k] == hits[k];
    forall i, h | i in FoundAt(index, terms, kinds) && h in shown && HitOf(index, terms, i) !in shown
      ensures Precedes(collate)(h, HitOf(index, terms, i))
    {
      var k :| 0 <= k < |shown| && shown[k] == h;
      var n :| 0 <= n < |hits| && hits[n] == HitOf(index, terms, i);
      if n < |shown| { ShownIsIn(hits, shown, n); }
    }
  }

  method OfferSpelling(index: seq<Entry>, terms: seq<string>, kinds: Option<set<Kind>>, strong: bool)
    returns (correction: Option<string>)
    requires strong <==> HasStrongHit(index, terms, kinds)
    ensures Corrected(index, terms, kinds, correction)
  {
    if strong { return None; }
    var longest := Longest(terms);
    if |longest| < 4 { return None; }
    var c := Correct(index, longest, Max(1, ToleranceFor(longest)), kinds);
    correction := if c.Some? then Some(index[c.value].name) else None;
  }

  // ---- what a reader may rely on ---------------------------------------------------------------------------------------

  /** A further word narrows: it adds no entry, and no more entries are shown. */
  lemma MoreWordsNarrow(index: seq<Entry>, terms: seq<string>, more: seq<string>, kinds: Option<set<Kind>>)
    ensures FoundAt(index, terms + more, kinds) <= FoundAt(index, terms, kinds)
    ensures |FoundAt(index, terms + more, kinds)| <= |FoundAt(index, terms, kinds)|
  {
    assert forall t :: t in terms ==> t in terms + more;
    FewerElements(FoundAt(index, terms + more, kinds), FoundAt(index, terms, kinds));
  }

  lemma FewerElements(part: set<nat>, whole: set<nat>)
    requires part <= whole
    ensures |part| <= |whole|
  {
    assert whole == part + (whole - part);
  }

  /** One of the folded forms of the entry's own label is the term. */
  ghost predicate IsNamed(e: Entry, term: string) {
    exists i :: 0 <= i < e.primaryLen && i < |e.haystacks| && e.haystacks[i] == term
  }

  /** The label has something of the term in it: as a part, or as the start of a word. */
  ghost predicate NameHas(e: Entry, term: string) {
    || (exists i :: 0 <= i < e.primaryLen && i < |e.haystacks| && Contains(e.haystacks[i], term))
    || (exists i :: 0 <= i < e.primaryWordLen && i < |e.words| && term <= e.words[i])
  }

  lemma {:induction false} FirstExact(e: Entry, term: string, n: nat)
    requires n <= |e.haystacks|
    ensures ExactAt(e, term, n).Some? ==>
              var i := ExactAt(e, term, n).value;
              i < n && e.haystacks[i] == term && forall j :: 0 <= j < i ==> e.haystacks[j] != term
    ensures ExactAt(e, term, n).None? ==> forall j :: 0 <= j < n ==> e.haystacks[j] != term
  {
    if n > 0 { FirstExact(e, term, n - 1); }
  }

  lemma {:induction false} FieldsBelow(e: Entry, term: string, n: nat)
    requires n <= |e.haystacks|
    ensures BestField(e, term, n) <= 970 && (!NameHas(e, term) ==> BestField(e, term, n) <= 820)
  {
    if n > 0 {
      FieldsBelow(e, term, n - 1);
      assert n - 1 < e.primaryLen && FieldScore(e.haystacks[n - 1], term, LABEL_BONUS) > 0 ==> NameHas(e, term);
    }
  }

  lemma {:induction false} WordsBelow(e: Entry, term: string, n: nat)
    requires n <= |e.words|
    ensures BestWord(e, term, n) <= 1050 && (!NameHas(e, term) ==> BestWord(e, term, n) <= 900)
  {
    if n > 0 {
      WordsBelow(e, term, n - 1);
      assert n - 1 < e.primaryWordLen && term <= e.words[n - 1] ==> NameHas(e, term);
    }
  }

  lemma {:induction false} FuzzyBelow(e: Entry, term: string, tolerance: nat, n: nat)
    requires n <= |e.words|
    ensures BestFuzzy(e, term, tolerance, n) <= 300
  {
    if n > 0 { FuzzyBelow(e, term, tolerance, n - 1); }
  }

  lemma NameScores(e: Entry, term: string, tolerance: nat)
    ensures IsNamed(e, term) ==> Score(e, term, tolerance) == 1150
    ensures !IsNamed(e, term) ==> Score(e, term, tolerance) <= 1050
    ensures !NameHas(e, term) ==> Score(e, term, tolerance) <= 1000
  {
    FirstExact(e, term, |e.haystacks|);
    FieldsBelow(e, term, |e.haystacks|);
    WordsBelow(e, term, |e.words|);
    FuzzyBelow(e, term, tolerance, |e.words|);
    if ExactAt(e, term, |e.haystacks|).Some? {
      var i := ExactAt(e, term, |e.haystacks|).value;
      assert i < e.primaryLen <==> IsNamed(e, term);
      assert i < e.primaryLen ==> Contains(e.haystacks[i], term);
    }
  }

  lemma OneTerm(e: Entry, term: string)
    ensures HitScore(e, [term]) == Score(e, term, ToleranceFor(term)) + KindBonus(e.kind) + WeightBonus(e.weight)
  {
    assert Total(e, [term], 1) == Total(e, [term], 0) + Score(e, [term][0], ToleranceFor([term][0]));
  }

  /** An entry's own name outranks a mention of it, by a margin no weight can take away. */
  lemma OwnNameOutranksMention(a: Entry, b: Entry, term: string)
    requires IsNamed(a, term) && !NameHas(b, term)
    ensures HitScore(a, [term]) - HitScore(b, [term]) >= 110 + KindBonus(a.kind) - KindBonus(b.kind) >= 35
  {
    NameScores(a, term, ToleranceFor(term));
    NameScores(b, term, ToleranceFor(term));
    OneTerm(a, term);
    OneTerm(b, term);
  }

  // ---- how far a name carries ------------------------------------------------------------------------------------------

  /** Of these two kinds, does every entry named by the term outrank every entry that is not? */
  ghost predicate NameWins(kind: Kind, other: Kind) {
    forall a: Entry, b: Entry, term: string ::
      a.kind == kind && b.kind == other && IsNamed(a, term) && !IsNamed(b, term) ==>
      HitScore(a, [term]) > HitScore(b, [term])
  }

  /** An entry named x without weight, and one that has x for a word and the full bonus of its weight. */
  function Lone(kind: Kind): Entry {
    Entry(kind, "x", 0, ["x"], 1, ["x"], 1)
  }

  function Busy(kind: Kind): Entry {
    Entry(kind, "x y", 127, ["x y"], 1, ["x", "y"], 2)
  }

  lemma Regroup(a: nat, b: nat, c: nat)
    ensures a * (b * c) == (a * b) * c
  {
  }

  lemma {:induction false} PowOfSum(base: nat, m: nat, n: nat)
    ensures Pow(base, m + n) == Pow(base, m) * Pow(base, n)
  {
    if m > 0 {
      PowOfSum(base, m - 1, n);
      Regroup(base, Pow(base, m - 1), Pow(base, n));
    }
  }

  lemma {:induction false} PowGrows(base: nat, m: nat, n: nat)
    requires base > 0 && m <= n
    ensures 1 <= Pow(base, m) <= Pow(base, n)
    decreases n
  {
    if m < n {
      PowGrows(base, m, n - 1);
      ProductsGrow(1, base, Pow(base, n - 1), Pow(base, n - 1));
    } else if m > 0 {
      PowGrows(base, m - 1, n - 1);
      ProductsGrow(1, base, 1, Pow(base, n - 1));
    }
  }

  lemma {:induction false} PowOfOne(n: nat)
    ensures Pow(1, n) == 1
  {
    if n > 0 { PowOfOne(n - 1); }
  }

  lemma {:induction false} PowersOf128(n: nat)
    ensures Pow(128, n) == Pow(2, 7 * n)
  {
    if n > 0 {
      PowersOf128(n - 1);
      PowOfSum(2, 7, 7 * (n - 1));
      SeventhPower();
    }
  }

  lemma SeventhPower()
    ensures Pow(2, 7) == 128
  {
    assert Pow(2, 1) == 2 && Pow(2, 2) == 4 && Pow(2, 3) == 8 && Pow(2, 4) == 16;
  }

  lemma NoWeight(weight: nat)
    requires weight == 0
    ensures WeightBonus(weight) == 0
  {
    var bonus, one := WeightBonus(weight), weight + 1;
    PowOfOne(12);
    if bonus > 0 {
      PowGrows(2, 1, 2 * bonus - 1);
      assert Pow(2, 1) == 2;
    }
  }

  lemma FullWeight(weight: nat, bonus: nat)
    requires weight == 127 && bonus == WeightBonus(weight)
    ensures bonus == 40
  {
    PowersOf128(12);
    if bonus < 40 { PowGrows(2, 2 * (bonus + 1) - 1, 84); }
  }

  lemma LoneScores(kind: Kind)
    ensures IsNamed(Lone(kind), "x") && HitScore(Lone(kind), ["x"]) == 1150 + KindBonus(kind)
  {
    assert Lone(kind).haystacks[0] == "x";
    NameScores(Lone(kind), "x", ToleranceFor("x"));
    OneTerm(Lone(kind), "x");
    NoWeight(Lone(kind).weight);
  }

  lemma BusyScores(kind: Kind)
    ensures !IsNamed(Busy(kind), "x") && HitScore(Busy(kind), ["x"]) == 1090 + KindBonus(kind)
  {
    var e := Busy(kind);
    assert |e.haystacks[0]| != |"x"|;
    NameScores(e, "x", ToleranceFor("x"));
    FirstExact(e, "x", 1);
    BestWordAt(e, "x", 2, 0);
    assert e.words[0] == "x";
    OneTerm(e, "x");
    FullWeight(e.weight, WeightBonus(e.weight));
  }

  /**
   * An entry named by the term outranks every entry of another kind that is not, whatever weight stands behind either,
   * exactly when the other kind's bonus is less than 60 above its own: not a region or a status beside a page.
   */
  lemma OwnNameWinsExactly(kind: Kind, other: Kind)
    ensures NameWins(kind, other) <==> KindBonus(other) < KindBonus(kind) + 60
  {
    LoneScores(kind);
    BusyScores(other);
    if KindBonus(other) < KindBonus(kind) + 60 {
      forall a: Entry, b: Entry, term: string
        | a.kind == kind && b.kind == other && IsNamed(a, term) && !IsNamed(b, term)
        ensures HitScore(a, [term]) > HitScore(b, [term])
      {
        NameScores(a, term, ToleranceFor(term));
        NameScores(b, term, ToleranceFor(term));
        OneTerm(a, term);
        OneTerm(b, term);
      }
    } else {
      assert Lone(kind).kind == kind && Busy(other).kind == other;
      assert HitScore(Lone(kind), ["x"]) <= HitScore(Busy(other), ["x"]);
    }
  }
}
