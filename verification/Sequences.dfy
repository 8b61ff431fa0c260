/** Sequences: filtering, joining and sorting as the source's arrays do it. */
module Sequences {
  ghost predicate Distinct<T>(s: seq<T>) {
    forall i, j :: 0 <= i < j < |s| ==> s[i] != s[j]
  }

  // ---- filter ----------------------------------------------------------------------------------------------------------

  function Filter<T>(s: seq<T>, keep: T -> bool): seq<T> {
    if |s| == 0 then []
    else Filter(s[..|s| - 1], keep) + if keep(s[|s| - 1]) then [s[|s| - 1]] else []
  }

  lemma FilterNext<T>(s: seq<T>, keep: T -> bool, i: nat)
    requires i < |s|
    ensures Filter(s[..i + 1], keep) == Filter(s[..i], keep) + if keep(s[i]) then [s[i]] else []
  {
    assert s[..i + 1][..i] == s[..i];
  }

  lemma {:induction false} FilterElements<T>(s: seq<T>, keep: T -> bool, x: T)
    ensures x in Filter(s, keep) <==> x in s && keep(x)
  {
    if |s| > 0 {
      FilterElements(s[..|s| - 1], keep, x);
      assert s == s[..|s| - 1] + [s[|s| - 1]];
    }
  }

  lemma {:induction false} FilterMeet<T>(s: seq<T>, f: T -> bool, g: T -> bool, both: T -> bool)
    requires forall x :: x in s ==> (both(x) <==> f(x) && g(x))
    ensures Filter(Filter(s, f), g) == Filter(s, both)
  {
    if |s| > 0 {
      var last := |s| - 1;
      FilterMeet(s[..last], f, g, both);
      assert s[last] in s;
      if f(s[last]) {
        var front := Filter(s[..last], f);
        var all := front + [s[last]];
        FilterNext(all, g, |front|);
        assert all[..|front|] == front && all[..|front| + 1] == all;
      } else {
        assert Filter(s, f) == Filter(s[..last], f);
      }
    }
  }

  lemma {:induction false} FilterSame<T>(s: seq<T>, f: T -> bool, g: T -> bool)
    requires forall x :: x in s ==> (f(x) <==> g(x))
    ensures Filter(s, f) == Filter(s, g)
  {
    if |s| > 0 { FilterSame(s[..|s| - 1], f, g); }
  }

  lemma {:induction false} FilterNone<T>(s: seq<T>, keep: T -> bool)
    requires forall j :: 0 <= j < |s| ==> !keep(s[j])
    ensures Filter(s, keep) == []
  {
    if |s| > 0 { FilterNone(s[..|s| - 1], keep); }
  }

  lemma {:induction false} FilterSome<T>(s: seq<T>, keep: T -> bool, i: nat)
    requires i < |s| && keep(s[i])
    ensures |Filter(s, keep)| >= 1
  {
    if i < |s| - 1 { FilterSome(s[..|s| - 1], keep, i); }
  }

  /** One element is left exactly when one position keeps its element. */
  lemma {:induction false} FilterOne<T>(s: seq<T>, keep: T -> bool, i: nat)
    requires i < |s| && keep(s[i])
    ensures |Filter(s, keep)| == 1 <==> forall j :: 0 <= j < |s| && keep(s[j]) ==> j == i
    ensures |Filter(s, keep)| == 1 ==> Filter(s, keep)[0] == s[i]
  {
    var last := |s| - 1;
    var rest := s[..last];
    if i < last {
      FilterOne(rest, keep, i);
      FilterSome(rest, keep, i);
    } else if forall j :: 0 <= j < last ==> !keep(s[j]) {
      FilterNone(rest, keep);
    } else {
      var j :| 0 <= j < last && keep(s[j]);
      FilterSome(rest, keep, j);
    }
  }

  lemma {:induction false} FilterWitness<T>(s: seq<T>, keep: T -> bool) returns (i: nat)
    requires |Filter(s, keep)| >= 1
    ensures i < |s| && keep(s[i])
  {
    var last := |s| - 1;
    if keep(s[last]) {
      i := last;
    } else {
      i := FilterWitness(s[..last], keep);
    }
  }

  // ---- join ------------------------------------------------------------------------------------------------------------

  function Join(parts: seq<string>, separator: string): string {
    if |parts| == 0 then ""
    else if |parts| == 1 then parts[0]
    else parts[0] + separator + Join(parts[1..], separator)
  }

  lemma {:induction false} JoinLast(parts: seq<string>, separator: string)
    requires |parts| > 1
    ensures Join(parts, separator) == Join(parts[..|parts| - 1], separator) + separator + parts[|parts| - 1]
  {
    var front := parts[..|parts| - 1];
    if |parts| > 2 {
      JoinLast(parts[1..], separator);
      assert parts[1..][..|parts| - 2] == front[1..];
      assert parts[0] + separator + (Join(front[1..], separator) + separator + parts[|parts| - 1]) ==
             parts[0] + separator + Join(front[1..], separator) + separator + parts[|parts| - 1];
    } else {
      assert Join(front, separator) == parts[0] && Join(parts[1..], separator) == parts[1];
    }
  }

  // ---- sort ------------------------------------------------------------------------------------------------------------

  /** `ahead` says when a comparator puts its first argument in front; ties are consistent. */
  ghost predicate Consistent<T(!new)>(ahead: (T, T) -> bool) {
    forall x, y, z :: !ahead(x, y) && !ahead(y, z) ==> !ahead(x, z)
  }

  /** The new element goes behind every element it is not ahead of. */
  function InsertBy<T>(s: seq<T>, x: T, ahead: (T, T) -> bool): seq<T> {
    if |s| > 0 && ahead(x, s[|s| - 1]) then InsertBy(s[..|s| - 1], x, ahead) + [s[|s| - 1]] else s + [x]
  }

  /** `sort`: elements that tie stay in their order. */
  function SortBy<T>(s: seq<T>, ahead: (T, T) -> bool): seq<T> {
    if |s| == 0 then [] else InsertBy(SortBy(s[..|s| - 1], ahead), s[|s| - 1], ahead)
  }

  ghost predicate Ordered<T>(s: seq<T>, before: (T, T) -> bool) {
    forall i, j :: 0 <= i < j < |s| ==> before(s[i], s[j])
  }

  lemma {:induction false} InsertElements<T>(s: seq<T>, x: T, ahead: (T, T) -> bool)
    ensures |InsertBy(s, x, ahead)| == |s| + 1
    ensures forall y :: y in InsertBy(s, x, ahead) <==> y in s || y == x
  {
    if |s| > 0 {
      var last := |s| - 1;
      assert s == s[..last] + [s[last]];
      InsertElements(s[..last], x, ahead);
    }
  }

  lemma {:induction false} SortElements<T>(s: seq<T>, ahead: (T, T) -> bool)
    ensures |SortBy(s, ahead)| == |s| && forall y :: y in SortBy(s, ahead) <==> y in s
  {
    if |s| > 0 {
      var last := |s| - 1;
      assert s == s[..last] + [s[last]];
      SortElements(s[..last], ahead);
      InsertElements(SortBy(s[..last], ahead), s[last], ahead);
    }
  }

  /** `before` settles what `ahead` leaves open: what is ahead is before, and what is before is not behind. */
  ghost predicate Completes<T(!new)>(before: (T, T) -> bool, ahead: (T, T) -> bool) {
    forall x, y :: (ahead(x, y) ==> before(x, y)) && (before(x, y) ==> !ahead(y, x))
  }

  lemma {:induction false} InsertOrders<T(!new)>(s: seq<T>, x: T, ahead: (T, T) -> bool, before: (T, T) -> bool)
    requires Consistent(ahead) && Completes(before, ahead) && Ordered(s, before)
    requires forall y :: y in s && !ahead(x, y) ==> before(y, x)
    ensures Ordered(InsertBy(s, x, ahead), before)
  {
    if |s| > 0 && ahead(x, s[|s| - 1]) {
      var front, last := s[..|s| - 1], s[|s| - 1];
      assert forall i :: 0 <= i < |front| ==> front[i] == s[i] && front[i] in s;
      InsertOrders(front, x, ahead, before);
      InsertElements(front, x, ahead);
      var out := InsertBy(front, x, ahead);
      forall i | 0 <= i < |out| ensures before(out[i], last) { assert out[i] in out; }
    } else {
      forall i | 0 <= i < |s| ensures before(s[i], x) {
        assert s[i] in s;
        if i < |s| - 1 { assert before(s[i], s[|s| - 1]) && !ahead(s[|s| - 1], s[i]); }
      }
    }
  }

  /**
   * A stable sort: if whatever stands in front in the input without being behind is `before`, all of the output stands in
   * the order of `before`.
   */
  lemma {:induction false} SortOrders<T(!new)>(s: seq<T>, ahead: (T, T) -> bool, before: (T, T) -> bool)
    requires Consistent(ahead) && Completes(before, ahead)
    requires forall i, j :: 0 <= i < j < |s| && !ahead(s[j], s[i]) ==> before(s[i], s[j])
    ensures Ordered(SortBy(s, ahead), before)
  {
    if |s| > 0 {
      var front, x := s[..|s| - 1], s[|s| - 1];
      SortOrders(front, ahead, before);
      SortElements(front, ahead);
      forall y | y in SortBy(front, ahead) && !ahead(x, y) ensures before(y, x) {
        var i :| 0 <= i < |front| && front[i] == y;
        assert s[i] == y;
      }
      InsertOrders(SortBy(front, ahead), x, ahead, before);
    }
  }

  lemma {:induction false} AsManyAsElements<T>(s: seq<T>)
    requires Distinct(s)
    ensures |set x | x in s| == |s|
  {
    if |s| > 0 {
      var front, last := s[..|s| - 1], s[|s| - 1];
      AsManyAsElements(front);
      assert s == front + [last];
      assert (set x | x in s) == (set x | x in front) + {last};
    }
  }
}
