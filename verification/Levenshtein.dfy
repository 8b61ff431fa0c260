/**
 * `editDistance` of shared/search.ts: the two-row, early-exit Levenshtein distance, proved against the recursive distance,
 * and the recursive distance proved to be the least cost of turning one string into the other.
 */
module Levenshtein {
  function Min(x: nat, y: nat): nat {
    if x <= y then x else y
  }

  function Cost(x: char, y: char): nat {
    if x == y then 0 else 1
  }

  /** The distance by recursion on the last characters. */
  function Lev(a: string, b: string): nat
    decreases |a| + |b|
  {
    if |a| == 0 then |b|
    else if |b| == 0 then |a|
    else
      var a', b' := a[..|a| - 1], b[..|b| - 1];
      Min(Min(Lev(a', b) + 1, Lev(a, b') + 1), Lev(a', b') + Cost(a[|a| - 1], b[|b| - 1]))
  }

  // ---- what the recursive distance means: the cheapest way to edit one string into the other ---------------------------

  /** One column of an alignment: keep or replace a character, insert one, or delete one. */
  datatype Edit = Replace(from: char, to: char) | Insert(to: char) | Delete(from: char)

  function Source(script: seq<Edit>): string {
    if |script| == 0 then ""
    else Source(script[..|script| - 1]) + match script[|script| - 1]
                                          case Replace(x, _) => [x]
                                          case Insert(_) => []
                                          case Delete(x) => [x]
  }

  function Target(script: seq<Edit>): string {
    if |script| == 0 then ""
    else Target(script[..|script| - 1]) + match script[|script| - 1]
                                          case Replace(_, y) => [y]
                                          case Insert(y) => [y]
                                          case Delete(_) => []
  }

  /** Keeping a character is free, every other edit costs one. */
  function Price(script: seq<Edit>): nat {
    if |script| == 0 then 0
    else Price(script[..|script| - 1]) + match script[|script| - 1]
                                         case Replace(x, y) => Cost(x, y)
                                         case _ => 1
  }

  /** No script from `a` to `b` is cheaper than `Lev(a, b)`. */
  lemma {:induction false} NoCheaperScript(script: seq<Edit>)
    ensures Lev(Source(script), Target(script)) <= Price(script)
    decreases |script|
  {
    if |script| > 0 {
      var init, last := script[..|script| - 1], script[|script| - 1];
      NoCheaperScript(init);
      var a, b := Source(init), Target(init);
      match last
      case Replace(x, y) =>
        assert (a + [x])[..|a|] == a && (b + [y])[..|b|] == b;
      case Insert(y) =>
        InsertCostsAtMostOne(a, b, y);
        assert a + [] == a;
      case Delete(x) =>
        DeleteCostsAtMostOne(a, b, x);
        assert b + [] == b;
    }
  }

  lemma InsertCostsAtMostOne(a: string, b: string, y: char)
    ensures Lev(a, b + [y]) <= Lev(a, b) + 1
  {
    assert (b + [y])[..|b|] == b;
  }

  lemma DeleteCostsAtMostOne(a: string, b: string, x: char)
    ensures Lev(a + [x], b) <= Lev(a, b) + 1
  {
    assert (a + [x])[..|a|] == a;
  }

  lemma AppendEdit(init: seq<Edit>, last: Edit)
    ensures Price(init + [last]) == Price(init) + (if last.Replace? then Cost(last.from, last.to) else 1)
    ensures Source(init + [last]) == Source(init) + (if last.Insert? then [] else [last.from])
    ensures Target(init + [last]) == Target(init) + (if last.Delete? then [] else [last.to])
  {
    assert (init + [last])[..|init|] == init;
  }

  lemma SplitLast(s: string)
    requires |s| > 0
    ensures s == s[..|s| - 1] + [s[|s| - 1]]
  {
  }

  /** Some script from `a` to `b` costs exactly `Lev(a, b)`. */
  lemma {:induction false} CheapestScript(a: string, b: string) returns (script: seq<Edit>)
    ensures Source(script) == a && Target(script) == b && Price(script) == Lev(a, b)
    decreases |a| + |b|
  {
    if |a| == 0 && |b| == 0 {
      return [];
    }
    if |b| > 0 && (|a| == 0 || Lev(a, b) == Lev(a, b[..|b| - 1]) + 1) {
      var init := CheapestScript(a, b[..|b| - 1]);
      AppendEdit(init, Insert(b[|b| - 1]));
      SplitLast(b);
      return init + [Insert(b[|b| - 1])];
    }
    if |a| > 0 && (|b| == 0 || Lev(a, b) == Lev(a[..|a| - 1], b) + 1) {
      var init := CheapestScript(a[..|a| - 1], b);
      AppendEdit(init, Delete(a[|a| - 1]));
      SplitLast(a);
      return init + [Delete(a[|a| - 1])];
    }
    var init := CheapestScript(a[..|a| - 1], b[..|b| - 1]);
    var last := Replace(a[|a| - 1], b[|b| - 1]);
    AppendEdit(init, last);
    SplitLast(a);
    SplitLast(b);
    return init + [last];
  }

  /** The distance is zero exactly for equal strings. */
  lemma {:induction false} ZeroOnlyForEqual(a: string, b: string)
    ensures Lev(a, b) == 0 <==> a == b
    decreases |a| + |b|
  {
    if |a| > 0 && |b| > 0 {
      ZeroOnlyForEqual(a[..|a| - 1], b[..|b| - 1]);
      assert a == a[..|a| - 1] + [a[|a| - 1]] && b == b[..|b| - 1] + [b[|b| - 1]];
    }
  }

  /** Strings whose lengths differ by more than `k` are further than `k` apart: what every length prefilter relies on. */
  lemma {:induction false} LengthGapBounds(a: string, b: string)
    ensures Lev(a, b) >= |a| - |b| && Lev(a, b) >= |b| - |a|
    decreases |a| + |b|
  {
    if |a| > 0 && |b| > 0 {
      LengthGapBounds(a[..|a| - 1], b);
      LengthGapBounds(a, b[..|b| - 1]);
      LengthGapBounds(a[..|a| - 1], b[..|b| - 1]);
    }
  }

  // ---- the two-row computation ----------------------------------------------------------------------------------------

  /** Cell (i, j) of the matrix: the distance of the first `i` characters of `a` from the first `j` of `b`. */
  function Cell(a: string, b: string, i: nat, j: nat): nat
    requires i <= |a| && j <= |b|
  {
    Lev(a[..i], b[..j])
  }

  lemma CellStep(a: string, b: string, i: nat, j: nat)
    requires 0 < i <= |a| && 0 < j <= |b|
    ensures Cell(a, b, i, j) == Min(Min(Cell(a, b, i - 1, j) + 1, Cell(a, b, i, j - 1) + 1),
                                    Cell(a, b, i - 1, j - 1) + Cost(a[i - 1], b[j - 1]))
  {
    assert a[..i][..i - 1] == a[..i - 1] && b[..j][..j - 1] == b[..j - 1];
  }

  /** Row minima never decrease: a row wholly above `max` stays so. */
  ghost predicate RowAbove(a: string, b: string, i: nat, max: nat)
    requires i <= |a|
  {
    forall j :: 0 <= j <= |b| ==> Cell(a, b, i, j) > max
  }

  lemma {:induction false} NextRowAbove(a: string, b: string, i: nat, max: nat, j: nat)
    requires i < |a| && j <= |b| && RowAbove(a, b, i, max)
    ensures Cell(a, b, i + 1, j) > max
    decreases j
  {
    assert Cell(a, b, i, j) > max;
    if j > 0 {
      NextRowAbove(a, b, i, max, j - 1);
      assert Cell(a, b, i, j - 1) > max;
      CellStep(a, b, i + 1, j);
    } else {
      assert Cell(a, b, i, 0) == i;
    }
  }

  lemma {:induction false} LastCellAbove(a: string, b: string, i: nat, max: nat)
    requires i <= |a| && RowAbove(a, b, i, max)
    ensures Lev(a, b) > max
    decreases |a| - i
  {
    if i < |a| {
      var next := i + 1;
      forall j | 0 <= j <= |b| ensures Cell(a, b, next, j) > max { NextRowAbove(a, b, i, max, j); }
      LastCellAbove(a, b, next, max);
    } else {
      assert Cell(a, b, |a|, |b|) > max;
      assert a[..|a|] == a && b[..|b|] == b;
    }
  }

  /** Exactly the distance when it is within `max`, and something above `max` when it is not. */
  method EditDistance(a: string, b: string, max: nat) returns (d: nat)
    ensures Lev(a, b) <= max ==> d == Lev(a, b)
    ensures Lev(a, b) > max ==> d > max
  {
    ZeroOnlyForEqual(a, b);
    LengthGapBounds(a, b);
    if a == b { return 0; }
    if |a| - |b| > max || |b| - |a| > max { return max + 1; }
    if |a| == 0 { return |b|; }
    if |b| == 0 { return |a|; }

    var prev := new nat[|b| + 1](j requires 0 <= j => j);
    var curr := new nat[|b| + 1](j => 0);
    var i := 1;
    while i <= |a|
      invariant 1 <= i <= |a| + 1
      invariant prev != curr && fresh(prev) && fresh(curr) && prev.Length == curr.Length == |b| + 1
      invariant forall j :: 0 <= j <= |b| ==> prev[j] == Cell(a, b, i - 1, j)
    {
      curr[0] := i;
      var rowMin := i;
      var j := 1;
      while j <= |b|
        invariant 1 <= j <= |b| + 1
        invariant forall k :: 0 <= k <= |b| ==> prev[k] == Cell(a, b, i - 1, k)
        invariant forall k :: 0 <= k < j ==> curr[k] == Cell(a, b, i, k) && rowMin <= curr[k]
      {
        var cost := Cost(a[i - 1], b[j - 1]);
        var value := Min(Min(prev[j] + 1, curr[j - 1] + 1), prev[j - 1] + cost);
        CellStep(a, b, i, j);
        curr[j] := value;
        if value < rowMin { rowMin := value; }
        j := j + 1;
      }
      if rowMin > max {
        LastCellAbove(a, b, i, max);
        return max + 1;
      }
      prev, curr := curr, prev;
      i := i + 1;
    }
    assert a[..|a|] == a && b[..|b|] == b;
    return prev[|b|];
  }
}
