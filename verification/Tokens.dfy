/** Word sets of station names as one key (shared/stationGeo.ts, `tokenKeyOf`). */
module Tokens {
  import opened Sequences

  /** Code-unit order, as the default sort compares strings. */
  predicate Below(a: string, b: string) {
    if |b| == 0 then false
    else if |a| == 0 then true
    else if a[0] != b[0] then a[0] < b[0]
    else Below(a[1..], b[1..])
  }

  lemma {:induction false} BelowIsTotal(a: string, b: string)
    ensures Below(a, b) || Below(b, a) || a == b
    ensures !(Below(a, b) && Below(b, a)) && !Below(a, a)
  {
    if |a| > 0 && |b| > 0 {
      BelowIsTotal(a[1..], b[1..]);
      BelowIsTotal(a[1..], a[1..]);
      assert a == [a[0]] + a[1..] && b == [b[0]] + b[1..];
    } else if |a| > 0 {
      BelowIsTotal(a[1..], a[1..]);
    }
  }

  lemma {:induction false} BelowIsTransitive(a: string, b: string, c: string)
    requires Below(a, b) && Below(b, c)
    ensures Below(a, c)
  {
    if |a| > 0 && a[0] == b[0] && b[0] == c[0] { BelowIsTransitive(a[1..], b[1..], c[1..]); }
  }

  // ---- words -----------------------------------------------------------------------------------------------------------

  /** `split(" ").filter(Boolean)`, the first word being continued by `open`. */
  function WordsFrom(open: string, s: string): seq<string>
    decreases |s|
  {
    if |s| == 0 then (if open == "" then [] else [open])
    else if s[0] == ' ' then (if open == "" then [] else [open]) + WordsFrom("", s[1..])
    else WordsFrom(open + [s[0]], s[1..])
  }

  function Words(s: string): seq<string> {
    WordsFrom("", s)
  }

  predicate IsWord(w: string) {
    w != "" && forall i :: 0 <= i < |w| ==> w[i] != ' '
  }

  lemma {:induction false} WordsAreWords(open: string, s: string)
    requires open == "" || IsWord(open)
    ensures forall w :: w in WordsFrom(open, s) ==> IsWord(w)
    decreases |s|
  {
    if |s| > 0 {
      if s[0] == ' ' {
        WordsAreWords("", s[1..]);
      } else {
        assert IsWord(open + [s[0]]);
        WordsAreWords(open + [s[0]], s[1..]);
      }
    }
  }

  lemma {:induction false} WordsOfWord(open: string, w: string, rest: string)
    requires forall i :: 0 <= i < |w| ==> w[i] != ' '
    ensures WordsFrom(open, w + rest) == WordsFrom(open + w, rest)
    decreases |w|
  {
    if |w| == 0 {
      assert w + rest == rest && open + w == open;
    } else {
      assert (w + rest)[1..] == w[1..] + rest;
      WordsOfWord(open + [w[0]], w[1..], rest);
      assert (open + [w[0]]) + w[1..] == open + w;
    }
  }

  /** Splitting what was joined gives the words back. */
  lemma {:induction false} SplitJoin(words: seq<string>)
    requires forall w :: w in words ==> IsWord(w)
    ensures Words(Join(words, " ")) == words
  {
    assert |words| == 0 || words[0] in words;
    if |words| == 1 {
      WordsOfWord("", words[0], "");
      assert words[0] + "" == words[0] && "" + words[0] == words[0];
      assert words == [words[0]];
    } else if |words| > 1 {
      var tail := Join(words[1..], " ");
      assert IsWord(words[0]) && forall w :: w in words[1..] ==> w in words;
      SplitJoin(words[1..]);
      assert Join(words, " ") == words[0] + " " + tail == words[0] + (" " + tail);
      WordsOfWord("", words[0], " " + tail);
      assert "" + words[0] == words[0];
      assert (" " + tail)[1..] == tail;
      assert WordsFrom(words[0], " " + tail) == [words[0]] + WordsFrom("", tail);
      assert words == [words[0]] + words[1..];
    }
  }

  // ---- sets in order ---------------------------------------------------------------------------------------------------

  ghost predicate Ascending(words: seq<string>) {
    forall i, j :: 0 <= i < j < |words| ==> Below(words[i], words[j])
  }

  /** The word goes to its place; one that is there already is not repeated. */
  function Insert(words: seq<string>, w: string): seq<string> {
    if |words| == 0 then [w]
    else if words[0] == w then words
    else if Below(w, words[0]) then [w] + words
    else [words[0]] + Insert(words[1..], w)
  }

  /** `[...new Set(words)].sort()`. */
  function SortedSet(words: seq<string>): seq<string> {
    if |words| == 0 then [] else Insert(SortedSet(words[1..]), words[0])
  }

  function TokenSet(s: string): set<string> {
    set w | w in Words(s)
  }

  /** `tokenKeyOf`. */
  function TokenKey(s: string): string {
    Join(SortedSet(Words(s)), " ")
  }

  lemma {:induction false} InsertKeepsOrder(words: seq<string>, w: string)
    requires Ascending(words)
    ensures Ascending(Insert(words, w))
    ensures forall x :: x in Insert(words, w) <==> x in words || x == w
  {
    if |words| > 0 {
      BelowIsTotal(w, words[0]);
      if words[0] != w && Below(w, words[0]) {
        var out := [w] + words;
        forall i, j | 0 <= i < j < |out| ensures Below(out[i], out[j]) {
          if i == 0 && j > 1 { BelowIsTransitive(w, words[0], words[j - 1]); }
        }
      } else if words[0] != w {
        InsertKeepsOrder(words[1..], w);
        var rest := Insert(words[1..], w);
        var out := [words[0]] + rest;
        assert words == [words[0]] + words[1..];
        forall i, j | 0 <= i < j < |out| ensures Below(out[i], out[j]) {
          if i == 0 {
            assert rest[j - 1] in rest;
            if rest[j - 1] in words[1..] {
              var k :| 0 <= k < |words[1..]| && words[1..][k] == rest[j - 1];
              assert words[k + 1] == rest[j - 1];
            }
          }
        }
      }
    }
  }

  lemma {:induction false} SortedSetIsAscending(words: seq<string>)
    ensures Ascending(SortedSet(words)) && forall x :: x in SortedSet(words) <==> x in words
  {
    if |words| > 0 {
      SortedSetIsAscending(words[1..]);
      InsertKeepsOrder(SortedSet(words[1..]), words[0]);
      assert words == [words[0]] + words[1..];
    }
  }

  lemma FirstIsLeast(words: seq<string>, w: string)
    requires Ascending(words) && w in words
    ensures words[0] == w || Below(words[0], w)
  {
    var i :| 0 <= i < |words| && words[i] == w;
  }

  lemma NotInTail(words: seq<string>)
    requires Ascending(words) && |words| > 0
    ensures words[0] !in words[1..]
  {
    forall k | 0 <= k < |words[1..]| ensures words[1..][k] != words[0] {
      BelowIsTotal(words[0], words[k + 1]);
    }
  }

  /** A set has one ascending list. */
  lemma {:induction false} AscendingIsUnique(a: seq<string>, b: seq<string>)
    requires Ascending(a) && Ascending(b) && forall w :: w in a <==> w in b
    ensures a == b
    decreases |a|
  {
    assert |b| == 0 || b[0] in b;
    if |a| > 0 {
      assert a[0] in b && |b| > 0 && b[0] in a;
      FirstIsLeast(a, b[0]);
      FirstIsLeast(b, a[0]);
      BelowIsTotal(a[0], b[0]);
      NotInTail(a);
      NotInTail(b);
      forall w ensures w in a[1..] <==> w in b[1..] {
        assert w in a <==> w == a[0] || w in a[1..];
        assert w in b <==> w == b[0] || w in b[1..];
      }
      assert a == [a[0]] + a[1..] && b == [b[0]] + b[1..];
      AscendingIsUnique(a[1..], b[1..]);
    }
  }

  /** Two names have one key exactly when they are made of the same words. */
  lemma SameKeySameWords(a: string, b: string)
    ensures TokenKey(a) == TokenKey(b) <==> TokenSet(a) == TokenSet(b)
  {
    SortedSetIsAscending(Words(a));
    SortedSetIsAscending(Words(b));
    WordsAreWords("", a);
    WordsAreWords("", b);
    var ka, kb := SortedSet(Words(a)), SortedSet(Words(b));
    SplitJoin(ka);
    SplitJoin(kb);
    if TokenKey(a) == TokenKey(b) {
      forall w ensures w in TokenSet(a) <==> w in TokenSet(b) {
        assert w in ka <==> w in kb;
      }
    }
    if TokenSet(a) == TokenSet(b) {
      forall w ensures w in ka <==> w in kb {
        assert w in TokenSet(a) <==> w in TokenSet(b);
      }
      AscendingIsUnique(ka, kb);
    }
  }
}
