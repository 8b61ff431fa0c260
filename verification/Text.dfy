/** Trimming, collapsing, cleaning and splitting of free text (shared/ingest.ts, shared/date.ts, shared/sse.ts). */
module Text {
  import opened Wrappers

  /** The white space `String.prototype.trim` removes. */
  predicate Blank(c: char) {
    c in {' ', '\t', '\n', '\r', '\U{000B}', '\U{000C}', '\U{00A0}', '\U{1680}', '\U{2000}', '\U{2001}', '\U{2002}',
          '\U{2003}', '\U{2004}', '\U{2005}', '\U{2006}', '\U{2007}', '\U{2008}', '\U{2009}', '\U{200A}', '\U{2028}',
          '\U{2029}', '\U{202F}', '\U{205F}', '\U{3000}', '\U{FEFF}'}
  }

  function TrimFront(s: string): (r: string)
    ensures |r| <= |s| && (|r| > 0 ==> !Blank(r[0]) && r[|r| - 1] == s[|s| - 1])
  {
    if |s| > 0 && Blank(s[0]) then TrimFront(s[1..]) else s
  }

  function TrimBack(s: string): (r: string)
    ensures |r| <= |s| && (|r| > 0 ==> !Blank(r[|r| - 1]) && r[0] == s[0])
  {
    if |s| > 0 && Blank(s[|s| - 1]) then TrimBack(s[..|s| - 1]) else s
  }

  function Trim(s: string): (r: string)
    ensures |r| > 0 ==> !Blank(r[0]) && !Blank(r[|r| - 1])
  {
    TrimBack(TrimFront(s))
  }

  /** Absent, empty and blank text are the same answer: none. */
  function Clean(v: Option<string>): Option<string> {
    if v.None? || Trim(v.value) == "" then None else Some(Trim(v.value))
  }

  /** Runs of white space become one space. */
  function CollapseFrom(s: string, inRun: bool): string {
    if |s| == 0 then ""
    else if Blank(s[0]) then (if inRun then "" else " ") + CollapseFrom(s[1..], true)
    else [s[0]] + CollapseFrom(s[1..], false)
  }

  /** `clean`: collapsed and trimmed; nothing left is none. */
  function CleanText(v: Option<string>): Option<string> {
    if v.None? then None
    else
      var t := Trim(CollapseFrom(v.value, false));
      if t == "" then None else Some(t)
  }

  predicate UpperCase(c: char) {
    'A' <= c <= 'Z' || c == 'Ä' || c == 'Ü'
  }

  /** `toLowerCase`, as far as it can lead to one of the placeholders. */
  function Lower(s: string): (r: string)
    ensures |r| == |s| && forall i :: 0 <= i < |s| && !UpperCase(s[i]) ==> r[i] == s[i]
  {
    if |s| == 0 then "" else [if UpperCase(s[0]) then (s[0] as int + 32) as char else s[0]] + Lower(s[1..])
  }

  /** What stands for no answer in the source workbook. */
  const NO_ANSWER: set<string> := {
    "", "-", "--", "?", "??", "???", "n/a", "na", "null", "undefined", "bitte auswählen", "bitte ausfüllen"}

  /** `cleanStr`: collapsed and trimmed, and none for a placeholder. */
  function CleanString(s: string): Option<string> {
    var t := Trim(CollapseFrom(s, false));
    if Lower(t) in NO_ANSWER then None else Some(t)
  }

  predicate Tidy(s: string) {
    forall i :: 0 <= i < |s| && Blank(s[i]) ==> s[i] == ' ' && (i + 1 < |s| ==> !Blank(s[i + 1]))
  }

  lemma {:induction false} CollapsedIsTidy(s: string, inRun: bool)
    ensures Tidy(CollapseFrom(s, inRun))
    ensures inRun && |CollapseFrom(s, inRun)| > 0 ==> !Blank(CollapseFrom(s, inRun)[0])
  {
    if |s| > 0 { CollapsedIsTidy(s[1..], Blank(s[0])); }
  }

  lemma {:induction false} TidyStays(s: string, inRun: bool)
    requires Tidy(s) && (inRun && |s| > 0 ==> !Blank(s[0]))
    ensures CollapseFrom(s, inRun) == s
  {
    if |s| > 0 {
      assert forall i :: 0 <= i < |s[1..]| ==> s[1..][i] == s[i + 1];
      TidyStays(s[1..], Blank(s[0]));
    }
  }

  lemma {:induction false} TrimFrontKeepsTidy(s: string)
    requires Tidy(s)
    ensures Tidy(TrimFront(s))
  {
    if |s| > 0 && Blank(s[0]) {
      assert forall i :: 0 <= i < |s[1..]| ==> s[1..][i] == s[i + 1];
      TrimFrontKeepsTidy(s[1..]);
    }
  }

  lemma {:induction false} TrimBackKeepsTidy(s: string)
    requires Tidy(s)
    ensures Tidy(TrimBack(s))
  {
    if |s| > 0 && Blank(s[|s| - 1]) { TrimBackKeepsTidy(s[..|s| - 1]); }
  }

  /** Cleaning a cleaned value changes nothing. */
  lemma CleanTextIsIdempotent(v: Option<string>)
    ensures CleanText(CleanText(v)) == CleanText(v)
  {
    if v.Some? && CleanText(v).Some? {
      var t := CollapseFrom(v.value, false);
      CollapsedIsTidy(v.value, false);
      TrimFrontKeepsTidy(t);
      TrimBackKeepsTidy(TrimFront(t));
      TidyStays(Trim(t), false);
    }
  }

  // ---- the first colon -------------------------------------------------------------------------------------------------

  function IndexOf(s: string, c: char): Option<nat> {
    if |s| == 0 then None
    else if s[0] == c then Some(0)
    else
      var rest := IndexOf(s[1..], c);
      if rest.Some? then Some(rest.value + 1) else None
  }

  lemma {:induction false} FirstColon(name: string, rest: string)
    requires ':' !in name
    ensures IndexOf(name + ":" + rest, ':') == Some(|name|)
    decreases |name|
  {
    var s := name + ":" + rest;
    if |name| > 0 {
      assert s[0] == name[0] && name[0] in name;
      assert s[1..] == name[1..] + ":" + rest;
      FirstColon(name[1..], rest);
    }
  }
}
