/** Dates out of German workbooks (shared/workbook-cells.ts, shared/date.ts): one day, however it is spelled. */
module Dates {
  import opened Wrappers
  import opened Text
  import opened Numerals
  import opened Calendrical

  /** Date.UTC: the years 0 to 99 mean the twentieth century. */
  function Utc(y: int, m: int, d: int): int {
    MakeDay(if 0 <= y <= 99 then 1900 + y else y, m, d)
  }

  predicate IsRealDate(y: int, m: int, d: int) {
    1 <= m <= 12 && 1 <= d <= 31 && CivilOf(Utc(y, m, d)) == Civil(y, m, d)
  }

  function Iso(c: Civil): string
    requires c.year >= 0 && c.month >= 0 && c.day >= 0
  {
    Padded(c.year, 4) + "-" + Padded(c.month, 2) + "-" + Padded(c.day, 2)
  }

  /** A round trip through UTC refuses days the calendar does not have. */
  function ValidIso(y: nat, m: nat, d: nat): Option<string> {
    if CivilOf(Utc(y, m, d)) == Civil(y, m, d) then Some(Iso(Civil(y, m, d))) else None
  }

  /** The round trip accepts exactly the days of the calendar, but for the years that Date.UTC moves. */
  lemma RoundTripAccepts(y: nat, m: nat, d: nat)
    ensures CivilOf(Utc(y, m, d)) == Civil(y, m, d) <==> Valid(y, m, d) && y > 99
    ensures IsRealDate(y, m, d) <==> Valid(y, m, d) && y > 99
  {
    if Valid(y, m, d) && y > 99 { CivilOfMakeDay(y, m, d); }
    if y <= 99 && Valid(y, m, d) {
      NotTwice(y, m, d);
      MakeDayOfCivil(Utc(y, m, d));
    }
  }

  /** No day of a year 0 to 99 is the day of the twentieth century it is taken for. */
  lemma NotTwice(y: nat, m: nat, d: nat)
    requires y <= 99 && Valid(y, m, d)
    ensures MakeDay(y, m, d) < Utc(y, m, d)
  {
    MakeDayOfValid(y, m, d);
    MakeDayInYear(1900 + y, m, d);
    YearLength(y);
    YearsAdd(y, 1900 + y);
    MonthsAdd(1900 + y, 1, m);
  }

  // ---- Excel serials ---------------------------------------------------------------------------------------------------

  /** The day 1899-12-30 (`EpochDay`). */
  const EPOCH: int := -25569

  function SerialToIso(serial: real): Option<string> {
    if serial < 61.0 || serial > 109000.0 then None
    else
      var c := CivilOf(EPOCH + serial.Floor);
      if c.year >= 0 then Some(Iso(c)) else None
  }

  /** A day by the closed form. */
  lemma DayByFormula(y: int, m: int, d: int, before: int)
    requires 1 <= m <= 12 && DaysBefore(y, m) == before
    ensures MakeDay(y, m, d) == DayFromYearFormula(y) + before + d - 1
  {
    DayFromYearIsFormula(y);
    MakeDayInYear(y, m, d);
  }

  lemma EpochDay()
    ensures MakeDay(1899, 12, 30) == EPOCH
  {
    MonthSums(1899);
    DayByFormula(1899, 12, 30, 334);
  }

  /** 1900-03-01 is the first serial Excel's phantom leap day leaves alone. */
  lemma FirstSerial()
    ensures MakeDay(1900, 3, 1) == EPOCH + 61
  {
    assert DaysBefore(1900, 3) == 59;
    DayByFormula(1900, 3, 1, 59);
  }

  lemma LastOfRange()
    ensures MakeDay(2100, 12, 31) == EPOCH + 73415
  {
    MonthSums(2100);
    DayByFormula(2100, 12, 31, 334);
  }

  lemma LastSerial()
    ensures MakeDay(2198, 6, 5) == EPOCH + 109000
  {
    MonthSums(2198);
    DayByFormula(2198, 6, 5, 151);
  }

  lemma MonthSums(y: int)
    requires !IsLeap(y)
    ensures DaysBefore(y, 6) == 151 && DaysBefore(y, 12) == 334
  {
    assert DaysBefore(y, 3) == 59;
    assert DaysBefore(y, 6) == DaysBefore(y, 5) + 31 == DaysBefore(y, 4) + 61 == DaysBefore(y, 3) + 92;
    assert DaysBefore(y, 9) == DaysBefore(y, 8) + 31 == DaysBefore(y, 7) + 62 == DaysBefore(y, 6) + 92;
    assert DaysBefore(y, 12) == DaysBefore(y, 11) + 30 == DaysBefore(y, 10) + 61 == DaysBefore(y, 9) + 91;
  }

  // ---- stored text -----------------------------------------------------------------------------------------------------

  function DigitRun(s: string, i: nat): nat
    requires i <= |s|
    decreases |s| - i
  {
    if i == |s| || !IsDigit(s[i]) then 0 else 1 + DigitRun(s, i + 1)
  }

  lemma {:induction false} RunEnds(s: string, i: nat)
    requires i <= |s|
    ensures i + DigitRun(s, i) <= |s|
    ensures AllDigits(s[i..i + DigitRun(s, i)])
    decreases |s| - i
  {
    if i < |s| && IsDigit(s[i]) {
      RunEnds(s, i + 1);
      assert s[i..i + DigitRun(s, i)] == [s[i]] + s[i + 1..i + 1 + DigitRun(s, i + 1)];
    }
  }

  lemma {:induction false} RunIs(s: string, i: nat, n: nat)
    requires i + n <= |s| && (forall k :: i <= k < i + n ==> IsDigit(s[k])) && (i + n == |s| || !IsDigit(s[i + n]))
    ensures DigitRun(s, i) == n
    decreases n
  {
    if n > 0 { RunIs(s, i + 1, n - 1); }
  }

  predicate Separator(c: char) {
    c == '.' || c == '-' || c == '/'
  }

  /** How many characters something like a date takes at this place; none is 0. */
  function DateLike(s: string, i: nat): nat
    requires i <= |s|
  {
    RunEnds(s, i);
    var a := i + DigitRun(s, i);
    if !(1 <= DigitRun(s, i) <= 4) || a == |s| || !Separator(s[a]) then 0
    else
      RunEnds(s, a + 1);
      var b := a + 1 + DigitRun(s, a + 1);
      if !(1 <= DigitRun(s, a + 1) <= 2) || b == |s| || !Separator(s[b]) then 0
      else
        RunEnds(s, b + 1);
        var n := DigitRun(s, b + 1);
        if n < 2 then 0 else b + 1 + (if n < 5 then n else 5) - i
  }

  lemma DateLikeFits(s: string, i: nat)
    requires i <= |s|
    ensures i + DateLike(s, i) <= |s|
  {
    RunEnds(s, i);
    var a := i + DigitRun(s, i);
    if a < |s| {
      RunEnds(s, a + 1);
      var b := a + 1 + DigitRun(s, a + 1);
      if b < |s| { RunEnds(s, b + 1); }
    }
  }

  /** The dates in one cell, left to right, none overlapping another. */
  function CountDates(s: string, i: nat): nat
    requires i <= |s|
    decreases |s| - i
  {
    if i == |s| then 0
    else
      DateLikeFits(s, i);
      if DateLike(s, i) > 0 then 1 + CountDates(s, i + DateLike(s, i)) else CountDates(s, i + 1)
  }

  const PLACEHOLDERS: set<string> := {"-", "--", "?", "???", "n/a", "na", "null", "offen", "tbd"}

  /** yyyy-mm-dd, and what may follow a T or a space. */
  predicate IsoShape(s: string) {
    && |s| >= 10 && AllDigits(s[0..4]) && s[4] == '-' && AllDigits(s[5..7]) && s[7] == '-' && AllDigits(s[8..10])
    && (|s| == 10 || s[10] == 'T' || s[10] == ' ')
  }

  datatype Parts = Parts(day: string, month: string, year: string)

  /** d.m.y with one or two digits for day and month; the year is told apart by its length. */
  function GermanParts(s: string): Option<Parts> {
    RunEnds(s, 0);
    var a := DigitRun(s, 0);
    if !(1 <= a <= 2) || a == |s| || s[a] != '.' then None
    else
      RunEnds(s, a + 1);
      var b := a + 1 + DigitRun(s, a + 1);
      if !(1 <= DigitRun(s, a + 1) <= 2) || b == |s| || s[b] != '.' then None
      else
        RunEnds(s, b + 1);
        if b + 1 + DigitRun(s, b + 1) != |s| then None else Some(Parts(s[..a], s[a + 1..b], s[b + 1..]))
  }

  lemma GermanPartsAreDigits(s: string)
    requires GermanParts(s).Some?
    ensures var p := GermanParts(s).value; AllDigits(p.day) && AllDigits(p.month) && AllDigits(p.year)
  {
    RunEnds(s, 0);
    var a := DigitRun(s, 0);
    assert s[0..a] == s[..a];
    RunEnds(s, a + 1);
    var b := a + 1 + DigitRun(s, a + 1);
    RunEnds(s, b + 1);
    assert s[b + 1..|s|] == s[b + 1..];
  }

  datatype Reason = Empty | IsoDate | German | Placeholder | InvalidDate | Several | Unrecognised

  datatype Parsed = Parsed(iso: Option<string>, reason: Reason)

  function Checked(y: nat, m: nat, d: nat, reason: Reason): Parsed {
    if IsRealDate(y, m, d) then Parsed(Some(Iso(Civil(y, m, d))), reason) else Parsed(None, InvalidDate)
  }

  function ParseStoredDate(input: Option<string>): Parsed {
    var cleaned := CleanText(input);
    if cleaned.None? then Parsed(None, Empty)
    else
      var s := cleaned.value;
      if Lower(s) in PLACEHOLDERS then Parsed(None, Placeholder)
      else if CountDates(s, 0) > 1 then Parsed(None, Several)
      else if IsoShape(s) then Checked(NumberOf(s[0..4]), NumberOf(s[5..7]), NumberOf(s[8..10]), IsoDate)
      else
        var p := GermanParts(s);
        if p.Some? && |p.value.year| == 4 then
          GermanPartsAreDigits(s);
          Checked(NumberOf(p.value.year), NumberOf(p.value.month), NumberOf(p.value.day), German)
        else if p.Some? && |p.value.year| == 2 then Parsed(None, Several)
        else Parsed(None, Unrecognised)
  }

  // ---- a date cell -----------------------------------------------------------------------------------------------------

  datatype Cell = Absent | Number(number: real) | Chars(chars: string)

  function DayFromNumber(v: real): Option<string> {
    var n := v.Floor;
    if v == n as real && 19000101 <= n <= 21001231 then ValidIso(n / 10000, n % 10000 / 100, n % 100) else SerialToIso(v)
  }

  /** A year of two digits is one of this century. */
  function ShortYearDay(p: Parts): Option<string>
    requires AllDigits(p.day) && AllDigits(p.month) && AllDigits(p.year)
  {
    ValidIso(2000 + NumberOf(p.year), NumberOf(p.month), NumberOf(p.day))
  }

  function DayFromText(text: string): Option<string> {
    var t := Trim(text);
    var p := GermanParts(t);
    if |t| == 8 && AllDigits(t) then ValidIso(NumberOf(t[..4]), NumberOf(t[4..6]), NumberOf(t[6..8]))
    else if p.Some? && |p.value.year| == 2 then
      GermanPartsAreDigits(t);
      ShortYearDay(p.value)
    else ParseStoredDate(Some(t)).iso
  }

  function DayFromCell(v: Cell): Option<string> {
    match v
    case Absent => None
    case Number(x) => DayFromNumber(x)
    case Chars(s) => if s == "" then None else DayFromText(s)
  }
}
