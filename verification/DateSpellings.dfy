/** Every spelling of a day leads to the same ISO day, and no spelling leads to a day the calendar does not have. */
module DateSpellings {
  import opened Wrappers
  import opened Text
  import opened Numerals
  import opened Calendrical
  import opened Dates
  import opened Tokens

  /** The ISO text of a day of the calendar; none for anything else (and for the years Date.UTC moves). */
  function Day(y: nat, m: nat, d: nat): Option<string> {
    if Valid(y, m, d) && y > 99 then Some(Iso(Civil(y, m, d))) else None
  }

  lemma ValidIsoIsDay(y: nat, m: nat, d: nat)
    ensures ValidIso(y, m, d) == Day(y, m, d)
  {
    RoundTripAccepts(y, m, d);
  }

  lemma CheckedIsDay(y: nat, m: nat, d: nat, reason: Reason)
    ensures Checked(y, m, d, reason).iso == Day(y, m, d)
  {
    RoundTripAccepts(y, m, d);
  }

  // ---- numbers ---------------------------------------------------------------------------------------------------------

  lemma YearAtLeast(t: int, y: int)
    requires DayFromYearFormula(y) <= t
    ensures CivilOf(t).year >= y
  {
    DayFromYearIsFormula(y);
    var c := CivilOf(t);
    MakeDayOfCivil(t);
    MakeDayOfValid(c.year, c.month, c.day);
    YearLength(c.year);
    if c.year < y { YearsAdd(c.year, y); }
  }

  lemma YearBelow(t: int, y: int)
    requires t < DayFromYearFormula(y)
    ensures CivilOf(t).year < y
  {
    DayFromYearIsFormula(y);
    var c := CivilOf(t);
    MakeDayOfCivil(t);
    MakeDayOfValid(c.year, c.month, c.day);
    if c.year > y { YearLength(y); YearsAdd(y, c.year); }
  }

  /** The years of the serials 61 to 109000, and of those to 73415. */
  lemma YearsOfSerials(s: int)
    requires 61 <= s <= 109000
    ensures 1900 <= CivilOf(EPOCH + s).year < 2199
    ensures s <= 73415 ==> CivilOf(EPOCH + s).year < 2101
  {
    YearAtLeast(EPOCH + s, 1900);
    YearBelow(EPOCH + s, 2199);
    if s <= 73415 { YearBelow(EPOCH + s, 2101); }
  }

  /** Years that four digits can write. */
  predicate Writable(c: Civil) {
    0 <= c.year < 10000 && 0 <= c.month < 100 && 0 <= c.day < 100
  }

  lemma SerialYear(s: int)
    requires 61 <= s <= 109000
    ensures Writable(CivilOf(EPOCH + s))
  {
    YearsOfSerials(s);
  }

  /** A whole serial of the range is the day it counts to. */
  lemma SerialIsItsDay(s: int)
    requires 61 <= s <= 109000
    ensures Writable(CivilOf(EPOCH + s)) && SerialToIso(s as real) == Some(Iso(CivilOf(EPOCH + s)))
  {
    SerialYear(s);
    assert (s as real).Floor == s;
  }

  // ---- ranges of days --------------------------------------------------------------------------------------------------

  const FIRST_DAY: Civil := Civil(1900, 3, 1)
  const LAST_DAY: Civil := Civil(2100, 12, 31)
  const LAST_SERIAL_DAY: Civil := Civil(2198, 6, 5)

  /** No earlier than one day and no later than another. */
  predicate Between(first: Civil, c: Civil, last: Civil) {
    !Earlier(c, first) && !Earlier(last, c)
  }

  lemma OrderIsByNumber(a: Civil, b: Civil)
    requires Valid(a.year, a.month, a.day) && Valid(b.year, b.month, b.day)
    ensures Earlier(a, b) <==> MakeDay(a.year, a.month, a.day) < MakeDay(b.year, b.month, b.day)
  {
    var s, t := MakeDay(a.year, a.month, a.day), MakeDay(b.year, b.month, b.day);
    CivilOfMakeDay(a.year, a.month, a.day);
    CivilOfMakeDay(b.year, b.month, b.day);
    if s < t { DaysInOrder(s, t); } else if t < s { DaysInOrder(t, s); }
  }

  /** A day from 1900-03-01 to 2100-12-31. */
  predicate InRange(y: int, m: int, d: int) {
    Valid(y, m, d) && Between(FIRST_DAY, Civil(y, m, d), LAST_DAY)
  }

  lemma RangeByNumber(y: int, m: int, d: int)
    requires Valid(y, m, d)
    ensures InRange(y, m, d) <==> EPOCH + 61 <= MakeDay(y, m, d) <= EPOCH + 73415
  {
    FirstSerial();
    LastOfRange();
    OrderIsByNumber(Civil(y, m, d), FIRST_DAY);
    OrderIsByNumber(LAST_DAY, Civil(y, m, d));
  }

  /** A whole serial is read exactly when its day lies between 1900-03-01 and 2198-06-05. */
  lemma SerialsReadExactly(s: int)
    ensures SerialToIso(s as real).Some? <==> Between(FIRST_DAY, CivilOf(EPOCH + s), LAST_SERIAL_DAY)
  {
    FirstSerial();
    LastSerial();
    var c := CivilOf(EPOCH + s);
    MakeDayOfCivil(EPOCH + s);
    OrderIsByNumber(c, FIRST_DAY);
    OrderIsByNumber(LAST_SERIAL_DAY, c);
    if 61 <= s <= 109000 { SerialIsItsDay(s); }
  }

  function Serial(y: int, m: int, d: int): int {
    MakeDay(y, m, d) - EPOCH
  }

  lemma SerialIsRead(s: int)
    requires 61 <= s <= 109000
    ensures DayFromNumber(s as real) == SerialToIso(s as real)
  {
    assert (s as real).Floor == s;
  }

  lemma SerialBounds(y: nat, m: nat, d: nat)
    requires InRange(y, m, d)
    ensures 61 <= Serial(y, m, d) <= 73415 && 1900 <= y <= 2100
  {
    RangeByNumber(y, m, d);
    YearsOfSerials(Serial(y, m, d));
    CivilOfMakeDay(y, m, d);
  }

  lemma SerialSpells(y: nat, m: nat, d: nat)
    requires InRange(y, m, d)
    ensures DayFromNumber(Serial(y, m, d) as real) == Day(y, m, d)
  {
    SerialBounds(y, m, d);
    CivilOfMakeDay(y, m, d);
    SerialOfDay(Serial(y, m, d), Civil(y, m, d));
  }

  lemma SerialOfDay(s: int, c: Civil)
    requires 61 <= s <= 109000 && CivilOf(EPOCH + s) == c
    ensures Writable(c) && DayFromNumber(s as real) == Some(Iso(c))
  {
    SerialIsRead(s);
    SerialIsItsDay(s);
  }

  lemma SerialText(s: int, x: string)
    requires SerialToIso(s as real) == Some(x)
    ensures Writable(CivilOf(EPOCH + s)) && x == Iso(CivilOf(EPOCH + s))
  {
    SerialIsItsDay(s);
  }

  /** An eight-digit number by its parts. */
  lemma NumberParts(n: int, y: nat, m: nat, d: nat)
    requires m < 100 && d < 100 && n == 10000 * y + 100 * m + d
    ensures n / 10000 == y && n % 10000 / 100 == m && n % 100 == d
  {
    Split10000(y, 100 * m + d);
    Split100(m, d);
    Split100(100 * y + m, d);
  }

  /** yyyymmdd as a number, whatever its digits. */
  lemma NumberSpells(n: int, y: nat, m: nat, d: nat)
    requires m < 100 && d < 100 && n == 10000 * y + 100 * m + d && 19000101 <= n <= 21001231
    ensures DayFromNumber(n as real) == Day(y, m, d)
  {
    NumberParts(n, y, m, d);
    WholeNumber(n);
    ValidIsoIsDay(y, m, d);
  }

  lemma Split10000(q: int, r: int)
    requires 0 <= r < 10000
    ensures (10000 * q + r) / 10000 == q && (10000 * q + r) % 10000 == r
  {
  }

  lemma Split100(q: int, r: int)
    requires 0 <= r < 100
    ensures (100 * q + r) / 100 == q && (100 * q + r) % 100 == r
  {
  }

  /** A number of the eight-digit form is read as one. */
  lemma WholeNumber(n: int)
    requires 19000101 <= n <= 21001231
    ensures DayFromNumber(n as real) == ValidIso(n / 10000, n % 10000 / 100, n % 100)
  {
    assert (n as real).Floor == n;
  }

  // ---- texts -----------------------------------------------------------------------------------------------------------

  /** A text of digits and separators is not touched by cleaning. */
  predicate Compact(s: string) {
    |s| > 0 && forall i :: 0 <= i < |s| ==> IsDigit(s[i]) || s[i] == '.' || s[i] == '-'
  }

  lemma CompactIsClean(s: string)
    requires Compact(s)
    ensures Trim(s) == s && CleanText(Some(s)) == Some(s)
  {
    assert Tidy(s);
    TidyStays(s, false);
  }

  lemma NotAPlaceholder(s: string)
    requires Compact(s) && IsDigit(s[0])
    ensures Lower(s) !in PLACEHOLDERS
  {
    if Lower(s) in PLACEHOLDERS { PlaceholderStart(Lower(s)); }
  }

  lemma PlaceholderStart(p: string)
    requires p in PLACEHOLDERS
    ensures |p| > 0 && !IsDigit(p[0])
  {
  }

  lemma CompactTextSpells(y: nat, m: nat, d: nat)
    requires y < 10000 && m < 100 && d < 100
    ensures DayFromText(Padded(y, 4) + Padded(m, 2) + Padded(d, 2)) == Day(y, m, d)
  {
    PaddedIsFixed(y, 4);
    PaddedIsFixed(m, 2);
    PaddedIsFixed(d, 2);
    EightAreRead(Padded(y, 4), Padded(m, 2), Padded(d, 2));
    ValidIsoIsDay(y, m, d);
  }

  lemma EightAreRead(a: string, b: string, c: string)
    requires |a| == 4 && |b| == 2 && |c| == 2 && AllDigits(a) && AllDigits(b) && AllDigits(c)
    ensures DayFromText(a + b + c) == ValidIso(NumberOf(a), NumberOf(b), NumberOf(c))
  {
    var s := a + b + c;
    assert s[..4] == a && s[4..6] == b && s[6..8] == c;
    CompactIsClean(s);
    EightDigits(s);
  }

  lemma EightDigits(s: string)
    requires |s| == 8 && AllDigits(s) && Trim(s) == s
    ensures DayFromText(s) == ValidIso(NumberOf(s[..4]), NumberOf(s[4..6]), NumberOf(s[6..8]))
  {
  }

  /** d.m.yyyy, with or without leading zeros. */
  lemma GermanTextSpells(a: string, b: string, y: nat)
    requires 1 <= |a| <= 2 && 1 <= |b| <= 2 && AllDigits(a) && AllDigits(b) && y < 10000
    ensures DayFromText(a + "." + b + "." + Padded(y, 4)) == Day(y, NumberOf(b), NumberOf(a))
  {
    PaddedIsFixed(y, 4);
    var c := Padded(y, 4);
    var s := a + "." + b + "." + c;
    GermanRuns(a, b, c);
    CompactIsClean(s);
    NotAPlaceholder(s);
    CheckedIsDay(y, NumberOf(b), NumberOf(a), German);
  }

  /** Where the runs of digits of a German date are. */
  lemma GermanShape(a: string, b: string, c: string)
    requires 1 <= |a| <= 2 && 1 <= |b| <= 2 && |c| == 4 && AllDigits(a) && AllDigits(b) && AllDigits(c)
    ensures var s, i, j := a + "." + b + "." + c, |a|, |a| + 1 + |b|;
            && |s| == j + 5 && s[i] == '.' && s[j] == '.' && s[..i] == a && s[i + 1..j] == b && s[j + 1..] == c
            && DigitRun(s, 0) == i && DigitRun(s, i + 1) == |b| && DigitRun(s, j + 1) == 4
            && Compact(s) && IsDigit(s[0])
  {
    var s, i, j := a + "." + b + "." + c, |a|, |a| + 1 + |b|;
    assert forall k :: 0 <= k < i ==> s[k] == a[k];
    assert forall k :: i + 1 <= k < j ==> s[k] == b[k - i - 1];
    assert forall k :: j + 1 <= k < |s| ==> s[k] == c[k - j - 1];
    assert s[i] == '.' && s[j] == '.';
    RunIs(s, 0, i);
    RunIs(s, i + 1, |b|);
    RunIs(s, j + 1, 4);
  }

  lemma OneDate(s: string, i: nat, j: nat)
    requires 1 <= i <= 4 && i < j < |s| && Separator(s[i]) && Separator(s[j])
    requires DigitRun(s, 0) == i && 1 <= j - i - 1 <= 2 && DigitRun(s, i + 1) == j - i - 1
    requires DigitRun(s, j + 1) == |s| - j - 1 && 2 <= |s| - j - 1 <= 5
    ensures CountDates(s, 0) == 1
  {
    assert DateLike(s, 0) == |s|;
  }

  lemma PartsAre(s: string, i: nat, j: nat)
    requires 1 <= i <= 2 && i < j < |s| && s[i] == '.' && s[j] == '.' && DigitRun(s, 0) == i
    requires 1 <= j - i - 1 <= 2 && DigitRun(s, i + 1) == j - i - 1 && DigitRun(s, j + 1) == |s| - j - 1
    ensures GermanParts(s) == Some(Parts(s[..i], s[i + 1..j], s[j + 1..]))
  {
  }

  lemma GermanRuns(a: string, b: string, c: string)
    requires 1 <= |a| <= 2 && 1 <= |b| <= 2 && |c| == 4 && AllDigits(a) && AllDigits(b) && AllDigits(c)
    ensures var s := a + "." + b + "." + c;
            Compact(s) && IsDigit(s[0]) && GermanParts(s) == Some(Parts(a, b, c)) && CountDates(s, 0) == 1 &&
            !IsoShape(s) && !AllDigits(s)
  {
    GermanShape(a, b, c);
    var s, i, j := a + "." + b + "." + c, |a|, |a| + 1 + |b|;
    OneDate(s, i, j);
    PartsAre(s, i, j);
    assert s[0..4][i] == '.';
  }

  lemma IsoTextSpells(y: nat, m: nat, d: nat)
    requires y < 10000 && m < 100 && d < 100
    ensures DayFromText(Iso(Civil(y, m, d))) == Day(y, m, d)
  {
    PaddedIsFixed(y, 4);
    PaddedIsFixed(m, 2);
    PaddedIsFixed(d, 2);
    IsoRuns(Padded(y, 4), Padded(m, 2), Padded(d, 2));
    var s := Iso(Civil(y, m, d));
    CompactIsClean(s);
    NotAPlaceholder(s);
    CheckedIsDay(y, m, d, IsoDate);
  }

  lemma IsoRuns(a: string, b: string, c: string)
    requires |a| == 4 && |b| == 2 && |c| == 2 && AllDigits(a) && AllDigits(b) && AllDigits(c)
    ensures var s := a + "-" + b + "-" + c;
            Compact(s) && IsDigit(s[0]) && IsoShape(s) && s[0..4] == a && s[5..7] == b && s[8..10] == c &&
            CountDates(s, 0) == 1 && GermanParts(s).None? && !AllDigits(s)
  {
    var s := a + "-" + b + "-" + c;
    assert forall k :: 0 <= k < 4 ==> s[k] == a[k];
    assert forall k :: 5 <= k < 7 ==> s[k] == b[k - 5];
    assert forall k :: 8 <= k < 10 ==> s[k] == c[k - 8];
    assert s[4] == '-' && s[7] == '-';
    assert s[0..4] == a && s[5..7] == b && s[8..10] == c;
    RunIs(s, 0, 4);
    RunIs(s, 5, 2);
    RunIs(s, 8, 2);
    assert DateLike(s, 0) == |s|;
    assert !IsDigit(s[4]);
  }

  // ---- together --------------------------------------------------------------------------------------------------------

  /** The ways to spell a day as a text: yyyymmdd, dd.mm.yyyy, d.m.yyyy, ISO. */
  datatype TextForm = Digits8 | GermanPadded | GermanShort | IsoForm

  function TextOf(form: TextForm, y: nat, m: nat, d: nat): string {
    match form
    case Digits8 => Padded(y, 4) + Padded(m, 2) + Padded(d, 2)
    case GermanPadded => Padded(d, 2) + "." + Padded(m, 2) + "." + Padded(y, 4)
    case GermanShort => Decimal(d) + "." + Decimal(m) + "." + Padded(y, 4)
    case IsoForm => Iso(Civil(y, m, d))
  }

  function Ymd(y: nat, m: nat, d: nat): nat {
    10000 * y + 100 * m + d
  }

  /** And as a cell: Excel's serial, a number of eight digits, or a text. */
  datatype Spelling = AsSerial | AsNumber | AsText(form: TextForm)

  function CellOf(spelling: Spelling, y: nat, m: nat, d: nat): Cell {
    match spelling
    case AsSerial => Number(Serial(y, m, d) as real)
    case AsNumber => Number(Ymd(y, m, d) as real)
    case AsText(form) => Chars(TextOf(form, y, m, d))
  }

  lemma TextsSpell(form: TextForm, y: nat, m: nat, d: nat)
    requires y < 10000 && m < 100 && d < 100
    ensures TextOf(form, y, m, d) != "" && DayFromText(TextOf(form, y, m, d)) == Day(y, m, d)
  {
    PaddedIsFixed(m, 2);
    PaddedIsFixed(d, 2);
    PaddedIsFixed(y, 4);
    match form
    case Digits8 => CompactTextSpells(y, m, d);
    case GermanPadded => GermanTextSpells(Padded(d, 2), Padded(m, 2), y);
    case GermanShort =>
      Unpadded(d);
      Unpadded(m);
      GermanTextSpells(Decimal(d), Decimal(m), y);
    case IsoForm => IsoTextSpells(y, m, d);
  }

  lemma Unpadded(n: nat)
    requires n < 100
    ensures 1 <= |Decimal(n)| <= 2 && AllDigits(Decimal(n)) && NumberOf(Decimal(n)) == n
  {
    DecimalFits(n, 2);
    NumberOfDecimal(n);
  }

  lemma NumbersInRange(y: nat, m: nat, d: nat)
    requires InRange(y, m, d)
    ensures 1900 <= y <= 2100 && m < 100 && d < 100 && 19000101 <= Ymd(y, m, d) <= 21001231
  {
    SerialBounds(y, m, d);
  }

  lemma SerialCell(y: nat, m: nat, d: nat)
    requires InRange(y, m, d)
    ensures DayFromCell(CellOf(AsSerial, y, m, d)) == Day(y, m, d)
  {
    SerialSpells(y, m, d);
  }

  lemma NumberCell(y: nat, m: nat, d: nat)
    requires m < 100 && d < 100 && 19000101 <= Ymd(y, m, d) <= 21001231
    ensures DayFromCell(CellOf(AsNumber, y, m, d)) == Day(y, m, d)
  {
    NumberRead(Ymd(y, m, d), y, m, d);
  }

  lemma NumberRead(n: int, y: nat, m: nat, d: nat)
    requires m < 100 && d < 100 && n == 10000 * y + 100 * m + d && 19000101 <= n <= 21001231
    ensures DayFromCell(Number(n as real)) == Day(y, m, d)
  {
    NumberSpells(n, y, m, d);
  }

  lemma TextCell(form: TextForm, y: nat, m: nat, d: nat)
    requires y < 10000 && m < 100 && d < 100
    ensures DayFromCell(CellOf(AsText(form), y, m, d)) == Day(y, m, d)
  {
    TextsSpell(form, y, m, d);
  }

  /** A reader of date cells, whatever it does. */
  type Reader = Cell -> Option<string>

  lemma AllSpellings(read: Reader, y: nat, m: nat, d: nat, day: Option<string>)
    requires read(CellOf(AsSerial, y, m, d)) == day && read(CellOf(AsNumber, y, m, d)) == day
    requires forall form :: read(CellOf(AsText(form), y, m, d)) == day
    ensures forall spelling :: read(CellOf(spelling, y, m, d)) == day
  {
    forall spelling ensures read(CellOf(spelling, y, m, d)) == day {
      match spelling
      case AsSerial =>
      case AsNumber =>
      case AsText(form) =>
    }
  }

  /** One day between 1900-03-01 and 2100-12-31, however it is spelled. */
  lemma EverySpellingAgrees(y: nat, m: nat, d: nat)
    requires InRange(y, m, d)
    ensures forall spelling :: DayFromCell(CellOf(spelling, y, m, d)) == Day(y, m, d) == Some(Iso(Civil(y, m, d)))
  {
    NumbersInRange(y, m, d);
    SerialCell(y, m, d);
    NumberCell(y, m, d);
    forall form ensures DayFromCell(CellOf(AsText(form), y, m, d)) == Day(y, m, d) { TextCell(form, y, m, d); }
    AllSpellings(DayFromCell, y, m, d, Day(y, m, d));
  }

  /** Digits that name no day of the calendar give nothing, in every spelling that has digits for them. */
  lemma ImpossibleDaysAreNull(y: nat, m: nat, d: nat)
    requires y < 10000 && m < 100 && d < 100 && !Valid(y, m, d)
    ensures forall form :: DayFromCell(CellOf(AsText(form), y, m, d)) == None
    ensures 19000101 <= Ymd(y, m, d) <= 21001231 ==> DayFromCell(CellOf(AsNumber, y, m, d)) == None
  {
    forall form ensures DayFromCell(CellOf(AsText(form), y, m, d)) == None { TextCell(form, y, m, d); }
    if 19000101 <= Ymd(y, m, d) <= 21001231 { NumberCell(y, m, d); }
  }

  // ---- and nothing else is a day ---------------------------------------------------------------------------------------

  /** This text is the ISO spelling of this day of the calendar. */
  predicate Spells(text: string, y: nat, m: nat, d: nat) {
    Valid(y, m, d) && y > 99 && text == Iso(Civil(y, m, d))
  }

  /** Nothing, or the ISO spelling of a day of the calendar. */
  ghost predicate DayOrNothing(r: Option<string>) {
    r.Some? ==> exists y, m, d :: Spells(r.value, y, m, d)
  }

  lemma ValidIsoGivesDay(y: nat, m: nat, d: nat)
    ensures DayOrNothing(ValidIso(y, m, d))
  {
    ValidIsoIsDay(y, m, d);
    if Day(y, m, d).Some? { assert Spells(Day(y, m, d).value, y, m, d); }
  }

  lemma CheckedGivesDay(y: nat, m: nat, d: nat, reason: Reason)
    ensures DayOrNothing(Checked(y, m, d, reason).iso)
  {
    CheckedIsDay(y, m, d, reason);
    if Day(y, m, d).Some? { assert Spells(Day(y, m, d).value, y, m, d); }
  }

  lemma NumberGivesDay(v: real)
    ensures DayOrNothing(DayFromNumber(v))
  {
    var n := v.Floor;
    if v == n as real && 19000101 <= n <= 21001231 {
      ValidIsoGivesDay(n / 10000, n % 10000 / 100, n % 100);
    } else if SerialToIso(v).Some? {
      YearsOfSerials(n);
      var c := CivilOf(EPOCH + n);
      assert Spells(SerialToIso(v).value, c.year, c.month, c.day);
    }
  }

  lemma StoredDateGivesDay(input: Option<string>)
    ensures DayOrNothing(ParseStoredDate(input).iso)
  {
    if ParseStoredDate(input).iso.Some? {
      var s := CleanText(input).value;
      if IsoShape(s) {
        CheckedGivesDay(NumberOf(s[0..4]), NumberOf(s[5..7]), NumberOf(s[8..10]), IsoDate);
      } else {
        var p := GermanParts(s).value;
        GermanPartsAreDigits(s);
        CheckedGivesDay(NumberOf(p.year), NumberOf(p.month), NumberOf(p.day), German);
      }
    }
  }

  lemma EightDigitsGiveDay(text: string)
    requires |Trim(text)| == 8 && AllDigits(Trim(text))
    ensures DayOrNothing(DayFromText(text))
  {
    var t := Trim(text);
    ValidIsoGivesDay(NumberOf(t[..4]), NumberOf(t[4..6]), NumberOf(t[6..8]));
  }

  lemma ShortYearGivesDay(p: Parts)
    requires AllDigits(p.day) && AllDigits(p.month) && AllDigits(p.year)
    ensures DayOrNothing(ShortYearDay(p))
  {
    ValidIsoGivesDay(2000 + NumberOf(p.year), NumberOf(p.month), NumberOf(p.day));
  }

  lemma ShortTextGivesDay(text: string, p: Parts)
    requires !(|Trim(text)| == 8 && AllDigits(Trim(text))) && GermanParts(Trim(text)) == Some(p) && |p.year| == 2
    ensures DayOrNothing(DayFromText(text))
  {
    GermanPartsAreDigits(Trim(text));
    ShortYearGivesDay(p);
  }

  lemma OtherTextGivesDay(text: string)
    requires !(|Trim(text)| == 8 && AllDigits(Trim(text)))
    requires !(GermanParts(Trim(text)).Some? && |GermanParts(Trim(text)).value.year| == 2)
    ensures DayOrNothing(DayFromText(text))
  {
    StoredDateGivesDay(Some(Trim(text)));
  }

  lemma TextGivesDay(text: string)
    ensures DayOrNothing(DayFromText(text))
  {
    var t := Trim(text);
    if |t| == 8 && AllDigits(t) {
      EightDigitsGiveDay(text);
    } else if GermanParts(t).Some? && |GermanParts(t).value.year| == 2 {
      ShortTextGivesDay(text, GermanParts(t).value);
    } else {
      OtherTextGivesDay(text);
    }
  }

  /** Whatever a cell holds: what comes out is the ISO spelling of a day of the calendar, or nothing. */
  lemma OnlyDaysComeOut(v: Cell)
    ensures DayFromCell(v).Some? ==> exists y, m, d :: Spells(DayFromCell(v).value, y, m, d)
  {
    match v
    case Absent =>
    case Number(x) => NumberGivesDay(x);
    case Chars(s) => if s != "" { TextGivesDay(s); }
  }

  // ---- serials in order --------------------------------------------------------------------------------------------------

  lemma {:induction false} BelowAppended(a: string, b: string, x: string, y: string)
    requires |a| == |b| && Below(a, b)
    ensures Below(a + x, b + y)
  {
    assert (a + x)[1..] == a[1..] + x && (b + y)[1..] == b[1..] + y;
    if a[0] == b[0] { BelowAppended(a[1..], b[1..], x, y); }
  }

  lemma {:induction false} BelowPrefixed(a: string, x: string, y: string)
    requires Below(x, y)
    ensures Below(a + x, a + y)
  {
    if |a| == 0 {
      assert a + x == x && a + y == y;
    } else {
      assert (a + x)[1..] == a[1..] + x && (a + y)[1..] == a[1..] + y;
      BelowPrefixed(a[1..], x, y);
    }
  }

  lemma {:induction false} FixedInOrder(n: nat, k: nat, width: nat)
    requires n < k < Power(width)
    ensures Below(Fixed(n, width), Fixed(k, width))
    decreases width
  {
    if n / 10 < k / 10 {
      FixedInOrder(n / 10, k / 10, width - 1);
      BelowAppended(Fixed(n / 10, width - 1), Fixed(k / 10, width - 1), [DigitChar(n % 10)], [DigitChar(k % 10)]);
    } else {
      assert n / 10 == k / 10 && n % 10 < k % 10;
      BelowPrefixed(Fixed(n / 10, width - 1), [DigitChar(n % 10)], [DigitChar(k % 10)]);
    }
  }

  /** Month and day in order, behind a year. */
  function Rest(c: Civil): string
    requires Writable(c)
  {
    "-" + (Padded(c.month, 2) + ("-" + Padded(c.day, 2)))
  }

  lemma IsoIsYearAndRest(c: Civil)
    requires Writable(c)
    ensures Iso(c) == Padded(c.year, 4) + Rest(c)
  {
  }

  lemma RestInOrder(a: Civil, b: Civil)
    requires Writable(a) && Writable(b) && (a.month < b.month || (a.month == b.month && a.day < b.day))
    ensures Below(Rest(a), Rest(b))
  {
    PaddedIsFixed(a.month, 2);
    PaddedIsFixed(b.month, 2);
    PaddedIsFixed(a.day, 2);
    PaddedIsFixed(b.day, 2);
    var ma, da, mb, db := Padded(a.month, 2), Padded(a.day, 2), Padded(b.month, 2), Padded(b.day, 2);
    if a.month < b.month {
      FixedInOrder(a.month, b.month, 2);
      BelowAppended(ma, mb, "-" + da, "-" + db);
    } else {
      FixedInOrder(a.day, b.day, 2);
      BelowPrefixed("-", da, db);
      BelowPrefixed(ma, "-" + da, "-" + db);
    }
    BelowPrefixed("-", ma + ("-" + da), mb + ("-" + db));
  }

  /** ISO texts are ordered as their days are. */
  lemma IsoInOrder(a: Civil, b: Civil)
    requires Writable(a) && Writable(b) && Earlier(a, b)
    ensures Below(Iso(a), Iso(b))
  {
    IsoIsYearAndRest(a);
    IsoIsYearAndRest(b);
    PaddedIsFixed(a.year, 4);
    PaddedIsFixed(b.year, 4);
    if a.year < b.year {
      FixedInOrder(a.year, b.year, 4);
      BelowAppended(Padded(a.year, 4), Padded(b.year, 4), Rest(a), Rest(b));
    } else {
      RestInOrder(a, b);
      BelowPrefixed(Padded(a.year, 4), Rest(a), Rest(b));
    }
  }

  lemma TextsOfDays(s: int, t: int, x: string, y: string)
    requires s < t && Writable(CivilOf(s)) && Writable(CivilOf(t)) && x == Iso(CivilOf(s)) && y == Iso(CivilOf(t))
    ensures Earlier(CivilOf(s), CivilOf(t)) && Below(x, y)
  {
    DaysInOrder(s, t);
    IsoInOrder(CivilOf(s), CivilOf(t));
  }

  /** Of two whole serials that are read (`SerialsReadExactly`) the later is the later day, as a day and as a text. */
  lemma SerialsInOrder(s: int, t: int, x: string, y: string)
    requires s < t && SerialToIso(s as real) == Some(x) && SerialToIso(t as real) == Some(y)
    ensures Earlier(CivilOf(EPOCH + s), CivilOf(EPOCH + t)) && Below(x, y)
  {
    SerialText(s, x);
    SerialText(t, y);
    TextsOfDays(EPOCH + s, EPOCH + t, x, y);
  }
}
