/**
 * The pure part of the station-master generator (scripts/generate-stations-master.ts): parse, canonicalise, inherit, retain
 * retired stations, sort, check. Regenerating from its own output changes nothing.
 */
module StationMaster {
  import opened Wrappers
  import opened Text
  import opened Numerals
  import opened Sequences

  // ---- cleaners --------------------------------------------------------------------------------------------------------

  function Digits(s: string): (r: string)
    ensures forall i :: 0 <= i < |r| ==> IsDigit(r[i])
  {
    if |s| == 0 then "" else (if IsDigit(s[0]) then [s[0]] else "") + Digits(s[1..])
  }

  /** `cleanPlz`: five digits, leading zeros kept. */
  function CleanPlz(v: Option<string>): Option<string> {
    var s := CleanText(v);
    if s.None? then None
    else
      var digits := Digits(s.value);
      if |digits| == 0 then None
      else if |digits| < 5 then Some(PadStart(digits, 5))
      else Some(digits[..5])
  }

  lemma {:induction false} DigitsStay(s: string)
    requires forall i :: 0 <= i < |s| ==> IsDigit(s[i])
    ensures Digits(s) == s
  {
    if |s| > 0 { DigitsStay(s[1..]); }
  }

  lemma CleanPlzIsIdempotent(v: Option<string>)
    ensures CleanPlz(CleanPlz(v)) == CleanPlz(v)
  {
    if CleanPlz(v).Some? {
      var plz := CleanPlz(v).value;
      assert |plz| == 5 && forall i :: 0 <= i < |plz| ==> IsDigit(plz[i]);
      assert Tidy(plz);
      TidyStays(plz, false);
      assert Trim(plz) == plz;
      DigitsStay(plz);
      assert CleanText(Some(plz)) == Some(plz) && plz[..5] == plz;
    }
  }

  /** A cell of a workbook or of a JSON file. */
  datatype Cell = Absent | Number(number: real) | Chars(chars: string)

  function Trunc(x: real): int {
    if x >= 0.0 then x.Floor else -((-x).Floor)
  }

  /** `toInt`; the reading of a text as a number is the runtime's. */
  function ToInt(read: string -> Option<real>, v: Cell): Option<int> {
    match v
    case Absent => None
    case Number(x) => Some(Trunc(x))
    case Chars(s) => if s == "" then None else if read(s).Some? then Some(Trunc(read(s).value)) else None
  }

  function Written(v: Option<int>): Cell {
    if v.Some? then Number(v.value as real) else Absent
  }

  lemma ToIntIsIdempotent(read: string -> Option<real>, v: Cell)
    ensures ToInt(read, Written(ToInt(read, v))) == ToInt(read, v)
  {
  }

  function NumberText(n: int): (r: string)
    ensures |r| > 0 && forall i :: 0 <= i < |r| ==> !Blank(r[i])
  {
    if n < 0 then "-" + Decimal(-n) else Decimal(n)
  }

  /** The stand-in name of a nameless station is clean. */
  lemma StandInIsClean(n: int)
    ensures CleanText(Some("Bhf " + NumberText(n))) == Some("Bhf " + NumberText(n))
  {
    var s := "Bhf " + NumberText(n);
    assert forall i :: 0 <= i < |s| && i != 3 ==> !Blank(s[i]);
    assert s[3] == ' ';
    TidyStays(s, false);
    assert Trim(s) == s;
  }

  // ---- Bahnhofsmanagement (shared/bahnhofsmanagement.ts) ---------------------------------------------------------------

  /** The nine canonical names; folding, and what is looked up under a folded key. */
  datatype Vocabulary = Vocabulary(
    fold: string -> string, names: seq<string>, placeholders: set<string>, aliases: map<string, string>,
    lotBase: string -> Option<string>)

  /** Folding tells the names apart and takes none for a placeholder; nothing at all is one; aliases stand for names. */
  ghost predicate VocabularySound(v: Vocabulary) {
    && (forall i, j :: 0 <= i < j < |v.names| ==> v.fold(v.names[i]) != v.fold(v.names[j]))
    && (forall c :: c in v.names ==> CleanText(Some(c)) == Some(c) && v.fold(c) !in v.placeholders)
    && v.fold("") in v.placeholders
    && forall k :: k in v.aliases ==> v.aliases[k] in v.names
  }

  function ByFold(v: Vocabulary, names: seq<string>, key: string): Option<string> {
    if |names| == 0 then None
    else if v.fold(names[0]) == key then Some(names[0])
    else ByFold(v, names[1..], key)
  }

  function Known(v: Vocabulary, key: string): Option<string> {
    var direct := ByFold(v, v.names, key);
    if direct.Some? then direct else if key in v.aliases then Some(v.aliases[key]) else None
  }

  /** `normalizeBahnhofsmanagement`: a name by its fold, by an alias, or by the region before a lot number. */
  function Canon(v: Vocabulary, raw: string): Option<string> {
    var cleaned := CleanText(Some(raw));
    var key := v.fold(if cleaned.Some? then cleaned.value else "");
    if key in v.placeholders then None
    else
      var known := Known(v, key);
      if known.Some? then known
      else
        var base := v.lotBase(key);
        if base.Some? then Known(v, base.value) else None
  }

  lemma {:induction false} ByFoldFinds(v: Vocabulary, names: seq<string>, key: string)
    ensures ByFold(v, names, key).Some? ==> ByFold(v, names, key).value in names && v.fold(ByFold(v, names, key).value) == key
    ensures (forall i, j :: 0 <= i < j < |names| ==> v.fold(names[i]) != v.fold(names[j])) ==>
            forall i :: 0 <= i < |names| && v.fold(names[i]) == key ==> ByFold(v, names, key) == Some(names[i])
  {
    if |names| > 0 {
      ByFoldFinds(v, names[1..], key);
      assert forall i :: 0 <= i < |names[1..]| ==> names[1..][i] == names[i + 1];
    }
  }

  lemma KnownIsName(v: Vocabulary, key: string)
    requires VocabularySound(v) && Known(v, key).Some?
    ensures Known(v, key).value in v.names
  {
    ByFoldFinds(v, v.names, key);
  }

  lemma NameIsCanonical(v: Vocabulary, c: string)
    requires VocabularySound(v) && c in v.names
    ensures Canon(v, c) == Some(c)
  {
    var i :| 0 <= i < |v.names| && v.names[i] == c;
    ByFoldFinds(v, v.names, v.fold(c));
  }

  /** Whatever is canonical is a name, a name is its own canonical form, and blank has none. */
  lemma CanonIsIdempotent(v: Vocabulary, raw: string)
    requires VocabularySound(v)
    ensures Canon(v, raw).Some? ==> Canon(v, raw).value in v.names && Canon(v, Canon(v, raw).value) == Canon(v, raw)
    ensures Canon(v, "") == None
  {
    if Canon(v, raw).Some? {
      var cleaned := CleanText(Some(raw));
      var key := v.fold(if cleaned.Some? then cleaned.value else "");
      if Known(v, key).Some? { KnownIsName(v, key); } else { KnownIsName(v, v.lotBase(key).value); }
      NameIsCanonical(v, Canon(v, raw).value);
    }
  }

  // ---- records ---------------------------------------------------------------------------------------------------------

  /** One row of the national source. */
  datatype RawRow = RawRow(
    nr: Cell, name: Option<string>, street: Option<string>, plz: Option<string>, town: Option<string>,
    region: Option<string>, bm: Option<string>, kategorie: Cell)

  /** One row of the previous master: its own fields, or the older names two of them once had. */
  datatype PrevRow = PrevRow(
    nr: Cell, station: Option<string>, bm: Option<string>, katVst: Cell, kategorie: Cell, street: Option<string>,
    plz: Option<string>, town: Option<string>, land: Option<string>, ds100Old: Option<string>, ds100: Option<string>,
    carrier: Option<string>)

  datatype Coordinates = Coordinates(lat: Option<real>, lng: Option<real>)

  /** One row of the master. */
  datatype Station = Station(
    nr: int, name: string, bm: string, region: string, kategorie: Option<int>, street: Option<string>,
    plz: Option<string>, town: Option<string>, land: Option<string>, ds100: Option<string>, carrier: Option<string>,
    lat: Option<real>, lng: Option<real>, exactMatch: bool, retired: bool)

  const MITTE := "RB Mitte"

  /** What generation is given besides its source: number reading, the Bahnhofsmanagements, the coordinates. */
  datatype Settings = Settings(
    read: string -> Option<real>, vocabulary: Vocabulary, stationBms: set<string>, ledger: map<int, Coordinates>)

  function Lat(g: Settings, nr: int): Option<real> {
    if nr in g.ledger then g.ledger[nr].lat else None
  }

  function Lng(g: Settings, nr: int): Option<real> {
    if nr in g.ledger then g.ledger[nr].lng else None
  }

  function Or<T>(a: Option<T>, b: Option<T>): Option<T> {
    if a.Some? then a else b
  }

  function OrCell(a: Cell, b: Cell): Cell {
    if a.Absent? then b else a
  }

  function OrEmpty(v: Option<string>): string {
    if v.Some? then v.value else ""
  }

  function Region(r: RawRow): string {
    var region := CleanText(r.region);
    if region.Some? then region.value else "unbekannt"
  }

  /** The Bahnhofsmanagement of a source row: canonical in RB Mitte where it can be, official elsewhere. */
  function SourceBm(g: Settings, r: RawRow): string {
    var bm := OrEmpty(CleanText(r.bm));
    if Region(r) == MITTE && Canon(g.vocabulary, bm).Some? then Canon(g.vocabulary, bm).value else bm
  }

  predicate Unmapped(g: Settings, r: RawRow) {
    Region(r) == MITTE && Canon(g.vocabulary, OrEmpty(CleanText(r.bm))).None?
  }

  /** A row of the source as a row of the master; what the source no longer has is inherited by number. */
  function FromSource(g: Settings, previous: map<int, PrevRow>, nr: int, name: string, r: RawRow): Station {
    var known := nr in previous;
    Station(nr, name, SourceBm(g, r), Region(r), ToInt(g.read, r.kategorie), CleanText(r.street), CleanPlz(r.plz),
            CleanText(r.town),
            if known then CleanText(previous[nr].land) else None,
            if known then CleanText(Or(previous[nr].ds100Old, previous[nr].ds100)) else None,
            if known then CleanText(previous[nr].carrier) else None,
            Lat(g, nr), Lng(g, nr), nr in g.ledger, false)
  }

  /** A station of the previous master that the source no longer lists. */
  function Retired(g: Settings, nr: int, prev: PrevRow): Station {
    var name := CleanText(prev.station);
    Station(nr, if name.Some? then name.value else "Bhf " + NumberText(nr), OrEmpty(Canon(g.vocabulary, OrEmpty(prev.bm))), MITTE,
            ToInt(g.read, OrCell(prev.katVst, prev.kategorie)), CleanText(prev.street), CleanPlz(prev.plz),
            CleanText(prev.town), CleanText(prev.land), CleanText(Or(prev.ds100Old, prev.ds100)), CleanText(prev.carrier),
            Lat(g, nr), Lng(g, nr), nr in g.ledger, true)
  }

  /** A row of the master read back as a row of the previous master. */
  function AsPrevious(s: Station): PrevRow {
    PrevRow(Number(s.nr as real), Some(s.name), Some(s.bm), Absent, Written(s.kategorie), s.street, s.plz, s.town, s.land,
            None, s.ds100, s.carrier)
  }

  // ---- the previous master by number -----------------------------------------------------------------------------------

  function ByNr(g: Settings, rows: seq<PrevRow>): map<int, PrevRow> {
    if |rows| == 0 then map[]
    else
      var rest, nr := ByNr(g, rows[..|rows| - 1]), ToInt(g.read, rows[|rows| - 1].nr);
      if nr.Some? then rest[nr.value := rows[|rows| - 1]] else rest
  }

  method LoadPreviousByNr(g: Settings, rows: seq<PrevRow>) returns (previous: map<int, PrevRow>)
    ensures previous == ByNr(g, rows)
  {
    previous := map[];
    for i := 0 to |rows|
      invariant previous == ByNr(g, rows[..i])
    {
      assert rows[..i + 1][..i] == rows[..i];
      var nr := ToInt(g.read, rows[i].nr);
      if nr.Some? { previous := previous[nr.value := rows[i]]; }
    }
    assert rows[..|rows|] == rows;
  }

  ghost predicate DistinctNrs(rows: seq<Station>) {
    forall i, j :: 0 <= i < j < |rows| ==> rows[i].nr != rows[j].nr
  }

  function Reread(rows: seq<Station>): seq<PrevRow> {
    seq(|rows|, i requires 0 <= i < |rows| => AsPrevious(rows[i]))
  }

  /** A master read back is found again under its numbers. */
  lemma {:induction false} RereadByNr(g: Settings, rows: seq<Station>)
    requires DistinctNrs(rows)
    ensures forall nr :: nr in ByNr(g, Reread(rows)) <==> exists i :: 0 <= i < |rows| && rows[i].nr == nr
    ensures forall i :: 0 <= i < |rows| ==> ByNr(g, Reread(rows))[rows[i].nr] == AsPrevious(rows[i])
    decreases |rows|
  {
    if |rows| > 0 {
      var last := |rows| - 1;
      RereadByNr(g, rows[..last]);
      assert Reread(rows)[..last] == Reread(rows[..last]);
      assert ToInt(g.read, AsPrevious(rows[last]).nr) == Some(rows[last].nr);
      var before := ByNr(g, Reread(rows[..last]));
      forall i | 0 <= i < |rows| ensures ByNr(g, Reread(rows))[rows[i].nr] == AsPrevious(rows[i]) {
        if i < last { assert rows[..last][i] == rows[i]; }
      }
      forall nr ensures nr in ByNr(g, Reread(rows)) <==> exists i :: 0 <= i < |rows| && rows[i].nr == nr {
        if nr in before {
          var i :| 0 <= i < |rows[..last]| && rows[..last][i].nr == nr;
          assert rows[i].nr == nr;
        }
        if i :| 0 <= i < |rows| && rows[i].nr == nr {
          if i < last { assert rows[..last][i].nr == nr; }
        }
      }
    }
  }

  // ---- what a generation is --------------------------------------------------------------------------------------------

  datatype Master = Master(mitte: seq<Station>, national: seq<Station>)

  /** A source row as the generator reads it: none without number or name; and whether its Bahnhofsmanagement is unknown. */
  datatype Parsed = Parsed(station: Station, unmapped: bool)

  type Parser = RawRow -> Option<Parsed>

  function Parse(g: Settings, previous: map<int, PrevRow>): Parser {
    (r: RawRow) =>
      var nr, name := ToInt(g.read, r.nr), CleanText(r.name);
      if nr.None? || name.None? then None
      else Some(Parsed(FromSource(g, previous, nr.value, name.value, r), Unmapped(g, r)))
  }

  /** The previous master as the retired stations it would leave behind. */
  function Leftover(g: Settings, previous: map<int, PrevRow>): map<int, Station> {
    map nr | nr in previous :: Retired(g, nr, previous[nr])
  }

  ghost predicate IsNational(parse: Parser, source: seq<RawRow>, s: Station) {
    exists i :: 0 <= i < |source| && parse(source[i]).Some? && parse(source[i]).value.station == s
  }

  /** Does the source list this number in RB Mitte? */
  ghost predicate Listed(parse: Parser, source: seq<RawRow>, nr: int) {
    exists s :: IsNational(parse, source, s) && s.nr == nr && s.region == MITTE
  }

  ghost predicate IsRetired(parse: Parser, source: seq<RawRow>, old_: map<int, Station>, s: Station) {
    s.nr in old_ && !Listed(parse, source, s.nr) && s == old_[s.nr]
  }

  ghost predicate IsMitte(parse: Parser, source: seq<RawRow>, old_: map<int, Station>, s: Station) {
    (IsNational(parse, source, s) && s.region == MITTE) || IsRetired(parse, source, old_, s)
  }

  ghost predicate Sorted(rows: seq<Station>) {
    forall i, j :: 0 <= i < j < |rows| ==> rows[i].nr < rows[j].nr
  }

  /** The master of a source and a previous master: exactly these rows, strictly by number. */
  ghost predicate Generated(parse: Parser, source: seq<RawRow>, old_: map<int, Station>, m: Master) {
    && Sorted(m.mitte) && Sorted(m.national)
    && (forall s :: s in m.mitte <==> IsMitte(parse, source, old_, s))
    && (forall s :: s in m.national <==> IsNational(parse, source, s))
  }

  ghost predicate DistinctSource(parse: Parser, source: seq<RawRow>) {
    forall i, j :: 0 <= i < j < |source| && parse(source[i]).Some? && parse(source[j]).Some? ==>
                   parse(source[i]).value.station.nr != parse(source[j]).value.station.nr
  }

  ghost predicate SomeUnmapped(parse: Parser, source: seq<RawRow>) {
    exists i :: 0 <= i < |source| && parse(source[i]).Some? && parse(source[i]).value.unmapped
  }

  predicate Whole(s: Station) {
    && (s.lat.Some? <==> s.lng.Some?)
    && (s.lat.Some? && s.lng.Some? ==> 45.0 <= s.lat.value <= 56.0 && 5.0 <= s.lng.value <= 16.0)
  }

  predicate Fine(stationBms: set<string>, s: Station) {
    (s.bm == "" || s.bm in stationBms) && Whole(s)
  }

  /** The checks before anything is written. */
  ghost predicate NoProblems(parse: Parser, source: seq<RawRow>, stationBms: set<string>, m: Master) {
    && DistinctSource(parse, source) && !SomeUnmapped(parse, source)
    && forall s :: s in m.mitte ==> Fine(stationBms, s)
  }

  // ---- the loops -------------------------------------------------------------------------------------------------------

  function NrsOf(rows: seq<Station>): set<int> {
    set k | 0 <= k < |rows| :: rows[k].nr
  }

  /** Which numbers the first rows have, whether one repeats, whether one is unmapped. */
  ghost predicate Surveyed(parse: Parser, source: seq<RawRow>, i: nat, seen: set<int>, duplicate: bool, unmapped: bool)
    requires i <= |source|
  {
    && (forall k :: 0 <= k < i && parse(source[k]).Some? ==> parse(source[k]).value.station.nr in seen)
    && (forall nr :: nr in seen ==> exists k :: 0 <= k < i && parse(source[k]).Some? && parse(source[k]).value.station.nr == nr)
    && (duplicate <==> exists a, b :: 0 <= a < b < i && parse(source[a]).Some? && parse(source[b]).Some? &&
                                      parse(source[a]).value.station.nr == parse(source[b]).value.station.nr)
    && (!duplicate ==> (unmapped <==> exists k :: 0 <= k < i && parse(source[k]).Some? && parse(source[k]).value.unmapped))
  }

  ghost predicate Collected(parse: Parser, source: seq<RawRow>, i: nat, rows: seq<Station>)
    requires i <= |source|
  {
    && DistinctNrs(rows)
    && (forall k :: 0 <= k < |rows| ==> IsNational(parse, source, rows[k]))
    && (forall k :: 0 <= k < i && parse(source[k]).Some? ==> parse(source[k]).value.station.nr in NrsOf(rows))
  }

  lemma SurveyNext(parse: Parser, source: seq<RawRow>, i: nat, seen: set<int>, duplicate: bool, unmapped: bool)
    requires i < |source| && Surveyed(parse, source, i, seen, duplicate, unmapped)
    ensures parse(source[i]).None? ==> Surveyed(parse, source, i + 1, seen, duplicate, unmapped)
    ensures parse(source[i]).Some? && parse(source[i]).value.station.nr in seen ==>
              Surveyed(parse, source, i + 1, seen, true, unmapped)
    ensures parse(source[i]).Some? && parse(source[i]).value.station.nr !in seen ==>
              Surveyed(parse, source, i + 1, seen + {parse(source[i]).value.station.nr}, duplicate,
                       unmapped || parse(source[i]).value.unmapped)
  {
  }

  lemma NrsAppended(rows: seq<Station>, s: Station)
    ensures NrsOf(rows + [s]) == NrsOf(rows) + {s.nr}
  {
    var all := rows + [s];
    assert all[|rows|] == s && forall k :: 0 <= k < |rows| ==> all[k] == rows[k];
    forall nr ensures nr in NrsOf(all) <==> nr in NrsOf(rows) || nr == s.nr {
      if nr in NrsOf(rows) {
        var k :| 0 <= k < |rows| && rows[k].nr == nr;
        assert all[k].nr == nr;
      }
    }
  }

  lemma CollectNext(parse: Parser, source: seq<RawRow>, i: nat, rows: seq<Station>)
    requires i < |source| && Collected(parse, source, i, rows) && parse(source[i]).Some?
    requires parse(source[i]).value.station.nr !in NrsOf(rows)
    ensures Collected(parse, source, i + 1, rows + [parse(source[i]).value.station])
  {
    var s := parse(source[i]).value.station;
    NrsAppended(rows, s);
    assert IsNational(parse, source, s);
    forall k | 0 <= k < |rows| ensures rows[k].nr != s.nr { assert rows[k].nr in NrsOf(rows); }
  }

  lemma CollectSkip(parse: Parser, source: seq<RawRow>, i: nat, rows: seq<Station>)
    requires i < |source| && Collected(parse, source, i, rows)
    requires parse(source[i]).Some? ==> parse(source[i]).value.station.nr in NrsOf(rows)
    ensures Collected(parse, source, i + 1, rows)
  {
  }

  lemma SurveyDone(parse: Parser, source: seq<RawRow>, seen: set<int>, duplicate: bool, unmapped: bool)
    requires Surveyed(parse, source, |source|, seen, duplicate, unmapped)
    ensures duplicate <==> !DistinctSource(parse, source)
    ensures !duplicate ==> (unmapped <==> SomeUnmapped(parse, source))
  {
  }

  /** The source, row by row: rows without number or name are skipped, a repeated number is reported. */
  method ReadSource(parse: Parser, source: seq<RawRow>)
    returns (national: seq<Station>, duplicate: bool, unmapped: bool)
    ensures Collected(parse, source, |source|, national)
    ensures duplicate <==> !DistinctSource(parse, source)
    ensures !duplicate ==> (unmapped <==> SomeUnmapped(parse, source))
  {
    national, duplicate, unmapped := [], false, false;
    var seen: set<int> := {};
    for i := 0 to |source|
      invariant Surveyed(parse, source, i, seen, duplicate, unmapped)
      invariant Collected(parse, source, i, national) && NrsOf(national) == seen
    {
      national, seen, duplicate, unmapped := ReadRow(parse, source, i, national, seen, duplicate, unmapped);
    }
    SurveyDone(parse, source, seen, duplicate, unmapped);
  }

  method ReadRow(parse: Parser, source: seq<RawRow>, i: nat, national0: seq<Station>, seen0: set<int>, duplicate0: bool,
                 unmapped0: bool)
    returns (national: seq<Station>, seen: set<int>, duplicate: bool, unmapped: bool)
    requires i < |source| && Surveyed(parse, source, i, seen0, duplicate0, unmapped0)
    requires Collected(parse, source, i, national0) && NrsOf(national0) == seen0
    ensures Surveyed(parse, source, i + 1, seen, duplicate, unmapped)
    ensures Collected(parse, source, i + 1, national) && NrsOf(national) == seen
  {
    national, seen, duplicate, unmapped := national0, seen0, duplicate0, unmapped0;
    SurveyNext(parse, source, i, seen, duplicate, unmapped);
    var r := parse(source[i]);
    if r.None? {
      CollectSkip(parse, source, i, national);
      return;
    }
    var row := r.value.station;
    if row.nr in seen {
      CollectSkip(parse, source, i, national);
      duplicate := true;
      return;
    }
    CollectNext(parse, source, i, national);
    NrsAppended(national, row);
    seen := seen + {row.nr};
    if r.value.unmapped { unmapped := true; }
    national := national + [row];
  }

  /** `filter`: the rows of RB Mitte. */
  method ProjectMitte(national: seq<Station>) returns (mitte: seq<Station>)
    requires DistinctNrs(national)
    ensures DistinctNrs(mitte) && forall s :: s in mitte <==> s in national && s.region == MITTE
  {
    mitte := [];
    for i := 0 to |national|
      invariant DistinctNrs(mitte)
      invariant forall s :: s in mitte <==> s in national[..i] && s.region == MITTE
      invariant forall k :: 0 <= k < |mitte| ==> mitte[k].nr in NrsOf(national[..i])
    {
      assert national[..i + 1] == national[..i] + [national[i]];
      NrsAppended(national[..i], national[i]);
      if national[i].region == MITTE {
        forall k | 0 <= k < |mitte| ensures mitte[k].nr != national[i].nr {
          var j :| 0 <= j < |national[..i]| && national[..i][j].nr == mitte[k].nr;
          assert national[j].nr != national[i].nr;
        }
        mitte := mitte + [national[i]];
      }
    }
    assert national[..|national|] == national;
  }

  /** The retired pass: previous stations whose number RB Mitte no longer has. */
  method RetainRetired(old_: map<int, Station>, listed: set<int>) returns (retired: seq<Station>)
    requires forall nr :: nr in old_ ==> old_[nr].nr == nr
    ensures DistinctNrs(retired)
    ensures forall s :: s in retired <==> s.nr in old_ && s.nr !in listed && s == old_[s.nr]
  {
    retired := [];
    var todo := old_.Keys;
    while todo != {}
      invariant todo <= old_.Keys && DistinctNrs(retired)
      invariant forall s :: s in retired <==> s.nr in old_ && s.nr !in todo && s.nr !in listed && s == old_[s.nr]
    {
      assert (forall n: int :: n !in todo) ==> todo == {};
      var nr :| nr in todo;
      todo := todo - {nr};
      if nr in listed { continue; }
      forall k | 0 <= k < |retired| ensures retired[k].nr != nr { assert retired[k] in retired; }
      retired := retired + [old_[nr]];
    }
  }

  function LowerNr(): (Station, Station) -> bool {
    (a: Station, b: Station) => a.nr < b.nr
  }

  lemma SortedByNr(rows: seq<Station>)
    requires DistinctNrs(rows)
    ensures Sorted(SortBy(rows, LowerNr())) && forall s :: s in SortBy(rows, LowerNr()) <==> s in rows
  {
    SortOrders(rows, LowerNr(), LowerNr());
    SortElements(rows, LowerNr());
    assert forall i, j :: 0 <= i < j < |rows| ==> LowerNr()(rows[i], rows[j]) || LowerNr()(rows[j], rows[i]);
  }

  /** `build`: read, project, retain, sort, check; none when a check fails. */
  method Build(parse: Parser, source: seq<RawRow>, old_: map<int, Station>, stationBms: set<string>)
    returns (r: Option<Master>)
    requires forall nr :: nr in old_ ==> old_[nr].nr == nr
    ensures r.Some? ==> Generated(parse, source, old_, r.value) && NoProblems(parse, source, stationBms, r.value)
    ensures forall m :: Generated(parse, source, old_, m) && NoProblems(parse, source, stationBms, m) ==> r == Some(m)
  {
    var national, duplicate, unmapped := ReadSource(parse, source);
    if duplicate || unmapped { return None; }
    EveryRowIsThere(parse, source, national);
    var mitte := ProjectMitte(national);
    var listed := NrsOf(mitte);
    var retired := RetainRetired(old_, listed);
    ListedAreMitte(parse, source, national, mitte);
    Together(mitte, retired);
    var mitteAll := SortBy(mitte + retired, LowerNr());
    var sorted := SortBy(national, LowerNr());
    SortedByNr(mitte + retired);
    SortedByNr(national);
    var m := Master(mitteAll, sorted);
    forall x ensures x in mitteAll <==> IsMitte(parse, source, old_, x) {
      assert x in mitte + retired <==> x in mitte || x in retired;
    }
    assert Generated(parse, source, old_, m);
    var fine := CheckAll(mitteAll, stationBms);
    forall other | Generated(parse, source, old_, other) ensures other == m { OnlyOne(parse, source, old_, m, other); }
    return if fine then Some(m) else None;
  }

  method CheckAll(rows: seq<Station>, stationBms: set<string>) returns (fine: bool)
    ensures fine <==> forall s :: s in rows ==> Fine(stationBms, s)
  {
    fine := true;
    for i := 0 to |rows|
      invariant fine <==> forall k :: 0 <= k < i ==> Fine(stationBms, rows[k])
    {
      if !Fine(stationBms, rows[i]) { fine := false; }
    }
  }

  /** Without repeated numbers, the collected rows are all the rows there are. */
  lemma EveryRowIsThere(parse: Parser, source: seq<RawRow>, national: seq<Station>)
    requires DistinctSource(parse, source) && Collected(parse, source, |source|, national)
    ensures forall s :: s in national <==> IsNational(parse, source, s)
  {
    forall s | IsNational(parse, source, s) ensures s in national {
      var i :| 0 <= i < |source| && parse(source[i]).Some? && parse(source[i]).value.station == s;
      assert s.nr in NrsOf(national);
      var k :| 0 <= k < |national| && national[k].nr == s.nr;
      assert IsNational(parse, source, national[k]);
      var j :| 0 <= j < |source| && parse(source[j]).Some? && parse(source[j]).value.station == national[k];
      assert i == j;
    }
  }

  lemma ListedAreMitte(parse: Parser, source: seq<RawRow>, national: seq<Station>, mitte: seq<Station>)
    requires forall s :: s in national <==> IsNational(parse, source, s)
    requires forall s :: s in mitte <==> s in national && s.region == MITTE
    ensures forall nr :: nr in NrsOf(mitte) <==> Listed(parse, source, nr)
  {
    forall nr ensures nr in NrsOf(mitte) <==> Listed(parse, source, nr) {
      if nr in NrsOf(mitte) {
        var k :| 0 <= k < |mitte| && mitte[k].nr == nr;
        assert mitte[k] in mitte;
      }
      if Listed(parse, source, nr) {
        var s :| IsNational(parse, source, s) && s.nr == nr && s.region == MITTE;
        assert s in mitte;
        var k :| 0 <= k < |mitte| && mitte[k] == s;
      }
    }
  }

  lemma Together(mitte: seq<Station>, retired: seq<Station>)
    requires DistinctNrs(mitte) && DistinctNrs(retired) && forall s :: s in retired ==> s.nr !in NrsOf(mitte)
    ensures DistinctNrs(mitte + retired)
  {
    var all := mitte + retired;
    forall i, j | 0 <= i < j < |all| ensures all[i].nr != all[j].nr {
      if i < |mitte| <= j {
        assert all[j] in retired && mitte[i].nr in NrsOf(mitte);
      }
    }
  }

  // ---- one result, and the same again ----------------------------------------------------------------------------------

  /** Rows strictly by number are determined by which rows they are. */
  lemma {:induction false} SortedIsUnique(a: seq<Station>, b: seq<Station>)
    requires Sorted(a) && Sorted(b) && forall s :: s in a <==> s in b
    ensures a == b
    decreases |a|
  {
    assert |b| == 0 || b[0] in b;
    if |a| > 0 {
      assert a[0] in b && |b| > 0 && b[0] in a;
      SmallestFirst(a, b[0]);
      SmallestFirst(b, a[0]);
      var i :| 0 <= i < |a| && a[i] == b[0];
      assert a[0] == b[0];
      TailElements(a, b);
      SortedIsUnique(a[1..], b[1..]);
    }
  }

  lemma SmallestFirst(a: seq<Station>, s: Station)
    requires Sorted(a) && s in a
    ensures a[0].nr <= s.nr && (a[0].nr == s.nr ==> a[0] == s)
  {
    var i :| 0 <= i < |a| && a[i] == s;
  }

  lemma TailElements(a: seq<Station>, b: seq<Station>)
    requires Sorted(a) && Sorted(b) && |a| > 0 && |b| > 0 && a[0] == b[0] && forall s :: s in a <==> s in b
    ensures Sorted(a[1..]) && Sorted(b[1..]) && forall s :: s in a[1..] <==> s in b[1..]
  {
    assert a == [a[0]] + a[1..] && b == [b[0]] + b[1..];
    NotInTail(a);
    NotInTail(b);
    forall s ensures s in a[1..] <==> s in b[1..] {
      assert s in a <==> s == a[0] || s in a[1..];
      assert s in b <==> s == b[0] || s in b[1..];
    }
  }

  lemma NotInTail(a: seq<Station>)
    requires Sorted(a) && |a| > 0
    ensures a[0] !in a[1..]
  {
    assert forall k :: 0 <= k < |a[1..]| ==> a[1..][k].nr == a[k + 1].nr > a[0].nr;
  }

  lemma OnlyOne(parse: Parser, source: seq<RawRow>, old_: map<int, Station>, a: Master, b: Master)
    requires Generated(parse, source, old_, a) && Generated(parse, source, old_, b)
    ensures a == b
  {
    SortedIsUnique(a.mitte, b.mitte);
    SortedIsUnique(a.national, b.national);
  }

  // ---- regenerating from its own output --------------------------------------------------------------------------------

  /** Reading the output back as the previous master. */
  function Again(g: Settings, m: Master): map<int, PrevRow> {
    ByNr(g, Reread(m.mitte))
  }

  lemma SortedIsDistinct(rows: seq<Station>)
    requires Sorted(rows)
    ensures DistinctNrs(rows)
  {
  }

  /** The fields a source row inherits are clean after the first generation. */
  lemma InheritsTheSame(g: Settings, nr: int, name: string, r: RawRow, previous: map<int, PrevRow>, after: map<int, PrevRow>)
    requires nr in after ==> nr in previous || after[nr].land == after[nr].ds100Old == after[nr].ds100 == after[nr].carrier == None
    requires nr in previous ==> nr in after && after[nr].ds100Old == None &&
                                after[nr].land == CleanText(previous[nr].land) &&
                                after[nr].ds100 == CleanText(Or(previous[nr].ds100Old, previous[nr].ds100)) &&
                                after[nr].carrier == CleanText(previous[nr].carrier)
    ensures FromSource(g, after, nr, name, r) == FromSource(g, previous, nr, name, r)
  {
    if nr in previous {
      CleanTextIsIdempotent(previous[nr].land);
      CleanTextIsIdempotent(Or(previous[nr].ds100Old, previous[nr].ds100));
      CleanTextIsIdempotent(previous[nr].carrier);
    }
  }

  /** A retired station, read back, retires as the same station. */
  lemma RetiresTheSame(g: Settings, nr: int, prev: PrevRow)
    requires VocabularySound(g.vocabulary)
    ensures Retired(g, nr, AsPrevious(Retired(g, nr, prev))) == Retired(g, nr, prev)
  {
    CleanTextIsIdempotent(prev.station);
    StandInIsClean(nr);
    CanonIsIdempotent(g.vocabulary, OrEmpty(prev.bm));
    CleanTextIsIdempotent(prev.street);
    CleanPlzIsIdempotent(prev.plz);
    CleanTextIsIdempotent(prev.town);
    CleanTextIsIdempotent(prev.land);
    CleanTextIsIdempotent(Or(prev.ds100Old, prev.ds100));
    CleanTextIsIdempotent(prev.carrier);
    ToIntIsIdempotent(g.read, OrCell(prev.katVst, prev.kategorie));
  }

  /** What a row of the output says of the previous master it came from. */
  lemma OutputRow(g: Settings, source: seq<RawRow>, previous: map<int, PrevRow>, s: Station)
    requires IsMitte(Parse(g, previous), source, Leftover(g, previous), s)
    ensures s.nr in previous ==>
              s.land == CleanText(previous[s.nr].land) && s.carrier == CleanText(previous[s.nr].carrier) &&
              s.ds100 == CleanText(Or(previous[s.nr].ds100Old, previous[s.nr].ds100))
    ensures s.nr !in previous ==> s.land == s.ds100 == s.carrier == None
  {
  }

  /** Every number of the previous master is in the output. */
  lemma NoNumberIsLost(g: Settings, source: seq<RawRow>, previous: map<int, PrevRow>, m: Master, nr: int)
    requires Generated(Parse(g, previous), source, Leftover(g, previous), m) && nr in previous
    ensures exists s :: s in m.mitte && s.nr == nr
  {
    var parse, old_ := Parse(g, previous), Leftover(g, previous);
    if Listed(parse, source, nr) {
      var s :| IsNational(parse, source, s) && s.nr == nr && s.region == MITTE;
      assert IsMitte(parse, source, old_, s);
    } else {
      assert IsRetired(parse, source, old_, old_[nr]);
    }
  }

  /** The output under its numbers, and where each row came from. */
  lemma AgainByNr(g: Settings, source: seq<RawRow>, previous: map<int, PrevRow>, m: Master, nr: int)
    requires Generated(Parse(g, previous), source, Leftover(g, previous), m)
    ensures nr in previous ==> nr in Again(g, m)
    ensures nr in Again(g, m) ==> exists s :: s in m.mitte && s.nr == nr && Again(g, m)[nr] == AsPrevious(s)
  {
    SortedIsDistinct(m.mitte);
    RereadByNr(g, m.mitte);
    if nr in previous {
      NoNumberIsLost(g, source, previous, m, nr);
      var s :| s in m.mitte && s.nr == nr;
      var k :| 0 <= k < |m.mitte| && m.mitte[k] == s;
    }
    if nr in Again(g, m) {
      var k :| 0 <= k < |m.mitte| && m.mitte[k].nr == nr;
      assert m.mitte[k] in m.mitte;
    }
  }

  lemma ParsesTheSame(g: Settings, source: seq<RawRow>, previous: map<int, PrevRow>, m: Master, r: RawRow)
    requires Generated(Parse(g, previous), source, Leftover(g, previous), m)
    ensures Parse(g, Again(g, m))(r) == Parse(g, previous)(r)
  {
    var nr, name := ToInt(g.read, r.nr), CleanText(r.name);
    if nr.Some? && name.Some? {
      AgainByNr(g, source, previous, m, nr.value);
      if nr.value in Again(g, m) {
        var s :| s in m.mitte && s.nr == nr.value && Again(g, m)[nr.value] == AsPrevious(s);
        OutputRow(g, source, previous, s);
      }
      InheritsTheSame(g, nr.value, name.value, r, previous, Again(g, m));
    }
  }

  lemma SameParserSameRows(a: Parser, b: Parser, source: seq<RawRow>)
    requires forall i :: 0 <= i < |source| ==> a(source[i]) == b(source[i])
    ensures forall s :: IsNational(a, source, s) <==> IsNational(b, source, s)
    ensures forall nr :: Listed(a, source, nr) <==> Listed(b, source, nr)
    ensures DistinctSource(a, source) <==> DistinctSource(b, source)
    ensures SomeUnmapped(a, source) <==> SomeUnmapped(b, source)
  {
    forall s ensures IsNational(a, source, s) <==> IsNational(b, source, s) {
      if IsNational(a, source, s) {
        var i :| 0 <= i < |source| && a(source[i]).Some? && a(source[i]).value.station == s;
        assert b(source[i]).Some? && b(source[i]).value.station == s;
      }
      if IsNational(b, source, s) {
        var i :| 0 <= i < |source| && b(source[i]).Some? && b(source[i]).value.station == s;
        assert a(source[i]).Some? && a(source[i]).value.station == s;
      }
    }
    if SomeUnmapped(a, source) {
      var i :| 0 <= i < |source| && a(source[i]).Some? && a(source[i]).value.unmapped;
      assert b(source[i]).Some? && b(source[i]).value.unmapped;
    }
    if SomeUnmapped(b, source) {
      var i :| 0 <= i < |source| && b(source[i]).Some? && b(source[i]).value.unmapped;
      assert a(source[i]).Some? && a(source[i]).value.unmapped;
    }
  }

  lemma LeavesTheSame(g: Settings, source: seq<RawRow>, previous: map<int, PrevRow>, m: Master, nr: int)
    requires VocabularySound(g.vocabulary) && Generated(Parse(g, previous), source, Leftover(g, previous), m)
    requires !Listed(Parse(g, previous), source, nr)
    ensures nr in Again(g, m) <==> nr in previous
    ensures nr in previous ==> Leftover(g, Again(g, m))[nr] == Leftover(g, previous)[nr]
  {
    AgainByNr(g, source, previous, m, nr);
    if nr in Again(g, m) {
      var s :| s in m.mitte && s.nr == nr && Again(g, m)[nr] == AsPrevious(s);
      assert IsMitte(Parse(g, previous), source, Leftover(g, previous), s);
      assert IsRetired(Parse(g, previous), source, Leftover(g, previous), s);
      RetiresTheSame(g, nr, previous[nr]);
    }
  }

  /** Regenerating from its own output, with the same source and coordinates, is a fixpoint: the same rows in the same order. */
  lemma RegenerationIsFixpoint(g: Settings, source: seq<RawRow>, previous: map<int, PrevRow>, m: Master)
    requires VocabularySound(g.vocabulary) && Generated(Parse(g, previous), source, Leftover(g, previous), m)
    requires NoProblems(Parse(g, previous), source, g.stationBms, m)
    ensures Generated(Parse(g, Again(g, m)), source, Leftover(g, Again(g, m)), m)
    ensures NoProblems(Parse(g, Again(g, m)), source, g.stationBms, m)
  {
    var first, second := Parse(g, previous), Parse(g, Again(g, m));
    forall i | 0 <= i < |source| ensures second(source[i]) == first(source[i]) {
      ParsesTheSame(g, source, previous, m, source[i]);
    }
    SameParserSameRows(first, second, source);
    forall s ensures IsMitte(second, source, Leftover(g, Again(g, m)), s) <==> IsMitte(first, source, Leftover(g, previous), s) {
      if !Listed(first, source, s.nr) { LeavesTheSame(g, source, previous, m, s.nr); }
    }
  }

  /** The generator run twice, the second time on its own output. */
  method GenerateTwice(g: Settings, source: seq<RawRow>, rows: seq<PrevRow>) returns (first: Option<Master>, second: Option<Master>)
    requires VocabularySound(g.vocabulary)
    ensures first.Some? ==> second == first
    ensures first.Some? ==> Sorted(first.value.mitte) && forall s :: s in first.value.mitte ==> (s.lat.Some? <==> s.lng.Some?)
    ensures first.Some? ==> forall nr :: nr in ByNr(g, rows) ==> exists s :: s in first.value.mitte && s.nr == nr
  {
    var previous := LoadPreviousByNr(g, rows);
    first := Build(Parse(g, previous), source, Leftover(g, previous), g.stationBms);
    second := first;
    if first.Some? {
      var again := LoadPreviousByNr(g, Reread(first.value.mitte));
      second := Build(Parse(g, again), source, Leftover(g, again), g.stationBms);
      RegenerationIsFixpoint(g, source, previous, first.value);
      forall nr | nr in previous ensures exists s :: s in first.value.mitte && s.nr == nr {
        NoNumberIsLost(g, source, previous, first.value, nr);
      }
    }
  }
}
