/**
 * The incremental Server-Sent-Events parser (shared/sse.ts): framing that does not depend on where the stream is cut, and
 * the round trip with the frames the gateway writes (server/realtime/gateway.ts).
 */
module Sse {
  import opened Wrappers
  import opened Sequences
  import Text

  datatype Frame = Frame(event: string, data: string, id: Option<string>)

  const COMMENT := Frame("comment", "", None)

  // ---- line ends and blank lines ---------------------------------------------------------------------------------------

  /** Length of the line end (LF or CRLF) at position `i`; 0 when there is none. */
  function EolAt(s: string, i: nat): (n: nat)
    ensures n > 0 ==> i + n <= |s|
  {
    if i < |s| && s[i] == '\n' then 1
    else if i + 1 < |s| && s[i] == '\r' && s[i + 1] == '\n' then 2
    else 0
  }

  /** Length of the frame separator (two line ends in a row) at position `i`; 0 when there is none. */
  function SepAt(s: string, i: nat): (n: nat)
    ensures n > 0 ==> n >= 2 && i + n <= |s|
  {
    var first := EolAt(s, i);
    if first == 0 || EolAt(s, i + first) == 0 then 0 else first + EolAt(s, i + first)
  }

  /** Position of the leftmost separator at or after `from`. */
  function FindSep(s: string, from: nat): (r: Option<nat>)
    ensures r.Some? ==> from <= r.value < |s| && SepAt(s, r.value) > 0
    decreases |s| - from
  {
    if from >= |s| then None
    else if SepAt(s, from) > 0 then Some(from)
    else FindSep(s, from + 1)
  }

  function FindEol(s: string, from: nat): (r: Option<nat>)
    ensures r.Some? ==> from <= r.value < |s| && EolAt(s, r.value) > 0
    decreases |s| - from
  {
    if from >= |s| then None
    else if EolAt(s, from) > 0 then Some(from)
    else FindEol(s, from + 1)
  }

  /** The lines of a raw frame. */
  function Lines(s: string): seq<string>
    decreases |s|
  {
    var i := FindEol(s, 0);
    if i.None? then [s] else [s[..i.value]] + Lines(s[i.value + EolAt(s, i.value)..])
  }

  // ---- one frame -------------------------------------------------------------------------------------------------------

  function Field(line: string): string {
    var c := Text.IndexOf(line, ':');
    if c.Some? && c.value <= |line| then line[..c.value] else line
  }

  /** The text after the first colon, less one leading blank. */
  function Value(line: string): string {
    var c := Text.IndexOf(line, ':');
    if c.None? || c.value >= |line| then ""
    else
      var v := line[c.value + 1..];
      if |v| > 0 && v[0] == ' ' then v[1..] else v
  }

  predicate Ignored(line: string) {
    |line| == 0 || line[0] == ':'
  }

  /** What the lines of a frame have set so far. */
  datatype Fields = Fields(event: string, data: seq<string>, id: Option<string>)

  function Absorb(f: Fields, line: string): Fields {
    if Ignored(line) then f
    else if Field(line) == "event" then f.(event := Value(line))
    else if Field(line) == "data" then f.(data := f.data + [Value(line)])
    else if Field(line) == "id" then f.(id := Some(Value(line)))
    else f
  }

  function AbsorbAll(lines: seq<string>): Fields {
    if |lines| == 0 then Fields("message", [], None)
    else Absorb(AbsorbAll(lines[..|lines| - 1]), lines[|lines| - 1])
  }

  /** The frame a raw block stands for: a message, an observable comment, or nothing. */
  function FrameOf(raw: string): seq<Frame> {
    var lines := Lines(raw);
    var f := AbsorbAll(lines);
    if |f.data| > 0 || f.event != "message" then
      [Frame(f.event, Join(f.data, "\n"), if f.id == Some("") then None else f.id)]
    else if forall i :: 0 <= i < |lines| ==> Ignored(lines[i]) then [COMMENT]
    else []
  }

  /** The raw blocks a buffer holds complete, and the tail the parser keeps. */
  function Blocks(buf: string): (seq<string>, string)
    decreases |buf|
  {
    var i := FindSep(buf, 0);
    if i.None? then ([], buf)
    else
      var rest := Blocks(buf[i.value + SepAt(buf, i.value)..]);
      ([buf[..i.value]] + rest.0, rest.1)
  }

  function FlatMap<A, B>(f: A -> seq<B>, xs: seq<A>): seq<B>
    decreases |xs|
  {
    if |xs| == 0 then [] else f(xs[0]) + FlatMap(f, xs[1..])
  }

  /** Everything the parser makes of a buffer: the frames of its blocks, and the tail. */
  function Parse(buf: string): (seq<Frame>, string) {
    (FlatMap(FrameOf, Blocks(buf).0), Blocks(buf).1)
  }

  /** The frames so far and the frames still in the buffer are those of everything that arrived. */
  ghost predicate Ahead(whole: string, frames: seq<Frame>, rest: string) {
    Parse(whole).0 == frames + Parse(rest).0 && Parse(whole).1 == Parse(rest).1
  }

  // ---- the class -------------------------------------------------------------------------------------------------------

  class SseParser {
    var buf: string

    constructor ()
      ensures buf == ""
    {
      buf := "";
    }

    method Feed(chunk: string) returns (frames: seq<Frame>)
      modifies this
      ensures (frames, buf) == Parse(old(buf) + chunk)
    {
      buf := buf + chunk;
      frames := [];
      ghost var whole := buf;
      var i := FindSep(buf, 0);
      while i.Some?
        invariant i == FindSep(buf, 0)
        invariant Ahead(whole, frames, buf)
        decreases |buf|
      {
        frames := TakeFrame(i.value, frames, whole);
        i := FindSep(buf, 0);
      }
      NothingLeft(whole, frames, buf);
    }

    /** The body of the loop: the block in front of the first separator is cut off and read. */
    method TakeFrame(i: nat, frames: seq<Frame>, ghost whole: string) returns (frames': seq<Frame>)
      requires FindSep(buf, 0) == Some(i) && Ahead(whole, frames, buf)
      modifies this
      ensures |buf| < |old(buf)| && Ahead(whole, frames', buf)
    {
      var raw, n := buf[..i], SepAt(buf, i);
      FeedStep(whole, frames, buf, i, n);
      buf := buf[i + n..];
      var f := ReadFrame(raw);
      frames' := frames + f;
    }
  }

  method ReadFrame(raw: string) returns (frames: seq<Frame>)
    ensures frames == FrameOf(raw)
  {
    var lines := Lines(raw);
    var event, data, id := "message", [], None;
    for n := 0 to |lines|
      invariant Fields(event, data, id) == AbsorbAll(lines[..n])
    {
      var line := lines[n];
      assert lines[..n + 1][..n] == lines[..n];
      if Ignored(line) { continue; }
      var field, value := Field(line), Value(line);
      if field == "event" { event := value; }
      else if field == "data" { data := data + [value]; }
      else if field == "id" { id := Some(value); }
    }
    assert lines[..|lines|] == lines;
    if |data| > 0 || event != "message" {
      frames := [Frame(event, Join(data, "\n"), if id == Some("") then None else id)];
    } else if forall l :: 0 <= l < |lines| ==> Ignored(lines[l]) {
      frames := [COMMENT];
    } else {
      frames := [];
    }
  }

  // ---- chunk boundaries do not matter ----------------------------------------------------------------------------------

  lemma {:induction false} FindSepIsLeftmost(s: string, from: nat, i: nat)
    requires from <= i && (FindSep(s, from).Some? ==> i < FindSep(s, from).value)
    ensures SepAt(s, i) == 0
    decreases |s| - from
  {
    if from < |s| && from < i { FindSepIsLeftmost(s, from + 1, i); }
  }

  lemma {:induction false} LeftmostIsFound(s: string, from: nat, i: nat)
    requires from <= i < |s| && SepAt(s, i) > 0
    requires forall k :: from <= k < i ==> SepAt(s, k) == 0
    ensures FindSep(s, from) == Some(i)
    decreases i - from
  {
    if from < i { LeftmostIsFound(s, from + 1, i); }
  }

  /**
   * The leftmost separator stays the leftmost one whatever arrives behind it: an earlier one that needs characters still to
   * come would overlap the one already found, and the line ends of the two cannot agree.
   */
  lemma LeftmostSepIsStable(s: string, more: string)
    requires FindSep(s, 0).Some?
    ensures FindSep(s + more, 0) == FindSep(s, 0)
    ensures SepAt(s + more, FindSep(s, 0).value) == SepAt(s, FindSep(s, 0).value)
  {
    var found := FindSep(s, 0).value;
    forall i | 0 <= i < found ensures SepAt(s + more, i) == 0 { FindSepIsLeftmost(s, 0, i); }
    LeftmostIsFound(s + more, 0, found);
  }

  lemma Assoc<T>(x: seq<T>, y: seq<T>, z: seq<T>)
    ensures x + (y + z) == (x + y) + z
  {
  }

  lemma FirstBlock(buf: string, i: nat, n: nat)
    requires FindSep(buf, 0) == Some(i) && SepAt(buf, i) == n
    ensures i + n <= |buf|
    ensures Blocks(buf).0 == [buf[..i]] + Blocks(buf[i + n..]).0 && Blocks(buf).1 == Blocks(buf[i + n..]).1
  {
  }

  lemma FirstBlockBehind(buf: string, more: string, i: nat, n: nat)
    requires FindSep(buf, 0) == Some(i) && SepAt(buf, i) == n
    ensures i + n <= |buf|
    ensures Blocks(buf + more).0 == [buf[..i]] + Blocks(buf[i + n..] + more).0
    ensures Blocks(buf + more).1 == Blocks(buf[i + n..] + more).1
  {
    LeftmostSepIsStable(buf, more);
    FirstBlock(buf + more, i, n);
    assert (buf + more)[i + n..] == buf[i + n..] + more;
    assert (buf + more)[..i] == buf[..i];
  }

  /** The blocks of a buffer and what follows it: the buffer's own, then those of its tail and what follows. */
  ghost predicate Splits(buf: string, more: string) {
    && Blocks(buf + more).0 == Blocks(buf).0 + Blocks(Blocks(buf).1 + more).0
    && Blocks(buf + more).1 == Blocks(Blocks(buf).1 + more).1
  }

  /** What holds of the rest holds with its first block in front. */
  lemma BlockInFront(buf: string, more: string, i: nat, n: nat)
    requires FindSep(buf, 0) == Some(i) && SepAt(buf, i) == n && i + n <= |buf| && Splits(buf[i + n..], more)
    ensures Splits(buf, more)
  {
    var tail := buf[i + n..];
    FirstBlock(buf, i, n);
    FirstBlockBehind(buf, more, i, n);
    Assoc([buf[..i]], Blocks(tail).0, Blocks(Blocks(tail).1 + more).0);
  }

  lemma AllTail(buf: string, more: string)
    requires FindSep(buf, 0).None?
    ensures Splits(buf, more)
  {
    NoBlock(buf);
    assert [] + Blocks(buf + more).0 == Blocks(buf + more).0;
  }

  lemma {:induction false} BlocksInTwo(buf: string, more: string)
    ensures Splits(buf, more)
    decreases |buf|
  {
    var i := FindSep(buf, 0);
    if i.Some? {
      BlocksInTwo(buf[i.value + SepAt(buf, i.value)..], more);
      BlockInFront(buf, more, i.value, SepAt(buf, i.value));
    } else {
      AllTail(buf, more);
    }
  }

  lemma NoBlock(buf: string)
    requires FindSep(buf, 0).None?
    ensures Blocks(buf) == ([], buf)
  {
  }

  lemma FlatMapOne<A, B>(f: A -> seq<B>, x: A)
    ensures FlatMap(f, [x]) == f(x)
  {
  }

  lemma {:induction false} FlatMapBoth<A, B>(f: A -> seq<B>, a: seq<A>, b: seq<A>)
    ensures FlatMap(f, a + b) == FlatMap(f, a) + FlatMap(f, b)
    decreases |a|
  {
    if |a| == 0 {
      assert a + b == b;
    } else {
      assert (a + b)[1..] == a[1..] + b;
      FlatMapBoth(f, a[1..], b);
      Assoc(f(a[0]), FlatMap(f, a[1..]), FlatMap(f, b));
    }
  }

  /** One turn of the loop of `feed`: the block in front becomes a frame behind those already read. */
  lemma FeedStep(whole: string, frames: seq<Frame>, buf: string, i: nat, n: nat)
    requires FindSep(buf, 0) == Some(i) && SepAt(buf, i) == n && Ahead(whole, frames, buf)
    ensures i + n <= |buf|
    ensures Ahead(whole, frames + FrameOf(buf[..i]), buf[i + n..])
  {
    FirstBlock(buf, i, n);
    FlatMapBoth(FrameOf, [buf[..i]], Blocks(buf[i + n..]).0);
    FlatMapOne(FrameOf, buf[..i]);
    Assoc(frames, FrameOf(buf[..i]), Parse(buf[i + n..]).0);
  }

  lemma NothingLeft(whole: string, frames: seq<Frame>, buf: string)
    requires FindSep(buf, 0).None? && Ahead(whole, frames, buf)
    ensures Parse(whole) == (frames, buf)
  {
    NoBlock(buf);
    assert FlatMap(FrameOf, Blocks(buf).0) == [];
    assert frames + [] == frames;
  }

  /** Parsing what has arrived and then the rest is parsing all of it. */
  lemma ParseInTwo(buf: string, more: string)
    ensures Parse(buf + more).0 == Parse(buf).0 + Parse(Parse(buf).1 + more).0
    ensures Parse(buf + more).1 == Parse(Parse(buf).1 + more).1
  {
    BlocksInTwo(buf, more);
    FlatMapBoth(FrameOf, Blocks(buf).0, Blocks(Blocks(buf).1 + more).0);
  }

  /** Feeding the chunks one after the other, from a given buffer. */
  function FeedAll(buf: string, chunks: seq<string>): (seq<Frame>, string)
    decreases |chunks|
  {
    if |chunks| == 0 then ([], buf)
    else
      var first := Parse(buf + chunks[0]);
      var rest := FeedAll(first.1, chunks[1..]);
      (first.0 + rest.0, rest.1)
  }

  function Concat(chunks: seq<string>): string
    decreases |chunks|
  {
    if |chunks| == 0 then "" else chunks[0] + Concat(chunks[1..])
  }

  /** The buffer the parser keeps never holds a whole frame. */
  lemma {:induction false} TailHoldsNoFrame(buf: string)
    ensures FindSep(Parse(buf).1, 0).None?
    decreases |buf|
  {
    var i := FindSep(buf, 0);
    if i.Some? { TailHoldsNoFrame(buf[i.value + SepAt(buf, i.value)..]); }
  }

  lemma {:induction false} ChunksFromTail(buf: string, chunks: seq<string>)
    requires FindSep(buf, 0).None?
    ensures FeedAll(buf, chunks) == Parse(buf + Concat(chunks))
    decreases |chunks|
  {
    if |chunks| == 0 {
      assert buf + "" == buf;
    } else {
      TailHoldsNoFrame(buf + chunks[0]);
      ChunksFromTail(Parse(buf + chunks[0]).1, chunks[1..]);
      ChunkInFront(buf, chunks);
    }
  }

  lemma ChunkInFront(buf: string, chunks: seq<string>)
    requires |chunks| > 0
    requires FeedAll(Parse(buf + chunks[0]).1, chunks[1..]) == Parse(Parse(buf + chunks[0]).1 + Concat(chunks[1..]))
    ensures FeedAll(buf, chunks) == Parse(buf + Concat(chunks))
  {
    ParseInTwo(buf + chunks[0], Concat(chunks[1..]));
    assert buf + Concat(chunks) == (buf + chunks[0]) + Concat(chunks[1..]);
  }

  /** However a stream is cut into chunks, the frames and the buffer left over are those of the whole. */
  lemma ChunkingIsIrrelevant(chunks: seq<string>)
    ensures FeedAll("", chunks) == Parse(Concat(chunks))
  {
    ChunksFromTail("", chunks);
    assert "" + Concat(chunks) == Concat(chunks);
  }

  // ---- the gateway's frames come back ----------------------------------------------------------------------------------

  /** What the gateway writes to a stream: a frame, a heartbeat comment, or the retry hint. */
  datatype Message = Send(frame: Frame) | Heartbeat | Retry

  predicate Unbroken(s: string) {
    '\n' !in s && '\r' !in s
  }

  /** Event names, ids and JSON text contain no raw line break, and an id is left out when it is empty. */
  predicate Writable(m: Message) {
    m.Send? ==> Unbroken(m.frame.event) && Unbroken(m.frame.data) &&
                (m.frame.id.Some? ==> Unbroken(m.frame.id.value) && m.frame.id.value != "")
  }

  function WrittenLines(m: Message): seq<string> {
    match m
    case Send(f) => (if f.id.Some? then ["id: " + f.id.value] else []) + ["event: " + f.event, "data: " + f.data]
    case Heartbeat => [": hb"]
    case Retry => ["retry: 3000"]
  }

  function Terminated(lines: seq<string>): string {
    if |lines| == 0 then "" else Terminated(lines[..|lines| - 1]) + lines[|lines| - 1] + "\n"
  }

  function Write(m: Message): string {
    Terminated(WrittenLines(m)) + "\n"
  }

  function Wire(ms: seq<Message>): string
    decreases |ms|
  {
    if |ms| == 0 then "" else Write(ms[0]) + Wire(ms[1..])
  }

  /** What the client should see of a message. */
  function Received(m: Message): seq<Frame> {
    match m
    case Send(f) => [f]
    case Heartbeat => [COMMENT]
    case Retry => []
  }

  function ReceivedAll(ms: seq<Message>): seq<Frame>
    decreases |ms|
  {
    if |ms| == 0 then [] else Received(ms[0]) + ReceivedAll(ms[1..])
  }

  ghost predicate PlainLines(lines: seq<string>) {
    forall i :: 0 <= i < |lines| ==> Unbroken(lines[i]) && |lines[i]| > 0
  }

  lemma {:induction false} LineEndsAtBreak(line: string, rest: string, from: nat)
    requires Unbroken(line) && from <= |line|
    ensures FindEol(line + "\n" + rest, from) == Some(|line|)
    decreases |line| - from
  {
    if from < |line| {
      assert line[from] in line;
      LineEndsAtBreak(line, rest, from + 1);
    }
  }

  lemma {:induction false} NoBreakNoEnd(line: string, from: nat)
    requires Unbroken(line)
    ensures FindEol(line, from).None?
    decreases |line| - from
  {
    if from < |line| {
      assert line[from] in line;
      NoBreakNoEnd(line, from + 1);
    }
  }

  lemma {:induction false} LinesOfJoin(lines: seq<string>)
    requires |lines| > 0 && PlainLines(lines)
    ensures Lines(Join(lines, "\n")) == lines
    decreases |lines|
  {
    if |lines| == 1 {
      NoBreakNoEnd(lines[0], 0);
    } else {
      var rest := Join(lines[1..], "\n");
      LineEndsAtBreak(lines[0], rest, 0);
      var s := lines[0] + "\n" + rest;
      assert s[|lines[0]| + 1..] == rest && s[..|lines[0]|] == lines[0];
      LinesOfJoin(lines[1..]);
    }
  }

  lemma {:induction false} TerminatedIsJoined(lines: seq<string>)
    requires |lines| > 0
    ensures Terminated(lines) == Join(lines, "\n") + "\n"
    decreases |lines|
  {
    if |lines| > 1 {
      TerminatedIsJoined(lines[..|lines| - 1]);
      JoinLast(lines, "\n");
    }
  }

  /** Inside joined non-empty lines no line end touches another or ends the text. */
  lemma {:induction false} LineEndsStandAlone(lines: seq<string>)
    requires |lines| > 0 && PlainLines(lines)
    ensures var j := Join(lines, "\n");
            && |j| > 0 && j[|j| - 1] != '\n'
            && forall i :: 0 <= i < |j| ==> j[i] != '\r' && (j[i] == '\n' ==> i + 1 < |j| && j[i + 1] != '\n')
    decreases |lines|
  {
    var last := lines[|lines| - 1];
    assert forall c :: c in last ==> c != '\r' && c != '\n';
    assert forall i :: 0 <= i < |last| ==> last[i] in last;
    if |lines| > 1 {
      LineEndsStandAlone(lines[..|lines| - 1]);
      JoinLast(lines, "\n");
    }
  }

  /** So the first separator behind a block is the one that ends it. */
  lemma BlockEndsAtItsSeparator(lines: seq<string>, rest: string)
    requires |lines| > 0 && PlainLines(lines)
    ensures var s := Join(lines, "\n") + "\n\n" + rest;
            FindSep(s, 0) == Some(|Join(lines, "\n")|) && SepAt(s, |Join(lines, "\n")|) == 2
  {
    LineEndsStandAlone(lines);
    var j := Join(lines, "\n");
    var s := j + "\n\n" + rest;
    forall i | 0 <= i < |j| ensures SepAt(s, i) == 0 { assert s[i] == j[i]; }
    LeftmostIsFound(s, 0, |j|);
  }

  lemma FieldAndValue(name: string, value: string)
    requires name in ["id", "event", "data", "retry"]
    ensures Field(name + ": " + value) == name && Value(name + ": " + value) == value
  {
    var line := name + ": " + value;
    Text.FirstColon(name, " " + value);
    assert name + ":" + (" " + value) == line;
    assert line[|name| + 1..] == " " + value;
  }

  lemma AbsorbNext(lines: seq<string>, name: string, value: string)
    requires name in ["id", "event", "data", "retry"]
    ensures var f := AbsorbAll(lines);
            AbsorbAll(lines + [name + ": " + value]) ==
            if name == "event" then f.(event := value)
            else if name == "data" then f.(data := f.data + [value])
            else if name == "id" then f.(id := Some(value))
            else f
  {
    var line := name + ": " + value;
    FieldAndValue(name, value);
    assert (lines + [line])[..|lines|] == lines;
    assert line[0] == name[0];
  }

  lemma AbsorbedHead(id: Option<string>)
    ensures AbsorbAll(if id.Some? then ["id: " + id.value] else []) == Fields("message", [], id)
  {
    if id.Some? {
      AbsorbNext([], "id", id.value);
      assert "id" + ": " == "id: " && [] + ["id: " + id.value] == ["id: " + id.value];
    }
  }

  lemma AbsorbedBody(head: seq<string>, event: string, data: string)
    ensures var f := AbsorbAll(head);
            AbsorbAll(head + ["event: " + event, "data: " + data]) == Fields(event, f.data + [data], f.id)
  {
    AbsorbNext(head, "event", event);
    AbsorbNext(head + ["event" + ": " + event], "data", data);
    assert "event" + ": " == "event: " && "data" + ": " == "data: ";
    assert head + ["event: " + event, "data: " + data] == head + ["event: " + event] + ["data: " + data];
  }

  lemma AbsorbedMessage(m: Message)
    ensures var f := AbsorbAll(WrittenLines(m));
            match m
            case Send(frame) => f == Fields(frame.event, [frame.data], frame.id)
            case _ => f == Fields("message", [], None)
  {
    match m
    case Send(frame) =>
      AbsorbedHead(frame.id);
      AbsorbedBody(if frame.id.Some? then ["id: " + frame.id.value] else [], frame.event, frame.data);
    case Heartbeat =>
      assert [": hb"][..0] == [];
    case Retry =>
      AbsorbNext([], "retry", "3000");
      assert "retry" + ": " + "3000" == "retry: 3000" && [] + ["retry: 3000"] == ["retry: 3000"];
  }

  lemma WrittenLinesArePlain(m: Message)
    requires Writable(m)
    ensures PlainLines(WrittenLines(m)) && |WrittenLines(m)| > 0
  {
  }

  lemma WrittenFrameIsRead(m: Message)
    requires Writable(m)
    ensures PlainLines(WrittenLines(m)) && |WrittenLines(m)| > 0
    ensures FrameOf(Join(WrittenLines(m), "\n")) == Received(m)
  {
    WrittenLinesArePlain(m);
    LinesOfJoin(WrittenLines(m));
    AbsorbedMessage(m);
  }

  lemma BlockOfMessage(lines: seq<string>, rest: string)
    requires |lines| > 0 && PlainLines(lines)
    ensures Blocks(Terminated(lines) + "\n" + rest) == ([Join(lines, "\n")] + Blocks(rest).0, Blocks(rest).1)
  {
    TerminatedIsJoined(lines);
    BlockEndsAtItsSeparator(lines, rest);
    var s := Join(lines, "\n") + "\n\n" + rest;
    assert Terminated(lines) + "\n" + rest == s;
    assert s[|Join(lines, "\n")| + 2..] == rest && s[..|Join(lines, "\n")|] == Join(lines, "\n");
  }

  lemma MessageThenRest(m: Message, rest: string)
    requires Writable(m)
    ensures Parse(Write(m) + rest).0 == Received(m) + Parse(rest).0 && Parse(Write(m) + rest).1 == Parse(rest).1
  {
    var lines := WrittenLines(m);
    WrittenFrameIsRead(m);
    BlockOfMessage(lines, rest);
    FlatMapBoth(FrameOf, [Join(lines, "\n")], Blocks(rest).0);
    FlatMapOne(FrameOf, Join(lines, "\n"));
  }

  lemma {:induction false} WireIsRead(ms: seq<Message>)
    requires forall i :: 0 <= i < |ms| ==> Writable(ms[i])
    ensures Parse(Wire(ms)) == (ReceivedAll(ms), "")
    decreases |ms|
  {
    if |ms| > 0 {
      MessageThenRest(ms[0], Wire(ms[1..]));
      WireIsRead(ms[1..]);
    }
  }

  /**
   * End to end: whatever the gateway writes and however the network cuts it up, the client reads exactly the frames that
   * were sent, in order, and keeps nothing back.
   */
  lemma StreamRoundTrip(ms: seq<Message>, chunks: seq<string>)
    requires forall i :: 0 <= i < |ms| ==> Writable(ms[i])
    requires Concat(chunks) == Wire(ms)
    ensures FeedAll("", chunks) == (ReceivedAll(ms), "")
  {
    ChunkingIsIrrelevant(chunks);
    WireIsRead(ms);
  }
}
