/**
 The runner's event stream: the incremental decoder of the HTTP adapter and
 the framing written by the turns controller.
 */
module EventStream {
  import opened Prelude
  import opened Text

  // ---- Lines ---------------------------------------------------------------

  /** The position of the first line feed, or the length of the text. */
  function NewlineAt(text: string): (i: nat)
    ensures i <= |text|
    ensures i < |text| ==> text[i] == '\n'
    ensures forall j :: 0 <= j < i ==> text[j] != '\n'
  {
    if text == "" || text[0] == '\n' then 0 else 1 + NewlineAt(text[1..])
  }

  /** The complete lines of a text and the unfinished rest. */
  function Split(text: string): (seq<string>, string) {
    var i := NewlineAt(text);
    if i == |text| then ([], text)
    else
      var (lines, rest) := Split(text[i + 1..]);
      ([text[..i]] + lines, rest)
  }

  // ---- The decoder's state -------------------------------------------------

  /** `out` are the events handed on; `failed` once a payload did not parse. */
  datatype State<T> = State(event: string, data: seq<string>, out: seq<T>, failed: bool)

  function Start<T>(): State<T> {
    State("message", [], [], false)
  }

  function Flush<T>(parse: string -> Option<T>, st: State<T>): State<T> {
    if st.data == [] then st.(event := "message")
    else
      var payload := Trim(Join(st.data, "\n"));
      if payload == "" || st.event == "keepalive" then st.(event := "message", data := [])
      else
        match parse(payload)
        case None => st.(data := [], failed := true)
        case Some(v) => st.(event := "message", data := [], out := st.out + [v])
  }

  function StripReturn(line: string): string {
    if line != "" && line[|line| - 1] == '\r' then line[..|line| - 1] else line
  }

  /** `text.trim() || 'message'`. */
  function EventName(text: string): string {
    if Trim(text) == "" then "message" else Trim(text)
  }

  function Feed<T>(parse: string -> Option<T>, st: State<T>, rawLine: string): State<T> {
    var line := StripReturn(rawLine);
    if st.failed then st
    else if line == "" then Flush(parse, st)
    else if StartsWith(line, "event:") then st.(event := EventName(line[6..]))
    else if StartsWith(line, "data:") then st.(data := st.data + [TrimStart(line[5..])])
    else st
  }

  function FeedAll<T>(parse: string -> Option<T>, st: State<T>, lines: seq<string>): State<T>
    decreases |lines|
  {
    if lines == [] then st else FeedAll(parse, Feed(parse, st, lines[0]), lines[1..])
  }

  /** At the end of the stream an event whose data is complete is still handed on. */
  function Finish<T>(parse: string -> Option<T>, st: State<T>): State<T> {
    if st.failed || st.data == [] then st else Flush(parse, st)
  }

  /** What the decoder makes of the whole text. */
  function Decode<T>(parse: string -> Option<T>, text: string): State<T> {
    Finish(parse, FeedAll(parse, Start(), Split(text).0))
  }

  // ---- Cutting the stream anywhere -----------------------------------------

  lemma {:induction false} SplitConcat(a: string, b: string)
    ensures var (la, ra) := Split(a);
      var (lb, rb) := Split(ra + b);
      Split(a + b) == (la + lb, rb)
    decreases |a|
  {
    var i := NewlineAt(a);
    if i < |a| {
      NewlineStays(a, b);
      assert (a + b)[i + 1..] == a[i + 1..] + b;
      assert (a + b)[..i] == a[..i];
      SplitConcat(a[i + 1..], b);
      var (la, ra) := Split(a[i + 1..]);
      var (lb, rb) := Split(ra + b);
      assert [a[..i]] + la + lb == [a[..i]] + (la + lb);
    } else {
      assert [] + Split(a + b).0 == Split(a + b).0;
    }
  }

  lemma NewlineStays(a: string, b: string)
    requires NewlineAt(a) < |a|
    ensures NewlineAt(a + b) == NewlineAt(a)
  {
    var i := NewlineAt(a);
    assert (a + b)[i] == '\n';
    assert forall j :: 0 <= j < i ==> (a + b)[j] == a[j];
  }

  lemma {:induction false} FeedAllConcat<T>(parse: string -> Option<T>, st: State<T>, a: seq<string>, b: seq<string>)
    ensures FeedAll(parse, st, a + b) == FeedAll(parse, FeedAll(parse, st, a), b)
    decreases |a|
  {
    if a == [] {
      assert a + b == b;
    } else {
      FeedAllConcat(parse, Feed(parse, st, a[0]), a[1..], b);
      assert (a + b)[1..] == a[1..] + b;
    }
  }

  lemma {:induction false} FailedStays<T>(parse: string -> Option<T>, st: State<T>, lines: seq<string>)
    requires st.failed
    ensures FeedAll(parse, st, lines) == st
  {
    if lines != [] {
      FailedStays(parse, Feed(parse, st, lines[0]), lines[1..]);
    }
  }

  lemma {:induction false} ConcatPrefix(parts: seq<string>, n: nat)
    requires n <= |parts|
    ensures exists rest :: Concat(parts) == Concat(parts[..n]) + rest
  {
    if n == |parts| {
      assert parts[..n] == parts;
      assert Concat(parts) == Concat(parts[..n]) + "";
    } else {
      var m := |parts| - 1;
      ConcatPrefix(parts[..m], n);
      assert parts[..m][..n] == parts[..n];
      var rest :| Concat(parts[..m]) == Concat(parts[..n]) + rest;
      assert Concat(parts) == Concat(parts[..n]) + (rest + parts[m]);
    }
  }

  /** The decoder, reading one chunk at a time. It stops at the first payload that does not parse. */
  method ConsumeTurnEvents<T>(parse: string -> Option<T>, chunks: seq<string>) returns (out: seq<T>, failed: bool)
    ensures out == Decode(parse, Concat(chunks)).out && failed == Decode(parse, Concat(chunks)).failed
  {
    var buffer := "";
    var currentEvent := "message";
    var dataLines := [];
    out, failed := [], false;
    for i := 0 to |chunks|
      invariant !failed
      invariant State(currentEvent, dataLines, out, failed) == FeedAll(parse, Start(), Split(Concat(chunks[..i])).0)
      invariant buffer == Split(Concat(chunks[..i])).1
    {
      ghost var seen := Concat(chunks[..i]);
      assert chunks[..i + 1][..i] == chunks[..i];
      SplitConcat(seen, chunks[i]);
      buffer := buffer + chunks[i];
      ghost var whole := Split(buffer);
      FeedAllConcat(parse, Start(), Split(seen).0, whole.0);
      ghost var before := State(currentEvent, dataLines, out, failed);
      var newlineIndex := NewlineAt(buffer);
      while newlineIndex < |buffer|
        invariant !failed
        invariant newlineIndex == NewlineAt(buffer)
        invariant FeedAll(parse, State(currentEvent, dataLines, out, failed), Split(buffer).0) == FeedAll(parse, before, whole.0)
        invariant Split(buffer).1 == whole.1
        decreases |buffer|
      {
        var rawLine := buffer[..newlineIndex];
        ghost var st := State(currentEvent, dataLines, out, failed);
        assert Split(buffer).0[1..] == Split(buffer[newlineIndex + 1..]).0;
        buffer := buffer[newlineIndex + 1..];
        var line := StripReturn(rawLine);
        if line == "" {
          currentEvent, dataLines, out, failed := FlushEvent(parse, currentEvent, dataLines, out);
        } else if StartsWith(line, "event:") {
          currentEvent := EventName(line[6..]);
        } else if StartsWith(line, "data:") {
          dataLines := dataLines + [TrimStart(line[5..])];
        }
        assert State(currentEvent, dataLines, out, failed) == Feed(parse, st, rawLine);
        if failed {
          FailedStays(parse, State(currentEvent, dataLines, out, failed), Split(buffer).0);
          ConcatPrefix(chunks, i + 1);
          ghost var rest :| Concat(chunks) == Concat(chunks[..i + 1]) + rest;
          SplitConcat(Concat(chunks[..i + 1]), rest);
          FeedAllConcat(parse, Start(), Split(Concat(chunks[..i + 1])).0, Split(Split(Concat(chunks[..i + 1])).1 + rest).0);
          FailedStays(parse, State(currentEvent, dataLines, out, failed), Split(Split(Concat(chunks[..i + 1])).1 + rest).0);
          return;
        }
        newlineIndex := NewlineAt(buffer);
      }
    }
    assert chunks[..|chunks|] == chunks;
    if dataLines != [] {
      currentEvent, dataLines, out, failed := FlushEvent(parse, currentEvent, dataLines, out);
    }
  }

  method FlushEvent<T>(parse: string -> Option<T>, event: string, data: seq<string>, sent: seq<T>)
    returns (currentEvent: string, dataLines: seq<string>, out: seq<T>, failed: bool)
    ensures State(currentEvent, dataLines, out, failed) == Flush(parse, State(event, data, sent, false))
  {
    currentEvent, dataLines, out, failed := event, data, sent, false;
    if |dataLines| == 0 {
      currentEvent := "message";
      return;
    }
    var payload := Trim(Join(dataLines, "\n"));
    dataLines := [];
    if payload == "" || currentEvent == "keepalive" {
      currentEvent := "message";
      return;
    }
    var parsed := parse(payload);
    if parsed.None? {
      failed := true;
      return;
    }
    out := out + [parsed.value];
    currentEvent := "message";
  }

  // ---- The encoder ---------------------------------------------------------

  /** What the controller writes: an event, with or without an id, a keepalive comment, or the retry hint. */
  datatype Frame =
    | Numbered(id: string, kind: string, json: string)
    | Unnumbered(kind: string, json: string)
    | Keepalive(stamp: string)
    | Retry(delay: string)

  predicate OneLine(s: string) {
    '\n' !in s
  }

  /** JSON text as `JSON.stringify` gives it for an object: one line, no outer white space. */
  predicate ValidFrame(f: Frame) {
    match f
    case Numbered(id, kind, json) => OneLine(id) && OneLine(kind) && OneLine(json) && Trimmed(json)
    case Unnumbered(kind, json) => OneLine(kind) && OneLine(json) && Trimmed(json)
    case Keepalive(stamp) => OneLine(stamp)
    case Retry(delay) => OneLine(delay)
  }

  /** The lines of a frame; the last one is empty. */
  function FrameLines(f: Frame): seq<string> {
    match f
    case Numbered(id, kind, json) => ["id: " + id, "event: " + kind, "data: " + json, ""]
    case Unnumbered(kind, json) => ["event: " + kind, "data: " + json, ""]
    case Keepalive(stamp) => [": keepalive " + stamp, ""]
    case Retry(delay) => ["retry: " + delay, ""]
  }

  function Write(lines: seq<string>): string {
    if lines == [] then "" else lines[0] + "\n" + Write(lines[1..])
  }

  function EncodeFrame(f: Frame): string {
    Write(FrameLines(f))
  }

  function Encode(frames: seq<Frame>): string {
    if frames == [] then "" else EncodeFrame(frames[0]) + Encode(frames[1..])
  }

  /** The payloads the decoder hands on: those of events not named "keepalive". */
  function Payloads(frames: seq<Frame>): seq<string> {
    if frames == [] then [] else Payload(frames[0]) + Payloads(frames[1..])
  }

  function Payload(f: Frame): seq<string> {
    if (f.Numbered? || f.Unnumbered?) && EventName(f.kind) != "keepalive" then [f.json] else []
  }

  // ---- The decoder inverts the encoder -------------------------------------

  predicate OneLineEach(lines: seq<string>) {
    forall i :: 0 <= i < |lines| ==> OneLine(lines[i])
  }

  lemma NewlineAfter(line: string, rest: string)
    requires OneLine(line)
    ensures NewlineAt(line + "\n" + rest) == |line|
  {
    var text := line + "\n" + rest;
    assert text[|line|] == '\n';
    assert forall j :: 0 <= j < |line| ==> text[j] == line[j];
  }

  lemma SplitLine(line: string, rest: string)
    requires OneLine(line)
    ensures Split(line + "\n" + rest) == ([line] + Split(rest).0, Split(rest).1)
  {
    var text := line + "\n" + rest;
    NewlineAfter(line, rest);
    assert text[|line| + 1..] == rest && text[..|line|] == line;
  }

  lemma WriteFirst(lines: seq<string>, rest: string)
    requires lines != []
    ensures Write(lines) + rest == lines[0] + "\n" + (Write(lines[1..]) + rest)
  {
  }

  lemma {:induction false} SplitWritten(lines: seq<string>, rest: string)
    requires OneLineEach(lines)
    ensures Split(Write(lines) + rest).0 == lines + Split(rest).0
    ensures Split(Write(lines) + rest).1 == Split(rest).1
  {
    if lines == [] {
      assert Write(lines) + rest == rest;
    } else {
      WriteFirst(lines, rest);
      SplitWritten(lines[1..], rest);
      SplitFirst(lines, Write(lines[1..]) + rest, Split(rest).0);
    }
  }

  lemma SplitFirst(lines: seq<string>, tail: string, more: seq<string>)
    requires lines != [] && OneLine(lines[0]) && Split(tail).0 == lines[1..] + more
    ensures Split(lines[0] + "\n" + tail).0 == lines + more
    ensures Split(lines[0] + "\n" + tail).1 == Split(tail).1
  {
    SplitLine(lines[0], tail);
    assert [lines[0]] + (lines[1..] + more) == lines + more;
  }

  function AllLines(frames: seq<Frame>): seq<string> {
    if frames == [] then [] else FrameLines(frames[0]) + AllLines(frames[1..])
  }

  lemma PlusNoNewline(a: string, b: string)
    requires OneLine(a) && OneLine(b)
    ensures OneLine(a + b)
  {
  }

  lemma FrameOneLineEach(f: Frame)
    requires ValidFrame(f)
    ensures OneLineEach(FrameLines(f))
  {
    match f
    case Numbered(id, kind, json) =>
      PlusNoNewline("id: ", id);
      PlusNoNewline("event: ", kind);
      PlusNoNewline("data: ", json);
    case Unnumbered(kind, json) =>
      PlusNoNewline("event: ", kind);
      PlusNoNewline("data: ", json);
    case Keepalive(stamp) => PlusNoNewline(": keepalive ", stamp);
    case Retry(delay) => PlusNoNewline("retry: ", delay);
  }

  lemma {:induction false} SplitEncoded(frames: seq<Frame>)
    requires forall f :: f in frames ==> ValidFrame(f)
    ensures Split(Encode(frames)) == (AllLines(frames), "")
  {
    if frames != [] {
      SplitEncoded(frames[1..]);
      FrameOneLineEach(frames[0]);
      SplitWritten(FrameLines(frames[0]), Encode(frames[1..]));
    }
  }

  // ---- One frame through the decoder ---------------------------------------

  /** A line that begins with neither 'e' nor 'd' is skipped. */
  lemma OtherLine<T>(parse: string -> Option<T>, st: State<T>, line: string)
    requires |line| >= 2 && line[0] != 'e' && line[0] != 'd'
    ensures Feed(parse, st, line) == st
  {
    var stripped := StripReturn(line);
    assert stripped[0] == line[0];
    FirstChar(stripped, "event:");
    FirstChar(stripped, "data:");
  }

  lemma FirstChar(s: string, prefix: string)
    requires prefix != ""
    ensures StartsWith(s, prefix) ==> s != "" && s[0] == prefix[0]
  {
    if StartsWith(s, prefix) {
      assert s[..|prefix|][0] == prefix[0];
    }
  }

  lemma {:induction false} TrimStartMore(s: string, c: char)
    requires IsSpace(c)
    ensures TrimStart(s + [c]) == if TrimStart(s) == "" then "" else TrimStart(s) + [c]
  {
    if s != "" && IsSpace(s[0]) {
      assert (s + [c])[1..] == s[1..] + [c];
      TrimStartMore(s[1..], c);
    } else if s == "" {
      assert (s + [c])[1..] == "";
    }
  }

  lemma TrimSpaces(s: string)
    ensures Trim(" " + s) == Trim(s)
    ensures Trim(s + "\r") == Trim(s)
  {
    assert (" " + s)[1..] == s;
    TrimStartMore(s, '\r');
    var t := TrimStart(s);
    if t != "" { assert (t + "\r")[..|t|] == t; }
  }

  /** The event name survives the added space and a stripped return. */
  lemma EventLine<T>(parse: string -> Option<T>, st: State<T>, kind: string)
    requires !st.failed
    ensures Feed(parse, st, "event: " + kind) == st.(event := EventName(kind))
  {
    var raw := "event: " + kind;
    if kind != "" && kind[|kind| - 1] == '\r' {
      var short := kind[..|kind| - 1];
      assert kind == short + "\r";
      assert raw == ("event: " + short) + "\r";
      assert StripReturn(raw) == "event: " + short;
      TrimSpaces(short);
      NamedLine(parse, st, raw, short);
    } else {
      assert raw[|raw| - 1] == if kind == "" then ' ' else kind[|kind| - 1];
      NamedLine(parse, st, raw, kind);
    }
  }

  lemma NamedLine<T>(parse: string -> Option<T>, st: State<T>, raw: string, kind: string)
    requires !st.failed && StripReturn(raw) == "event: " + kind
    ensures Feed(parse, st, raw) == st.(event := EventName(kind))
  {
    var line := "event: " + kind;
    assert line[..6] == "event:" && line[6..] == " " + kind;
    TrimSpaces(kind);
  }

  lemma DataLine<T>(parse: string -> Option<T>, st: State<T>, json: string)
    requires !st.failed && Trimmed(json)
    ensures Feed(parse, st, "data: " + json) == st.(data := st.data + [json])
  {
    var line := "data: " + json;
    assert line[|line| - 1] == json[|json| - 1];
    assert StripReturn(line) == line;
    assert line[..5] == "data:" && line[5..] == " " + json;
    assert line[..6][0] != "event:"[0];
    TrimTrimmed(json);
  }

  lemma EventFrame<T>(parse: string -> Option<T>, out: seq<T>, kind: string, json: string)
    requires Trimmed(json)
    ensures var st := State("message", [], out, false);
      FeedAll(parse, st, ["event: " + kind, "data: " + json, ""]) ==
        if EventName(kind) == "keepalive" then st
        else if parse(json).None? then State(EventName(kind), [], out, true)
        else State("message", [], out + [parse(json).value], false)
  {
    var st := State("message", [], out, false);
    var lines := ["event: " + kind, "data: " + json, ""];
    EventLine(parse, st, kind);
    var named := st.(event := EventName(kind));
    DataLine(parse, named, json);
    var full := named.(data := [json]);
    assert named.data + [json] == [json];
    TrimTrimmed(json);
    assert lines[1..] == ["data: " + json, ""] && lines[1..][1..] == [""];
    assert FeedAll(parse, full, [""]) == Flush(parse, full);
  }

  /** The state after a frame, starting between frames. */
  function AfterFrame<T>(parse: string -> Option<T>, out: seq<T>, f: Frame): State<T> {
    if Payload(f) == [] then State("message", [], out, false)
    else if parse(f.json).None? then State(EventName(f.kind), [], out, true)
    else State("message", [], out + [parse(f.json).value], false)
  }

  /** A skipped line and the empty line after it leave the decoder between frames. */
  lemma SkippedFrame<T>(parse: string -> Option<T>, out: seq<T>, line: string)
    requires |line| >= 2 && line[0] != 'e' && line[0] != 'd'
    ensures var st := State("message", [], out, false); FeedAll(parse, st, [line, ""]) == st
  {
    var st := State("message", [], out, false);
    OtherLine(parse, st, line);
    assert [line, ""][1..] == [""];
    assert FeedAll(parse, st, [""]) == st;
  }

  lemma FrameThrough<T>(parse: string -> Option<T>, out: seq<T>, f: Frame)
    requires ValidFrame(f)
    ensures FeedAll(parse, State("message", [], out, false), FrameLines(f)) == AfterFrame(parse, out, f)
  {
    var st := State("message", [], out, false);
    match f {
      case Numbered(id, kind, json) =>
        OtherLine(parse, st, "id: " + id);
        EventFrame(parse, out, kind, json);
        assert FrameLines(f)[1..] == ["event: " + kind, "data: " + json, ""];
      case Unnumbered(kind, json) =>
        EventFrame(parse, out, kind, json);
      case Keepalive(stamp) =>
        SkippedFrame(parse, out, ": keepalive " + stamp);
      case Retry(delay) =>
        SkippedFrame(parse, out, "retry: " + delay);
    }
  }

  /** Parse the payloads in order, stopping at the first that does not parse. */
  function ParseAll<T>(parse: string -> Option<T>, payloads: seq<string>): (seq<T>, bool) {
    if payloads == [] then ([], false)
    else if parse(payloads[0]).None? then ([], true)
    else
      var (rest, failed) := ParseAll(parse, payloads[1..]);
      ([parse(payloads[0]).value] + rest, failed)
  }

  lemma ParseNext<T>(parse: string -> Option<T>, payload: string, rest: seq<string>)
    ensures ParseAll(parse, [payload] + rest) ==
      if parse(payload).None? then ([], true)
      else ([parse(payload).value] + ParseAll(parse, rest).0, ParseAll(parse, rest).1)
  {
    assert ([payload] + rest)[1..] == rest;
  }

  /** What is in the decoder after the frames, starting with `out` already handed on. */
  ghost predicate ThroughAs<T>(st: State<T>, out: seq<T>, parsed: (seq<T>, bool)) {
    st.data == [] && st.out == out + parsed.0 && st.failed == parsed.1
  }

  lemma ThroughNext<T>(parse: string -> Option<T>, out: seq<T>, f: Frame, rest: seq<Frame>, end: State<T>)
    requires var st := AfterFrame(parse, out, f);
      if st.failed then end == st else ThroughAs(end, st.out, ParseAll(parse, Payloads(rest)))
    ensures ThroughAs(end, out, ParseAll(parse, Payload(f) + Payloads(rest)))
  {
    if Payload(f) != [] {
      ParseNext(parse, f.json, Payloads(rest));
    } else {
      assert Payload(f) + Payloads(rest) == Payloads(rest);
    }
  }

  lemma {:induction false} FramesThrough<T>(parse: string -> Option<T>, out: seq<T>, frames: seq<Frame>)
    requires forall f :: f in frames ==> ValidFrame(f)
    ensures ThroughAs(FeedAll(parse, State("message", [], out, false), AllLines(frames)), out, ParseAll(parse, Payloads(frames)))
    decreases |frames|
  {
    if frames != [] {
      var f, rest := frames[0], frames[1..];
      var st := AfterFrame(parse, out, f);
      FrameThrough(parse, out, f);
      FeedAllConcat(parse, State("message", [], out, false), FrameLines(f), AllLines(rest));
      if st.failed {
        FailedStays(parse, st, AllLines(rest));
      } else {
        FramesThrough(parse, st.out, rest);
      }
      ThroughNext(parse, out, f, rest, FeedAll(parse, st, AllLines(rest)));
    }
  }

  /**
   Decoding inverts framing: whatever frames the controller writes, with
   keepalives and the retry hint in between, the decoder hands on the payloads
   of exactly the events not named "keepalive", in order, up to the first one
   that does not parse.
   */
  lemma DecodeInvertsEncode<T>(parse: string -> Option<T>, frames: seq<Frame>)
    requires forall f :: f in frames ==> ValidFrame(f)
    ensures var st := Decode(parse, Encode(frames));
      (st.out, st.failed) == ParseAll(parse, Payloads(frames))
  {
    SplitEncoded(frames);
    FramesThrough(parse, [], frames);
    var parsed := ParseAll(parse, Payloads(frames));
    assert [] + parsed.0 == parsed.0;
  }

  // ---- A stream that breaks off --------------------------------------------

  /** The first `m` lines of an event: nothing is handed on before the data line. */
  lemma PartialEvent<T>(parse: string -> Option<T>, out: seq<T>, kind: string, json: string, m: nat)
    requires Trimmed(json) && m < 3
    ensures var lines := ["event: " + kind, "data: " + json, ""];
      var st := FeedAll(parse, State("message", [], out, false), lines[..m]);
      && st.out == out && !st.failed
      && (if m == 2 then st.data == [json] && st.event == EventName(kind) else st.data == [])
  {
    var st := State("message", [], out, false);
    var lines := ["event: " + kind, "data: " + json, ""];
    EventLine(parse, st, kind);
    DataLine(parse, st.(event := EventName(kind)), json);
    assert [] + [json] == [json];
    if m == 0 {
      assert lines[..m] == [];
    } else if m == 1 {
      assert lines[..m] == [lines[0]];
      assert [lines[0]][1..] == [];
    } else {
      assert lines[..m] == [lines[0], lines[1]];
      TwoLines(parse, st, lines[0], lines[1]);
    }
  }

  lemma TwoLines<T>(parse: string -> Option<T>, st: State<T>, first: string, second: string)
    ensures FeedAll(parse, st, [first, second]) == Feed(parse, Feed(parse, st, first), second)
  {
    assert [first, second][1..] == [second] && [second][1..] == [];
    assert FeedAll(parse, Feed(parse, st, first), [second]) == Feed(parse, Feed(parse, st, first), second);
  }

  /** An event that breaks off, at the end of the stream. */
  lemma PartialEventEnds<T>(parse: string -> Option<T>, out: seq<T>, kind: string, json: string, m: nat)
    requires Trimmed(json) && m < 3
    ensures var lines := ["event: " + kind, "data: " + json, ""];
      var st := Finish(parse, FeedAll(parse, State("message", [], out, false), lines[..m]));
      || (st.out == out && !st.failed)
      || (EventName(kind) != "keepalive"
          && st.out == (if parse(json).None? then out else out + [parse(json).value]) && st.failed == parse(json).None?)
  {
    PartialEvent(parse, out, kind, json, m);
    TrimTrimmed(json);
  }

  /** A frame that breaks off hands on nothing, or exactly what the whole frame would. */
  lemma PartialFrame<T>(parse: string -> Option<T>, out: seq<T>, f: Frame, m: nat)
    requires ValidFrame(f) && m < |FrameLines(f)|
    ensures var st := Finish(parse, FeedAll(parse, State("message", [], out, false), FrameLines(f)[..m]));
      (st.out == out && !st.failed) || (st.out == AfterFrame(parse, out, f).out && st.failed == AfterFrame(parse, out, f).failed)
  {
    var st := State("message", [], out, false);
    var lines := FrameLines(f);
    if m == 0 {
      assert lines[..0] == [];
    } else {
      match f {
        case Numbered(id, kind, json) =>
          OtherLine(parse, st, lines[0]);
          assert lines[..m][1..] == ["event: " + kind, "data: " + json, ""][..m - 1];
          assert FeedAll(parse, st, lines[..m]) == FeedAll(parse, st, lines[..m][1..]);
          PartialEventEnds(parse, out, kind, json, m - 1);
        case Unnumbered(kind, json) =>
          PartialEventEnds(parse, out, kind, json, m);
        case Keepalive(stamp) =>
          assert lines[..m] == [lines[0]] && [lines[0]][1..] == [];
          OtherLine(parse, st, lines[0]);
        case Retry(delay) =>
          assert lines[..m] == [lines[0]] && [lines[0]][1..] == [];
          OtherLine(parse, st, lines[0]);
      }
    }
  }

  /** `st` is what decoding a beginning of the stream may give. */
  ghost predicate Beginning<T>(st: State<T>, out: seq<T>, parsed: (seq<T>, bool)) {
    && out <= st.out <= out + parsed.0
    && (st.failed ==> parsed.1 && st.out == out + parsed.0)
  }

  lemma BeginningNext<T>(parse: string -> Option<T>, out: seq<T>, f: Frame, rest: seq<Frame>, end: State<T>)
    requires var st := AfterFrame(parse, out, f);
      || (end.out == out && !end.failed)
      || (end.out == st.out && end.failed == st.failed)
      || (!st.failed && Beginning(end, st.out, ParseAll(parse, Payloads(rest))))
    ensures Beginning(end, out, ParseAll(parse, Payload(f) + Payloads(rest)))
  {
    if Payload(f) != [] {
      ParseNext(parse, f.json, Payloads(rest));
    } else {
      assert Payload(f) + Payloads(rest) == Payloads(rest);
    }
  }

  /** The lines after the first frame, when the break is behind it. */
  lemma PastFrame<T>(parse: string -> Option<T>, out: seq<T>, f: Frame, lines: seq<string>)
    requires ValidFrame(f)
    ensures FeedAll(parse, State("message", [], out, false), FrameLines(f) + lines)
      == FeedAll(parse, AfterFrame(parse, out, f), lines)
  {
    FrameThrough(parse, out, f);
    FeedAllConcat(parse, State("message", [], out, false), FrameLines(f), lines);
  }

  lemma {:induction false} PartialFrames<T>(parse: string -> Option<T>, out: seq<T>, frames: seq<Frame>, m: nat)
    requires (forall f :: f in frames ==> ValidFrame(f)) && m <= |AllLines(frames)|
    ensures Beginning(Finish(parse, FeedAll(parse, State("message", [], out, false), AllLines(frames)[..m])),
                      out, ParseAll(parse, Payloads(frames)))
    decreases |frames|
  {
    if frames != [] {
      var f, rest := frames[0], frames[1..];
      var k := |FrameLines(f)|;
      var end := Finish(parse, FeedAll(parse, State("message", [], out, false), AllLines(frames)[..m]));
      if m < k {
        assert AllLines(frames)[..m] == FrameLines(f)[..m];
        PartialFrame(parse, out, f, m);
      } else {
        var more := AllLines(rest)[..m - k];
        var st := AfterFrame(parse, out, f);
        assert AllLines(frames)[..m] == FrameLines(f) + more;
        PastFrame(parse, out, f, more);
        if st.failed {
          FailedStays(parse, st, more);
        } else {
          PartialFrames(parse, st.out, rest, m - k);
        }
      }
      BeginningNext(parse, out, f, rest, end);
    }
  }

  /**
   A stream that breaks off anywhere, even inside a line, never yields a damaged
   or reordered event: what the decoder hands on is a beginning of what it would
   have handed on, and it fails only where the whole stream fails.
   */
  lemma BrokenStream<T>(parse: string -> Option<T>, frames: seq<Frame>, n: nat)
    requires (forall f :: f in frames ==> ValidFrame(f)) && n <= |Encode(frames)|
    ensures var st := Decode(parse, Encode(frames)[..n]);
      var whole := Decode(parse, Encode(frames));
      st.out <= whole.out && (st.failed ==> whole.failed && st.out == whole.out)
  {
    var text := Encode(frames);
    assert text == text[..n] + text[n..];
    SplitConcat(text[..n], text[n..]);
    SplitEncoded(frames);
    var m := |Split(text[..n]).0|;
    assert AllLines(frames)[..m] == Split(text[..n]).0;
    PartialFrames(parse, [], frames, m);
    DecodeInvertsEncode(parse, frames);
    assert [] + ParseAll(parse, Payloads(frames)).0 == ParseAll(parse, Payloads(frames)).0;
  }
}
