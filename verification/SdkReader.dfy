/** Framing events as bytes and splitting them back (src/bridge/mod.rs sse_event, brighto.py Router.events). */
module SdkReader {
  import opened Common
  import opened Json
  import opened Bridge
  import opened Sdk

  /** The UTF-8 library, known only by the laws below. */
  datatype Utf8 = Utf8(encode: string -> Bytes, decode: Bytes -> Option<string>) {
    /** Encoding round trips and never invents a line break. */
    ghost predicate Lawful() {
      && encode("") == []
      && (forall s :: decode(encode(s)) == Some(s))
      && (forall s :: '\n' !in s && '\r' !in s ==> LF !in encode(s) && CR !in encode(s))
    }
  }

  /** JSON text escapes its line breaks, and an object is written between braces. */
  ghost predicate OneLine(codec: Codec) {
    && (forall v :: '\n' !in codec.encode(v) && '\r' !in codec.encode(v))
    && (forall v: Json :: v.Obj? ==> Braced(codec.encode(v)))
  }

  predicate Braced(s: string) {
    s != "" && s[0] == '{' && s[|s| - 1] == '}'
  }

  // ---------------------------------------------------------------- printing

  function NameLine(e: Event): string {
    "event: " + EventName(e)
  }

  function DataLine(codec: Codec, e: Event): string {
    "data: " + codec.encode(EventJson(e))
  }

  function Frame(codec: Codec, utf8: Utf8, e: Event): Bytes {
    utf8.encode(NameLine(e)) + [LF] + utf8.encode(DataLine(codec, e)) + [LF] + [LF]
  }

  function Print(codec: Codec, utf8: Utf8, es: seq<Event>): Bytes {
    if es == [] then [] else Frame(codec, utf8, es[0]) + Print(codec, utf8, es[1..])
  }

  // ---------------------------------------------------------------- reading

  function BreakAt(b: Bytes): (i: nat)
    ensures i <= |b| && (i < |b| ==> b[i] == LF || b[i] == CR)
    ensures forall k :: 0 <= k < i ==> b[k] != LF && b[k] != CR
  {
    if b == [] || b[0] == LF || b[0] == CR then 0 else 1 + BreakAt(b[1..])
  }

  /** Lines end at LF, CR or CR LF; a final terminator starts no further line. */
  function SplitLines(b: Bytes): seq<Bytes>
    decreases |b|
  {
    var i := BreakAt(b);
    if b == [] then []
    else if i == |b| then [b]
    else if b[i] == CR && i + 1 < |b| && b[i + 1] == LF then [b[..i]] + SplitLines(b[i + 2..])
    else [b[..i]] + SplitLines(b[i + 1..])
  }

  datatype Stage = Reading | Done | Raised

  datatype Reader = Reader(events: seq<Json>, dataLines: seq<string>, status: Stage)

  function LStripSpaces(s: string): string {
    if s != "" && s[0] == ' ' then LStripSpaces(s[1..]) else s
  }

  function JoinLines(lines: seq<string>): string {
    if lines == [] then "" else if |lines| == 1 then lines[0] else lines[0] + "\n" + JoinLines(lines[1..])
  }

  /** Whether the digits of a number, before any exponent, are not all zero. */
  predicate NonZero(digits: string) {
    digits != "" && digits[0] != 'e' && digits[0] != 'E'
    && ('1' <= digits[0] <= '9' || NonZero(digits[1..]))
  }

  /** Truth as the SDK's language defines it for parsed JSON. */
  predicate Truthy(v: Option<Json>) {
    v.Some? && match v.value
               case Null => false
               case Bool(b) => b
               case Int(n) => n != 0
               case Float(digits) => NonZero(digits)
               case Str(s) => s != ""
               case Arr(items) => items != []
               case Obj(fields) => fields != map[]
  }

  /** A blank line ends the event whose data lines have been collected. */
  function Dispatch(codec: Codec, r: Reader): Reader {
    var data := JoinLines(r.dataLines);
    var idle := r.(dataLines := []);
    if Trim(data) == "[DONE]" then idle.(status := Done)
    else
      var chunk := codec.decode(data);
      if chunk.None? || !chunk.value.Obj? then idle.(status := Raised)
      else if Truthy(Get(chunk.value, "error")) || Get(chunk.value, "type") == Some(Str("error")) then idle.(status := Raised)
      else idle.(events := r.events + [chunk.value])
  }

  function OnLine(codec: Codec, utf8: Utf8, r: Reader, raw: Bytes): Reader {
    if !r.status.Reading? then r
    else
      var line := utf8.decode(raw);
      if line.None? then r.(status := Raised)
      else if "data:" <= line.value then r.(dataLines := r.dataLines + [LStripSpaces(line.value[5..])])
      else if line.value == "" && r.dataLines != [] then Dispatch(codec, r)
      else r
  }

  function OnLines(codec: Codec, utf8: Utf8, r: Reader, lines: seq<Bytes>): Reader
    decreases |lines|
  {
    if lines == [] then r else OnLines(codec, utf8, OnLine(codec, utf8, r, lines[0]), lines[1..])
  }

  function AtEnd(r: Reader): Reader {
    if !r.status.Reading? then r else r.(status := if r.dataLines == [] then Done else Raised)
  }

  const NEW_READER := Reader([], [], Reading)

  function ReadEvents(codec: Codec, utf8: Utf8, body: Bytes): Reader {
    AtEnd(OnLines(codec, utf8, NEW_READER, SplitLines(body)))
  }

  /** The SDK's generator as a loop: yielded objects are collected in order. */
  method Events(codec: Codec, utf8: Utf8, body: Bytes) returns (events: seq<Json>, status: Stage)
    ensures ReadEvents(codec, utf8, body) == Reader(events, ReadEvents(codec, utf8, body).dataLines, status)
  {
    var lines := SplitLines(body);
    var dataLines: seq<string> := [];
    events, status := [], Reading;
    var i := 0;
    while i < |lines| && status.Reading?
      invariant 0 <= i <= |lines|
      invariant OnLines(codec, utf8, NEW_READER, lines)
             == OnLines(codec, utf8, Reader(events, dataLines, status), lines[i..])
    {
      var next := OnLine(codec, utf8, Reader(events, dataLines, status), lines[i]);
      assert lines[i..][0] == lines[i] && lines[i..][1..] == lines[i + 1..];
      events, dataLines, status := next.events, next.dataLines, next.status;
      i := i + 1;
    }
    OnLinesStopped(codec, utf8, Reader(events, dataLines, status), lines[i..]);
    if status.Reading? {
      status := if dataLines == [] then Done else Raised;
    }
  }

  lemma {:induction false} OnLinesStopped(codec: Codec, utf8: Utf8, r: Reader, lines: seq<Bytes>)
    requires r.status.Reading? ==> lines == []
    ensures OnLines(codec, utf8, r, lines) == r
    decreases |lines|
  {
    if lines != [] {
      OnLinesStopped(codec, utf8, r, lines[1..]);
    }
  }

  // ---------------------------------------------------------------- lines of a printed stream

  lemma BreakIsFirst(b: Bytes, i: nat)
    requires i < |b| && b[i] == LF && forall k :: 0 <= k < i ==> b[k] != LF && b[k] != CR
    ensures BreakAt(b) == i
  {}

  lemma SplitFirst(line: Bytes, rest: Bytes)
    requires LF !in line && CR !in line
    ensures SplitLines(line + [LF] + rest) == [line] + SplitLines(rest)
  {
    var b := line + [LF] + rest;
    BreakIsFirst(b, |line|);
    assert b[..|line|] == line && b[|line| + 1..] == rest;
  }

  function FrameLines(codec: Codec, utf8: Utf8, e: Event): seq<Bytes> {
    [utf8.encode(NameLine(e))] + [utf8.encode(DataLine(codec, e))] + [[]]
  }

  lemma HeadersAreOneLine(codec: Codec, e: Event)
    requires OneLine(codec)
    ensures '\n' !in NameLine(e) && '\r' !in NameLine(e)
    ensures '\n' !in DataLine(codec, e) && '\r' !in DataLine(codec, e)
  {
    NamesAreOneLine(e);
    hide EventName, EventJson;
    assert '\n' !in "event: " && '\r' !in "event: " && '\n' !in "data: " && '\r' !in "data: ";
  }

  lemma NamesAreOneLine(e: Event)
    ensures '\n' !in EventName(e) && '\r' !in EventName(e)
  {
    match e
    case MessageStart(_, _, _) =>
    case BlockStart(_, _) =>
    case BlockDelta(_, _) =>
    case BlockStop(_) =>
    case MessageDelta(_, _) =>
    case MessageStop =>
    case Error(_, _) =>
  }

  lemma SplitThree(name: Bytes, data: Bytes, rest: Bytes)
    requires LF !in name && CR !in name && LF !in data && CR !in data
    ensures SplitLines(name + [LF] + data + [LF] + [LF] + rest) == [name] + [data] + [[]] + SplitLines(rest)
  {
    hide SplitLines;
    SplitFirst([], rest);
    assert [] + [LF] + rest == [LF] + rest;
    SplitFirst(data, [LF] + rest);
    SplitFirst(name, data + [LF] + ([LF] + rest));
    RegroupFrame(name, [LF], data, rest);
    RegroupLines([name], [data], [[]], SplitLines(rest));
  }

  lemma RegroupLines(a: seq<Bytes>, b: seq<Bytes>, c: seq<Bytes>, d: seq<Bytes>)
    ensures a + (b + (c + d)) == a + b + c + d
  {}

  lemma SplitFrame(codec: Codec, utf8: Utf8, e: Event, rest: Bytes)
    requires OneLine(codec) && utf8.Lawful()
    ensures SplitLines(Frame(codec, utf8, e) + rest) == FrameLines(codec, utf8, e) + SplitLines(rest)
  {
    HeadersAreOneLine(codec, e);
    hide NameLine, DataLine, SplitLines, OneLine;
    SplitThree(utf8.encode(NameLine(e)), utf8.encode(DataLine(codec, e)), rest);
  }

  lemma RegroupFrame(name: Bytes, lf: Bytes, data: Bytes, rest: Bytes)
    ensures name + lf + data + lf + lf + rest == name + lf + (data + lf + (lf + rest))
  {}

  // ---------------------------------------------------------------- reading a frame back

  lemma {:induction false} TrimEndKeepsFirst(s: string)
    requires s != "" && !IsWhite(s[0])
    ensures TrimEnd(s) != "" && TrimEnd(s)[0] == s[0]
    decreases |s|
  {
    if IsWhite(s[|s| - 1]) {
      TrimEndKeepsFirst(s[..|s| - 1]);
    }
  }

  lemma NotDone(s: string)
    requires s != "" && s[0] == '{'
    ensures Trim(s) != "[DONE]" && LStripSpaces(" " + s) == s
  {
    TrimEndKeepsFirst(s);
    assert (" " + s)[1..] == s;
    assert LStripSpaces(" " + s) == LStripSpaces(s);
  }

  lemma NameIsSkipped(codec: Codec, utf8: Utf8, r: Reader, e: Event)
    requires utf8.Lawful()
    ensures OnLine(codec, utf8, r, utf8.encode(NameLine(e))) == r
  {
    assert NameLine(e)[0] == 'e';
  }

  lemma DataIsCollected(codec: Codec, utf8: Utf8, r: Reader, e: Event)
    requires utf8.Lawful() && OneLine(codec) && r.status.Reading?
    ensures OnLine(codec, utf8, r, utf8.encode(DataLine(codec, e)))
            == r.(dataLines := r.dataLines + [codec.encode(EventJson(e))])
  {
    var text := codec.encode(EventJson(e));
    assert EventJson(e).Obj?;
    NotDone(text);
    var line := DataLine(codec, e);
    assert line[5..] == " " + text && line[..5] == "data:";
    assert "data:" <= line;
  }

  lemma KeysOfEvents(e: Event)
    ensures e.Error? ==> Get(EventJson(e), "type") == Some(Str("error"))
    ensures !e.Error? ==> Get(EventJson(e), "type") == Some(Str(EventName(e))) && EventName(e) != "error"
    ensures !e.Error? ==> Get(EventJson(e), "error").None?
  {
    match e
    case MessageStart(_, _, _) =>
    case BlockStart(_, _) =>
    case BlockDelta(_, _) =>
    case BlockStop(_) =>
    case MessageDelta(_, _) =>
    case MessageStop =>
    case Error(_, _) =>
  }

  lemma BlankDispatches(codec: Codec, utf8: Utf8, events: seq<Json>, e: Event)
    requires codec.RoundTrips() && utf8.Lawful() && OneLine(codec)
    ensures OnLine(codec, utf8, Reader(events, [codec.encode(EventJson(e))], Reading), [])
            == if e.Error? then Reader(events, [], Raised) else Reader(events + [EventJson(e)], [], Reading)
  {
    var text := codec.encode(EventJson(e));
    assert EventJson(e).Obj?;
    NotDone(text);
    KeysOfEvents(e);
    assert utf8.decode([]) == Some("") by {
      assert utf8.decode(utf8.encode("")) == Some("");
    }
    hide EventJson, EventName;
    assert JoinLines([text]) == text;
    assert codec.decode(text) == Some(EventJson(e));
  }

  lemma ReadNext(codec: Codec, utf8: Utf8, r: Reader, a: Bytes, rest: seq<Bytes>)
    ensures OnLines(codec, utf8, r, [a] + rest) == OnLines(codec, utf8, OnLine(codec, utf8, r, a), rest)
  {
    hide OnLine;
    assert ([a] + rest)[1..] == rest;
  }

  lemma ReadThree(codec: Codec, utf8: Utf8, r: Reader, a: Bytes, b: Bytes, c: Bytes, rest: seq<Bytes>)
    ensures OnLines(codec, utf8, r, [a] + [b] + [c] + rest)
            == OnLines(codec, utf8, OnLine(codec, utf8, OnLine(codec, utf8, OnLine(codec, utf8, r, a), b), c), rest)
  {
    hide OnLine, OnLines;
    var r1 := OnLine(codec, utf8, r, a);
    assert [a] + [b] + [c] + rest == [a] + ([b] + ([c] + rest));
    ReadNext(codec, utf8, r, a, [b] + ([c] + rest));
    ReadNext(codec, utf8, r1, b, [c] + rest);
    ReadNext(codec, utf8, OnLine(codec, utf8, r1, b), c, rest);
  }

  lemma ReadFrame(codec: Codec, utf8: Utf8, events: seq<Json>, e: Event, rest: seq<Bytes>)
    requires codec.RoundTrips() && utf8.Lawful() && OneLine(codec)
    ensures OnLines(codec, utf8, Reader(events, [], Reading), FrameLines(codec, utf8, e) + rest)
            == OnLines(codec, utf8, if e.Error? then Reader(events, [], Raised)
                                    else Reader(events + [EventJson(e)], [], Reading), rest)
  {
    hide OnLine, OnLines, EventJson, NameLine, DataLine;
    var r := Reader(events, [], Reading);
    NameIsSkipped(codec, utf8, r, e);
    DataIsCollected(codec, utf8, r, e);
    assert r.dataLines + [codec.encode(EventJson(e))] == [codec.encode(EventJson(e))];
    BlankDispatches(codec, utf8, events, e);
    ReadThree(codec, utf8, r, utf8.encode(NameLine(e)), utf8.encode(DataLine(codec, e)), [], rest);
  }

  function Jsons(es: seq<Event>): seq<Json> {
    seq(|es|, i requires 0 <= i < |es| => EventJson(es[i]))
  }

  predicate ErrorFree(es: seq<Event>) {
    forall i :: 0 <= i < |es| ==> !es[i].Error?
  }

  lemma {:induction false} ReadPrinted(codec: Codec, utf8: Utf8, events: seq<Json>, es: seq<Event>, tail: seq<Event>)
    requires codec.RoundTrips() && utf8.Lawful() && OneLine(codec) && ErrorFree(es)
    requires tail == [] || (|tail| == 1 && tail[0].Error?)
    ensures AtEnd(OnLines(codec, utf8, Reader(events, [], Reading), SplitLines(Print(codec, utf8, es + tail))))
            == Reader(events + Jsons(es), [], if tail == [] then Done else Raised)
    decreases |es|
  {
    var r := Reader(events, [], Reading);
    if es == [] {
      assert es + tail == tail && Jsons(es) == [] && events + [] == events;
      if tail == [] {
        assert SplitLines([]) == [];
      } else {
        assert tail[1..] == [];
        hide Frame, OnLines, SplitLines;
        SplitFrame(codec, utf8, tail[0], []);
        assert Print(codec, utf8, tail) == Frame(codec, utf8, tail[0]) + [];
        ReadFrame(codec, utf8, events, tail[0], SplitLines([]));
        OnLinesStopped(codec, utf8, Reader(events, [], Raised), SplitLines([]));
      }
    } else {
      hide Frame, OnLines, SplitLines, EventJson, AtEnd, Jsons;
      assert (es + tail)[0] == es[0] && (es + tail)[1..] == es[1..] + tail;
      SplitFrame(codec, utf8, es[0], Print(codec, utf8, es[1..] + tail));
      ReadFrame(codec, utf8, events, es[0], SplitLines(Print(codec, utf8, es[1..] + tail)));
      ReadPrinted(codec, utf8, events + [EventJson(es[0])], es[1..], tail);
      JsonsSplitFirst(es);
      Regroup(events, [EventJson(es[0])], Jsons(es[1..]));
    }
  }

  lemma JsonsSplitFirst(es: seq<Event>)
    requires es != []
    ensures Jsons(es) == [EventJson(es[0])] + Jsons(es[1..])
  {
    hide EventJson;
  }

  /** The SDK reads back exactly the events that were framed; an error event at the end raises. */
  lemma PrintThenRead(codec: Codec, utf8: Utf8, es: seq<Event>, tail: seq<Event>)
    requires codec.RoundTrips() && utf8.Lawful() && OneLine(codec) && ErrorFree(es)
    requires tail == [] || (|tail| == 1 && tail[0].Error?)
    ensures var r := ReadEvents(codec, utf8, Print(codec, utf8, es + tail));
            r.events == Jsons(es) && EventsOf(r.events) == Some(es) && r.status == (if tail == [] then Done else Raised)
  {
    ReadPrinted(codec, utf8, [], es, tail);
    assert [] + Jsons(es) == Jsons(es);
    EventsRoundTrip(es);
  }

  lemma EventsOfFirst(v: Json, vs: seq<Json>)
    requires EventOf(v).Some? && EventsOf(vs).Some?
    ensures EventsOf([v] + vs) == Some([EventOf(v).value] + EventsOf(vs).value)
  {
    hide EventOf;
    assert ([v] + vs)[1..] == vs;
  }

  lemma {:induction false} EventsRoundTrip(es: seq<Event>)
    requires ErrorFree(es)
    ensures EventsOf(Jsons(es)) == Some(es)
    decreases |es|
  {
    if es == [] {
      assert Jsons(es) == [];
    } else {
      hide EventJson, EventOf, Jsons;
      JsonsSplitFirst(es);
      EventRoundTrip(es[0]);
      EventsRoundTrip(es[1..]);
      hide EventsOf, ErrorFree;
      EventsOfFirst(EventJson(es[0]), Jsons(es[1..]));
      assert es == [es[0]] + es[1..];
    }
  }

  // ---------------------------------------------------------------- what the reader makes of an event

  /** Joined data lines: one is itself, more are joined by line feeds. */
  lemma JoinedLines(first: string, rest: seq<string>)
    ensures JoinLines([first]) == first
    ensures rest != [] ==> JoinLines([first] + rest) == first + "\n" + JoinLines(rest)
  {
    assert ([first] + rest)[1..] == rest;
  }

  function DataWire(utf8: Utf8, datas: seq<string>): seq<Bytes> {
    if datas == [] then [] else DataWire(utf8, datas[..|datas| - 1]) + [utf8.encode("data: " + datas[|datas| - 1])]
  }

  lemma {:induction false} DatasAreCollected(codec: Codec, utf8: Utf8, r: Reader, datas: seq<string>)
    requires utf8.Lawful() && r.status.Reading?
    requires forall i :: 0 <= i < |datas| ==> datas[i] != "" ==> datas[i][0] != ' '
    ensures OnLines(codec, utf8, r, DataWire(utf8, datas)) == r.(dataLines := r.dataLines + datas)
    decreases |datas|
  {
    if datas == [] {
      assert r.dataLines + datas == r.dataLines;
    } else {
      var front, last := datas[..|datas| - 1], datas[|datas| - 1];
      var line := "data: " + last;
      DatasAreCollected(codec, utf8, r, front);
      assert utf8.decode(utf8.encode(line)) == Some(line);
      assert line[..5] == "data:" && line[5..] == " " + last && (" " + last)[1..] == last && "data:" <= line;
      assert LStripSpaces(" " + last) == LStripSpaces(last) == last;
      LinesThen(codec, utf8, r, DataWire(utf8, front), utf8.encode(line));
      assert r.dataLines + datas == r.dataLines + front + [last];
      hide OnLines, DataWire;
    }
  }

  lemma {:induction false} LinesThen(codec: Codec, utf8: Utf8, r: Reader, lines: seq<Bytes>, line: Bytes)
    ensures OnLines(codec, utf8, r, lines + [line]) == OnLine(codec, utf8, OnLines(codec, utf8, r, lines), line)
    decreases |lines|
  {
    hide OnLine;
    if lines == [] {
      assert lines + [line] == [line] && [line][1..] == [];
    } else {
      assert (lines + [line])[0] == lines[0] && (lines + [line])[1..] == lines[1..] + [line];
      LinesThen(codec, utf8, OnLine(codec, utf8, r, lines[0]), lines[1..], line);
    }
  }

  /** An event with an `error` that says something, or of that type, is an exception. */
  predicate SaysError(chunk: Json) {
    || Get(chunk, "type") == Some(Str("error"))
    || (var e := GetOr(Get(chunk, "error"), Null);
        !(e.Null? || e == Bool(false) || e == Int(0) || e == Str("") || e == Arr([]) || e == Obj(map[])
          || (e.Float? && !NonZero(e.digits))))
  }

  /**
   One event on the wire, in any number of data lines: `[DONE]` ends the iteration, an object that
   reports no error is yielded, everything else raises; a stream that stops before the blank line raises.
   */
  lemma EventVerdict(codec: Codec, utf8: Utf8, events: seq<Json>, datas: seq<string>)
    requires utf8.Lawful() && datas != []
    requires forall i :: 0 <= i < |datas| ==> datas[i] != "" ==> datas[i][0] != ' '
    ensures var wire, text := DataWire(utf8, datas), JoinLines(datas);
            var r := OnLines(codec, utf8, Reader(events, [], Reading), wire + [[]]);
            var chunk := codec.decode(text);
            && AtEnd(OnLines(codec, utf8, Reader(events, [], Reading), wire)).status == Raised
            && (if Trim(text) == "[DONE]" then r == Reader(events, [], Done)
                else if chunk.Some? && chunk.value.Obj? && !SaysError(chunk.value)
                then r == Reader(events + [chunk.value], [], Reading)
                else r == Reader(events, [], Raised))
  {
    var wire, start := DataWire(utf8, datas), Reader(events, [], Reading);
    DatasAreCollected(codec, utf8, start, datas);
    LinesThen(codec, utf8, start, wire, []);
    assert [] + datas == datas;
    assert utf8.decode([]) == Some("") by {
      assert utf8.decode(utf8.encode("")) == Some("");
    }
    hide OnLines, DataWire, JoinLines, Trim, SaysError, LStripSpaces;
  }

  /** Event names, comments and other fields are passed over, and so are blank lines between events. */
  lemma OtherLinesArePassed(codec: Codec, utf8: Utf8, r: Reader, line: string)
    requires utf8.Lawful() && (|line| < 5 || line[..5] != "data:") && (line == "" ==> r.dataLines == [])
    ensures OnLine(codec, utf8, r, utf8.encode(line)) == r
  {
    assert utf8.decode(utf8.encode(line)) == Some(line);
    assert !("data:" <= line);
  }

  lemma BreakEnds(b: Bytes, n: nat, m: nat)
    requires n < m <= |b| && forall k :: 0 <= k < n ==> b[k] != LF && b[k] != CR
    requires b[n..m] == [LF] || b[n..m] == [CR, LF] || (b[n..m] == [CR] && (m == |b| || b[m] != LF))
    ensures SplitLines(b) == [b[..n]] + SplitLines(b[m..])
  {
    hide BreakAt;
    assert b[n] == b[n..m][0] && (m > n + 1 ==> b[n + 1] == b[n..m][1]);
    assert BreakAt(b) == n;
  }

  /** LF, CR LF and a lone CR each end one line, and the last line needs no end. */
  lemma LineEndings(line: Bytes, end: Bytes, rest: Bytes)
    requires forall i :: 0 <= i < |line| ==> line[i] != LF && line[i] != CR
    ensures end == [LF] || end == [CR, LF] || (end == [CR] && (rest == [] || rest[0] != LF))
            ==> SplitLines(line + end + rest) == [line] + SplitLines(rest)
    ensures line != [] ==> SplitLines(line) == [line]
  {
    var n, m, b := |line|, |line| + |end|, line + end + rest;
    assert b[..n] == line && b[n..m] == end && b[m..] == rest;
    if end == [LF] || end == [CR, LF] || (end == [CR] && (rest == [] || rest[0] != LF)) {
      BreakEnds(b, n, m);
    }
    assert BreakAt(line) == |line|;
  }
}
