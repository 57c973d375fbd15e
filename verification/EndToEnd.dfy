/** From upstream bytes to what an SDK user assembles, and from a built message to the same. */
module EndToEnd {
  import opened Common
  import opened Json
  import opened Bridge
  import opened Response
  import opened Translator
  import opened EventGrammar
  import opened Chunking
  import opened ToolFragments
  import opened Client
  import opened Refinement
  import opened MessageSse
  import opened Sdk
  import opened SdkReader

  // ---------------------------------------------------------------- print then parse

  lemma BlockIsClean(env: Env, block: Json, n: nat)
    ensures ErrorFree(BlockEvents(env, block, n))
  {}

  lemma {:induction false} BlocksAreClean(env: Env, blocks: seq<Json>)
    ensures ErrorFree(BlocksEvents(env, blocks))
    decreases |blocks|
  {
    if blocks != [] {
      hide BlockEvents;
      BlocksAreClean(env, blocks[..|blocks| - 1]);
      BlockIsClean(env, blocks[|blocks| - 1], Printed(blocks[..|blocks| - 1]));
    }
  }

  lemma MessageIsClean(env: Env, message: Json)
    ensures ErrorFree(SseEvents(env, message))
  {
    BlocksAreClean(env, ContentBlocks(message));
    hide BlocksEvents, ContentBlocks, Printed, StartEvent, DeltaEvent;
    assert StartEvent(env, message).MessageStart? && DeltaEvent(message).MessageDelta? by {
      HeadersAreEvents(env, message);
    }
  }

  lemma HeadersAreEvents(env: Env, message: Json)
    ensures StartEvent(env, message).MessageStart? && DeltaEvent(message).MessageDelta?
  {}

  /** Everything build_message returns can be printed and counted. */
  lemma BuiltMessages(env: Env, value: Json)
    requires env.ctx.estimatedInputTokens < U64_BOUND && MessageOf(env, value).Success?
    ensures var m := MessageOf(env, value).value; m.id != "" && m.content != [] && Countable(m)
  {
    hide ToolCalls, TextBlocks, ThinkingBlocks, NonEmptyTexts, WithRefusal, StopReason;
  }

  /**
   Print then parse: any message built from an upstream body survives being
   printed as events, framed as bytes, read by the SDK and assembled again.
   */
  lemma PrintThenParse(env: Env, utf8: Utf8, value: Json)
    requires env.codec.RoundTrips() && OneLine(env.codec) && utf8.Lawful()
    requires env.ctx.estimatedInputTokens < U64_BOUND && MessageOf(env, value).Success?
    ensures var m := MessageOf(env, value).value;
            var r := ReadEvents(env.codec, utf8, Print(env.codec, utf8, SseEvents(env, MessageJson(m))));
            && r.status == Done && EventsOf(r.events).Some?
            && Assemble(env.codec, EventsOf(r.events).value) == Some(m)
  {
    BuiltMessages(env, value);
    hide MessageOf, SseEvents, MessageJson, Print, ReadEvents, EventsOf, Assemble, OneLine;
    var m := MessageOf(env, value).value;
    var es := SseEvents(env, MessageJson(m));
    MessageIsClean(env, MessageJson(m));
    assert es + [] == es;
    PrintThenRead(env.codec, utf8, es, []);
    PrintedMessageAssembles(env, m);
  }

  // ---------------------------------------------------------------- a translated stream read by the SDK

  /** Only the last event of a stream can be an error. */
  lemma {:induction false} NoEarlyError(sign: string -> string, es: seq<Event>)
    requires ReadAll(sign, Opening, es) != Rejected
    ensures es != [] ==> ErrorFree(es[..|es| - 1])
    ensures es != [] && es[|es| - 1].Error? ==> ReadAll(sign, Opening, es) == Ended
    decreases |es|
  {
    if es != [] {
      var front := es[..|es| - 1];
      NoEarlyError(sign, front);
      if front != [] {
        var n := |front| - 1;
        assert !front[n].Error?;
        assert forall i :: 0 <= i < |front| ==> i == n || front[i] == front[..n][i];
      }
    }
  }

  /** The SDK yields every event of a finished stream, then stops or raises as the stream ended. */
  lemma {:induction false} StreamReadBack(env: Env, utf8: Utf8, es: seq<Event>)
    requires env.codec.RoundTrips() && OneLine(env.codec) && utf8.Lawful()
    requires ReadAll(env.signature, Opening, es) == Ended
    ensures var r := ReadEvents(env.codec, utf8, Print(env.codec, utf8, es));
            && es != []
            && (if es[|es| - 1].Error? then r.status == Raised && EventsOf(r.events) == Some(es[..|es| - 1])
                else r.status == Done && EventsOf(r.events) == Some(es))
  {
    NoEarlyError(env.signature, es);
    assert es != [];
    var n := |es| - 1;
    if !es[n].Error? {
      assert ErrorFree(es) by {
        assert forall i :: 0 <= i < n ==> es[i] == es[..n][i];
      }
    }
    hide *;
    if es[n].Error? {
      assert es[..n] + [es[n]] == es;
      PrintThenRead(env.codec, utf8, es[..n], [es[n]]);
    } else {
      assert es + [] == es;
      PrintThenRead(env.codec, utf8, es, []);
    }
  }

  // ---------------------------------------------------------------- the upstream wire

  /**
   The lines spell the frames: each line that carries a payload carries the text of the next frame,
   up to the end or to `[DONE]`, after which anything may follow. Comments, blank lines, other SSE
   fields, carriage returns, a missing space or a missing `data:` make no difference.
   */
  predicate Spells(env: Env, lines: seq<Bytes>, frames: seq<Json>)
    decreases |lines|
  {
    if lines == [] then frames == []
    else
      var data := Payload(env.lossy(lines[0]));
      if data.None? then Spells(env, lines[1..], frames)
      else if data.value == "[DONE]" then frames == []
      else frames != [] && env.codec.decode(data.value) == Some(frames[0]) && Spells(env, lines[1..], frames[1..])
  }

  /** What `finish` makes of a state with nothing left to flush. */
  function Ending(env: Env, s: State): State {
    if s.finished then s else Settle(env, Finalize(env, s))
  }

  lemma EndingFinishes(env: Env, s: State)
    requires Live(env, s)
    ensures Ending(env, s).finished
  {
    FinalizeEnds(env, s);
    var o := Finalize(env, s);
    hide Finalize;
    if o.error.Some? {
      EndWithEnds(env, o.st, Status(o.error.value), o.error.value);
    }
  }

  lemma AcceptedIsProcessed(env: Env, s: State, frame: Json)
    requires Accepted(frame)
    ensures ProcessValue(env, s, frame).error.None?
  {
    hide ProcessChoice, NoteHeader;
  }

  lemma {:induction false} ProcessFirst(env: Env, s: State, frames: seq<Json>)
    requires frames != []
    ensures ProcessAll(env, s, frames) == ProcessAll(env, ProcessValue(env, s, frames[0]).st, frames[1..])
    decreases |frames|
  {
    hide ProcessValue;
    var front := frames[..|frames| - 1];
    if front == [] {
      assert frames[1..] == [];
    } else {
      ProcessFirst(env, s, front);
      assert front[1..] == frames[1..][..|frames| - 2];
      assert frames[1..][|frames| - 2] == frames[|frames| - 1];
    }
  }

  /** One line of a live translator, by its payload. */
  lemma LineByPayload(env: Env, s: State, line: Bytes)
    requires Live(env, s)
    ensures var data := Payload(env.lossy(line));
            && (data.None? ==> LineStep(env, s, line) == s)
            && (data == Some("[DONE]") ==> LineStep(env, s, line) == Ending(env, s))
            && (data.Some? && data.value != "[DONE]" && env.codec.decode(data.value).Some?
                && Accepted(env.codec.decode(data.value).value)
                ==> LineStep(env, s, line) == ProcessValue(env, s, env.codec.decode(data.value).value).st)
  {
    var data := Payload(env.lossy(line));
    hide Payload, Finalize, ProcessValue, Fail;
    if data.Some? && env.codec.decode(data.value).Some? && Accepted(env.codec.decode(data.value).value) {
      AcceptedIsProcessed(env, s, env.codec.decode(data.value).value);
    }
  }

  /** Reading lines that spell frames, then finishing, is the frame-level run of the refinement theorem. */
  lemma {:induction false} SpelledRun(env: Env, s: State, lines: seq<Bytes>, frames: seq<Json>)
    requires Live(env, s) && Spells(env, lines, frames) && forall i :: 0 <= i < |frames| ==> Accepted(frames[i])
    ensures Ending(env, Lines(env, s, lines)) == Ending(env, ProcessAll(env, s, frames))
    decreases |lines|
  {
    if lines != [] {
      var data := Payload(env.lossy(lines[0]));
      hide Payload, LineStep, ProcessValue, Ending, Live, Accepted;
      LinesFirst(env, s, lines);
      LineByPayload(env, s, lines[0]);
      if data.None? {
        SpelledRun(env, s, lines[1..], frames);
      } else if data.value == "[DONE]" {
        EndingFinishes(env, s);
        LinesAfterEnd(env, Ending(env, s), lines[1..]);
        EndingTwice(env, s);
      } else {
        ValueKeeps(env, s, frames[0]);
        ProcessFirst(env, s, frames);
        SpelledRun(env, ProcessValue(env, s, frames[0]).st, lines[1..], frames[1..]);
      }
    }
  }

  lemma EndingTwice(env: Env, s: State)
    requires Ending(env, s).finished
    ensures Ending(env, Ending(env, s)) == Ending(env, s)
  {}

  predicate SaysDone(env: Env, lines: seq<Bytes>) {
    exists k :: 0 <= k < |lines| && Payload(env.lossy(lines[k])) == Some("[DONE]")
  }

  /** A `[DONE]` line ends the stream there and then. */
  lemma {:induction false} DoneEnds(env: Env, s: State, lines: seq<Bytes>, more: seq<Bytes>, frames: seq<Json>)
    requires Live(env, s) && Spells(env, lines + more, frames) && forall i :: 0 <= i < |frames| ==> Accepted(frames[i])
    requires SaysDone(env, lines)
    ensures Lines(env, s, lines).finished
    decreases |lines|
  {
    var k :| 0 <= k < |lines| && Payload(env.lossy(lines[k])) == Some("[DONE]");
    var data := Payload(env.lossy(lines[0]));
    assert (lines + more)[0] == lines[0] && (lines + more)[1..] == lines[1..] + more;
    hide Payload, LineStep, ProcessValue, Ending, Live, Accepted;
    LinesFirst(env, s, lines);
    LineByPayload(env, s, lines[0]);
    if data == Some("[DONE]") {
      EndingFinishes(env, s);
      LinesAfterEnd(env, Ending(env, s), lines[1..]);
    } else {
      assert lines[1..][k - 1] == lines[k];
      if data.None? {
        DoneEnds(env, s, lines[1..], more, frames);
      } else {
        ValueKeeps(env, s, frames[0]);
        DoneEnds(env, ProcessValue(env, s, frames[0]).st, lines[1..], more, frames[1..]);
      }
    }
  }

  /** The lines of a stream, the unterminated one at its end included. */
  function LinesOf(data: Bytes): seq<Bytes> {
    Complete(data) + [Tail(data)]
  }

  /** The bytes spell the frames, on lines that fit the limit as long as the stream is live. */
  ghost predicate Wire(env: Env, data: Bytes, frames: seq<Json>) {
    LinesFit(env, data + [LF]) && Spells(env, LinesOf(data), frames)
  }

  lemma InitialIsLive(env: Env)
    ensures Live(env, INITIAL)
  {}

  /** However the wire is cut, the finished translator ends as the frame-level run does; after `[DONE]` it has already. */
  lemma WireFeeds(env: Env, frames: seq<Json>, chunks: seq<Bytes>)
    requires KeepsLines(env) && StreamDomain(frames) && Wire(env, Flatten(chunks), frames)
    ensures Finish(env, FeedAll(env, NEW_SESSION, chunks)).st == StreamEnd(env, frames)
    ensures SaysDone(env, Complete(Flatten(chunks))) ==> FeedAll(env, NEW_SESSION, chunks).st == StreamEnd(env, frames)
  {
    var data := Flatten(chunks);
    StreamFollows(env, frames);
    InitialIsLive(env);
    hide FeedAll, Lines, Complete, Tail, Finalize, ProcessAll, Spells, Live, Accepted, StreamDomain, Told, Follows, SaysDone;
    SpelledRun(env, INITIAL, LinesOf(data), frames);
    StreamIsLive(env, frames);
    WholeThenFinish(env, chunks);
    assert Ending(env, ProcessAll(env, INITIAL, frames)) == StreamEnd(env, frames) by {
      LiveIsUnfinished(env, ProcessAll(env, INITIAL, frames));
    }
    if SaysDone(env, Complete(data)) {
      DoneEnds(env, INITIAL, Complete(data), [Tail(data)], frames);
      PrefixFits(env, data, [LF]);
      FeedAllIsWhole(env, chunks);
      FinishedStays(env, FeedAll(env, NEW_SESSION, chunks));
    }
  }

  lemma LiveIsUnfinished(env: Env, s: State)
    requires Live(env, s)
    ensures !s.finished
  {}

  lemma FinishedStays(env: Env, s: Session)
    requires s.st.finished
    ensures Finish(env, s) == s
  {}

  /** Feeding in any chunks and then finishing is reading all lines and then ending. */
  lemma WholeThenFinish(env: Env, chunks: seq<Bytes>)
    requires KeepsLines(env) && LinesFit(env, Flatten(chunks) + [LF])
    ensures Finish(env, FeedAll(env, NEW_SESSION, chunks)).st == Ending(env, Lines(env, INITIAL, LinesOf(Flatten(chunks))))
  {
    hide FeedAll, Lines, Complete, Tail, Finalize, LinesFit, Fail;
    var data, y := Flatten(chunks), chunks + [[LF]];
    FlattenAppend(chunks, [[LF]]);
    FlattenSingle([LF]);
    FinalNewline(env, chunks, y);
    FeedAllIsWhole(env, y);
    TailCompleted(data);
  }

  // ---------------------------------------------------------------- the usual wire

  function Unlines(lines: seq<Bytes>): Bytes {
    if lines == [] then [] else Unlines(lines[..|lines| - 1]) + (lines[|lines| - 1] + [LF])
  }

  lemma {:induction false} UnlinesSplit(lines: seq<Bytes>)
    requires forall i :: 0 <= i < |lines| ==> LF !in lines[i]
    ensures Complete(Unlines(lines)) == lines && Tail(Unlines(lines)) == []
    decreases |lines|
  {
    if lines == [] {
      NoLine([]);
    } else {
      hide Complete, Tail;
      var front, last := lines[..|lines| - 1], lines[|lines| - 1];
      UnlinesSplit(front);
      SplitConcat(Unlines(front), last + [LF]);
      assert [] + (last + [LF]) == last + [LF];
      NoLine(last);
      TailCompleted(last);
      assert [] + [last] == [last];
      assert front + [last] == lines;
    }
  }

  function UpstreamLine(env: Env, utf8: Utf8, frame: Json): Bytes {
    utf8.encode("data: " + env.codec.encode(frame))
  }

  /** Each frame is a data line and a blank line. */
  function FrameWire(env: Env, utf8: Utf8, frames: seq<Json>): seq<Bytes> {
    if frames == [] then []
    else FrameWire(env, utf8, frames[..|frames| - 1]) + [UpstreamLine(env, utf8, frames[|frames| - 1]), []]
  }

  function WireLines(env: Env, utf8: Utf8, frames: seq<Json>): seq<Bytes> {
    FrameWire(env, utf8, frames) + [utf8.encode("data: [DONE]"), []]
  }

  ghost predicate WireLaws(env: Env, utf8: Utf8) {
    && env.codec.RoundTrips() && OneLine(env.codec) && utf8.Lawful()
    && (forall s :: env.lossy(utf8.encode(s)) == s)
  }

  lemma BracedPayload(t: string)
    requires Braced(t)
    ensures Payload("data: " + t) == Some(t)
  {
    var line := "data: " + t;
    assert line[|line| - 1] == '}';
    assert line[..5] == "data:" && line[5..] == " " + t;
    assert "data:" <= line;
    assert (" " + t)[1..] == t;
    assert TrimStart(" " + t) == TrimStart(t) == t;
    assert TrimEnd(t) == t;
  }

  lemma DonePayload()
    ensures Payload("data: [DONE]") == Some("[DONE]")
    ensures Payload("") == None
  {
    var line := "data: [DONE]";
    assert line[|line| - 1] == ']' && TrimEndCr(line) == line;
    assert line[..5] == "data:" && line[5..] == " [DONE]";
    assert " [DONE]"[1..] == "[DONE]";
    assert TrimStart(" [DONE]") == TrimStart("[DONE]") == "[DONE]";
    assert TrimEnd("[DONE]") == "[DONE]";
  }

  lemma {:induction false} WireHasNoStrayNewline(env: Env, utf8: Utf8, frames: seq<Json>)
    requires WireLaws(env, utf8)
    ensures forall l :: l in FrameWire(env, utf8, frames) ==> LF !in l
    decreases |frames|
  {
    if frames != [] {
      WireHasNoStrayNewline(env, utf8, frames[..|frames| - 1]);
      var line := "data: " + env.codec.encode(frames[|frames| - 1]);
      assert '\n' !in line && '\r' !in line;
    }
  }

  lemma WireSplits(env: Env, utf8: Utf8, frames: seq<Json>)
    requires WireLaws(env, utf8)
    ensures Complete(Unlines(WireLines(env, utf8, frames))) == WireLines(env, utf8, frames)
    ensures Tail(Unlines(WireLines(env, utf8, frames))) == []
  {
    WireHasNoStrayNewline(env, utf8, frames);
    var lines := WireLines(env, utf8, frames);
    assert '\n' !in "data: [DONE]" && '\r' !in "data: [DONE]";
    forall i | 0 <= i < |lines| ensures LF !in lines[i] {
      if i < |FrameWire(env, utf8, frames)| {
        assert lines[i] in FrameWire(env, utf8, frames);
      }
    }
    UnlinesSplit(lines);
  }

  lemma {:induction false} SpellsAppend(env: Env, a: seq<Bytes>, b: seq<Bytes>, x: seq<Json>, y: seq<Json>)
    requires Spells(env, a, x) && !SaysDone(env, a) && Spells(env, b, y)
    ensures Spells(env, a + b, x + y)
    decreases |a|
  {
    hide Payload;
    if a == [] {
      assert a + b == b && x + y == y;
    } else {
      assert (a + b)[0] == a[0] && (a + b)[1..] == a[1..] + b;
      var data := Payload(env.lossy(a[0]));
      assert data != Some("[DONE]");
      assert forall k :: 0 <= k < |a[1..]| ==> a[1..][k] == a[k + 1];
      if data.None? {
        SpellsAppend(env, a[1..], b, x, y);
      } else {
        assert (x + y)[0] == x[0] && (x + y)[1..] == x[1..] + y;
        SpellsAppend(env, a[1..], b, x[1..], y);
      }
    }
  }

  lemma OneFrameSpells(env: Env, utf8: Utf8, frame: Json)
    requires WireLaws(env, utf8) && frame.Obj?
    ensures Spells(env, [UpstreamLine(env, utf8, frame), []], [frame])
    ensures !SaysDone(env, [UpstreamLine(env, utf8, frame), []])
  {
    var lines, t := [UpstreamLine(env, utf8, frame), []], env.codec.encode(frame);
    BracedPayload(t);
    DonePayload();
    assert env.lossy(utf8.encode("data: " + t)) == "data: " + t;
    assert env.lossy([]) == "" by {
      assert env.lossy(utf8.encode("")) == "";
    }
    assert env.codec.decode(t) == Some(frame) && t != "[DONE]";
    hide Payload;
    assert lines[1..] == [[]] && lines[1..][1..] == [] && [frame][1..] == [];
    assert Spells(env, [], []);
    assert Spells(env, [[]], []);
  }

  lemma {:induction false} FramesSpell(env: Env, utf8: Utf8, frames: seq<Json>)
    requires WireLaws(env, utf8) && forall i :: 0 <= i < |frames| ==> frames[i].Obj?
    ensures Spells(env, FrameWire(env, utf8, frames), frames) && !SaysDone(env, FrameWire(env, utf8, frames))
    decreases |frames|
  {
    if frames != [] {
      var front, last := frames[..|frames| - 1], frames[|frames| - 1];
      var a, b := FrameWire(env, utf8, front), [UpstreamLine(env, utf8, last), []];
      FramesSpell(env, utf8, front);
      OneFrameSpells(env, utf8, last);
      hide Spells, UpstreamLine, WireLaws, Payload;
      SpellsAppend(env, a, b, front, [last]);
      assert front + [last] == frames;
      assert FrameWire(env, utf8, frames) == a + b;
      forall k | 0 <= k < |a + b| ensures Payload(env.lossy((a + b)[k])) != Some("[DONE]") {
        assert k < |a| ==> (a + b)[k] == a[k];
        assert k >= |a| ==> (a + b)[k] == b[k - |a|];
      }
    }
  }

  lemma DoneSpells(env: Env, utf8: Utf8)
    requires WireLaws(env, utf8)
    ensures Payload(env.lossy(utf8.encode("data: [DONE]"))) == Some("[DONE]")
    ensures Spells(env, [utf8.encode("data: [DONE]"), []] + [[]], [])
  {
    DonePayload();
    assert env.lossy(utf8.encode("data: [DONE]")) == "data: [DONE]";
    hide Payload;
  }

  /** Data lines and blank lines, ended by `[DONE]`: what upstreams send spells their frames. */
  lemma UsualWire(env: Env, utf8: Utf8, frames: seq<Json>)
    requires WireLaws(env, utf8) && forall i :: 0 <= i < |frames| ==> frames[i].Obj?
    requires forall l :: l in WireLines(env, utf8, frames) ==> |l| <= LINE_LIMIT
    ensures Wire(env, Unlines(WireLines(env, utf8, frames)), frames)
    ensures SaysDone(env, Complete(Unlines(WireLines(env, utf8, frames))))
  {
    var lines := WireLines(env, utf8, frames);
    hide *;
    WireSplits(env, utf8, frames);
    UsualLinesSpell(env, utf8, frames);
    UsualLinesFit(env, Unlines(lines), lines, frames);
  }

  lemma UsualLinesSpell(env: Env, utf8: Utf8, frames: seq<Json>)
    requires WireLaws(env, utf8) && forall i :: 0 <= i < |frames| ==> frames[i].Obj?
    ensures Spells(env, WireLines(env, utf8, frames) + [[]], frames) && SaysDone(env, WireLines(env, utf8, frames))
  {
    var lines, done := WireLines(env, utf8, frames), [utf8.encode("data: [DONE]"), []];
    var a := FrameWire(env, utf8, frames);
    assert lines == a + done && lines[|a|] == done[0];
    hide WireLaws, Payload, UpstreamLine, FrameWire, Spells, WireLines;
    FramesSpell(env, utf8, frames);
    DoneSpells(env, utf8);
    SpellsAppend(env, a, done + [[]], frames, []);
    assert a + (done + [[]]) == lines + [[]] && frames + [] == frames;
  }

  lemma UsualLinesFit(env: Env, data: Bytes, lines: seq<Bytes>, frames: seq<Json>)
    requires Complete(data) == lines && Tail(data) == [] && Spells(env, lines + [[]], frames)
    requires forall l :: l in lines ==> |l| <= LINE_LIMIT
    ensures Wire(env, data, frames)
  {
    hide Complete, Tail, Lines, Spells;
    TailCompleted(data);
  }

  /** A stream that recorded an error has told the client so in its last event. */
  lemma ErrorIsLast(env: Env, o: Outcome)
    requires o.st.error.None? && (o.error.Some? ==> !o.st.finished) && Settle(env, o).error.Some?
    ensures var es := Settle(env, o).trace; es != [] && es[|es| - 1].Error?
  {}

  lemma StreamEndEnds(env: Env, frames: seq<Json>)
    requires StreamDomain(frames)
    ensures var end := StreamEnd(env, frames);
            && end.finished && end.trace != [] && PhaseOf(env, end) == Ended
            && (end.error.Some? <==> end.trace[|end.trace| - 1].Error?)
  {
    StreamFollows(env, frames);
    StreamIsLive(env, frames);
    var s := ProcessAll(env, INITIAL, frames);
    FinalizeEnds(env, s);
    var o := Finalize(env, s);
    if o.error.Some? {
      EndWithEnds(env, o.st, Status(o.error.value), o.error.value);
      ErrorIsLast(env, o);
    } else {
      assert o.st.trace[|o.st.trace| - 1] == MessageStop;
    }
  }

  lemma {:induction false} StreamIsLive(env: Env, frames: seq<Json>)
    ensures Live(env, ProcessAll(env, INITIAL, frames))
    decreases |frames|
  {
    if frames != [] {
      hide Live, ProcessValue;
      StreamIsLive(env, frames[..|frames| - 1]);
      ValueKeeps(env, ProcessAll(env, INITIAL, frames[..|frames| - 1]), frames[|frames| - 1]);
    }
  }

  /** The SDK user holds the message of the whole body, or an exception where it was refused. */
  predicate Delivers(codec: Codec, r: Reader, whole: Result<Message, BridgeError>) {
    if whole.Failure? then r.status == Raised
    else r.status == Done && EventsOf(r.events).Some?
         && SameButEstimate(Assemble(codec, EventsOf(r.events).value), whole.value)
  }

  lemma StreamDelivers(env: Env, utf8: Utf8, frames: seq<Json>, body: Json)
    requires env.codec.RoundTrips() && OneLine(env.codec) && utf8.Lawful()
    requires StreamDomain(frames) && WholeDomain(env.codec, body) && SameAnswer(env.codec, frames, body)
    ensures Delivers(env.codec, ReadEvents(env.codec, utf8, Print(env.codec, utf8, StreamEnd(env, frames).trace)),
                     MessageOf(env, body))
  {
    hide StreamDomain, WholeDomain, SameAnswer, MessageOf, Print, ReadEvents, EventsOf, Assemble, StreamEnd;
    hide OneLine, ReadAll, SameButEstimate;
    StreamingRefinesWhole(env, frames, body);
    StreamEndEnds(env, frames);
    StreamReadBack(env, utf8, StreamEnd(env, frames).trace);
  }

  /**
   The whole bridge, bytes to bytes. Upstream sends bytes that spell the frames, cut anywhere, with
   or without `[DONE]` and a final newline; the translated bytes are read by the SDK. The user gets
   the message the non-stream path builds from the same answer, and the SDK raises exactly when the
   non-stream path refuses the body.
   */
  lemma BytesRefineWhole(env: Env, utf8: Utf8, frames: seq<Json>, body: Json, chunks: seq<Bytes>)
    requires env.codec.RoundTrips() && OneLine(env.codec) && utf8.Lawful() && KeepsLines(env)
    requires StreamDomain(frames) && WholeDomain(env.codec, body) && SameAnswer(env.codec, frames, body)
    requires Wire(env, Flatten(chunks), frames)
    ensures var sent := Finish(env, FeedAll(env, NEW_SESSION, chunks)).st;
            && sent.finished
            && Delivers(env.codec, ReadEvents(env.codec, utf8, Print(env.codec, utf8, sent.trace)), MessageOf(env, body))
    ensures SaysDone(env, Complete(Flatten(chunks))) ==> FeedAll(env, NEW_SESSION, chunks).st.finished
  {
    hide *;
    WireFeeds(env, frames, chunks);
    StreamEndEnds(env, frames);
    StreamDelivers(env, utf8, frames, body);
  }
}
