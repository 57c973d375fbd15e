/** How a stream breaks: what is sent, what is remembered and what the SDK's user gets (src/bridge/stream.rs). */
module Failures {
  import opened Common
  import opened Json
  import opened Bridge
  import opened Translator
  import opened EventGrammar
  import opened Chunking
  import opened ToolFragments
  import opened SdkReader
  import opened Sdk
  import opened EndToEnd
  import MessageLaws

  // ---------------------------------------------------------------- one broken line

  /** The events that close whatever block is open. */
  function ClosingEvents(env: Env, open: OpenBlock): seq<Event> {
    match open
    case NoBlock => []
    case OpenText(i) => [BlockStop(i)]
    case OpenThinking(i, text) => [BlockDelta(i, SignatureDelta(env.signature(text))), BlockStop(i)]
  }

  /** From `s` the stream closes its open block, says why it breaks off, and is over. */
  ghost predicate Breaks(env: Env, s: State, t: State, status: nat, reason: BridgeError) {
    && t.finished && t.error == Some(reason)
    && t.trace == s.trace + ClosingEvents(env, s.open) + [Error(status, reason)]
  }

  lemma EndWithBreaks(env: Env, s: State, status: nat, reason: BridgeError)
    ensures Breaks(env, s, EndWith(env, s, status, reason), status, reason)
  {
    match s.open
    case NoBlock => assert s.trace + [] == s.trace;
    case OpenText(i) =>
    case OpenThinking(i, text) =>
      var signed := BlockDelta(i, SignatureDelta(env.signature(text)));
      assert s.trace + [signed] + [BlockStop(i)] == s.trace + [signed, BlockStop(i)];
  }

  /** Why a payload is not a frame: it is no JSON, no object, or it reports an error in its own words. */
  predicate Refused(codec: Codec, text: string, reason: BridgeError) {
    var v := codec.decode(text);
    if v.None? then reason == InvalidJson
    else if !v.value.Obj? then reason == NotAnObject
    else
      && "error" in v.value.fields && !v.value.fields["error"].Null?
      && reason.Reported? && MessageLaws.Tells(v.value.fields["error"], reason.message)
  }

  /** Exactly the payloads that are not accepted frames are refused. */
  lemma RefusedOrAccepted(codec: Codec, text: string)
    ensures (exists reason :: Refused(codec, text, reason))
            <==> !(codec.decode(text).Some? && Accepted(codec.decode(text).value))
  {
    var v := codec.decode(text);
    if v.None? {
      assert Refused(codec, text, InvalidJson);
    } else if !v.value.Obj? {
      assert Refused(codec, text, NotAnObject);
    } else if !Accepted(v.value) {
      var error := v.value.fields["error"];
      MessageLaws.ErrorTells(error);
      assert Refused(codec, text, Reported(Response.ErrorMessage(error)));
    }
  }

  /** A line with such a payload breaks the stream there and then, with the payload's own reason. */
  lemma BadLineBreaks(env: Env, s: State, line: Bytes, reason: BridgeError)
    requires !s.finished
    requires var data := Payload(env.lossy(line));
             data.Some? && data.value != "[DONE]" && Refused(env.codec, data.value, reason)
    ensures Breaks(env, s, LineStep(env, s, line), 502, reason)
  {
    var text := Payload(env.lossy(line)).value;
    var v := env.codec.decode(text);
    if v.Some? && v.value.Obj? {
      MessageLaws.ErrorTells(v.value.fields["error"]);
    }
    hide Payload, EndWith, Finalize, ProcessChoice, NoteHeader;
    EndWithBreaks(env, s, 502, reason);
  }

  /** A stream that fails in flight ends with the status and the words it was given; nothing buffered is used. */
  lemma AbortBreaks(env: Env, s: Session, status: nat, message: string)
    requires !s.st.finished
    ensures Breaks(env, s.st, Abort(env, s, status, message).st, status, Aborted(message))
  {
    hide EndWith;
    EndWithBreaks(env, s.st, status, Aborted(message));
  }

  /** A tail that outgrows the limit breaks the stream after the lines before it. */
  lemma LongTailBreaks(env: Env, s: Session, chunk: Bytes)
    requires !s.st.finished
    requires var data := s.buffer + chunk;
             !Lines(env, s.st, Complete(data)).finished && |Tail(data)| > 1024 * 1024
    ensures Breaks(env, Lines(env, s.st, Complete(s.buffer + chunk)), Feed(env, s, chunk).st, 502, LineTooLong)
  {
    hide EndWith, Lines, Complete, Tail;
    EndWithBreaks(env, Lines(env, s.st, Complete(s.buffer + chunk)), 502, LineTooLong);
  }

  /** A shorter tail is kept for the next chunk, and nothing breaks. */
  lemma ShortTailWaits(env: Env, s: Session, chunk: Bytes)
    requires !s.st.finished
    requires var data := s.buffer + chunk;
             !Lines(env, s.st, Complete(data)).finished && |Tail(data)| <= 1024 * 1024
    ensures Feed(env, s, chunk) == Session(Tail(s.buffer + chunk), Lines(env, s.st, Complete(s.buffer + chunk)))
  {
    hide Lines, Complete, Tail;
  }

  // ---------------------------------------------------------------- whole streams

  /** The lines carry the frames and then, before any `[DONE]`, a payload refused for this reason. */
  predicate SpellsUntil(env: Env, lines: seq<Bytes>, frames: seq<Json>, reason: BridgeError)
    decreases |lines|
  {
    lines != []
    && var data := Payload(env.lossy(lines[0]));
       if data.None? then SpellsUntil(env, lines[1..], frames, reason)
       else if data.value == "[DONE]" then false
       else if frames == [] then Refused(env.codec, data.value, reason)
       else
         && env.codec.decode(data.value) == Some(frames[0]) && Accepted(frames[0])
         && SpellsUntil(env, lines[1..], frames[1..], reason)
  }

  lemma {:induction false} BrokenRun(env: Env, s: State, lines: seq<Bytes>, frames: seq<Json>, reason: BridgeError)
    requires Live(env, s) && SpellsUntil(env, lines, frames, reason)
    ensures Breaks(env, ProcessAll(env, s, frames), Lines(env, s, lines), 502, reason)
    decreases |lines|
  {
    var data := Payload(env.lossy(lines[0]));
    LiveIsUnfinished(env, s);
    hide Payload, LineStep, ProcessValue, Live, Accepted, Refused, Breaks;
    LinesFirst(env, s, lines);
    LineByPayload(env, s, lines[0]);
    if data.None? {
      BrokenRun(env, s, lines[1..], frames, reason);
    } else if frames == [] {
      BadLineBreaks(env, s, lines[0], reason);
      var t := LineStep(env, s, lines[0]);
      assert t.finished by {
        BrokenIsFinished(env, s, t, 502, reason);
      }
      LinesAfterEnd(env, t, lines[1..]);
    } else {
      ValueKeeps(env, s, frames[0]);
      ProcessFirst(env, s, frames);
      BrokenRun(env, ProcessValue(env, s, frames[0]).st, lines[1..], frames[1..], reason);
    }
  }

  lemma BrokenIsFinished(env: Env, s: State, t: State, status: nat, reason: BridgeError)
    requires Breaks(env, s, t, status, reason)
    ensures t.finished && t.trace != [] && t.trace[|t.trace| - 1] == Error(status, reason)
  {}

  /** A broken stream obeys the event grammar. */
  lemma BrokenEnds(env: Env, s: State, t: State, status: nat, reason: BridgeError)
    requires Live(env, s) && Breaks(env, s, t, status, reason)
    ensures PhaseOf(env, t) == Ended
  {
    EndWithEnds(env, s, status, reason);
    EndWithBreaks(env, s, status, reason);
  }

  /**
   A stream with a frame that is not accepted, before any `[DONE]`, however it is cut: everything
   said before it is delivered, the open block is closed, the one error event carries the frame's
   own reason, nothing follows, and the SDK raises.
   */
  lemma BrokenStreamRaises(env: Env, utf8: Utf8, frames: seq<Json>, reason: BridgeError, chunks: seq<Bytes>)
    requires env.codec.RoundTrips() && OneLine(env.codec) && utf8.Lawful() && KeepsLines(env)
    requires LinesFit(env, Flatten(chunks) + [LF]) && SpellsUntil(env, LinesOf(Flatten(chunks)), frames, reason)
    ensures var st := Finish(env, FeedAll(env, NEW_SESSION, chunks)).st;
            var r := ReadEvents(env.codec, utf8, Print(env.codec, utf8, st.trace));
            && Breaks(env, ProcessAll(env, INITIAL, frames), st, 502, reason)
            && r.status == Raised && st.trace != []
            && EventsOf(r.events) == Some(st.trace[..|st.trace| - 1])
  {
    InitialIsLive(env);
    hide *;
    var lines := LinesOf(Flatten(chunks));
    BrokenRun(env, INITIAL, lines, frames, reason);
    StreamIsLive(env, frames);
    WholeThenFinish(env, chunks);
    var s, t := ProcessAll(env, INITIAL, frames), Lines(env, INITIAL, lines);
    BrokenIsFinished(env, s, t, 502, reason);
    FinishedIsItsEnding(env, t);
    BrokenEnds(env, s, t, 502, reason);
    PhaseIsRead(env, t);
    StreamReadBack(env, utf8, t.trace);
  }

  lemma FinishedIsItsEnding(env: Env, t: State)
    requires t.finished
    ensures Ending(env, t) == t
  {}

  lemma PhaseIsRead(env: Env, t: State)
    ensures PhaseOf(env, t) == ReadAll(env.signature, Opening, t.trace)
  {}
}
