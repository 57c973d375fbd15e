/** The stop reason of a stream, in terms of the events it sent (src/bridge/stream.rs). */
module StreamLaws {
  import opened Common
  import opened Json
  import opened Bridge
  import opened Response
  import opened Translator
  import opened EventGrammar
  import opened Chunking
  import opened ToolFragments
  import opened Client
  import opened Refinement
  import opened EndToEnd
  import opened MessageLaws

  /** Some tool call was sent. */
  predicate StartsTool(es: seq<Event>) {
    exists i :: 0 <= i < |es| && es[i].BlockStart? && es[i].kind.ToolKind?
  }

  predicate BeforeTools(p: Phase) {
    p.Opening? || p.Between? || p.InText? || p.InThinking? || p.Signed?
  }

  /** Tool blocks come last: while more can be said, none has been sent. */
  lemma {:induction false} NoToolYet(sign: string -> string, es: seq<Event>)
    requires BeforeTools(ReadAll(sign, Opening, es))
    ensures !StartsTool(es)
    decreases |es|
  {
    if es != [] {
      var front := es[..|es| - 1];
      NoToolYet(sign, front);
      forall i | 0 <= i < |es| ensures !(es[i].BlockStart? && es[i].kind.ToolKind?) {
        assert i < |front| ==> es[i] == front[i];
      }
    }
  }

  lemma {:induction false} ToolsStart(env: Env, s: State, tools: seq<Tool>, order: nat)
    requires order <= |tools| && SendTools(env, s, tools, order).error.None?
    ensures var t := SendTools(env, s, tools, order).st;
            StartsTool(t.trace) <==> StartsTool(s.trace) || order < |tools|
    decreases |tools| - order
  {
    if order < |tools| {
      NextTool(env, s, tools, order);
      var sent := SendTool(env, s, tools[order], order);
      assert sent.st.trace[|s.trace|].kind.ToolKind?;
      assert StartsTool(sent.st.trace);
      hide SendTool, SendTools, StartsTool;
      ToolsStart(env, sent.st, tools, order + 1);
    }
  }

  lemma SendStarts(es: seq<Event>, e: Event)
    ensures StartsTool(es + [e]) <==> StartsTool(es) || (e.BlockStart? && e.kind.ToolKind?)
  {
    var all := es + [e];
    assert all[|es|] == e && forall i :: 0 <= i < |es| ==> all[i] == es[i];
    if StartsTool(es) {
      var i :| 0 <= i < |es| && es[i].BlockStart? && es[i].kind.ToolKind?;
      assert all[i] == es[i];
    }
  }

  /** The two closing events of a stream that was not broken off. */
  ghost predicate Closes(es: seq<Event>, finish: Option<string>, tokens: nat) {
    var n := |es|;
    && n >= 2 && es[n - 1] == MessageStop && es[n - 2].MessageDelta? && es[n - 2].outputTokens == tokens
    && StopLaw(es[n - 2].stopReason, finish, StartsTool(es))
  }

  /** Sending the two closing events. */
  lemma ClosingEventsClose(s: State, finish: Option<string>, hasTools: bool, tokens: nat)
    requires StartsTool(s.trace) <==> hasTools
    ensures Closes(Send(Send(s, MessageDelta(StopReason(finish, hasTools), tokens)), MessageStop).trace, finish, tokens)
  {
    var delta := MessageDelta(StopReason(finish, hasTools), tokens);
    SendStarts(s.trace, delta);
    SendStarts(s.trace + [delta], MessageStop);
    StopReasonIsLawful(finish, hasTools);
    hide StartsTool, StopLaw, StopReason;
  }

  lemma FallbackStartsNone(s: State)
    ensures var t := SendFallback(s);
            && t.finishReason == s.finishReason && t.usageOutput == s.usageOutput
            && (StartsTool(t.trace) <==> StartsTool(s.trace))
  {
    SendStarts(s.trace, BlockStart(s.nextIndex, TextKind));
    SendStarts(s.trace + [BlockStart(s.nextIndex, TextKind)], BlockStop(s.nextIndex));
    hide StartsTool;
  }

  lemma ReadyStartsNone(env: Env, s: State)
    requires Live(env, s)
    ensures var ready := CloseOpen(env, EnsureStarted(env, s)).(tools := map[]);
            !StartsTool(ready.trace) && ready.finishReason == s.finishReason && ready.usageOutput == s.usageOutput
  {
    var ready := CloseOpen(env, EnsureStarted(env, s)).(tools := map[]);
    assert ready.finishReason == s.finishReason && ready.usageOutput == s.usageOutput;
    hide CloseOpen, EnsureStarted, Live;
    EventGrammar.ReadyKeeps(env, s);
    NoToolYet(env.signature, ready.trace);
  }

  lemma FinalizeCloses(env: Env, s: State)
    requires Live(env, s) && Finalize(env, s).error.None?
    ensures var t := Finalize(env, s).st;
            t.finishReason == s.finishReason && t.usageOutput == s.usageOutput && Closes(t.trace, s.finishReason, s.usageOutput)
  {
    hide EnsureStarted, CloseOpen, SendTools, SendFallback, InOrder, StopReason, StartsTool, Closes;
    var ready := CloseOpen(env, EnsureStarted(env, s)).(tools := map[]);
    var tools := InOrder(s.tools);
    ReadyStartsNone(env, s);
    ToolsStart(env, ready, tools, 0);
    KeepsReason(env, ready, tools, 0);
    var sent := SendTools(env, ready, tools, 0).st;
    FallbackStartsNone(sent);
    SlotsAreSent(s.tools);
    ClosingEventsClose(SendFallback(sent), s.finishReason, s.tools != map[], s.usageOutput);
  }

  lemma SlotsAreSent(tools: map<nat, Tool>)
    ensures |InOrder(tools)| > 0 <==> tools != map[]
  {}

  lemma {:induction false} KeepsReason(env: Env, s: State, tools: seq<Tool>, order: nat)
    requires order <= |tools|
    ensures var t := SendTools(env, s, tools, order).st;
            t.finishReason == s.finishReason && t.usageOutput == s.usageOutput
    decreases |tools| - order
  {
    if order < |tools| {
      NextTool(env, s, tools, order);
      var sent := SendTool(env, s, tools[order], order);
      assert sent.st.finishReason == s.finishReason && sent.st.usageOutput == s.usageOutput;
      hide SendTool, SendTools;
      if sent.error.None? {
        KeepsReason(env, sent.st, tools, order + 1);
      }
    }
  }

  ghost predicate Proper(s: State) {
    s.finished && s.error.None? ==> Closes(s.trace, s.finishReason, s.usageOutput)
  }

  lemma EndingIsProper(env: Env, s: State)
    requires Live(env, s)
    ensures Proper(Ending(env, s))
  {
    var o := Finalize(env, s);
    FinalizeEnds(env, s);
    if o.error.None? {
      FinalizeCloses(env, s);
    }
    hide Finalize, Closes;
  }

  lemma LineIsProper(env: Env, s: State, line: Bytes)
    requires Live(env, s)
    ensures var t := LineStep(env, s, line); Proper(t) && (!t.finished ==> Live(env, t))
  {
    LineKeeps(env, s, env.lossy(line));
    var data := Payload(env.lossy(line));
    if data == Some("[DONE]") {
      LineByPayload(env, s, line);
      EndingIsProper(env, s);
    } else if data.Some? && env.codec.decode(data.value).Some? {
      ValueKeeps(env, s, env.codec.decode(data.value).value);
    }
    hide Payload, Finalize, ProcessValue, Closes, Ending;
  }

  lemma {:induction false} LinesAreProper(env: Env, s: State, lines: seq<Bytes>)
    requires Proper(s) && (!s.finished ==> Live(env, s))
    ensures var t := Lines(env, s, lines); Proper(t) && (!t.finished ==> Live(env, t))
    decreases |lines|
  {
    if s.finished {
      LinesAfterEnd(env, s, lines);
    } else if lines != [] {
      hide Proper, Live, LineStep;
      LinesFirst(env, s, lines);
      LineIsProper(env, s, lines[0]);
      LinesAreProper(env, LineStep(env, s, lines[0]), lines[1..]);
    }
  }

  /**
   Every stream that ends without an error, whatever bytes it came from and however they were cut,
   closes with the stop reason that its last finish reason and its own tool blocks call for, and
   with the last output count it was told.
   */
  lemma StreamStopReason(env: Env, chunks: seq<Bytes>)
    requires KeepsLines(env) && LinesFit(env, Flatten(chunks) + [LF])
    ensures var st := Finish(env, FeedAll(env, NEW_SESSION, chunks)).st;
            st.finished && (st.error.None? ==> Closes(st.trace, st.finishReason, st.usageOutput))
  {
    InitialIsLive(env);
    LiveIsUnfinished(env, INITIAL);
    var lines := LinesOf(Flatten(chunks));
    var t := Lines(env, INITIAL, lines);
    LinesAreProper(env, INITIAL, lines);
    WholeThenFinish(env, chunks);
    if !t.finished {
      EndingIsProper(env, t);
      EndingFinishes(env, t);
    }
    hide Lines, Finalize, FeedAll, Closes, LinesFit, Live;
  }

  /** In the common domain that finish reason is the last one the frames told, and the blocks are the client's. */
  lemma AssembledStopReason(env: Env, frames: seq<Json>, body: Json)
    requires env.codec.RoundTrips()
    requires StreamDomain(frames) && WholeDomain(env.codec, body) && SameAnswer(env.codec, frames, body)
    ensures var seen := Assemble(env.codec, StreamEnd(env, frames).trace);
            seen.Some? ==> StopLaw(seen.value.stopReason, Told(frames).finish, HasToolUse(seen.value.content))
  {
    StreamingRefinesWhole(env, frames, body);
    if MessageOf(env, body).Success? {
      WholeStopReason(env, body);
      assert FinishReason(body) == StrAt(Choice(body.fields).value, "finish_reason");
    }
    hide MessageOf, Assemble, StreamEnd, StopLaw, HasToolUse, Told, StreamDomain;
  }

  // ---------------------------------------------------------------- the prompt tokens of the message start

  /** The prompt count of the first message_start. */
  function FirstStart(es: seq<Event>): Option<nat> {
    if es == [] then None
    else
      var before, last := FirstStart(es[..|es| - 1]), es[|es| - 1];
      if before.Some? then before else if last.MessageStart? then Some(last.inputTokens) else None
  }

  lemma FirstStartSnoc(es: seq<Event>, e: Event)
    ensures FirstStart(es + [e])
         == if FirstStart(es).Some? then FirstStart(es) else if e.MessageStart? then Some(e.inputTokens) else None
  {
    assert (es + [e])[..|es|] == es;
  }

  function Tokens(env: Env, prompt: nat): nat {
    if prompt > 0 then prompt else env.ctx.estimatedInputTokens
  }

  ghost predicate Begun(s: State) {
    s.started <==> FirstStart(s.trace).Some?
  }

  /** From `s` to `t` the start was sent if something was said and it had not been sent before. */
  ghost predicate StartsIf(env: Env, s: State, t: State, said: bool) {
    && Begun(t) && t.usageInput == s.usageInput
    && FirstStart(t.trace)
       == if FirstStart(s.trace).Some? then FirstStart(s.trace) else if said then Some(Tokens(env, s.usageInput)) else None
  }

  lemma CloseStarts(env: Env, s: State)
    requires Begun(s)
    ensures StartsIf(env, s, CloseOpen(env, s), false)
  {
    match s.open
    case NoBlock =>
    case OpenText(i) => FirstStartSnoc(s.trace, BlockStop(i));
    case OpenThinking(i, text) =>
      var signed := BlockDelta(i, SignatureDelta(env.signature(text)));
      FirstStartSnoc(s.trace, signed);
      FirstStartSnoc(s.trace + [signed], BlockStop(i));
  }

  lemma EnsureStarts(env: Env, s: State)
    requires Begun(s)
    ensures StartsIf(env, s, EnsureStarted(env, s), true)
  {
    if !s.started {
      var e := MessageStart(MessageId(env.ctx.requestId, s.upstreamId), env.ctx.publicModel,
                            if s.usageInput > 0 then s.usageInput else env.ctx.estimatedInputTokens);
      FirstStartSnoc(s.trace, e);
    }
    hide FirstStart, MessageId;
  }

  /** Opening a block and saying something in it. */
  lemma SaysStarts(env: Env, s: State, text: string)
    requires Begun(s) && (!s.open.NoBlock? ==> s.started)
    ensures StartsIf(env, s, EmitText(env, s, text), text != "") && StartsIf(env, s, EmitThinking(env, s, text), text != "")
    ensures (!EmitText(env, s, text).open.NoBlock? ==> EmitText(env, s, text).started)
    ensures (!EmitThinking(env, s, text).open.NoBlock? ==> EmitThinking(env, s, text).started)
  {
    if text != "" {
      EnsureStarts(env, s);
      var started := EnsureStarted(env, s);
      assert started.started && started.open == s.open;
      CloseStarts(env, started);
      var ready := CloseOpen(env, started);
      assert ready.started;
      FirstStartSnoc(ready.trace, BlockStart(ready.nextIndex, TextKind));
      FirstStartSnoc(ready.trace, BlockStart(ready.nextIndex, ThinkingKind));
      var t, u := OpenTextBlock(env, s), OpenThinkingBlock(env, s);
      FirstStartSnoc(t.trace, BlockDelta(t.open.index, TextDelta(text)));
      FirstStartSnoc(u.trace, BlockDelta(u.open.index, ThinkingDelta(text)));
      hide FirstStart, EnsureStarted, CloseOpen;
    }
  }

  lemma {:induction false} PartsStart(env: Env, s: State, parts: seq<Json>)
    requires Begun(s) && (!s.open.NoBlock? ==> s.started)
    ensures var t := EmitParts(env, s, parts);
            StartsIf(env, s, t, PartsWords(parts) != "") && (!t.open.NoBlock? ==> t.started)
    decreases |parts|
  {
    if parts != [] {
      var front, last := parts[..|parts| - 1], parts[|parts| - 1];
      assert StreamPart(last) == PartWords(last);
      hide EmitText, StreamPart, PartWords, FirstStart;
      PartsStart(env, s, front);
      SaysStarts(env, EmitParts(env, s, front), PartWords(last));
    }
  }

  lemma DeltaStarts(env: Env, s: State, delta: Fields)
    requires Begun(s) && (!s.open.NoBlock? ==> s.started)
    ensures var t := ProcessDelta(env, s, delta);
            && StartsIf(env, s, t, Reasoning(delta) != "" || ContentWords(At(delta, "content")) != "")
            && (!t.open.NoBlock? ==> t.started)
  {
    hide EmitText, EmitThinking, EmitParts, PartsWords, FirstStart, RouteAll, Fragments;
    SaysStarts(env, s, Reasoning(delta));
    var mid, content := EmitThinking(env, s, Reasoning(delta)), At(delta, "content");
    if content.Some? && content.value.Arr? {
      PartsStart(env, mid, content.value.items);
    } else if content.Some? && content.value.Str? {
      SaysStarts(env, mid, content.value.s);
    }
  }

  /** The last positive prompt count the frames reported. */
  function PromptTold(frames: seq<Json>): nat {
    if frames == [] then 0
    else
      var last := UsageFrom(frames[|frames| - 1]).0;
      if last > 0 then last else PromptTold(frames[..|frames| - 1])
  }

  /** The count of the first message_start: what had been reported when the first frame spoke, or the estimate. */
  function StartTold(env: Env, frames: seq<Json>): Option<nat> {
    if frames == [] then None
    else
      var before, last := StartTold(env, frames[..|frames| - 1]), frames[|frames| - 1];
      if before.Some? then before
      else if FrameThought(last) != "" || FrameText(last) != "" then Some(Tokens(env, PromptTold(frames)))
      else None
  }

  lemma ChoiceStarts(env: Env, s: State, choice: Fields)
    requires Begun(s) && (!s.open.NoBlock? ==> s.started)
    ensures var t, delta := ProcessChoice(env, s, choice), DeltaOf(choice);
            && StartsIf(env, s, t, delta.Some? && (Reasoning(delta.value) != "" || ContentWords(At(delta.value, "content")) != ""))
            && (!t.open.NoBlock? ==> t.started)
  {
    hide FirstStart, ProcessDelta, DeltaOf, ContentWords, Reasoning;
    var delta := DeltaOf(choice);
    if delta.Some? {
      DeltaStarts(env, s, delta.value);
    }
    var s1 := if delta.Some? then ProcessDelta(env, s, delta.value) else s;
    var reason := StrAt(choice, "finish_reason");
    if reason.Some? {
      CloseStarts(env, s1.(finishReason := reason));
    }
  }

  lemma FrameStarts(env: Env, s: State, frame: Json)
    requires Begun(s) && (!s.open.NoBlock? ==> s.started) && ToolFragments.Accepted(frame)
    ensures var t := ProcessValue(env, s, frame).st;
            var prompt := if UsageFrom(frame).0 > 0 then UsageFrom(frame).0 else s.usageInput;
            && Begun(t) && (!t.open.NoBlock? ==> t.started) && t.usageInput == prompt
            && FirstStart(t.trace)
               == if FirstStart(s.trace).Some? then FirstStart(s.trace)
                  else if FrameThought(frame) != "" || FrameText(frame) != "" then Some(Tokens(env, prompt)) else None
  {
    var noted := NoteHeader(s, frame);
    var choice := Choice(frame.fields);
    if choice.Some? {
      assert DeltaOf(choice.value) == FrameDelta(frame);
      ChoiceStarts(env, noted, choice.value);
    }
    hide FirstStart, ProcessChoice, UsageFrom, DeltaOf, ContentWords, Reasoning;
  }

  /**
   For all accepted frames: the message_start carries the last positive prompt count reported up to
   the frame that first spoke, or the estimate if there was none.
   */
  lemma {:induction false} StartTokensAreTold(env: Env, frames: seq<Json>)
    requires forall i :: 0 <= i < |frames| ==> ToolFragments.Accepted(frames[i])
    ensures var s := ProcessAll(env, INITIAL, frames);
            && FirstStart(s.trace) == StartTold(env, frames) && s.usageInput == PromptTold(frames)
            && Begun(s) && (!s.open.NoBlock? ==> s.started)
    decreases |frames|
  {
    if frames != [] {
      var front, last := frames[..|frames| - 1], frames[|frames| - 1];
      hide ProcessValue, FirstStart, UsageFrom, FrameThought, FrameText, ToolFragments.Accepted;
      StartTokensAreTold(env, front);
      FrameStarts(env, ProcessAll(env, INITIAL, front), last);
    }
  }
}
