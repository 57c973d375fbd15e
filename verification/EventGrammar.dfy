/**
 The grammar of a translated stream, and the proof that every run of feed,
 finish and abort calls, on any bytes, stays inside it.
 */
module EventGrammar {
  import opened Common
  import opened Json
  import opened Bridge
  import opened Response
  import opened Translator

  // ---------------------------------------------------------------- recogniser

  /** Where a reader of the stream is. */
  datatype Phase =
    | Opening
    | Between(next: nat)
    | InText(index: nat, empty: bool)
    | InThinking(index: nat, text: string)
    | Signed(index: nat)
    | InTool(index: nat, filled: bool)
    | AfterTool(next: nat)
    | AfterFallback
    | AwaitStop
    | Ended
    | Rejected

  function Read(sign: string -> string, p: Phase, e: Event): Phase {
    match p
    case Opening =>
      if e.MessageStart? then Between(0) else if e.Error? then Ended else Rejected
    case Between(n) =>
      if e.Error? then Ended
      else if e == BlockStart(n, TextKind) then InText(n, true)
      else if e == BlockStart(n, ThinkingKind) then InThinking(n, "")
      else if e.BlockStart? && e.index == n && e.kind.ToolKind? then InTool(n, false)
      else if e.MessageDelta? && n > 0 then AwaitStop
      else Rejected
    case InText(n, empty) =>
      if e.BlockDelta? && e.index == n && e.delta.TextDelta? && e.delta.text != "" then InText(n, false)
      else if e == BlockStop(n) then (if !empty then Between(n + 1) else if n == 0 then AfterFallback else Rejected)
      else Rejected
    case InThinking(n, text) =>
      if e.BlockDelta? && e.index == n && e.delta.ThinkingDelta? && e.delta.thinking != "" then
        InThinking(n, text + e.delta.thinking)
      else if text != "" && e == BlockDelta(n, SignatureDelta(sign(text))) then Signed(n)
      else Rejected
    case Signed(n) => if e == BlockStop(n) then Between(n + 1) else Rejected
    case InTool(n, filled) =>
      if !filled && e.BlockDelta? && e.index == n && e.delta.InputJsonDelta? then InTool(n, true)
      else if filled && e == BlockStop(n) then AfterTool(n + 1)
      else Rejected
    case AfterTool(n) =>
      if e.Error? then Ended
      else if e.BlockStart? && e.index == n && e.kind.ToolKind? then InTool(n, false)
      else if e.MessageDelta? then AwaitStop
      else Rejected
    case AfterFallback => if e.MessageDelta? then AwaitStop else Rejected
    case AwaitStop => if e.MessageStop? then Ended else Rejected
    case Ended => Rejected
    case Rejected => Rejected
  }

  function ReadAll(sign: string -> string, p: Phase, es: seq<Event>): Phase {
    if es == [] then p else Read(sign, ReadAll(sign, p, es[..|es| - 1]), es[|es| - 1])
  }

  lemma ReadOne(sign: string -> string, p: Phase, es: seq<Event>, e: Event)
    ensures ReadAll(sign, p, es + [e]) == Read(sign, ReadAll(sign, p, es), e)
  {
    assert (es + [e])[..|es|] == es;
  }

  lemma {:induction false} ReadConcat(sign: string -> string, p: Phase, a: seq<Event>, b: seq<Event>)
    ensures ReadAll(sign, p, a + b) == ReadAll(sign, ReadAll(sign, p, a), b)
    decreases |b|
  {
    if b == [] {
      assert a + b == a;
    } else {
      ReadConcat(sign, p, a, b[..|b| - 1]);
      assert (a + b)[..|a + b| - 1] == a + b[..|b| - 1];
    }
  }

  function PhaseOf(env: Env, s: State): Phase {
    ReadAll(env.signature, Opening, s.trace)
  }

  lemma SendReads(env: Env, s: State, e: Event)
    ensures PhaseOf(env, Send(s, e)) == Read(env.signature, PhaseOf(env, s), e)
  {
    ReadOne(env.signature, Opening, s.trace, e);
  }

  // ---------------------------------------------------------------- invariant

  /** The phase a live translator has reached is a function of its fields. */
  function LivePhase(s: State): Phase {
    if !s.started then Opening
    else
      match s.open
      case NoBlock => Between(s.nextIndex)
      case OpenText(i) => InText(i, false)
      case OpenThinking(i, text) => InThinking(i, text)
  }

  ghost predicate Live(env: Env, s: State) {
    && !s.finished
    && s.error.None?
    && PhaseOf(env, s) == LivePhase(s)
    && (!s.started ==> s.open.NoBlock? && s.nextIndex == 0)
    && (!s.open.NoBlock? ==> s.nextIndex == s.open.index + 1)
    && (s.open.OpenThinking? ==> s.open.text != "")
    && (s.emittedBlock <==> s.nextIndex > 0)
  }

  /** What every call keeps: a live translator fits its buffer, a finished one has ended its stream. */
  ghost predicate Good(env: Env, s: Session) {
    if s.st.finished then PhaseOf(env, s.st) == Ended
    else Live(env, s.st) && LF !in s.buffer && |s.buffer| <= LINE_LIMIT
  }

  lemma StartKeeps(env: Env, s: State)
    requires Live(env, s)
    ensures Live(env, EnsureStarted(env, s)) && EnsureStarted(env, s).started
  {
    if !s.started {
      var e := EnsureStarted(env, s).trace[|s.trace|];
      SendReads(env, s.(started := true), e);
    }
  }

  lemma CloseKeeps(env: Env, s: State)
    requires Live(env, s)
    ensures Live(env, CloseOpen(env, s)) && CloseOpen(env, s).open.NoBlock?
    ensures CloseOpen(env, s).started == s.started
  {
    var s0 := s.(open := NoBlock);
    hide ReadAll;
    assert PhaseOf(env, s0) == PhaseOf(env, s);
    match s.open
    case NoBlock =>
    case OpenText(i) => SendReads(env, s0, BlockStop(i));
    case OpenThinking(i, text) =>
      var signed := BlockDelta(i, SignatureDelta(env.signature(text)));
      SendReads(env, s0, signed);
      SendReads(env, Send(s0, signed), BlockStop(i));
  }

  /** A block is open in `s` and the reader agrees, though it may still be empty. */
  ghost predicate JustOpen(env: Env, s: State, p: Phase) {
    && !s.finished && s.error.None? && s.started && s.emittedBlock
    && !s.open.NoBlock? && s.nextIndex == s.open.index + 1
    && PhaseOf(env, s) == p
  }

  lemma ReadyKeeps(env: Env, s: State)
    requires Live(env, s)
    ensures var ready := CloseOpen(env, EnsureStarted(env, s));
            Live(env, ready) && ready.started && ready.open.NoBlock?
  {
    StartKeeps(env, s);
    CloseKeeps(env, EnsureStarted(env, s));
  }

  lemma OpenTextKeeps(env: Env, s: State)
    requires Live(env, s)
    ensures var t := OpenTextBlock(env, s);
            t.open.OpenText? && (JustOpen(env, t, InText(t.open.index, true)) || JustOpen(env, t, InText(t.open.index, false)))
  {
    if s.open.OpenText? {
      assert JustOpen(env, s, InText(s.open.index, false));
    } else {
      ReadyKeeps(env, s);
      hide EnsureStarted, CloseOpen, ReadAll;
      var ready := CloseOpen(env, EnsureStarted(env, s));
      var base := ready.(nextIndex := ready.nextIndex + 1, open := OpenText(ready.nextIndex), emittedBlock := true);
      var start := BlockStart(ready.nextIndex, TextKind);
      assert OpenTextBlock(env, s) == Send(base, start);
      assert PhaseOf(env, base) == PhaseOf(env, ready) == Between(ready.nextIndex);
      SendReads(env, base, start);
    }
  }

  lemma OpenThinkingKeeps(env: Env, s: State)
    requires Live(env, s)
    ensures var t := OpenThinkingBlock(env, s);
            t.open.OpenThinking? && JustOpen(env, t, InThinking(t.open.index, t.open.text))
  {
    if !s.open.OpenThinking? {
      ReadyKeeps(env, s);
      hide EnsureStarted, CloseOpen, ReadAll;
      var ready := CloseOpen(env, EnsureStarted(env, s));
      var base := ready.(nextIndex := ready.nextIndex + 1, open := OpenThinking(ready.nextIndex, ""), emittedBlock := true);
      var start := BlockStart(ready.nextIndex, ThinkingKind);
      assert OpenThinkingBlock(env, s) == Send(base, start);
      assert PhaseOf(env, base) == PhaseOf(env, ready) == Between(ready.nextIndex);
      SendReads(env, base, start);
    }
  }

  lemma TextKeeps(env: Env, s: State, text: string)
    requires Live(env, s)
    ensures Live(env, EmitText(env, s, text))
  {
    if text != "" {
      OpenTextKeeps(env, s);
      var t := OpenTextBlock(env, s);
      SendReads(env, t, BlockDelta(t.open.index, TextDelta(text)));
    }
  }

  lemma ThinkingKeeps(env: Env, s: State, text: string)
    requires Live(env, s)
    ensures Live(env, EmitThinking(env, s, text))
  {
    if text != "" {
      OpenThinkingKeeps(env, s);
      var t := OpenThinkingBlock(env, s);
      SendReads(env, t, BlockDelta(t.open.index, ThinkingDelta(text)));
    }
  }

  lemma {:induction false} PartsKeep(env: Env, s: State, parts: seq<Json>)
    requires Live(env, s)
    ensures Live(env, EmitParts(env, s, parts))
    decreases |parts|
  {
    if parts != [] {
      PartsKeep(env, s, parts[..|parts| - 1]);
      TextKeeps(env, EmitParts(env, s, parts[..|parts| - 1]), StreamPart(parts[|parts| - 1]));
    }
  }

  lemma DeltaKeeps(env: Env, s: State, delta: Fields)
    requires Live(env, s)
    ensures Live(env, ProcessDelta(env, s, delta))
  {
    hide EmitThinking, EmitText, EmitParts, RouteAll, Fragments, ReadAll;
    ThinkingKeeps(env, s, Reasoning(delta));
    var thought := EmitThinking(env, s, Reasoning(delta));
    var content := At(delta, "content");
    if content.Some? && content.value.Str? {
      TextKeeps(env, thought, content.value.s);
    } else if content.Some? && content.value.Arr? {
      PartsKeep(env, thought, content.value.items);
    }
  }

  lemma ValueKeeps(env: Env, s: State, value: Json)
    requires Live(env, s)
    ensures Live(env, ProcessValue(env, s, value).st)
  {
    if value.Obj? && !("error" in value.fields && !value.fields["error"].Null?) {
      var noted := NoteHeader(s, value);
      assert Live(env, noted);
      var choice := Choice(value.fields);
      if choice.Some? {
        var delta := DeltaOf(choice.value);
        if delta.Some? {
          DeltaKeeps(env, noted, delta.value);
        }
        var s1 := if delta.Some? then ProcessDelta(env, noted, delta.value) else noted;
        var reason := StrAt(choice.value, "finish_reason");
        if reason.Some? {
          CloseKeeps(env, s1.(finishReason := reason));
        }
      }
    }
  }

  // ---------------------------------------------------------------- endings

  /** Between two tool blocks of the closing sequence. */
  ghost predicate Closing(env: Env, s: State) {
    && !s.finished && s.open.NoBlock? && s.error.None?
    && (PhaseOf(env, s) == Between(s.nextIndex) || PhaseOf(env, s) == AfterTool(s.nextIndex))
    && (s.emittedBlock <==> s.nextIndex > 0)
    && (PhaseOf(env, s).AfterTool? ==> s.emittedBlock)
  }

  lemma ToolBlockReads(env: Env, s: State, kind: BlockKind, fill: string)
    requires kind.ToolKind?
    requires PhaseOf(env, s) == Between(s.nextIndex) || PhaseOf(env, s) == AfterTool(s.nextIndex)
    ensures var n := s.nextIndex;
            PhaseOf(env, Send(Send(Send(s, BlockStart(n, kind)), BlockDelta(n, InputJsonDelta(fill))), BlockStop(n)))
            == AfterTool(n + 1)
  {
    var s1 := Send(s, BlockStart(s.nextIndex, kind));
    SendReads(env, s, BlockStart(s.nextIndex, kind));
    assert PhaseOf(env, s1) == InTool(s.nextIndex, false);
    var s2 := Send(s1, BlockDelta(s.nextIndex, InputJsonDelta(fill)));
    SendReads(env, s1, BlockDelta(s.nextIndex, InputJsonDelta(fill)));
    assert PhaseOf(env, s2) == InTool(s.nextIndex, true);
    SendReads(env, s2, BlockStop(s.nextIndex));
  }

  lemma ToolKeeps(env: Env, s: State, t: Tool, order: nat)
    requires Closing(env, s)
    ensures Closing(env, SendTool(env, s, t, order).st)
  {
    var input := ToolInput(env.codec, Some(Str(t.arguments)));
    if t.name.Some? && input.Success? {
      var id := GetOr(t.id, SyntheticToolId(env.ctx.requestId, order));
      ToolBlockReads(env, s, ToolKind(id, t.name.value), env.codec.encode(input.value));
      assert PhaseOf(env, SendTool(env, s, t, order).st) == AfterTool(s.nextIndex + 1);
    }
  }

  lemma {:induction false} ToolsKeep(env: Env, s: State, tools: seq<Tool>, order: nat)
    requires Closing(env, s) && order <= |tools|
    ensures Closing(env, SendTools(env, s, tools, order).st)
    decreases |tools| - order
  {
    if order < |tools| {
      ToolKeeps(env, s, tools[order], order);
      var sent := SendTool(env, s, tools[order], order);
      if sent.error.None? {
        ToolsKeep(env, sent.st, tools, order + 1);
      }
    }
  }

  lemma FallbackReads(env: Env, s: State)
    requires Closing(env, s)
    ensures var p := PhaseOf(env, SendFallback(s)); p == AfterFallback || p.AfterTool? || (p.Between? && p.next > 0)
  {
    if !s.emittedBlock {
      SendReads(env, s, BlockStart(s.nextIndex, TextKind));
      SendReads(env, Send(s, BlockStart(s.nextIndex, TextKind)), BlockStop(s.nextIndex));
    }
  }

  lemma EndingReads(env: Env, s: State, delta: Event)
    requires delta.MessageDelta?
    requires var p := PhaseOf(env, s); p == AfterFallback || p.AfterTool? || (p.Between? && p.next > 0)
    ensures PhaseOf(env, Send(Send(s, delta), MessageStop)) == Ended
  {
    SendReads(env, s, delta);
    SendReads(env, Send(s, delta), MessageStop);
  }

  lemma FinalizeEnds(env: Env, s: State)
    requires Live(env, s)
    ensures var o := Finalize(env, s);
            if o.error.Some? then Closing(env, o.st)
            else o.st.finished && o.st.error.None? && PhaseOf(env, o.st) == Ended
  {
    ReadyKeeps(env, s);
    var ready := CloseOpen(env, EnsureStarted(env, s)).(tools := map[]);
    var sent := SendTools(env, ready, InOrder(s.tools), 0);
    ToolsKeep(env, ready, InOrder(s.tools), 0);
    if sent.error.None? {
      FallbackReads(env, sent.st);
      var filled := SendFallback(sent.st);
      var delta := MessageDelta(StopReason(s.finishReason, s.tools != map[]), s.usageOutput);
      EndingReads(env, filled, delta);
    }
  }

  /** An error event may close the stream from any live state and between tool blocks. */
  lemma EndWithEnds(env: Env, s: State, status: nat, reason: BridgeError)
    requires Live(env, s) || Closing(env, s)
    ensures var t := EndWith(env, s, status, reason);
            t.finished && t.error == Some(reason) && PhaseOf(env, t) == Ended
  {
    if Live(env, s) {
      CloseKeeps(env, s);
    }
    SendReads(env, CloseOpen(env, s), Error(status, reason));
  }

  lemma LineKeeps(env: Env, s: State, line: string)
    requires Live(env, s)
    ensures var t := TextStep(env, s, line);
            if t.finished then PhaseOf(env, t) == Ended else Live(env, t)
  {
    var data := Payload(line);
    var o := ProcessLine(env, s, line);
    if data.Some? {
      if data.value == "[DONE]" {
        FinalizeEnds(env, s);
      } else if env.codec.decode(data.value).Some? {
        ValueKeeps(env, s, env.codec.decode(data.value).value);
      }
    }
    if o.error.Some? {
      EndWithEnds(env, o.st, Status(o.error.value), o.error.value);
    }
  }

  lemma {:induction false} LinesKeep(env: Env, s: State, lines: seq<Bytes>)
    requires if s.finished then PhaseOf(env, s) == Ended else Live(env, s)
    ensures var t := Lines(env, s, lines);
            if t.finished then PhaseOf(env, t) == Ended else Live(env, t)
    decreases |lines|
  {
    if lines != [] {
      if !s.finished {
        LineKeeps(env, s, env.lossy(lines[0]));
      }
      LinesKeep(env, LineStep(env, s, lines[0]), lines[1..]);
    }
  }

  lemma {:induction false} TextLinesKeep(env: Env, s: State, lines: seq<string>)
    requires if s.finished then PhaseOf(env, s) == Ended else Live(env, s)
    ensures var t := TextLines(env, s, lines);
            if t.finished then PhaseOf(env, t) == Ended else Live(env, t)
    decreases |lines|
  {
    if lines != [] {
      if !s.finished {
        LineKeeps(env, s, lines[0]);
      }
      TextLinesKeep(env, TextStep(env, s, lines[0]), lines[1..]);
    }
  }

  // ---------------------------------------------------------------- runs

  /** What the proxy may do with a translator. */
  datatype Op =
    | FeedOp(chunk: Bytes)
    | FinishOp
    | AbortOp(status: nat, message: string)

  function Apply(env: Env, s: Session, op: Op): Session {
    match op
    case FeedOp(chunk) => Feed(env, s, chunk)
    case FinishOp => Finish(env, s)
    case AbortOp(status, message) => Abort(env, s, status, message)
  }

  function Run(env: Env, s: Session, ops: seq<Op>): Session {
    if ops == [] then s else Apply(env, Run(env, s, ops[..|ops| - 1]), ops[|ops| - 1])
  }

  lemma FinishKeeps(env: Env, s: Session)
    requires Good(env, s)
    ensures Good(env, Finish(env, s)) && Finish(env, s).st.finished
  {
    if !s.st.finished {
      TextLinesKeep(env, s.st, SplitText(env.lossy(s.buffer)));
      var flushed := Flush(env, s.st, s.buffer);
      if !flushed.finished {
        FinalizeEnds(env, flushed);
        var o := Finalize(env, flushed);
        if o.error.Some? {
          EndWithEnds(env, o.st, Status(o.error.value), o.error.value);
        }
      }
    }
  }

  /** Each call keeps the invariant; finish and abort always end the stream. */
  lemma ApplyKeeps(env: Env, s: Session, op: Op)
    requires Good(env, s)
    ensures Good(env, Apply(env, s, op))
    ensures !op.FeedOp? ==> Apply(env, s, op).st.finished
  {
    if !s.st.finished {
      match op
      case FeedOp(chunk) =>
        var data := s.buffer + chunk;
        LinesKeep(env, s.st, Complete(data));
        var done := Lines(env, s.st, Complete(data));
        if !done.finished {
          EndWithEnds(env, done, 502, LineTooLong);
        }
      case FinishOp => FinishKeeps(env, s);
      case AbortOp(status, message) => EndWithEnds(env, s.st, status, Aborted(message));
    }
  }

  /** Every reachable session is good, whatever calls are made on whatever bytes. */
  lemma {:induction false} RunKeeps(env: Env, ops: seq<Op>)
    ensures Good(env, Run(env, NEW_SESSION, ops))
    decreases |ops|
  {
    if ops != [] {
      RunKeeps(env, ops[..|ops| - 1]);
      ApplyKeeps(env, Run(env, NEW_SESSION, ops[..|ops| - 1]), ops[|ops| - 1]);
    }
  }

  /** Once a stream has ended, no later call adds anything or changes its status. */
  lemma {:induction false} EndedStaysEnded(env: Env, s: Session, ops: seq<Op>)
    requires s.st.finished
    ensures Run(env, s, ops) == s
    decreases |ops|
  {
    if ops != [] {
      EndedStaysEnded(env, s, ops[..|ops| - 1]);
    }
  }
}
