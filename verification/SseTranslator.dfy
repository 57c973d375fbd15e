/**
 The translator as the object the proxy holds (src/bridge/stream.rs). Every
 method is proved equal to the corresponding step of the state machine in
 Translator, so the theorems about that machine are about this class.
 */
module SseTranslator {
  import opened Common
  import opened Json
  import opened Bridge
  import opened Response
  import Spec = Translator
  import Chunking

  class SseTranslator {
    const env: Env
    var buffer: Bytes
    var started: bool
    var finished: bool
    var upstreamId: Option<string>
    var nextIndex: nat
    var open: Spec.OpenBlock
    var tools: map<nat, Spec.Tool>
    var finishReason: Option<string>
    var usageInput: nat
    var usageOutput: nat
    var emittedBlock: bool
    var error: Option<BridgeError>
    /** Everything handed out so far. */
    ghost var sent: seq<Event>

    ghost function St(): Spec.State
      reads this
    {
      Spec.State(started, finished, upstreamId, nextIndex, open, tools, finishReason,
                 usageInput, usageOutput, emittedBlock, error, sent)
    }

    ghost function Model(): Spec.Session
      reads this
    {
      Spec.Session(buffer, St())
    }

    constructor (env: Env)
      ensures this.env == env && Model() == Spec.NEW_SESSION
    {
      this.env := env;
      buffer, started, finished, upstreamId, nextIndex := [], false, false, None, 0;
      open, tools, finishReason := Spec.NoBlock, map[], None;
      usageInput, usageOutput, emittedBlock, error := 0, 0, false, None;
      sent := [];
    }

    // -------------------------------------------------------------- blocks

    method EnsureStarted() returns (out: seq<Event>)
      modifies this
      ensures St() == Spec.EnsureStarted(env, old(St())) && sent == old(sent) + out && buffer == old(buffer)
    {
      out := [];
      if !started {
        var id := MessageId(env.ctx.requestId, upstreamId);
        var inputTokens := if usageInput > 0 then usageInput else env.ctx.estimatedInputTokens;
        out := [MessageStart(id, env.ctx.publicModel, inputTokens)];
        started := true;
      }
      sent := sent + out;
    }

    method CloseOpen() returns (out: seq<Event>)
      modifies this
      ensures St() == Spec.CloseOpen(env, old(St())) && sent == old(sent) + out && buffer == old(buffer)
    {
      out := [];
      match open {
        case NoBlock =>
        case OpenText(index) =>
          out := [BlockStop(index)];
        case OpenThinking(index, text) =>
          out := [BlockDelta(index, SignatureDelta(env.signature(text)))] + [BlockStop(index)];
      }
      open := Spec.NoBlock;
      sent := sent + out;
    }

    method OpenTextBlock() returns (index: nat, out: seq<Event>)
      modifies this
      ensures St() == Spec.OpenTextBlock(env, old(St())) && sent == old(sent) + out && buffer == old(buffer)
      ensures open == Spec.OpenText(index)
    {
      out := [];
      if open.OpenText? {
        index := open.index;
        return;
      }
      hide Spec.EnsureStarted, Spec.CloseOpen;
      var header := EnsureStarted();
      var closing := CloseOpen();
      index := nextIndex;
      nextIndex := nextIndex + 1;
      open := Spec.OpenText(index);
      emittedBlock := true;
      Regroup(old(sent), header, closing);
      Regroup(old(sent), header + closing, [BlockStart(index, TextKind)]);
      out := header + closing + [BlockStart(index, TextKind)];
      sent := sent + [BlockStart(index, TextKind)];
    }

    method OpenThinkingBlock() returns (index: nat, out: seq<Event>)
      modifies this
      ensures St() == Spec.OpenThinkingBlock(env, old(St())) && sent == old(sent) + out && buffer == old(buffer)
      ensures open.OpenThinking? && open.index == index
    {
      out := [];
      if open.OpenThinking? {
        index := open.index;
        return;
      }
      hide Spec.EnsureStarted, Spec.CloseOpen;
      var header := EnsureStarted();
      var closing := CloseOpen();
      index := nextIndex;
      nextIndex := nextIndex + 1;
      open := Spec.OpenThinking(index, "");
      emittedBlock := true;
      Regroup(old(sent), header, closing);
      Regroup(old(sent), header + closing, [BlockStart(index, ThinkingKind)]);
      out := header + closing + [BlockStart(index, ThinkingKind)];
      sent := sent + [BlockStart(index, ThinkingKind)];
    }

    method EmitText(text: string) returns (out: seq<Event>)
      modifies this
      ensures St() == Spec.EmitText(env, old(St()), text) && sent == old(sent) + out && buffer == old(buffer)
    {
      out := [];
      if text == "" {
        return;
      }
      var index;
      index, out := OpenTextBlock();
      out := out + [BlockDelta(index, TextDelta(text))];
      sent := sent + [BlockDelta(index, TextDelta(text))];
      emittedBlock := true;
    }

    method EmitThinking(text: string) returns (out: seq<Event>)
      modifies this
      ensures St() == Spec.EmitThinking(env, old(St()), text) && sent == old(sent) + out && buffer == old(buffer)
    {
      out := [];
      if text == "" {
        return;
      }
      var index;
      index, out := OpenThinkingBlock();
      open := Spec.OpenThinking(index, open.text + text);
      out := out + [BlockDelta(index, ThinkingDelta(text))];
      sent := sent + [BlockDelta(index, ThinkingDelta(text))];
      emittedBlock := true;
    }

    method EmitContent(content: Option<Json>) returns (out: seq<Event>)
      modifies this
      ensures St() == Spec.EmitContent(env, old(St()), content) && sent == old(sent) + out && buffer == old(buffer)
    {
      hide Spec.EmitText, Spec.EmitParts;
      out := [];
      if content.None? {
        return;
      }
      if content.value.Str? {
        out := EmitText(content.value.s);
      } else if content.value.Arr? {
        out := EmitParts(content.value.items);
      }
    }

    method EmitParts(parts: seq<Json>) returns (out: seq<Event>)
      modifies this
      ensures St() == Spec.EmitParts(env, old(St()), parts) && sent == old(sent) + out && buffer == old(buffer)
    {
      hide Spec.EmitText, Spec.StreamPart, Spec.EmitParts;
      out := [];
      NoParts(env, St(), parts);
      for i := 0 to |parts|
        invariant St() == Spec.EmitParts(env, old(St()), parts[..i])
        invariant sent == old(sent) + out && buffer == old(buffer)
      {
        NextPart(env, old(St()), parts, i);
        var more := EmitText(Spec.StreamPart(parts[i]));
        out := out + more;
      }
      assert parts[..|parts|] == parts;
    }

    // -------------------------------------------------------------- tool fragments

    method TakeFragment(f: Spec.Fragment)
      modifies this`tools
      ensures St() == old(St()).(tools := Spec.Route(env.codec, old(tools), f))
    {
      var slot := Spec.Slot(f);
      var state := if slot in tools then tools[slot] else Spec.NEW_TOOL;
      tools := tools[slot := Spec.Absorb(env.codec, state, f)];
    }

    method TakeFragments(delta: Fields)
      modifies this`tools
      ensures St() == old(St()).(tools := Spec.RouteAll(env.codec, old(tools), Spec.Fragments(delta)))
    {
      var calls := GetOr(ArrAt(delta, "tool_calls"), []);
      for position := 0 to |calls|
        invariant St() == old(St()).(tools := Spec.RouteAll(env.codec, old(tools), Spec.CallFragments(calls, position)))
      {
        var call := calls[position];
        if call.Obj? {
          var f := Spec.Call(GetOr(AsU64(At(call.fields, "index")), position), call.fields);
          assert Spec.CallFragments(calls, position + 1)[..|Spec.CallFragments(calls, position)|]
              == Spec.CallFragments(calls, position);
          TakeFragment(f);
        }
      }
      var legacy := ObjAt(delta, "function_call");
      ghost var before := Spec.CallFragments(calls, |calls|);
      if legacy.Some? {
        TakeFragment(Spec.Legacy(legacy.value));
        assert Spec.Fragments(delta)[..|before|] == before;
      } else {
        assert Spec.Fragments(delta) == before;
      }
    }

    // -------------------------------------------------------------- frames

    method ProcessDelta(delta: Fields) returns (out: seq<Event>)
      modifies this
      ensures St() == Spec.ProcessDelta(env, old(St()), delta) && sent == old(sent) + out && buffer == old(buffer)
    {
      hide Spec.EmitThinking, Spec.EmitContent, Spec.RouteAll, Spec.Fragments;
      out := EmitThinking(Spec.Reasoning(delta));
      var more := EmitContent(At(delta, "content"));
      out := out + more;
      TakeFragments(delta);
    }

    method ProcessValue(value: Json) returns (out: seq<Event>, failure: Option<BridgeError>)
      modifies this
      ensures Spec.Outcome(St(), failure) == Spec.ProcessValue(env, old(St()), value)
      ensures sent == old(sent) + out && buffer == old(buffer)
    {
      hide Spec.ProcessChoice, UsageFrom, ErrorMessage, Choice;
      out := [];
      if !value.Obj? {
        return [], Some(NotAnObject);
      }
      if "error" in value.fields && !value.fields["error"].Null? {
        return [], Some(Reported(ErrorMessage(value.fields["error"])));
      }
      failure := None;
      if upstreamId.None? {
        upstreamId := NonEmpty(StrAt(value.fields, "id"));
      }
      var (input, output) := UsageFrom(value);
      if input > 0 {
        usageInput := input;
      }
      if output > 0 {
        usageOutput := output;
      }
      assert St() == Spec.NoteHeader(old(St()), value);
      var choice := Choice(value.fields);
      if choice.None? {
        return;
      }
      out := ProcessChoice(choice.value);
    }

    method ProcessChoice(choice: Fields) returns (out: seq<Event>)
      modifies this
      ensures St() == Spec.ProcessChoice(env, old(St()), choice) && sent == old(sent) + out && buffer == old(buffer)
    {
      hide Spec.ProcessDelta, Spec.CloseOpen;
      out := [];
      var delta := Spec.DeltaOf(choice);
      if delta.Some? {
        out := ProcessDelta(delta.value);
      }
      var reason := StrAt(choice, "finish_reason");
      if reason.Some? {
        finishReason := reason;
        var closing := CloseOpen();
        out := out + closing;
      }
    }

    // -------------------------------------------------------------- endings

    method SendTool(state: Spec.Tool, order: nat) returns (out: seq<Event>, failure: Option<BridgeError>)
      modifies this
      ensures Spec.Outcome(St(), failure) == Spec.SendTool(env, old(St()), state, order)
      ensures sent == old(sent) + out && buffer == old(buffer)
    {
      out := [];
      if state.name.None? {
        return [], Some(MissingToolName);
      }
      var input := ToolInput(env.codec, Some(Str(state.arguments)));
      if input.Failure? {
        return [], Some(input.error);
      }
      failure := None;
      var id := GetOr(state.id, SyntheticToolId(env.ctx.requestId, order));
      var index := nextIndex;
      nextIndex := nextIndex + 1;
      out := [BlockStart(index, ToolKind(id, state.name.value))]
             + [BlockDelta(index, InputJsonDelta(env.codec.encode(input.value)))] + [BlockStop(index)];
      sent := sent + [BlockStart(index, ToolKind(id, state.name.value))]
              + [BlockDelta(index, InputJsonDelta(env.codec.encode(input.value)))] + [BlockStop(index)];
      emittedBlock := true;
    }

    /** The ordered-map iteration: the least remaining slot is taken each time. */
    method SendTools(all: map<nat, Spec.Tool>) returns (out: seq<Event>, failure: Option<BridgeError>)
      modifies this
      ensures Spec.Outcome(St(), failure) == Spec.SendTools(env, old(St()), Spec.InOrder(all), 0)
      ensures sent == old(sent) + out && buffer == old(buffer)
    {
      hide Spec.SendTool, Spec.SendTools, Spec.InOrder;
      out, failure := [], None;
      var order: nat, rest := 0, all;
      ghost var listed := Spec.InOrder(all);
      while rest != map[]
        invariant failure.None?
        invariant order <= |listed| && listed[order..] == Spec.InOrder(rest)
        invariant Spec.SendTools(env, old(St()), listed, 0) == Spec.SendTools(env, St(), listed, order)
        invariant sent == old(sent) + out && buffer == old(buffer)
        decreases |rest|
      {
        var slot := Spec.Least(rest.Keys);
        NextInOrder(rest);
        assert listed[order] == listed[order..][0] && listed[order + 1..] == listed[order..][1..];
        Spec.NextTool(env, St(), listed, order);
        var more;
        more, failure := SendTool(rest[slot], order);
        out := out + more;
        if failure.Some? {
          return;
        }
        rest := rest - {slot};
        order := order + 1;
      }
      NoTools(env, St(), listed, order);
    }

    method Finalize() returns (out: seq<Event>, failure: Option<BridgeError>)
      modifies this
      ensures Spec.Outcome(St(), failure) == Spec.Finalize(env, old(St()))
      ensures sent == old(sent) + out && buffer == old(buffer)
    {
      hide Spec.EnsureStarted, Spec.CloseOpen, Spec.SendTools, Spec.InOrder, Spec.SendFallback;
      out, failure := [], None;
      if finished {
        return;
      }
      out := EnsureStarted();
      var more := CloseOpen();
      out := out + more;
      ReadyKeeps(env, old(St()));
      var hasTools := tools != map[];
      var taken := tools;
      tools := map[];
      more, failure := SendTools(taken);
      out := out + more;
      if failure.Some? {
        return;
      }
      SendToolsKeeps(env, Spec.CloseOpen(env, Spec.EnsureStarted(env, old(St()))).(tools := map[]), Spec.InOrder(taken), 0);
      more := Deliver(hasTools);
      out := out + more;
    }

    /** The fallback block if nothing was said, then the two closing events. */
    method Deliver(hasTools: bool) returns (out: seq<Event>)
      modifies this
      ensures var last := MessageDelta(StopReason(old(finishReason), hasTools), old(usageOutput));
              St() == Spec.Send(Spec.Send(Spec.SendFallback(old(St())), last), MessageStop).(finished := true)
      ensures sent == old(sent) + out && buffer == old(buffer)
    {
      out := [];
      if !emittedBlock {
        out := [BlockStart(nextIndex, TextKind)] + [BlockStop(nextIndex)];
        sent := sent + [BlockStart(nextIndex, TextKind)] + [BlockStop(nextIndex)];
        nextIndex := nextIndex + 1;
        emittedBlock := true;
      }
      var last := MessageDelta(StopReason(finishReason, hasTools), usageOutput);
      out := out + [last] + [MessageStop];
      sent := sent + [last] + [MessageStop];
      finished := true;
    }

    method EndWith(status: nat, reason: BridgeError) returns (out: seq<Event>)
      modifies this
      ensures St() == Spec.EndWith(env, old(St()), status, reason) && sent == old(sent) + out && buffer == old(buffer)
    {
      out := CloseOpen();
      out := out + [Error(status, reason)];
      sent := sent + [Error(status, reason)];
      error := Some(reason);
      finished := true;
    }

    method Fail(reason: BridgeError) returns (out: seq<Event>)
      modifies this
      ensures St() == Spec.Fail(env, old(St()), reason) && sent == old(sent) + out && buffer == old(buffer)
    {
      out := [];
      if finished {
        return;
      }
      out := EndWith(Status(reason), reason);
    }

    // -------------------------------------------------------------- lines

    method ProcessLine(line: string) returns (out: seq<Event>, failure: Option<BridgeError>)
      modifies this
      ensures Spec.Outcome(St(), failure) == Spec.ProcessLine(env, old(St()), line)
      ensures sent == old(sent) + out && buffer == old(buffer)
    {
      var data := Spec.Payload(line);
      if data.None? {
        return [], None;
      }
      if data.value == "[DONE]" {
        out, failure := Finalize();
        return;
      }
      var value := env.codec.decode(data.value);
      if value.None? {
        return [], Some(InvalidJson);
      }
      out, failure := ProcessValue(value.value);
    }

    method TakeLine(line: string) returns (out: seq<Event>)
      requires !finished
      modifies this
      ensures St() == Spec.TextStep(env, old(St()), line) && sent == old(sent) + out && buffer == old(buffer)
    {
      hide Spec.ProcessLine, Spec.Fail;
      var failure;
      out, failure := ProcessLine(line);
      if failure.Some? {
        var closing := Fail(failure.value);
        out := out + closing;
      }
    }

    // -------------------------------------------------------------- calls

    /** Feed a chunk; the result is what must be sent to the client. */
    method Feed(chunk: Bytes) returns (out: seq<Event>)
      modifies this
      ensures Model() == Spec.Feed(env, old(Model()), chunk)
      ensures sent == old(sent) + out
    {
      hide Spec.TextStep, Spec.Lines, Spec.Complete, Spec.Tail, Spec.Fail, Spec.NewlineAt;
      out := [];
      if finished {
        return;
      }
      buffer := buffer + chunk;
      ghost var data := buffer;
      var position := Spec.NewlineAt(buffer);
      while position < |buffer| && !finished
        invariant position == Spec.NewlineAt(buffer)
        invariant Spec.Lines(env, old(St()), Spec.Complete(data)) == Spec.Lines(env, St(), Spec.Complete(buffer))
        invariant Spec.Tail(data) == Spec.Tail(buffer)
        invariant sent == old(sent) + out
        decreases |buffer|
      {
        var line := buffer[..position];
        NextLine(env, St(), buffer);
        buffer := buffer[position + 1..];
        var more := TakeLine(env.lossy(line));
        out := out + more;
        position := Spec.NewlineAt(buffer);
      }
      if finished {
        Chunking.LinesAfterEnd(env, St(), Spec.Complete(buffer));
        buffer := [];
      } else {
        NoMoreLines(env, St(), buffer);
        if |buffer| > Spec.LINE_LIMIT {
          var closing := Fail(LineTooLong);
          out := out + closing;
        }
      }
    }

    /** Flush an unterminated frame and emit the closing events; later calls change nothing. */
    method Finish() returns (out: seq<Event>)
      modifies this
      ensures Model() == Spec.Finish(env, old(Model()))
      ensures sent == old(sent) + out
    {
      hide Spec.TextStep, Spec.TextLines, Spec.Finalize, Spec.Fail;
      out := [];
      if finished {
        return;
      }
      if buffer != [] {
        var lines := Spec.SplitText(env.lossy(buffer));
        buffer := [];
        var i := 0;
        while i < |lines| && !finished
          invariant 0 <= i <= |lines| && buffer == []
          invariant Spec.TextLines(env, old(St()), lines) == Spec.TextLines(env, St(), lines[i..])
          invariant sent == old(sent) + out
        {
          NextTextLine(env, St(), lines, i);
          var more := TakeLine(lines[i]);
          out := out + more;
          i := i + 1;
        }
        TextLinesAfterEnd(env, St(), lines[i..]);
      }
      if !finished {
        var more, failure := Finalize();
        out := out + more;
        if failure.Some? {
          more := Fail(failure.value);
          out := out + more;
        }
      }
    }

    /** End a stream that failed in flight with an error event. */
    method Abort(status: nat, message: string) returns (out: seq<Event>)
      modifies this
      ensures Model() == Spec.Abort(env, old(Model()), status, message)
      ensures sent == old(sent) + out
    {
      out := [];
      if finished {
        return;
      }
      out := EndWith(status, Aborted(message));
    }
  }

  lemma ReadyKeeps(env: Env, s: Spec.State)
    ensures var t := Spec.CloseOpen(env, Spec.EnsureStarted(env, s));
            t.tools == s.tools && t.finishReason == s.finishReason && t.usageOutput == s.usageOutput
  {}

  lemma {:induction false} SendToolsKeeps(env: Env, s: Spec.State, tools: seq<Spec.Tool>, order: nat)
    requires order <= |tools|
    ensures var t := Spec.SendTools(env, s, tools, order).st;
            t.finishReason == s.finishReason && t.usageOutput == s.usageOutput
    decreases |tools| - order
  {
    if order < |tools| && Spec.SendTool(env, s, tools[order], order).error.None? {
      SendToolsKeeps(env, Spec.SendTool(env, s, tools[order], order).st, tools, order + 1);
    }
  }

  lemma NoParts(env: Env, s: Spec.State, parts: seq<Json>)
    ensures parts[..0] == [] && Spec.EmitParts(env, s, []) == s
  {}

  lemma NextPart(env: Env, s: Spec.State, parts: seq<Json>, i: nat)
    requires i < |parts|
    ensures Spec.EmitParts(env, s, parts[..i + 1])
         == Spec.EmitText(env, Spec.EmitParts(env, s, parts[..i]), Spec.StreamPart(parts[i]))
  {
    hide Spec.EmitText, Spec.StreamPart;
    assert parts[..i + 1][..i] == parts[..i];
  }

  lemma NoTools(env: Env, s: Spec.State, tools: seq<Spec.Tool>, order: nat)
    requires order <= |tools| && tools[order..] == Spec.InOrder(map[])
    ensures order == |tools| && Spec.SendTools(env, s, tools, order) == Spec.Outcome(s, None)
  {
    assert Spec.InOrder(map[]) == [];
    assert |tools[order..]| == |tools| - order;
  }

  lemma NextInOrder(tools: map<nat, Spec.Tool>)
    requires tools != map[]
    ensures var k := Spec.Least(tools.Keys);
            |tools - {k}| < |tools| && Spec.InOrder(tools) == [tools[k]] + Spec.InOrder(tools - {k})
  {
    var k := Spec.Least(tools.Keys);
    assert (tools - {k}).Keys == tools.Keys - {k};
  }

  lemma NextLine(env: Env, s: Spec.State, b: Bytes)
    requires Spec.NewlineAt(b) < |b|
    ensures var i := Spec.NewlineAt(b);
            && Spec.Lines(env, s, Spec.Complete(b))
               == Spec.Lines(env, Spec.TextStep(env, s, env.lossy(b[..i])), Spec.Complete(b[i + 1..]))
            && Spec.Tail(b) == Spec.Tail(b[i + 1..])
  {
    hide Spec.TextStep;
    var i := Spec.NewlineAt(b);
    var lines := Spec.Complete(b);
    assert lines[0] == b[..i] && lines[1..] == Spec.Complete(b[i + 1..]);
  }

  lemma NoMoreLines(env: Env, s: Spec.State, b: Bytes)
    requires Spec.NewlineAt(b) == |b|
    ensures Spec.Lines(env, s, Spec.Complete(b)) == s && Spec.Tail(b) == b
  {
    assert Spec.Complete(b) == [];
  }

  lemma NextTextLine(env: Env, s: Spec.State, lines: seq<string>, i: nat)
    requires i < |lines|
    ensures Spec.TextLines(env, s, lines[i..])
            == Spec.TextLines(env, Spec.TextStep(env, s, lines[i]), lines[i + 1..])
  {
    hide Spec.TextStep;
    assert lines[i..][0] == lines[i] && lines[i..][1..] == lines[i + 1..];
  }

  lemma {:induction false} TextLinesAfterEnd(env: Env, s: Spec.State, lines: seq<string>)
    requires s.finished || lines == []
    ensures Spec.TextLines(env, s, lines) == s
    decreases |lines|
  {
    if lines != [] {
      TextLinesAfterEnd(env, s, lines[1..]);
    }
  }
}
