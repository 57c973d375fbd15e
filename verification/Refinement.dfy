/** Streaming refines the non-stream translation. */
module Refinement {
  import opened Common
  import opened Json
  import opened Bridge
  import opened Response
  import opened Translator
  import opened ToolFragments
  import opened Client

  // ---------------------------------------------------------------- what a stream says

  function FrameId(frame: Json): Option<string> {
    if frame.Obj? then NonEmpty(StrAt(frame.fields, "id")) else None
  }

  function FrameThought(frame: Json): string {
    if FrameDelta(frame).Some? then Reasoning(FrameDelta(frame).value) else ""
  }

  /** The words of one part of a content array: of text parts, and of parts that name no type. */
  function PartWords(part: Json): string {
    var kind := AsStr(Get(part, "type"));
    if kind.None? || kind.value in {"text", "output_text"} then GetOr(AsStr(Get(part, "text")), "") else ""
  }

  function PartsWords(parts: seq<Json>): string {
    if parts == [] then "" else PartsWords(parts[..|parts| - 1]) + PartWords(parts[|parts| - 1])
  }

  function ContentWords(content: Option<Json>): string {
    if content.Some? && content.value.Str? then content.value.s
    else if content.Some? && content.value.Arr? then PartsWords(content.value.items)
    else ""
  }

  function FrameText(frame: Json): string {
    if FrameDelta(frame).Some? then ContentWords(At(FrameDelta(frame).value, "content")) else ""
  }

  function FrameFinish(frame: Json): Option<string> {
    if frame.Obj? && Choice(frame.fields).Some? then StrAt(Choice(frame.fields).value, "finish_reason") else None
  }

  /** Everything a frame sequence has said, in the terms of a whole answer. */
  datatype Digest = Digest(
    id: Option<string>, thought: string, text: string, finish: Option<string>, output: nat)

  const NO_DIGEST := Digest(None, "", "", None, 0)

  function Fold(d: Digest, frame: Json): Digest {
    Digest(OrElse(d.id, FrameId(frame)),
           d.thought + FrameThought(frame),
           d.text + FrameText(frame),
           OrElse(FrameFinish(frame), d.finish),
           if UsageFrom(frame).1 > 0 then UsageFrom(frame).1 else d.output)
  }

  function Told(frames: seq<Json>): Digest {
    if frames == [] then NO_DIGEST else Fold(Told(frames[..|frames| - 1]), frames[|frames| - 1])
  }

  // ---------------------------------------------------------------- the common domain

  /** Reasoning before text, nothing spoken after the finish reason, the id before anything is spoken. */
  predicate MayFollow(d: Digest, frame: Json) {
    && (d.text != "" ==> FrameThought(frame) == "")
    && (d.finish.Some? ==> FrameThought(frame) == "" && FrameText(frame) == "")
    && (d.id.None? && FrameId(frame).Some? ==> d.thought == "" && d.text == "")
  }

  predicate StreamDomain(frames: seq<Json>) {
    frames == []
    || (var front, last := frames[..|frames| - 1], frames[|frames| - 1];
        StreamDomain(front) && Accepted(last) && MayFollow(Told(front), last))
  }

  // ---------------------------------------------------------------- what the client sees meanwhile

  function ViewOf(s: State): View {
    SeeAll(NEW_VIEW, s.trace)
  }

  function Pieces(env: Env, thought: string, text: string, closed: bool): seq<Piece> {
    (if thought == "" then []
     else [ThinkingPiece(thought, if text == "" && !closed then "" else env.signature(thought))])
    + (if text == "" then [] else [TextPiece(text)])
  }

  function OpenFor(thought: string, text: string, closed: bool): OpenBlock {
    if closed then NoBlock
    else if text != "" then OpenText(if thought == "" then 0 else 1)
    else if thought != "" then OpenThinking(0, thought)
    else NoBlock
  }

  /** A live translator and its client agree that `thought` and then `text` have been said. */
  ghost predicate Synced(env: Env, s: State, thought: string, text: string, closed: bool) {
    var v := ViewOf(s);
    && !s.finished && s.error.None?
    && !v.failed && !v.stopped && v.closing.None?
    && (s.started <==> thought != "" || text != "")
    && (s.started <==> v.header.Some?)
    && (s.started ==> v.header.value.id == MessageId(env.ctx.requestId, s.upstreamId)
                      && v.header.value.model == env.ctx.publicModel)
    && v.pieces == Pieces(env, thought, text, closed)
    && s.open == OpenFor(thought, text, closed)
    && s.nextIndex == |v.pieces|
    && (s.emittedBlock <==> v.pieces != [])
  }

  lemma SendSeen(s: State, e: Event)
    ensures ViewOf(Send(s, e)) == See(ViewOf(s), e)
  {
    SeeOne(NEW_VIEW, s.trace, e);
  }

  /** After ensure_started the header is there; nothing else has changed. */
  lemma StartSeen(env: Env, s: State, thought: string, text: string, closed: bool)
    requires Synced(env, s, thought, text, closed)
    ensures var t := EnsureStarted(env, s);
            && t == s.(started := true, trace := t.trace)
            && ViewOf(t) == ViewOf(s).(header := ViewOf(t).header)
            && ViewOf(t).header.Some?
            && ViewOf(t).header.value.id == MessageId(env.ctx.requestId, s.upstreamId)
            && ViewOf(t).header.value.model == env.ctx.publicModel
  {
    if !s.started {
      SendSeen(s.(started := true), EnsureStarted(env, s).trace[|s.trace|]);
    }
  }

  /** Closing signs an open thinking block and leaves everything else as it was. */
  lemma CloseSeen(env: Env, s: State, thought: string, text: string, closed: bool)
    requires ViewOf(s).pieces == Pieces(env, thought, text, closed) && s.open == OpenFor(thought, text, closed)
    ensures var t := CloseOpen(env, s);
            && t == s.(open := NoBlock, trace := t.trace)
            && ViewOf(t) == ViewOf(s).(pieces := Pieces(env, thought, text, true))
  {
    var s0 := s.(open := NoBlock);
    hide SeeAll;
    assert ViewOf(s0) == ViewOf(s);
    match s.open
    case NoBlock =>
    case OpenText(i) => SendSeen(s0, BlockStop(i));
    case OpenThinking(i, said) =>
      assert i == 0 && said == thought && ViewOf(s).pieces == [ThinkingPiece(thought, "")];
      assert Pieces(env, thought, text, true) == [ThinkingPiece(thought, env.signature(thought))];
      hide Pieces, OpenFor;
      var signed := BlockDelta(0, SignatureDelta(env.signature(thought)));
      SendSeen(s0, signed);
      SendSeen(Send(s0, signed), BlockStop(0));
  }

  lemma CloseSynced(env: Env, s: State, thought: string, text: string, closed: bool)
    requires Synced(env, s, thought, text, closed)
    ensures Synced(env, CloseOpen(env, s), thought, text, true)
  {
    CloseSeen(env, s, thought, text, closed);
  }

  lemma ThinkSynced(env: Env, s: State, thought: string, more: string)
    requires Synced(env, s, thought, "", false)
    ensures Synced(env, EmitThinking(env, s, more), thought + more, "", false)
  {
    assert thought + "" == thought;
    if more != "" {
      if thought == "" {
        StartSeen(env, s, "", "", false);
        var started := EnsureStarted(env, s);
        assert CloseOpen(env, started) == started;
        SendSeen(started, BlockStart(0, ThinkingKind));
        assert "" + more == more;
      }
      var opening := OpenThinkingBlock(env, s);
      SendSeen(opening, BlockDelta(0, ThinkingDelta(more)));
    } else {
      assert thought + more == thought;
    }
  }

  lemma SaySynced(env: Env, s: State, thought: string, text: string, more: string)
    requires Synced(env, s, thought, text, false)
    ensures Synced(env, EmitText(env, s, more), thought, text + more, false)
  {
    if more != "" {
      hide SeeAll, EnsureStarted, CloseOpen, MessageId;
      if text == "" {
        OpenTextSeen(env, s, thought);
        assert "" + more == more;
      }
      var opening := OpenTextBlock(env, s);
      SendSeen(opening, BlockDelta(opening.open.index, TextDelta(more)));
    } else {
      assert text + more == text;
    }
  }

  lemma SpokenPieces(env: Env, thought: string)
    ensures |Pieces(env, thought, "", true)| == |Pieces(env, thought, "", false)|
  {}

  lemma ReadyForText(env: Env, s: State, thought: string)
    requires Synced(env, s, thought, "", false)
    ensures var t := CloseOpen(env, EnsureStarted(env, s));
            && t == s.(started := true, open := NoBlock, trace := t.trace)
            && ViewOf(t) == ViewOf(s).(header := ViewOf(t).header, pieces := Pieces(env, thought, "", true))
            && t.nextIndex == |ViewOf(t).pieces|
            && ViewOf(t).header.Some?
            && ViewOf(t).header.value.id == MessageId(env.ctx.requestId, s.upstreamId)
            && ViewOf(t).header.value.model == env.ctx.publicModel
  {
    StartSeen(env, s, thought, "", false);
    SpokenPieces(env, thought);
    hide EnsureStarted, CloseOpen, SeeAll, MessageId, Pieces;
    CloseSeen(env, EnsureStarted(env, s), thought, "", false);
  }

  lemma OpenTextSeen(env: Env, s: State, thought: string)
    requires Synced(env, s, thought, "", false)
    ensures var t := OpenTextBlock(env, s);
            && t == s.(started := true, open := OpenText(s.nextIndex), nextIndex := s.nextIndex + 1,
                       emittedBlock := true, trace := t.trace)
            && ViewOf(t) == ViewOf(s).(header := ViewOf(t).header,
                                       pieces := Pieces(env, thought, "", true) + [TextPiece("")])
            && ViewOf(t).header.Some?
            && ViewOf(t).header.value.id == MessageId(env.ctx.requestId, s.upstreamId)
            && ViewOf(t).header.value.model == env.ctx.publicModel
  {
    assert !s.open.OpenText?;
    hide Synced, EnsureStarted, CloseOpen, SeeAll, MessageId, Pieces;
    ReadyForText(env, s, thought);
    var ready := CloseOpen(env, EnsureStarted(env, s));
    SendSeen(ready.(nextIndex := ready.nextIndex + 1, open := OpenText(ready.nextIndex), emittedBlock := true),
             BlockStart(ready.nextIndex, TextKind));
  }

  // ---------------------------------------------------------------- frames

  lemma DeltaSynced(env: Env, s: State, d: Digest, frame: Json)
    requires Accepted(frame) && MayFollow(d, frame) && FrameDelta(frame).Some?
    requires Synced(env, s, d.thought, d.text, d.finish.Some?)
    ensures Synced(env, ProcessDelta(env, s, FrameDelta(frame).value),
                   d.thought + FrameThought(frame), d.text + FrameText(frame), d.finish.Some?)
  {
    var delta := FrameDelta(frame).value;
    var thought, content := FrameThought(frame), At(delta, "content");
    assert d.thought + "" == d.thought && EmitThinking(env, s, "") == s;
    hide Synced, EmitThinking, EmitContent, RouteAll, Fragments, ContentWords;
    if thought != "" {
      assert d.text == "";
      ThinkSynced(env, s, d.thought, thought);
    }
    var mid := EmitThinking(env, s, thought);
    ContentSynced(env, mid, d.thought + thought, d.text, d.finish.Some?, content);
    var spoken := EmitContent(env, mid, content);
    RoutedSynced(env, spoken, d.thought + thought, d.text + ContentWords(content), d.finish.Some?,
                 RouteAll(env.codec, spoken.tools, Fragments(delta)));
  }

  lemma RoutedSynced(env: Env, s: State, thought: string, text: string, closed: bool, tools: map<nat, Tool>)
    requires Synced(env, s, thought, text, closed)
    ensures Synced(env, s.(tools := tools), thought, text, closed)
  {
    hide SeeAll;
    assert ViewOf(s.(tools := tools)) == ViewOf(s);
  }

  lemma ContentSynced(env: Env, s: State, thought: string, text: string, closed: bool, content: Option<Json>)
    requires Synced(env, s, thought, text, closed) && (closed ==> ContentWords(content) == "")
    ensures Synced(env, EmitContent(env, s, content), thought, text + ContentWords(content), closed)
  {
    hide Synced, EmitText, EmitParts, PartsWords;
    assert text + "" == text;
    if content.Some? && content.value.Arr? {
      PartsSynced(env, s, thought, text, closed, content.value.items);
    } else if content.Some? && content.value.Str? {
      if closed {
        SayNothing(env, s);
      } else {
        SaySynced(env, s, thought, text, content.value.s);
      }
    }
  }

  /** An array of parts says what its words say, one after the other. */
  lemma {:induction false} PartsSynced(env: Env, s: State, thought: string, text: string, closed: bool, parts: seq<Json>)
    requires Synced(env, s, thought, text, closed) && (closed ==> PartsWords(parts) == "")
    ensures Synced(env, EmitParts(env, s, parts), thought, text + PartsWords(parts), closed)
    decreases |parts|
  {
    assert text + "" == text;
    if parts != [] {
      var front, last := parts[..|parts| - 1], parts[|parts| - 1];
      assert StreamPart(last) == PartWords(last);
      hide Synced, EmitText, StreamPart, PartWords;
      PartsSynced(env, s, thought, text, closed, front);
      Regroup(text, PartsWords(front), PartWords(last));
      if closed {
        SayNothing(env, EmitParts(env, s, front));
      } else {
        SaySynced(env, EmitParts(env, s, front), thought, text + PartsWords(front), PartWords(last));
      }
    }
  }

  lemma SayNothing(env: Env, s: State)
    ensures EmitText(env, s, "") == s
  {}

  lemma NoteSynced(env: Env, s: State, d: Digest, frame: Json)
    requires Accepted(frame) && MayFollow(d, frame) && s.upstreamId == d.id
    requires Synced(env, s, d.thought, d.text, d.finish.Some?)
    ensures Synced(env, NoteHeader(s, frame), d.thought, d.text, d.finish.Some?)
  {
    assert ViewOf(NoteHeader(s, frame)) == ViewOf(s);
  }

  /** The translator and the digest move together, frame by frame. */
  ghost predicate Follows(env: Env, s: State, d: Digest) {
    && Synced(env, s, d.thought, d.text, d.finish.Some?)
    && s.upstreamId == d.id && s.finishReason == d.finish && s.usageOutput == d.output
  }

  predicate SameHeader(s: State, t: State) {
    t.upstreamId == s.upstreamId && t.finishReason == s.finishReason && t.usageOutput == s.usageOutput
  }

  lemma CloseKeepsHeader(env: Env, s: State)
    ensures SameHeader(s, EnsureStarted(env, s))
    ensures SameHeader(s, CloseOpen(env, s))
  {}

  lemma SpeechKeepsHeader(env: Env, s: State, text: string)
    ensures SameHeader(s, EmitText(env, s, text))
    ensures SameHeader(s, EmitThinking(env, s, text))
  {
    CloseKeepsHeader(env, s);
    CloseKeepsHeader(env, EnsureStarted(env, s));
    hide CloseOpen, EnsureStarted;
  }

  lemma {:induction false} PartsKeepHeader(env: Env, s: State, parts: seq<Json>)
    ensures SameHeader(s, EmitParts(env, s, parts))
    decreases |parts|
  {
    if parts != [] {
      var front, last := parts[..|parts| - 1], parts[|parts| - 1];
      hide EmitText;
      PartsKeepHeader(env, s, front);
      SpeechKeepsHeader(env, EmitParts(env, s, front), StreamPart(last));
    }
  }

  lemma DeltaKeepsHeader(env: Env, s: State, frame: Json)
    requires Accepted(frame) && FrameDelta(frame).Some?
    ensures SameHeader(s, ProcessDelta(env, s, FrameDelta(frame).value))
  {
    var mid, content := EmitThinking(env, s, FrameThought(frame)), At(FrameDelta(frame).value, "content");
    SpeechKeepsHeader(env, s, FrameThought(frame));
    if content.Some? && content.value.Arr? {
      PartsKeepHeader(env, mid, content.value.items);
    } else {
      SpeechKeepsHeader(env, mid, FrameText(frame));
    }
    hide EmitThinking, EmitText, EmitParts, RouteAll;
  }

  lemma FrameFollows(env: Env, s: State, d: Digest, frame: Json)
    requires Follows(env, s, d) && Accepted(frame) && MayFollow(d, frame)
    ensures Follows(env, ProcessValue(env, s, frame).st, Fold(d, frame))
  {
    var noted := NoteHeader(s, frame);
    NoteSynced(env, s, d, frame);
    var choice := Choice(frame.fields);
    assert d.thought + "" == d.thought && d.text + "" == d.text;
    assert choice.Some? ==> FrameDelta(frame) == DeltaOf(choice.value);
    assert FrameDelta(frame).None? ==> FrameThought(frame) == "" && FrameText(frame) == "";
    hide FrameText, FrameThought, FrameDelta, Synced, ProcessDelta, CloseOpen, UsageFrom, DeltaOf;
    if choice.Some? {
      var delta := DeltaOf(choice.value);
      if delta.Some? {
        DeltaSynced(env, noted, d, frame);
        DeltaKeepsHeader(env, noted, frame);
      }
      hide NoteHeader;
      var s1 := if delta.Some? then ProcessDelta(env, noted, delta.value) else noted;
      var reason := StrAt(choice.value, "finish_reason");
      if reason.Some? {
        ReasonFollows(env, s1, d.thought + FrameThought(frame), d.text + FrameText(frame), d.finish.Some?, reason);
      }
    }
  }

  lemma ReasonFollows(env: Env, s: State, thought: string, text: string, closed: bool, reason: Option<string>)
    requires Synced(env, s, thought, text, closed)
    ensures var t := CloseOpen(env, s.(finishReason := reason));
            && Synced(env, t, thought, text, true)
            && t.upstreamId == s.upstreamId && t.usageOutput == s.usageOutput && t.finishReason == reason
  {
    var noted := s.(finishReason := reason);
    assert ViewOf(noted) == ViewOf(s);
    CloseSynced(env, noted, thought, text, closed);
    CloseKeepsHeader(env, noted);
  }

  lemma NothingSaid(env: Env)
    ensures Follows(env, INITIAL, NO_DIGEST)
  {}

  lemma {:induction false} StreamFollows(env: Env, frames: seq<Json>)
    requires StreamDomain(frames)
    ensures Follows(env, ProcessAll(env, INITIAL, frames), Told(frames))
    ensures forall i :: 0 <= i < |frames| ==> Accepted(frames[i])
    decreases |frames|
  {
    hide Follows, ProcessValue, Fold;
    if frames == [] {
      NothingSaid(env);
    } else {
      var front, last := frames[..|frames| - 1], frames[|frames| - 1];
      assert Accepted(last);
      hide MayFollow, Accepted;
      StreamFollows(env, front);
      FrameFollows(env, ProcessAll(env, INITIAL, front), Told(front), last);
      assert forall i :: 0 <= i < |front| ==> front[i] == frames[i];
    }
  }

  // ---------------------------------------------------------------- tools

  /** A tool call of the whole body as the stream would have put it together. */
  function CallTool(codec: Codec, call: Json): Tool
    requires PlainCall(codec, call)
  {
    var body := call.fields["function"].fields;
    Tool(NonEmpty(StrAt(call.fields, "id")), NonEmpty(StrAt(body, "name")),
         AppendArguments(codec, "", At(body, "arguments")))
  }

  /**
   A tool call that carries a function, with arguments as a string or an object; or with none,
   which both paths take for the empty object if the text `{}` denotes it.
   */
  predicate PlainCall(codec: Codec, call: Json) {
    && call.Obj? && "function" in call.fields && call.fields["function"].Obj?
    && var arguments := At(call.fields["function"].fields, "arguments");
       if arguments.None? || arguments.value.Null? then codec.decode("{}") == Some(Obj(map[]))
       else arguments.value.Str? || arguments.value.Obj?
  }

  /** Slots 0..n-1 come out in that order. */
  lemma {:induction false} ConsecutiveInOrder(tools: map<nat, Tool>, from: nat, n: nat)
    requires from <= n && forall k: nat :: k in tools <==> from <= k < n
    ensures |InOrder(tools)| == n - from
    ensures forall i :: 0 <= i < n - from ==> from + i in tools && InOrder(tools)[i] == tools[from + i]
    decreases n - from
  {
    if from == n {
      assert tools == map[];
    } else {
      assert from in tools;
      var k := Least(tools.Keys);
      assert k == from;
      var rest := tools - {k};
      assert rest.Keys == tools.Keys - {k};
      ConsecutiveInOrder(rest, from + 1, n);
      assert InOrder(tools) == [tools[k]] + InOrder(rest);
      forall i | 0 <= i < n - from
        ensures from + i in tools && InOrder(tools)[i] == tools[from + i]
      {
        if i > 0 {
          assert InOrder(tools)[i] == InOrder(rest)[i - 1];
        }
      }
    }
  }

  function PieceOf(env: Env, c: Content): Piece {
    match c
    case Text(text) => TextPiece(text)
    case Thinking(thinking, signature) => ThinkingPiece(thinking, signature)
    case ToolUse(id, name, input) => ToolPiece(id, name, env.codec.encode(input))
  }

  function PiecesOf(env: Env, cs: seq<Content>): seq<Piece> {
    seq(|cs|, i requires 0 <= i < |cs| => PieceOf(env, cs[i]))
  }

  /** A client that decodes the pieces of a content list gets the list back. */
  lemma {:induction false} PiecesDecode(env: Env, cs: seq<Content>)
    requires env.codec.RoundTrips()
    ensures Contents(env.codec, PiecesOf(env, cs)) == Some(cs)
    decreases |cs|
  {
    if cs != [] {
      var front, last := cs[..|cs| - 1], cs[|cs| - 1];
      PiecesDecode(env, front);
      assert PiecesOf(env, cs) == PiecesOf(env, front) + [PieceOf(env, last)];
      ContentsOne(env.codec, PiecesOf(env, front), PieceOf(env, last));
      assert ContentOf(env.codec, PieceOf(env, last)) == Some(last);
      assert cs == front + [last];
    }
  }

  lemma ToolBlockSeen(s: State, kind: BlockKind, json: string)
    requires kind.ToolKind? && s.nextIndex == |ViewOf(s).pieces|
    ensures var n := s.nextIndex;
            ViewOf(Send(Send(Send(s, BlockStart(n, kind)), BlockDelta(n, InputJsonDelta(json))), BlockStop(n)))
            == ViewOf(s).(pieces := ViewOf(s).pieces + [ToolPiece(kind.id, kind.name, json)])
  {
    var n := s.nextIndex;
    var s1 := Send(s, BlockStart(n, kind));
    SendSeen(s, BlockStart(n, kind));
    var s2 := Send(s1, BlockDelta(n, InputJsonDelta(json)));
    SendSeen(s1, BlockDelta(n, InputJsonDelta(json)));
    SendSeen(s2, BlockStop(n));
    assert "" + json == json;
    var pieces := ViewOf(s).pieces;
    assert (pieces + [ToolPiece(kind.id, kind.name, "")])[n := ToolPiece(kind.id, kind.name, json)]
        == pieces + [ToolPiece(kind.id, kind.name, json)];
  }

  /** The arguments of a whole call and the text a stream gathers for them read the same. */
  lemma SameInput(codec: Codec, call: Json)
    requires PlainCall(codec, call)
    ensures ToolInput(codec, Some(Str(CallTool(codec, call).arguments)))
         == ToolInput(codec, At(call.fields["function"].fields, "arguments"))
  {
    var arguments := At(call.fields["function"].fields, "arguments");
    assert Trim("{}") == "{}" by {
      assert !IsWhite('{') && !IsWhite('}');
      TrimKeeps("{}");
    }
    if arguments.Some? && arguments.value.Str? {
      assert "" + arguments.value.s == arguments.value.s;
    }
  }

  /** One streamed tool block and one whole tool block: both fail, or the client sees the same call. */
  lemma ToolAgrees(env: Env, s: State, call: Json, order: nat)
    requires PlainCall(env.codec, call) && s.nextIndex == |ViewOf(s).pieces|
    ensures var o, b := SendTool(env, s, CallTool(env.codec, call), order), ToolBlock(env, call.fields, order);
            && (o.error.Some? <==> b.Failure?)
            && (b.Failure? ==> o.st == s && o.error == Some(b.error))
            && (b.Success? ==>
                  && ViewOf(o.st) == ViewOf(s).(pieces := ViewOf(s).pieces + [PieceOf(env, b.value)])
                  && o.st == s.(nextIndex := s.nextIndex + 1, emittedBlock := true, trace := o.st.trace))
  {
    var t := CallTool(env.codec, call);
    var input := ToolInput(env.codec, Some(Str(t.arguments)));
    SameInput(env.codec, call);
    hide ToolInput, SeeAll, SyntheticToolId, See;
    if t.name.Some? && input.Success? {
      var id := GetOr(t.id, SyntheticToolId(env.ctx.requestId, order));
      ToolBlockSeen(s, ToolKind(id, t.name.value), env.codec.encode(input.value));
    }
  }

  lemma PiecesSnoc(env: Env, cs: seq<Content>, c: Content)
    ensures PiecesOf(env, cs + [c]) == PiecesOf(env, cs) + [PieceOf(env, c)]
  {}

  predicate SameCalls(codec: Codec, tools: seq<Tool>, calls: seq<Json>) {
    && |tools| == |calls|
    && forall i :: 0 <= i < |calls| ==> PlainCall(codec, calls[i]) && tools[i] == CallTool(codec, calls[i])
  }

  /** All tool blocks: the stream breaks exactly when the whole body is refused. */
  lemma {:induction false} ToolsAgree(env: Env, s: State, calls: seq<Json>, tools: seq<Tool>, k: nat, base: seq<Piece>)
    requires SameCalls(env.codec, tools, calls) && k <= |calls|
    requires ToolBlocks(env, calls, k).Success?
    requires ViewOf(s).pieces == base + PiecesOf(env, ToolBlocks(env, calls, k).value)
    requires s.nextIndex == |ViewOf(s).pieces|
    ensures var o, b := SendTools(env, s, tools, k), ToolBlocks(env, calls, |calls|);
            && (o.error.Some? <==> b.Failure?) && (b.Failure? ==> o.error == Some(b.error))
            && o.st.finished == s.finished && o.st.open == s.open
            && (b.Success? ==>
                  && ViewOf(o.st) == ViewOf(s).(pieces := base + PiecesOf(env, b.value))
                  && o.st == s.(nextIndex := |ViewOf(o.st).pieces|, emittedBlock := s.emittedBlock || k < |calls|,
                                trace := o.st.trace))
    decreases |calls| - k
  {
    if k < |calls| {
      assert calls[k].Obj? && PlainCall(env.codec, calls[k]) && tools[k] == CallTool(env.codec, calls[k]);
      assert |tools| == |calls|;
      hide SameCalls, PlainCall, CallTool, SeeAll, SendTool, SendTools, ToolBlock, PieceOf, PiecesOf;
      ToolAgrees(env, s, calls[k], k);
      NextTool(env, s, tools, k);
      var sent, block := SendTool(env, s, tools[k], k), ToolBlock(env, calls[k].fields, k);
      if block.Failure? {
        ToolBlocksFail(env, calls, k + 1, |calls|);
      } else {
        hide ToolBlocks;
        var before := ToolBlocks(env, calls, k).value;
        ToolBlocksSnoc(env, calls, k, before, block.value);
        PiecesSnoc(env, before, block.value);
        Regroup(base, PiecesOf(env, before), [PieceOf(env, block.value)]);
        ToolsAgree(env, sent.st, calls, tools, k + 1, base);
      }
    }
  }

  // ---------------------------------------------------------------- the theorem

  /**
   A whole answer without an error, whose content is a string or nothing, whose tool calls are
   plain, and which says nothing under the two keys a stream has no counterpart for: a refusal in
   place of content, and `thinking` in place of the reasoning keys. Those keys may be there, null
   or otherwise, when the non-stream path does not read them.
   */
  predicate WholeDomain(codec: Codec, body: Json) {
    && body.Obj? && "error" !in body.fields
    && Choice(body.fields).Some? && ObjAt(Choice(body.fields).value, "message").Some?
    && var message := ObjAt(Choice(body.fields).value, "message").value;
       var content := At(message, "content");
       && (content.None? || content.value.Null? || content.value.Str?)
       && ((content.Some? && content.value.Str?) || NonEmpty(StrAt(message, "refusal")).None?)
       && ("reasoning_content" in message || "reasoning" in message || NonEmpty(StrAt(message, "thinking")).None?)
       && AllPlain(codec, CallsIn(message))
  }

  /** The tool calls of a message; a legacy `function_call` counts when there is no other. */
  function CallsIn(message: Fields): seq<Json> {
    var calls := GetOr(ArrAt(message, "tool_calls"), []);
    var legacy := ObjAt(message, "function_call");
    if calls == [] && legacy.Some? then [Obj(LegacyCall(legacy.value))] else calls
  }

  lemma CallsAreRead(env: Env, message: Fields)
    ensures ToolCalls(env, message) == ToolBlocks(env, CallsIn(message), |CallsIn(message)|)
  {
    var calls := GetOr(ArrAt(message, "tool_calls"), []);
    var legacy := ObjAt(message, "function_call");
    if calls == [] && legacy.Some? {
      var one := CallsIn(message);
      hide ToolBlock;
      assert ToolBlocks(env, one, 0) == Success([]);
      assert ToolBlocks(env, calls, 0) == Success([]);
      var block := ToolBlock(env, LegacyCall(legacy.value), 0);
      assert ToolBlocks(env, one, 1) == if block.Failure? then Failure(block.error) else Success([] + [block.value]);
      if block.Success? {
        assert [] + [block.value] == [block.value];
      }
      assert |one| == 1 && |calls| == 0;
    }
  }

  /** The frames and the body carry the same answer, however it was cut into deltas. */
  predicate SameAnswer(codec: Codec, frames: seq<Json>, body: Json)
    requires WholeDomain(codec, body)
  {
    var choice := Choice(body.fields).value;
    var message := ObjAt(choice, "message").value;
    var calls := CallsIn(message);
    var fragments := StreamFragments(frames);
    && Told(frames) == Digest(NonEmpty(StrAt(body.fields, "id")), Reasoning(message),
                              GetOr(StrAt(message, "content"), ""), StrAt(choice, "finish_reason"),
                              UsageFrom(body).1)
    && Carry(codec, fragments, calls)
  }

  predicate AllPlain(codec: Codec, calls: seq<Json>) {
    forall i :: 0 <= i < |calls| ==> PlainCall(codec, calls[i])
  }

  /** Each slot's fragments put together are the call of that number, and there are no others. */
  predicate Carry(codec: Codec, fragments: seq<Fragment>, calls: seq<Json>)
    requires AllPlain(codec, calls)
  {
    && (forall f :: f in fragments ==> Slot(f) < |calls|)
    && (forall k :: 0 <= k < |calls| ==> ForSlot(fragments, k) != []
                                         && AbsorbAll(codec, ForSlot(fragments, k)) == CallTool(codec, calls[k]))
  }

  /** The stream of frames followed by `[DONE]`. */
  function StreamEnd(env: Env, frames: seq<Json>): State {
    Settle(env, Finalize(env, ProcessAll(env, INITIAL, frames)))
  }

  lemma {:induction false} ForSlotMember(fs: seq<Fragment>, k: nat)
    requires ForSlot(fs, k) != []
    ensures exists f :: f in fs && Slot(f) == k
    decreases |fs|
  {
    if Slot(fs[|fs| - 1]) == k {
      assert fs[|fs| - 1] in fs;
    } else {
      ForSlotMember(fs[..|fs| - 1], k);
    }
  }

  /** The slots of the stream are exactly the calls of the body, in order. */
  lemma SlotsMatch(codec: Codec, fragments: seq<Fragment>, calls: seq<Json>)
    requires AllPlain(codec, calls) && Carry(codec, fragments, calls)
    ensures var tools := RouteAll(codec, map[], fragments);
            SameCalls(codec, InOrder(tools), calls) && (tools == map[] <==> calls == [])
  {
    SlotsAreIndependent(codec, fragments);
    var tools := RouteAll(codec, map[], fragments);
    hide RouteAll, AbsorbAll, CallTool, PlainCall;
    forall k: nat
      ensures k in tools <==> 0 <= k < |calls|
    {
      if k in tools {
        ForSlotMember(fragments, k);
      }
    }
    hide ForSlot;
    ConsecutiveInOrder(tools, 0, |calls|);
    if calls != [] {
      assert 0 in tools;
    }
  }

  /** The thinking and text blocks of a whole answer. */
  function Speech(env: Env, thought: string, text: string): seq<Content> {
    (if thought == "" then [] else [Thinking(thought, env.signature(thought))])
    + (if text == "" then [] else [Text(text)])
  }

  lemma SpeechPieces(env: Env, thought: string, text: string)
    ensures PiecesOf(env, Speech(env, thought, text)) == Pieces(env, thought, text, true)
  {}

  lemma WholeParts(env: Env, body: Json)
    requires WholeDomain(env.codec, body)
    ensures var message := ObjAt(Choice(body.fields).value, "message").value;
            var tools := ToolBlocks(env, CallsIn(message), |CallsIn(message)|);
            var speech := Speech(env, Reasoning(message), GetOr(StrAt(message, "content"), ""));
            PartsOf(env, message) == (if tools.Failure? then Failure(tools.error)
                                      else Success(Parts(OrEmptyText(speech + tools.value), tools.value != [])))
  {
    var message := ObjAt(Choice(body.fields).value, "message").value;
    var content := At(message, "content");
    CallsAreRead(env, message);
    hide CallsIn, ToolCalls, ToolBlocks, PlainCall;
    assert ThinkingBlocks(env, WholeReasoning(message))
        == (if Reasoning(message) == "" then [] else [Thinking(Reasoning(message), env.signature(Reasoning(message)))]);
    if content.Some? && content.value.Str? {
      OneText(content.value.s);
    }
    assert NonEmptyTexts([]) == [];
  }

  lemma OneText(text: string)
    ensures NonEmptyTexts([text]) == if text == "" then [] else [Text(text)]
  {
    assert [text][..0] == [];
  }

  lemma EndSeen(s: State, reason: string, tokens: nat)
    ensures ViewOf(Send(Send(s, MessageDelta(reason, tokens)), MessageStop))
            == ViewOf(s).(closing := Some(Client.Closing(reason, tokens)), stopped := true)
  {
    SendSeen(s, MessageDelta(reason, tokens));
    SendSeen(Send(s, MessageDelta(reason, tokens)), MessageStop);
  }

  lemma FallbackSeen(s: State)
    requires s.nextIndex == |ViewOf(s).pieces| && (s.emittedBlock <==> ViewOf(s).pieces != [])
    ensures ViewOf(SendFallback(s))
            == ViewOf(s).(pieces := if ViewOf(s).pieces == [] then [TextPiece("")] else ViewOf(s).pieces)
  {
    if !s.emittedBlock {
      SendSeen(s, BlockStart(s.nextIndex, TextKind));
      SendSeen(Send(s, BlockStart(s.nextIndex, TextKind)), BlockStop(s.nextIndex));
    }
  }

  /** What the client holds when the closing sequence starts. */
  lemma ReadySeen(env: Env, s: State, d: Digest)
    requires Follows(env, s, d)
    ensures var t := CloseOpen(env, EnsureStarted(env, s)).(tools := map[]);
            var v := ViewOf(t);
            && t == s.(started := true, open := NoBlock, tools := map[], trace := t.trace)
            && v == View(v.header, Pieces(env, d.thought, d.text, true), None, false, false)
            && v.header.Some? && v.header.value.id == MessageId(env.ctx.requestId, d.id)
            && v.header.value.model == env.ctx.publicModel
            && |v.pieces| == s.nextIndex
  {
    StartSeen(env, s, d.thought, d.text, d.finish.Some?);
    var started := EnsureStarted(env, s);
    CloseSeen(env, started, d.thought, d.text, d.finish.Some?);
    hide EnsureStarted, CloseOpen, SeeAll, MessageId;
    var closed := CloseOpen(env, started);
    assert ViewOf(closed.(tools := map[])) == ViewOf(closed);
  }

  /** A broken stream gives the client no message. */
  lemma BrokenSeen(env: Env, s: State, reason: BridgeError)
    requires !s.finished && s.open.NoBlock?
    ensures Assemble(env.codec, Fail(env, s, reason).trace).None?
    ensures Fail(env, s, reason).error == Some(reason)
  {
    SendSeen(s, Error(Status(reason), reason));
  }

  lemma OrEmptyPieces(env: Env, cs: seq<Content>)
    ensures PiecesOf(env, OrEmptyText(cs)) == if PiecesOf(env, cs) == [] then [TextPiece("")] else PiecesOf(env, cs)
  {}

  lemma PiecesConcat(env: Env, a: seq<Content>, b: seq<Content>)
    ensures PiecesOf(env, a + b) == PiecesOf(env, a) + PiecesOf(env, b)
  {}

  /** A stream that reaches its end delivers the content its pieces stand for. */
  lemma DeliverSeen(env: Env, s: State, content: seq<Content>, reason: string, tokens: nat)
    requires env.codec.RoundTrips()
    requires s.nextIndex == |ViewOf(s).pieces| && (s.emittedBlock <==> ViewOf(s).pieces != [])
    requires ViewOf(s) == View(ViewOf(s).header, PiecesOf(env, content), None, false, false) && ViewOf(s).header.Some?
    ensures var end := Send(Send(SendFallback(s), MessageDelta(reason, tokens)), MessageStop);
            var header := ViewOf(s).header.value;
            Assemble(env.codec, end.trace)
            == Some(Message(header.id, header.model, OrEmptyText(content), reason, header.inputTokens, tokens))
  {
    OrEmptyPieces(env, content);
    FallbackSeen(s);
    EndSeen(SendFallback(s), reason, tokens);
    PiecesDecode(env, OrEmptyText(content));
  }

  /** The closing sequence delivers the speech and the tool calls of the whole body, or breaks with it. */
  lemma FinalizeAgrees(env: Env, s: State, d: Digest, calls: seq<Json>)
    requires env.codec.RoundTrips() && Follows(env, s, d)
    requires SameCalls(env.codec, InOrder(s.tools), calls) && (s.tools == map[] <==> calls == [])
    ensures var end := Settle(env, Finalize(env, s));
            var tools := ToolBlocks(env, calls, |calls|);
            var seen := Assemble(env.codec, end.trace);
            if tools.Failure? then end.error == Some(tools.error) && seen.None?
            else
              && end.error.None? && seen.Some?
              && seen.value == Message(MessageId(env.ctx.requestId, d.id), env.ctx.publicModel,
                                       OrEmptyText(Speech(env, d.thought, d.text) + tools.value),
                                       StopReason(d.finish, calls != []), seen.value.inputTokens, d.output)
  {
    ReadySeen(env, s, d);
    var ready := CloseOpen(env, EnsureStarted(env, s)).(tools := map[]);
    var speech := Speech(env, d.thought, d.text);
    SpeechPieces(env, d.thought, d.text);
    assert PiecesOf(env, []) == [];
    var base := PiecesOf(env, speech);
    assert base + [] == base;
    assert ToolBlocks(env, calls, 0) == Success([]);
    hide CloseOpen, EnsureStarted, ToolBlocks, SeeAll, MessageId, SendTools, Speech, PiecesOf, Pieces, Assemble;
    ToolsAgree(env, ready, calls, InOrder(s.tools), 0, base);
    var sent := SendTools(env, ready, InOrder(s.tools), 0);
    var tools := ToolBlocks(env, calls, |calls|);
    if tools.Failure? {
      BrokenSeen(env, sent.st, sent.error.value);
    } else {
      PiecesConcat(env, speech, tools.value);
      DeliverSeen(env, sent.st, speech + tools.value, StopReason(s.finishReason, s.tools != map[]), s.usageOutput);
    }
  }

  /** The same message; only the prompt token count, an estimate in a stream, may differ. */
  predicate SameButEstimate(seen: Option<Message>, m: Message) {
    seen.Some? && seen.value == m.(inputTokens := seen.value.inputTokens)
  }

  /**
   Streaming refines non-streaming. For every answer in the common domain and
   every way of cutting it into frames, a client of the stream assembles the
   message the non-stream path builds (the prompt token count at the start of a
   stream is an estimate), and one path fails exactly when the other does.
   */
  lemma StreamingRefinesWhole(env: Env, frames: seq<Json>, body: Json)
    requires env.codec.RoundTrips()
    requires StreamDomain(frames) && WholeDomain(env.codec, body) && SameAnswer(env.codec, frames, body)
    ensures var whole, end := MessageOf(env, body), StreamEnd(env, frames);
            var seen := Assemble(env.codec, end.trace);
            && (whole.Failure? <==> seen.None?)
            && (whole.Failure? <==> end.error.Some?) && (whole.Failure? ==> end.error == Some(whole.error))
            && (whole.Success? ==> SameButEstimate(seen, whole.value))
  {
    StreamFollows(env, frames);
    StreamTools(env, frames);
    WholeParts(env, body);
    var message := ObjAt(Choice(body.fields).value, "message").value;
    SlotsMatch(env.codec, StreamFragments(frames), CallsIn(message));
    FinalizeAgrees(env, ProcessAll(env, INITIAL, frames), Told(frames), CallsIn(message));
  }

  /**
   * Why the domain has no `error` key: a null one is ignored in a frame, as if it were absent, but
   * makes the non-stream translation fail whatever else the body holds.
   */
  lemma NullErrorDiffers(env: Env, s: State, fields: Fields)
    requires At(fields, "error") == Some(Null)
    ensures ProcessValue(env, s, Obj(fields)) == ProcessValue(env, s, Obj(fields - {"error"}))
    ensures MessageOf(env, Obj(fields)) == Failure(Reported("upstream returned an error"))
  {
    var without := fields - {"error"};
    assert forall key :: key != "error" ==> At(without, key) == At(fields, key);
    assert Get(Obj(fields), "usage") == Get(Obj(without), "usage");
    assert UsageFrom(Obj(fields)) == UsageFrom(Obj(without)) by {
      assert forall key :: key != "error" ==> Get(Obj(without), key) == Get(Obj(fields), key);
    }
    assert StrAt(without, "id") == StrAt(fields, "id");
    assert Choice(without) == Choice(fields);
    hide ProcessChoice, UsageFrom, Choice;
  }
}
