/** A finished message printed as an event stream (src/bridge/stream.rs, message_to_sse). */
module MessageSse {
  import opened Common
  import opened Json
  import opened Bridge
  import opened Response
  import opened Client
  import opened Refinement

  // ---------------------------------------------------------------- the message object

  function ContentJson(c: Content): Json {
    match c
    case Text(text) => Obj(map["type" := Str("text"), "text" := Str(text)])
    case Thinking(thinking, signature) =>
      Obj(map["type" := Str("thinking"), "thinking" := Str(thinking), "signature" := Str(signature)])
    case ToolUse(id, name, input) =>
      Obj(map["type" := Str("tool_use"), "id" := Str(id), "name" := Str(name), "input" := input])
  }

  function ContentJsons(cs: seq<Content>): seq<Json> {
    seq(|cs|, i requires 0 <= i < |cs| => ContentJson(cs[i]))
  }

  function UsageJson(input: nat, output: nat): Json {
    Obj(map["input_tokens" := Int(input), "output_tokens" := Int(output),
            "cache_creation_input_tokens" := Int(0), "cache_read_input_tokens" := Int(0)])
  }

  function MessageJson(m: Message): Json {
    Obj(map["id" := Str(m.id), "type" := Str("message"), "role" := Str("assistant"), "model" := Str(m.model),
            "content" := Arr(ContentJsons(m.content)),
            "stop_reason" := Str(m.stopReason), "stop_sequence" := Null,
            "usage" := UsageJson(m.inputTokens, m.outputTokens)])
  }

  // ---------------------------------------------------------------- printing

  function Field(block: Json, key: string, default: string): string {
    GetOr(AsStr(Get(block, key)), default)
  }

  /** The events of one content block; a block of unknown type is skipped. */
  function BlockEvents(env: Env, block: Json, n: nat): seq<Event> {
    var kind := Field(block, "type", "");
    if kind == "text" then
      var text := Field(block, "text", "");
      [BlockStart(n, TextKind)] + (if text == "" then [] else [BlockDelta(n, TextDelta(text))]) + [BlockStop(n)]
    else if kind == "thinking" then
      var thinking := Field(block, "thinking", "");
      var signature := Field(block, "signature", env.signature(thinking));
      [BlockStart(n, ThinkingKind)] + (if thinking == "" then [] else [BlockDelta(n, ThinkingDelta(thinking))])
      + [BlockDelta(n, SignatureDelta(signature))] + [BlockStop(n)]
    else if kind == "tool_use" then
      var input := GetOr(Get(block, "input"), Obj(map[]));
      [BlockStart(n, ToolKind(Field(block, "id", ""), Field(block, "name", "tool")))]
      + [BlockDelta(n, InputJsonDelta(env.codec.encode(input)))] + [BlockStop(n)]
    else []
  }

  /** The number of printable blocks, which is the next index. */
  function Printed(blocks: seq<Json>): nat {
    if blocks == [] then 0
    else
      var kind := Field(blocks[|blocks| - 1], "type", "");
      Printed(blocks[..|blocks| - 1]) + (if kind == "text" || kind == "thinking" || kind == "tool_use" then 1 else 0)
  }

  function BlocksEvents(env: Env, blocks: seq<Json>): seq<Event> {
    if blocks == [] then []
    else
      BlocksEvents(env, blocks[..|blocks| - 1])
      + BlockEvents(env, blocks[|blocks| - 1], Printed(blocks[..|blocks| - 1]))
  }

  function StartEvent(env: Env, message: Json): Event {
    MessageStart(
      GetOr(NonEmpty(AsStr(Get(message, "id"))), MessageId(env.ctx.requestId, None)),
      Field(message, "model", env.ctx.publicModel),
      GetOr(AsU64(Get(GetOr(Get(message, "usage"), Null), "input_tokens")), env.ctx.estimatedInputTokens))
  }

  function DeltaEvent(message: Json): Event {
    MessageDelta(Field(message, "stop_reason", "end_turn"),
                 GetOr(AsU64(Get(GetOr(Get(message, "usage"), Null), "output_tokens")), 0))
  }

  function SseEvents(env: Env, message: Json): seq<Event> {
    [StartEvent(env, message)] + BlocksEvents(env, ContentBlocks(message))
    + (if Printed(ContentBlocks(message)) == 0 then [BlockStart(0, TextKind)] + [BlockStop(0)] else [])
    + [DeltaEvent(message)] + [MessageStop]
  }

  method MessageToSse(env: Env, message: Json) returns (out: seq<Event>)
    ensures out == SseEvents(env, message)
  {
    hide StartEvent, BlockEvents, ContentBlocks, DeltaEvent;
    out := [StartEvent(env, message)];
    var index: nat, emitted := 0, false;
    var blocks := ContentBlocks(message);
    for i := 0 to |blocks|
      invariant index == Printed(blocks[..i]) && (emitted <==> index > 0)
      invariant out == [StartEvent(env, message)] + BlocksEvents(env, blocks[..i])
    {
      assert blocks[..i + 1][..i] == blocks[..i];
      var kind := Field(blocks[i], "type", "");
      Regroup([StartEvent(env, message)], BlocksEvents(env, blocks[..i]), BlockEvents(env, blocks[i], index));
      out := out + BlockEvents(env, blocks[i], index);
      if kind == "text" || kind == "thinking" || kind == "tool_use" {
        index := index + 1;
        emitted := true;
      }
    }
    assert blocks[..|blocks|] == blocks;
    if !emitted {
      out := out + ([BlockStart(0, TextKind)] + [BlockStop(0)]);
    } else {
      out := out + [];
    }
    out := out + [DeltaEvent(message)] + [MessageStop];
  }

  // ---------------------------------------------------------------- what a client assembles

  lemma SeeFirst(v: View, e: Event)
    ensures SeeAll(v, [e]) == See(v, e)
  {
    assert [e][..0] == [];
  }

  lemma TextEvents(env: Env, text: string, n: nat)
    ensures BlockEvents(env, ContentJson(Text(text)), n)
            == [BlockStart(n, TextKind)] + (if text == "" then [] else [BlockDelta(n, TextDelta(text))]) + [BlockStop(n)]
  {
    var block := ContentJson(Text(text));
    assert Field(block, "type", "") == "text" && Field(block, "text", "") == text;
  }

  lemma ThinkingEvents(env: Env, thinking: string, signature: string, n: nat)
    ensures BlockEvents(env, ContentJson(Thinking(thinking, signature)), n)
            == [BlockStart(n, ThinkingKind)] + (if thinking == "" then [] else [BlockDelta(n, ThinkingDelta(thinking))])
               + [BlockDelta(n, SignatureDelta(signature))] + [BlockStop(n)]
  {
    var block := ContentJson(Thinking(thinking, signature));
    assert Field(block, "type", "") == "thinking" && Field(block, "thinking", "") == thinking;
    assert Field(block, "signature", env.signature(thinking)) == signature;
  }

  lemma ToolEvents(env: Env, id: string, name: string, input: Json, n: nat)
    ensures BlockEvents(env, ContentJson(ToolUse(id, name, input)), n)
            == [BlockStart(n, ToolKind(id, name))] + [BlockDelta(n, InputJsonDelta(env.codec.encode(input)))] + [BlockStop(n)]
  {
    var block := ContentJson(ToolUse(id, name, input));
    assert Field(block, "type", "") == "tool_use" && Field(block, "id", "") == id && Field(block, "name", "tool") == name;
    assert Get(block, "input") == Some(input);
  }

  lemma FillSeen(w: View, base: seq<Piece>, p: Piece, d: Delta)
    requires w.pieces == base + [p] && Extend(p, d).Some?
    ensures See(w, BlockDelta(|base|, d)) == w.(pieces := base + [Extend(p, d).value])
  {
    hide Extend;
    ReplaceLast(base, p, Extend(p, d).value);
  }

  /** A delta lands in the piece that was started last. */
  lemma {:induction false} SeeFill(v: View, es: seq<Event>, base: seq<Piece>, p: Piece, d: Delta)
    requires SeeAll(v, es) == v.(pieces := base + [p]) && Extend(p, d).Some?
    ensures SeeAll(v, es + [BlockDelta(|base|, d)]) == v.(pieces := base + [Extend(p, d).value])
  {
    hide SeeAll, Extend, See;
    SeeOne(v, es, BlockDelta(|base|, d));
    FillSeen(SeeAll(v, es), base, p, d);
  }

  lemma SeeText(v: View, text: string)
    ensures var n := |v.pieces|;
            SeeAll(v, [BlockStart(n, TextKind)] + (if text == "" then [] else [BlockDelta(n, TextDelta(text))]) + [BlockStop(n)])
            == v.(pieces := v.pieces + [TextPiece(text)])
  {
    var n := |v.pieces|;
    var start := [BlockStart(n, TextKind)];
    var said := if text == "" then [] else [BlockDelta(n, TextDelta(text))];
    SeeFirst(v, start[0]);
    assert "" + text == text;
    if text != "" {
      SeeFill(v, start, v.pieces, TextPiece(""), TextDelta(text));
    } else {
      assert start + said == start;
    }
    SeeOne(v, start + said, BlockStop(n));
  }

  lemma SeeThinking(v: View, thinking: string, signature: string)
    ensures var n := |v.pieces|;
            SeeAll(v, [BlockStart(n, ThinkingKind)] + (if thinking == "" then [] else [BlockDelta(n, ThinkingDelta(thinking))])
                      + [BlockDelta(n, SignatureDelta(signature))] + [BlockStop(n)])
            == v.(pieces := v.pieces + [ThinkingPiece(thinking, signature)])
  {
    var n := |v.pieces|;
    var start := [BlockStart(n, ThinkingKind)];
    var said := if thinking == "" then [] else [BlockDelta(n, ThinkingDelta(thinking))];
    SeeFirst(v, start[0]);
    assert "" + thinking == thinking;
    if thinking != "" {
      SeeFill(v, start, v.pieces, ThinkingPiece("", ""), ThinkingDelta(thinking));
    } else {
      assert start + said == start;
    }
    SeeFill(v, start + said, v.pieces, ThinkingPiece(thinking, ""), SignatureDelta(signature));
    SeeOne(v, start + said + [BlockDelta(n, SignatureDelta(signature))], BlockStop(n));
  }

  lemma SeeTool(v: View, id: string, name: string, json: string)
    ensures var n := |v.pieces|;
            SeeAll(v, [BlockStart(n, ToolKind(id, name))] + [BlockDelta(n, InputJsonDelta(json))] + [BlockStop(n)])
            == v.(pieces := v.pieces + [ToolPiece(id, name, json)])
  {
    var n := |v.pieces|;
    var start := [BlockStart(n, ToolKind(id, name))];
    SeeFirst(v, start[0]);
    assert "" + json == json;
    SeeFill(v, start, v.pieces, ToolPiece(id, name, ""), InputJsonDelta(json));
    SeeOne(v, start + [BlockDelta(n, InputJsonDelta(json))], BlockStop(n));
  }

  lemma SeeBlock(env: Env, v: View, c: Content)
    ensures SeeAll(v, BlockEvents(env, ContentJson(c), |v.pieces|)) == v.(pieces := v.pieces + [PieceOf(env, c)])
  {
    hide SeeAll, BlockEvents, ContentJson;
    match c
    case Text(text) =>
      TextEvents(env, text, |v.pieces|);
      SeeText(v, text);
    case Thinking(thinking, signature) =>
      ThinkingEvents(env, thinking, signature, |v.pieces|);
      SeeThinking(v, thinking, signature);
    case ToolUse(id, name, input) =>
      ToolEvents(env, id, name, input, |v.pieces|);
      SeeTool(v, id, name, env.codec.encode(input));
  }

  lemma KindPrints(c: Content)
    ensures Field(ContentJson(c), "type", "") in ["text", "thinking", "tool_use"]
  {}

  lemma JsonsSplit(cs: seq<Content>)
    requires cs != []
    ensures var n := |cs| - 1;
            && |ContentJsons(cs)| == n + 1 && ContentJsons(cs)[..n] == ContentJsons(cs[..n])
            && ContentJsons(cs)[n] == ContentJson(cs[n])
  {}

  lemma {:induction false} PrintedAll(cs: seq<Content>)
    ensures Printed(ContentJsons(cs)) == |cs|
    decreases |cs|
  {
    if cs != [] {
      JsonsSplit(cs);
      PrintedAll(cs[..|cs| - 1]);
      KindPrints(cs[|cs| - 1]);
    }
  }

  lemma BlocksSplit(env: Env, cs: seq<Content>)
    requires cs != []
    ensures var n := |cs| - 1;
            BlocksEvents(env, ContentJsons(cs))
            == BlocksEvents(env, ContentJsons(cs[..n])) + BlockEvents(env, ContentJson(cs[n]), n)
  {
    hide BlockEvents, Printed, ContentJson;
    JsonsSplit(cs);
    PrintedAll(cs[..|cs| - 1]);
  }

  lemma PiecesSplit(env: Env, cs: seq<Content>)
    requires cs != []
    ensures var n := |cs| - 1; PiecesOf(env, cs) == PiecesOf(env, cs[..n]) + [PieceOf(env, cs[n])]
    ensures |PiecesOf(env, cs[..|cs| - 1])| == |cs| - 1
  {}

  lemma {:induction false} SeeBlocks(env: Env, v: View, cs: seq<Content>)
    requires v.pieces == []
    ensures SeeAll(v, BlocksEvents(env, ContentJsons(cs))) == v.(pieces := PiecesOf(env, cs))
    decreases |cs|
  {
    if cs != [] {
      hide BlockEvents, BlocksEvents, ContentJson, ContentJsons, SeeAll, PieceOf, PiecesOf;
      var n := |cs| - 1;
      PiecesSplit(env, cs);
      BlocksSplit(env, cs);
      SeeBlocks(env, v, cs[..n]);
      SeeBlock(env, v.(pieces := PiecesOf(env, cs[..n])), cs[n]);
      SeeConcat(v, BlocksEvents(env, ContentJsons(cs[..n])), BlockEvents(env, ContentJson(cs[n]), n));
    }
  }

  /** Counts a 64-bit parser reads back. */
  predicate Countable(m: Message) {
    m.inputTokens < U64_BOUND && m.outputTokens < U64_BOUND
  }

  lemma HeaderFields(env: Env, m: Message)
    requires m.id != "" && Countable(m)
    ensures StartEvent(env, MessageJson(m)) == MessageStart(m.id, m.model, m.inputTokens)
    ensures DeltaEvent(MessageJson(m)) == MessageDelta(m.stopReason, m.outputTokens)
    ensures ContentBlocks(MessageJson(m)) == ContentJsons(m.content)
  {
    var json := MessageJson(m);
    assert Get(json, "usage") == Some(UsageJson(m.inputTokens, m.outputTokens));
    assert Get(json, "id") == Some(Str(m.id)) && Get(json, "model") == Some(Str(m.model));
    assert Get(json, "stop_reason") == Some(Str(m.stopReason));
    var usage := UsageJson(m.inputTokens, m.outputTokens);
    assert Get(usage, "input_tokens") == Some(Int(m.inputTokens)) && Get(usage, "output_tokens") == Some(Int(m.outputTokens));
    assert Get(json, "content") == Some(Arr(ContentJsons(m.content)));
  }

  lemma SseEventsOf(env: Env, m: Message)
    requires m.id != "" && m.content != [] && Countable(m)
    ensures SseEvents(env, MessageJson(m))
            == [MessageStart(m.id, m.model, m.inputTokens)] + BlocksEvents(env, ContentJsons(m.content))
               + [MessageDelta(m.stopReason, m.outputTokens)] + [MessageStop]
  {
    HeaderFields(env, m);
    PrintedAll(m.content);
    hide BlocksEvents, ContentJson, ContentJsons, MessageJson, Printed, StartEvent, DeltaEvent, ContentBlocks;
    var front := [MessageStart(m.id, m.model, m.inputTokens)] + BlocksEvents(env, ContentJsons(m.content));
    assert front + [] == front;
  }

  lemma SeeMessage(start: Event, body: seq<Event>, delta: Event, v: View)
    requires start.MessageStart? && delta.MessageDelta?
    requires SeeAll(NEW_VIEW.(header := Some(Header(start.id, start.model, start.inputTokens))), body) == v
    ensures SeeAll(NEW_VIEW, [start] + body + [delta] + [MessageStop])
            == v.(closing := Some(Closing(delta.stopReason, delta.outputTokens)), stopped := true)
  {
    SeeFirst(NEW_VIEW, start);
    hide SeeAll;
    SeeConcat(NEW_VIEW, [start], body);
    SeeOne(NEW_VIEW, [start] + body, delta);
    SeeOne(NEW_VIEW, [start] + body + [delta], MessageStop);
  }

  /** Printing a message and assembling the events gives the message back. */
  lemma PrintedMessageAssembles(env: Env, m: Message)
    requires env.codec.RoundTrips() && m.id != "" && m.content != [] && Countable(m)
    ensures Assemble(env.codec, SseEvents(env, MessageJson(m))) == Some(m)
  {
    hide SeeAll, BlocksEvents, ContentJson, ContentJsons, MessageJson, SseEvents, PiecesOf, Contents;
    SseEventsOf(env, m);
    var start, delta := MessageStart(m.id, m.model, m.inputTokens), MessageDelta(m.stopReason, m.outputTokens);
    var v := NEW_VIEW.(header := Some(Header(m.id, m.model, m.inputTokens)));
    SeeBlocks(env, v, m.content);
    SeeMessage(start, BlocksEvents(env, ContentJsons(m.content)), delta, v.(pieces := PiecesOf(env, m.content)));
    PiecesDecode(env, m.content);
  }

  // ---------------------------------------------------------------- messages with parts missing

  /** A string under a key, or what stands in for it. */
  predicate Holds(v: Json, key: string, default: string, text: string) {
    if v.Obj? && key in v.fields && v.fields[key].Str? then text == v.fields[key].s else text == default
  }

  /** A count under a key of `usage`, or what stands in for it. */
  predicate Counts(v: Json, key: string, default: nat, n: nat) {
    var usage := GetOr(Get(v, "usage"), Null);
    if usage.Obj? && key in usage.fields && usage.fields[key].Int? && 0 <= usage.fields[key].n < 0x1_0000_0000_0000_0000
    then n == usage.fields[key].n else n == default
  }

  /** Whatever a message leaves out, the printed stream starts and ends whole. */
  lemma PrintedFrame(env: Env, message: Json)
    ensures var es := SseEvents(env, message);
            var n := |es|;
            && n >= 3 && es[0].MessageStart? && es[n - 2].MessageDelta? && es[n - 1] == MessageStop
            && (forall id :: Get(message, "id") == Some(Str(id)) && id != "" ==> es[0].id == id)
            && (Get(message, "id").None? || !Get(message, "id").value.Str? || Get(message, "id") == Some(Str("")) ==>
                  es[0].id == MessageId(env.ctx.requestId, None))
            && Holds(message, "model", env.ctx.publicModel, es[0].model)
            && Counts(message, "input_tokens", env.ctx.estimatedInputTokens, es[0].inputTokens)
            && Holds(message, "stop_reason", "end_turn", es[n - 2].stopReason)
            && Counts(message, "output_tokens", 0, es[n - 2].outputTokens)
  {
    var blocks := ContentBlocks(message);
    if Printed(blocks) > 0 {
      SomethingPrinted(env, blocks);
    }
    hide BlocksEvents, Printed, MessageId;
  }

  lemma {:induction false} SomethingPrinted(env: Env, blocks: seq<Json>)
    requires Printed(blocks) > 0
    ensures BlocksEvents(env, blocks) != []
    decreases |blocks|
  {
    if Printed(blocks[..|blocks| - 1]) > 0 {
      SomethingPrinted(env, blocks[..|blocks| - 1]);
    }
  }

  /** One block, with what stands in for its missing parts; other types print nothing. */
  lemma PrintedBlock(env: Env, block: Json, n: nat)
    ensures var es := BlockEvents(env, block, n);
            && (Get(block, "type") == Some(Str("tool_use")) ==>
                  && |es| == 3 && es[0].BlockStart? && es[0].kind.ToolKind?
                  && Holds(block, "id", "", es[0].kind.id) && Holds(block, "name", "tool", es[0].kind.name)
                  && es[1] == BlockDelta(n, InputJsonDelta(env.codec.encode(GetOr(Get(block, "input"), Obj(map[]))))))
            && (Get(block, "type") == Some(Str("thinking")) ==>
                  && |es| >= 3 && es[0] == BlockStart(n, ThinkingKind) && es[|es| - 1] == BlockStop(n)
                  && es[|es| - 2].BlockDelta? && es[|es| - 2].delta.SignatureDelta?
                  && exists thinking :: Holds(block, "thinking", "", thinking)
                                        && Holds(block, "signature", env.signature(thinking), es[|es| - 2].delta.signature))
            && (Get(block, "type") == Some(Str("text")) ==>
                  |es| >= 2 && es[0] == BlockStart(n, TextKind) && es[|es| - 1] == BlockStop(n))
            && ((forall kind :: Get(block, "type") == Some(Str(kind)) ==> kind !in {"text", "thinking", "tool_use"}) ==> es == [])
  {
    assert Get(block, "type") == Some(Str("thinking")) ==> Holds(block, "thinking", "", Field(block, "thinking", ""));
    assert AsStr(Get(block, "type")).Some? ==> Get(block, "type") == Some(Str(AsStr(Get(block, "type")).value));
  }
}
