/** OpenAI Chat Completion body -> Anthropic message (src/bridge/response.rs). */
module Response {
  import opened Common
  import opened Json
  import opened Bridge

  datatype Content =
    | Text(text: string)
    | Thinking(thinking: string, signature: string)
    | ToolUse(id: string, name: string, input: Json)

  datatype Message = Message(
    id: string, model: string, content: seq<Content>,
    stopReason: string, inputTokens: nat, outputTokens: nat)

  function StopReason(finish: Option<string>, hasTools: bool): string {
    if finish == Some("length") || finish == Some("max_tokens") then "max_tokens"
    else if finish == Some("content_filter") then "end_turn"
    else if hasTools then "tool_use" else "end_turn"
  }

  /** Prompt and completion tokens; the whole value stands in for a missing `usage`. */
  function UsageFrom(v: Json): (nat, nat) {
    var usage := GetOr(Get(v, "usage"), v);
    (GetOr(AsU64(OrElse(Get(usage, "prompt_tokens"), Get(usage, "input_tokens"))), 0),
     GetOr(AsU64(OrElse(Get(usage, "completion_tokens"), Get(usage, "output_tokens"))), 0))
  }

  function ToolInput(codec: Codec, arguments: Option<Json>): (r: Result<Json, BridgeError>)
    ensures r.Success? ==> r.value.Obj?
  {
    if arguments.Some? && !arguments.value.Null? && !arguments.value.Str? && !arguments.value.Obj? then
      Failure(BadArguments)
    else
      var raw := Trim(
        if arguments.None? || arguments.value.Null? then "{}"
        else if arguments.value.Str? then arguments.value.s
        else codec.encode(arguments.value));
      if raw == "" then Success(Obj(map[]))
      else
        var parsed := codec.decode(raw);
        if parsed.Some? && parsed.value.Obj? then Success(parsed.value) else Failure(BadArguments)
  }

  function ErrorMessage(error: Json): string {
    GetOr(OrElse(AsStr(Get(error, "message")), AsStr(Some(error))), "upstream returned an error")
  }

  // ---------------------------------------------------------------- text

  function PartText(part: Json): Option<string> {
    if !part.Obj? then None
    else
      var kind := GetOr(StrAt(part.fields, "type"), "text");
      if kind == "text" || kind == "output_text" || kind == "refusal" then StrAt(part.fields, "text") else None
  }

  function PartTexts(parts: seq<Json>): seq<string> {
    if parts == [] then []
    else
      var last := PartText(parts[|parts| - 1]);
      PartTexts(parts[..|parts| - 1]) + (if last.Some? then [last.value] else [])
  }

  function TextBlocks(content: Option<Json>): Result<seq<string>, BridgeError> {
    if content.None? || content.value.Null? then Success([])
    else if content.value.Str? then Success([content.value.s])
    else if content.value.Arr? then Success(PartTexts(content.value.items))
    else Failure(ContentNotText)
  }

  method ExtractTextBlocks(content: Option<Json>) returns (r: Result<seq<string>, BridgeError>)
    ensures r == TextBlocks(content)
  {
    if content.None? || content.value.Null? {
      return Success([]);
    }
    if content.value.Str? {
      return Success([content.value.s]);
    }
    if !content.value.Arr? {
      return Failure(ContentNotText);
    }
    var parts := content.value.items;
    var out: seq<string> := [];
    for i := 0 to |parts|
      invariant out == PartTexts(parts[..i])
    {
      assert parts[..i + 1][..i] == parts[..i];
      var text := PartText(parts[i]);
      if text.Some? {
        out := out + [text.value];
      }
    }
    assert parts[..|parts|] == parts;
    return Success(out);
  }

  // ---------------------------------------------------------------- tool calls

  function ToolBlock(env: Env, call: Fields, index: nat): Result<Content, BridgeError> {
    var function_ := ObjAt(call, "function");
    if function_.None? then Failure(BadToolCall)
    else
      var name := NonEmpty(StrAt(function_.value, "name"));
      if name.None? then Failure(MissingToolName)
      else
        var id := GetOr(NonEmpty(StrAt(call, "id")), SyntheticToolId(env.ctx.requestId, index));
        var input := ToolInput(env.codec, At(function_.value, "arguments"));
        if input.Failure? then Failure(input.error) else Success(ToolUse(id, name.value, input.value))
  }

  /** The first `n` tool calls, in order; the first bad one decides the error. */
  function ToolBlocks(env: Env, calls: seq<Json>, n: nat): (r: Result<seq<Content>, BridgeError>)
    requires n <= |calls|
    ensures r.Success? ==> |r.value| == n
  {
    if n == 0 then Success([])
    else
      var before := ToolBlocks(env, calls, n - 1);
      if before.Failure? then before
      else if !calls[n - 1].Obj? then Failure(BadToolCall)
      else
        var block := ToolBlock(env, calls[n - 1].fields, n - 1);
        if block.Failure? then Failure(block.error) else Success(before.value + [block.value])
  }

  lemma {:induction false} ToolBlocksFail(env: Env, calls: seq<Json>, n: nat, m: nat)
    requires n <= m <= |calls| && ToolBlocks(env, calls, n).Failure?
    ensures ToolBlocks(env, calls, m) == ToolBlocks(env, calls, n)
  {
    hide ToolBlock;
    if n < m {
      ToolBlocksFail(env, calls, n, m - 1);
    }
  }

  lemma ToolBlocksSnoc(env: Env, calls: seq<Json>, n: nat, before: seq<Content>, block: Content)
    requires n < |calls| && ToolBlocks(env, calls, n) == Success(before)
    requires calls[n].Obj? && ToolBlock(env, calls[n].fields, n) == Success(block)
    ensures ToolBlocks(env, calls, n + 1) == Success(before + [block])
  {
    hide ToolBlock;
  }

  function LegacyCall(call: Fields): Fields {
    map["function" := Obj(call)]
  }

  function ToolCalls(env: Env, message: Fields): Result<seq<Content>, BridgeError> {
    var calls := GetOr(ArrAt(message, "tool_calls"), []);
    var blocks := ToolBlocks(env, calls, |calls|);
    var legacy := ObjAt(message, "function_call");
    if blocks.Failure? || blocks.value != [] || legacy.None? then blocks
    else
      var block := ToolBlock(env, LegacyCall(legacy.value), 0);
      if block.Failure? then Failure(block.error) else Success([block.value])
  }

  method ExtractToolCalls(env: Env, message: Fields) returns (r: Result<seq<Content>, BridgeError>)
    ensures r == ToolCalls(env, message)
  {
    hide ToolBlock;
    var out: seq<Content> := [];
    var calls := GetOr(ArrAt(message, "tool_calls"), []);
    for i := 0 to |calls|
      invariant ToolBlocks(env, calls, i) == Success(out)
    {
      if !calls[i].Obj? {
        ToolBlocksFail(env, calls, i + 1, |calls|);
        return Failure(BadToolCall);
      }
      var block := ToolBlock(env, calls[i].fields, i);
      if block.Failure? {
        ToolBlocksFail(env, calls, i + 1, |calls|);
        return Failure(block.error);
      }
      out := out + [block.value];
    }
    var legacy := ObjAt(message, "function_call");
    if out == [] && legacy.Some? {
      var block := ToolBlock(env, LegacyCall(legacy.value), 0);
      if block.Failure? {
        return Failure(block.error);
      }
      out := [block.value];
    }
    return Success(out);
  }

  // ---------------------------------------------------------------- message

  function Choice(top: Fields): Option<Fields> {
    var choices := ArrAt(top, "choices");
    if choices.Some? && choices.value != [] && choices.value[0].Obj?
    then Some(choices.value[0].fields) else None
  }

  function WholeReasoning(message: Fields): Option<string> {
    NonEmpty(AsStr(OrElse(OrElse(At(message, "reasoning_content"), At(message, "reasoning")), At(message, "thinking"))))
  }

  function ThinkingBlocks(env: Env, reasoning: Option<string>): seq<Content> {
    if reasoning.Some? then [Thinking(reasoning.value, env.signature(reasoning.value))] else []
  }

  function NonEmptyTexts(texts: seq<string>): seq<Content> {
    if texts == [] then []
    else
      NonEmptyTexts(texts[..|texts| - 1])
      + (if texts[|texts| - 1] == "" then [] else [Text(texts[|texts| - 1])])
  }

  function WithRefusal(texts: seq<string>, message: Fields): seq<string> {
    var refusal := NonEmpty(StrAt(message, "refusal"));
    if texts == [] && refusal.Some? then [refusal.value] else texts
  }

  function OrEmptyText(content: seq<Content>): (r: seq<Content>)
    ensures r != []
  {
    if content == [] then [Text("")] else content
  }

  /** The content blocks of one upstream message, and whether any is a tool call. */
  datatype Parts = Parts(content: seq<Content>, hasTools: bool)

  function PartsOf(env: Env, message: Fields): Result<Parts, BridgeError> {
    var texts := TextBlocks(At(message, "content"));
    if texts.Failure? then Failure(texts.error)
    else
      var tools := ToolCalls(env, message);
      if tools.Failure? then Failure(tools.error)
      else
        Success(Parts(
          OrEmptyText(ThinkingBlocks(env, WholeReasoning(message))
                      + NonEmptyTexts(WithRefusal(texts.value, message)) + tools.value),
          tools.value != []))
  }

  /** The whole non-stream translation of a parsed body. */
  function MessageOf(env: Env, value: Json): Result<Message, BridgeError> {
    if !value.Obj? then Failure(NotAnObject)
    else if "error" in value.fields then Failure(Reported(ErrorMessage(value.fields["error"])))
    else
      var choice := Choice(value.fields);
      if choice.None? then Failure(NoChoices)
      else
        var message := ObjAt(choice.value, "message");
        if message.None? then Failure(NoMessage)
        else
          var parts := PartsOf(env, message.value);
          if parts.Failure? then Failure(parts.error)
          else
            var (input, output) := UsageFrom(value);
            Success(Message(
              MessageId(env.ctx.requestId, StrAt(value.fields, "id")),
              env.ctx.publicModel,
              parts.value.content,
              StopReason(StrAt(choice.value, "finish_reason"), parts.value.hasTools),
              if input > 0 then input else env.ctx.estimatedInputTokens,
              output))
  }

  method AppendTexts(content: seq<Content>, texts: seq<string>) returns (out: seq<Content>)
    ensures out == content + NonEmptyTexts(texts)
  {
    out := content;
    for i := 0 to |texts|
      invariant out == content + NonEmptyTexts(texts[..i])
    {
      assert texts[..i + 1][..i] == texts[..i];
      if texts[i] != "" {
        out := out + [Text(texts[i])];
      }
    }
    assert texts[..|texts|] == texts;
  }

  method BuildParts(env: Env, message: Fields) returns (r: Result<Parts, BridgeError>)
    ensures r == PartsOf(env, message)
  {
    var content: seq<Content> := [];
    var reasoning := WholeReasoning(message);
    if reasoning.Some? {
      content := [Thinking(reasoning.value, env.signature(reasoning.value))];
    }
    var blocks := ExtractTextBlocks(At(message, "content"));
    if blocks.Failure? {
      return Failure(blocks.error);
    }
    var texts := WithRefusal(blocks.value, message);
    var tools := ExtractToolCalls(env, message);
    if tools.Failure? {
      return Failure(tools.error);
    }
    content := AppendTexts(content, texts);
    content := OrEmptyText(content + tools.value);
    return Success(Parts(content, tools.value != []));
  }

  method BuildMessage(env: Env, body: string) returns (r: Result<Message, BridgeError>)
    ensures env.codec.decode(body).None? ==> r == Failure(InvalidJson)
    ensures env.codec.decode(body).Some? ==> r == MessageOf(env, env.codec.decode(body).value)
  {
    var parsed := env.codec.decode(body);
    if parsed.None? {
      return Failure(InvalidJson);
    }
    var value := parsed.value;
    if !value.Obj? {
      return Failure(NotAnObject);
    }
    if "error" in value.fields {
      return Failure(Reported(ErrorMessage(value.fields["error"])));
    }
    var choice := Choice(value.fields);
    if choice.None? {
      return Failure(NoChoices);
    }
    var message := ObjAt(choice.value, "message");
    if message.None? {
      return Failure(NoMessage);
    }
    var parts := BuildParts(env, message.value);
    if parts.Failure? {
      return Failure(parts.error);
    }
    var (input, output) := UsageFrom(value);
    return Success(Message(
      MessageId(env.ctx.requestId, StrAt(value.fields, "id")), env.ctx.publicModel, parts.value.content,
      StopReason(StrAt(choice.value, "finish_reason"), parts.value.hasTools),
      if input > 0 then input else env.ctx.estimatedInputTokens, output));
  }
}
