/** What a translated message says, read off the upstream body (src/bridge/response.rs). */
module MessageLaws {
  import opened Common
  import opened Json
  import opened Bridge
  import opened Response

  // ---------------------------------------------------------------- reading the body

  /** The first choice, if the body has one. */
  function FirstChoice(value: Json): Option<Fields> {
    if value.Obj? && "choices" in value.fields && value.fields["choices"].Arr?
       && value.fields["choices"].items != [] && value.fields["choices"].items[0].Obj?
    then Some(value.fields["choices"].items[0].fields) else None
  }

  function ChoiceKey(value: Json, key: string): Json {
    if FirstChoice(value).Some? && key in FirstChoice(value).value then FirstChoice(value).value[key] else Null
  }

  /** The message it carries. */
  function Upstream(value: Json): Fields {
    if ChoiceKey(value, "message").Obj? then ChoiceKey(value, "message").fields else map[]
  }

  function FinishReason(value: Json): Option<string> {
    if ChoiceKey(value, "finish_reason").Str? then Some(ChoiceKey(value, "finish_reason").s) else None
  }

  lemma AcceptedBody(env: Env, value: Json)
    requires MessageOf(env, value).Success?
    ensures var m := MessageOf(env, value).value;
            && value.Obj? && "error" !in value.fields
            && PartsOf(env, Upstream(value)).Success?
            && m.content == PartsOf(env, Upstream(value)).value.content
            && m.stopReason == StopReason(FinishReason(value), PartsOf(env, Upstream(value)).value.hasTools)
  {
    hide PartsOf, StopReason, UsageFrom, MessageId;
  }

  // ---------------------------------------------------------------- stop reason

  predicate HasToolUse(content: seq<Content>) {
    exists i :: 0 <= i < |content| && content[i].ToolUse?
  }

  /** Cut off by length, else stopped for its tools unless a filter stopped it, else ended. */
  predicate StopLaw(reason: string, finish: Option<string>, tools: bool) {
    var cut := finish == Some("length") || finish == Some("max_tokens");
    var calls := tools && finish != Some("content_filter");
    && (reason == "max_tokens" <==> cut)
    && (!cut ==> (reason == "tool_use" <==> calls))
    && (!cut && !calls ==> reason == "end_turn")
  }

  lemma StopReasonIsLawful(finish: Option<string>, tools: bool)
    ensures StopLaw(StopReason(finish, tools), finish, tools)
  {}

  lemma CallsAreToolUses(env: Env, message: Fields)
    requires ToolCalls(env, message).Success?
    ensures forall c :: c in ToolCalls(env, message).value ==> c.ToolUse?
  {
    var calls := CallsOf(env, message);
    hide ToolCalls, Calls;
    var tools := ToolCalls(env, message).value;
    forall i | 0 <= i < |tools| ensures tools[i].ToolUse? {
      assert Renders(env, calls[i], i, tools[i]);
    }
  }

  lemma {:induction false} TextsAreTexts(texts: seq<string>)
    ensures forall c :: c in NonEmptyTexts(texts) ==> c.Text? && c.text != ""
    decreases |texts|
  {
    if texts != [] {
      TextsAreTexts(texts[..|texts| - 1]);
    }
  }

  lemma ToolsShow(env: Env, message: Fields)
    requires PartsOf(env, message).Success?
    ensures PartsOf(env, message).value.hasTools <==> HasToolUse(PartsOf(env, message).value.content)
  {
    var texts := WithRefusal(TextBlocks(At(message, "content")).value, message);
    var tools := ToolCalls(env, message).value;
    var head := ThinkingBlocks(env, WholeReasoning(message)) + NonEmptyTexts(texts);
    CallsAreToolUses(env, message);
    TextsAreTexts(texts);
    var content := PartsOf(env, message).value.content;
    assert content == OrEmptyText(head + tools);
    hide ToolCalls, TextBlocks, NonEmptyTexts, WholeReasoning, WithRefusal, PartsOf;
    if tools != [] {
      assert content[|head|] == tools[0] && tools[0] in tools;
    } else {
      assert head + tools == head;
      forall i | 0 <= i < |content| ensures !content[i].ToolUse? {
        if head != [] {
          assert content[i] in head;
        }
      }
    }
  }

  /** The stop reason of every translated body, in terms of its finish reason and the message's own content. */
  lemma WholeStopReason(env: Env, value: Json)
    requires MessageOf(env, value).Success?
    ensures var m := MessageOf(env, value).value; StopLaw(m.stopReason, FinishReason(value), HasToolUse(m.content))
  {
    hide *;
    AcceptedBody(env, value);
    ToolsShow(env, Upstream(value));
    StopReasonIsLawful(FinishReason(value), PartsOf(env, Upstream(value)).value.hasTools);
  }

  // ---------------------------------------------------------------- usage

  /** A count counts if it is an integer of 64 unsigned bits; anything else is zero. */
  function CountOf(v: Json): nat {
    if v.Int? && 0 <= v.n < 0x1_0000_0000_0000_0000 then v.n else 0
  }

  /** The first of the two names that is there decides, whatever it holds. */
  predicate Reads(usage: Json, name: string, other: string, n: nat) {
    if usage.Obj? && name in usage.fields then n == CountOf(usage.fields[name])
    else if usage.Obj? && other in usage.fields then n == CountOf(usage.fields[other])
    else n == 0
  }

  /** What any body or frame reports. */
  lemma UsageReads(value: Json)
    requires value.Obj?
    ensures var usage := if "usage" in value.fields then value.fields["usage"] else value;
            && Reads(usage, "prompt_tokens", "input_tokens", UsageFrom(value).0)
            && Reads(usage, "completion_tokens", "output_tokens", UsageFrom(value).1)
  {}

  /** Token counts come from `usage`, or from the body itself if that is missing; no prompt count means the estimate. */
  lemma WholeUsage(env: Env, value: Json) returns (prompt: nat)
    requires MessageOf(env, value).Success?
    ensures var m := MessageOf(env, value).value;
            var usage := if "usage" in value.fields then value.fields["usage"] else value;
            && Reads(usage, "prompt_tokens", "input_tokens", prompt)
            && Reads(usage, "completion_tokens", "output_tokens", m.outputTokens)
            && m.inputTokens == (if prompt > 0 then prompt else env.ctx.estimatedInputTokens)
            && m.model == env.ctx.publicModel
            && (forall id :: StrAt(value.fields, "id") == Some(id) && id != "" ==> m.id == id)
  {
    hide PartsOf, StopReason, Choice;
    prompt := UsageFrom(value).0;
  }

  // ---------------------------------------------------------------- content

  /** The words of one content part; a part without a type is text. */
  function Words(part: Json): Option<string> {
    var kind := AsStr(Get(part, "type"));
    if kind.None? || kind.value in {"text", "output_text", "refusal"} then AsStr(Get(part, "text")) else None
  }

  /** Texts are the words of the parts of an array that have some, in order. */
  ghost predicate TextsOfParts(parts: seq<Json>, texts: seq<string>)
    decreases |parts|
  {
    if parts == [] then texts == []
    else
      var words := Words(parts[0]);
      if words.None? then TextsOfParts(parts[1..], texts)
      else texts != [] && texts[0] == words.value && TextsOfParts(parts[1..], texts[1..])
  }

  lemma {:induction false} TextsOfPartsSnoc(parts: seq<Json>, texts: seq<string>, part: Json)
    requires TextsOfParts(parts, texts)
    ensures TextsOfParts(parts + [part], texts + (if Words(part).Some? then [Words(part).value] else []))
    decreases |parts|
  {
    hide Words;
    var all, more := parts + [part], texts + (if Words(part).Some? then [Words(part).value] else []);
    if parts == [] {
      assert all[0] == part && all[1..] == [];
      if Words(part).Some? {
        assert more == [Words(part).value] && more[1..] == [];
      }
    } else {
      assert all[0] == parts[0] && all[1..] == parts[1..] + [part];
      if Words(parts[0]).None? {
        TextsOfPartsSnoc(parts[1..], texts, part);
      } else {
        TextsOfPartsSnoc(parts[1..], texts[1..], part);
        assert more[0] == texts[0];
        assert more[1..] == texts[1..] + (if Words(part).Some? then [Words(part).value] else []);
      }
    }
  }

  lemma {:induction false} PartTextsAreWords(parts: seq<Json>)
    ensures TextsOfParts(parts, PartTexts(parts))
    decreases |parts|
  {
    if parts != [] {
      var front, last := parts[..|parts| - 1], parts[|parts| - 1];
      assert parts == front + [last] && PartText(last) == Words(last);
      PartTextsAreWords(front);
      TextsOfPartsSnoc(front, PartTexts(front), last);
    }
  }

  /** The words of the content itself. */
  ghost predicate OwnWords(content: Option<Json>, own: seq<string>) {
    if content.None? || content.value.Null? then own == []
    else if content.value.Str? then own == [content.value.s]
    else content.value.Arr? && TextsOfParts(content.value.items, own)
  }

  /** What an upstream message says in words: its content, or its refusal where it has none. */
  ghost predicate Says(message: Fields, texts: seq<string>) {
    exists own :: OwnWords(At(message, "content"), own) && texts == if own != [] then own else Refusal(message)
  }

  function Refusal(message: Fields): seq<string> {
    if "refusal" in message && message["refusal"].Str? && message["refusal"].s != "" then [message["refusal"].s] else []
  }

  /** What it thinks: the first of the three keys that is there, if it is a string with something in it. */
  function Thinks(message: Fields): string {
    var v := if "reasoning_content" in message then message["reasoning_content"]
             else if "reasoning" in message then message["reasoning"]
             else if "thinking" in message then message["thinking"] else Null;
    if v.Str? then v.s else ""
  }

  /** The text blocks that are not empty. */
  ghost predicate TextBlocksOf(content: seq<Content>, texts: seq<string>)
    decreases |texts|
  {
    if texts == [] then content == []
    else if texts[0] == "" then TextBlocksOf(content, texts[1..])
    else content != [] && content[0] == Text(texts[0]) && TextBlocksOf(content[1..], texts[1..])
  }

  lemma {:induction false} TextBlocksSnoc(content: seq<Content>, texts: seq<string>, text: string)
    requires TextBlocksOf(content, texts)
    ensures TextBlocksOf(content + (if text == "" then [] else [Text(text)]), texts + [text])
    decreases |texts|
  {
    var all, more := texts + [text], content + (if text == "" then [] else [Text(text)]);
    if texts == [] {
      assert all[1..] == [];
      if text != "" {
        assert more[1..] == [];
      }
    } else {
      assert all[0] == texts[0] && all[1..] == texts[1..] + [text];
      if texts[0] == "" {
        TextBlocksSnoc(content, texts[1..], text);
      } else {
        TextBlocksSnoc(content[1..], texts[1..], text);
        assert more[0] == content[0] && more[1..] == content[1..] + (if text == "" then [] else [Text(text)]);
      }
    }
  }

  lemma {:induction false} NonEmptyTextsAreBlocks(texts: seq<string>)
    ensures TextBlocksOf(NonEmptyTexts(texts), texts)
    decreases |texts|
  {
    if texts != [] {
      var front, last := texts[..|texts| - 1], texts[|texts| - 1];
      assert texts == front + [last];
      NonEmptyTextsAreBlocks(front);
      TextBlocksSnoc(NonEmptyTexts(front), front, last);
    }
  }

  // ---------------------------------------------------------------- tool calls

  /** The calls of a message: its list, or its one legacy call where the list has none. */
  ghost predicate Calls(message: Fields, calls: seq<Json>) {
    var listed := if "tool_calls" in message && message["tool_calls"].Arr? then message["tool_calls"].items else [];
    if listed != [] then calls == listed
    else if "function_call" in message && message["function_call"].Obj?
    then calls == [Obj(map["function" := message["function_call"]])]
    else calls == []
  }

  /** Argument text is trimmed; none at all is the empty object. */
  predicate Means(codec: Codec, arguments: Option<Json>, input: Json) {
    && input.Obj?
    && (arguments.None? || arguments.value.Null? ==> codec.decode("{}") == Some(input))
    && (arguments.Some? && arguments.value.Str? ==>
          if Trim(arguments.value.s) == "" then input == Obj(map[]) else codec.decode(Trim(arguments.value.s)) == Some(input))
    && (arguments.Some? && arguments.value.Obj? ==>
          var text := Trim(codec.encode(arguments.value));
          if text == "" then input == Obj(map[]) else codec.decode(text) == Some(input))
    && (arguments.Some? ==> arguments.value.Null? || arguments.value.Str? || arguments.value.Obj?)
  }

  lemma ToolInputMeans(codec: Codec, arguments: Option<Json>)
    ensures ToolInput(codec, arguments).Success? ==> Means(codec, arguments, ToolInput(codec, arguments).value)
    ensures ToolInput(codec, arguments).Failure? ==> forall input :: !Means(codec, arguments, input)
  {
    assert Trim("{}") == "{}" by {
      assert !IsWhite('{') && !IsWhite('}');
      TrimKeeps("{}");
    }
  }

  /** A tool_use block for one call: its own id or one made from its position, its name, its arguments. */
  predicate Renders(env: Env, call: Json, index: nat, block: Content) {
    && call.Obj? && "function" in call.fields && call.fields["function"].Obj? && block.ToolUse?
    && var function_ := call.fields["function"].fields;
    && block.name != "" && At(function_, "name") == Some(Str(block.name))
    && block.id == (if "id" in call.fields && call.fields["id"].Str? && call.fields["id"].s != ""
                    then call.fields["id"].s else SyntheticToolId(env.ctx.requestId, index))
    && Means(env.codec, At(function_, "arguments"), block.input)
  }

  ghost predicate CanRender(env: Env, call: Json, index: nat) {
    exists block :: Renders(env, call, index, block)
  }

  lemma BlockRenders(env: Env, call: Json, index: nat)
    requires call.Obj?
    ensures ToolBlock(env, call.fields, index).Success? ==> Renders(env, call, index, ToolBlock(env, call.fields, index).value)
    ensures ToolBlock(env, call.fields, index).Success? <==> CanRender(env, call, index)
  {
    var function_ := ObjAt(call.fields, "function");
    if function_.Some? {
      ToolInputMeans(env.codec, At(function_.value, "arguments"));
      hide ToolInput, Means;
    }
  }

  lemma OnlyObjectsRender(env: Env, call: Json, index: nat)
    requires !call.Obj?
    ensures !CanRender(env, call, index)
  {}

  ghost predicate RenderAll(env: Env, calls: seq<Json>, blocks: seq<Content>) {
    |blocks| == |calls| && forall i :: 0 <= i < |calls| ==> Renders(env, calls[i], i, blocks[i])
  }

  ghost predicate AllCanRender(env: Env, calls: seq<Json>) {
    forall i :: 0 <= i < |calls| ==> CanRender(env, calls[i], i)
  }

  lemma RenderSnoc(env: Env, calls: seq<Json>, blocks: seq<Content>, call: Json, block: Content)
    requires RenderAll(env, calls, blocks) && Renders(env, call, |calls|, block)
    ensures RenderAll(env, calls + [call], blocks + [block])
  {
    hide Renders;
  }

  lemma CanRenderSnoc(env: Env, calls: seq<Json>, call: Json)
    ensures AllCanRender(env, calls + [call]) <==> AllCanRender(env, calls) && CanRender(env, call, |calls|)
  {
    hide CanRender;
    var all := calls + [call];
    assert all[|calls|] == call && forall i :: 0 <= i < |calls| ==> all[i] == calls[i];
  }

  lemma {:induction false} BlocksRender(env: Env, calls: seq<Json>, n: nat)
    requires n <= |calls|
    ensures ToolBlocks(env, calls, n).Success? ==> RenderAll(env, calls[..n], ToolBlocks(env, calls, n).value)
    ensures ToolBlocks(env, calls, n).Success? <==> AllCanRender(env, calls[..n])
    decreases n
  {
    if n > 0 {
      var call, before := calls[n - 1], ToolBlocks(env, calls, n - 1);
      assert calls[..n] == calls[..n - 1] + [call];
      hide Renders, RenderAll, CanRender, AllCanRender, ToolBlock;
      BlocksRender(env, calls, n - 1);
      CanRenderSnoc(env, calls[..n - 1], call);
      if !call.Obj? {
        OnlyObjectsRender(env, call, n - 1);
      } else {
        BlockRenders(env, call, n - 1);
        if before.Success? && ToolBlock(env, call.fields, n - 1).Success? {
          RenderSnoc(env, calls[..n - 1], before.value, call, ToolBlock(env, call.fields, n - 1).value);
        }
      }
    }
  }

  // ---------------------------------------------------------------- the message

  /** The content of a message: its thinking, its words, its calls, in that order; or one empty text. */
  ghost predicate Holds(env: Env, message: Fields, content: seq<Content>) {
    exists texts: seq<string>, words: seq<Content>, calls: seq<Json>, tools: seq<Content> ::
      && Says(message, texts) && TextBlocksOf(words, texts)
      && Calls(message, calls) && RenderAll(env, calls, tools)
      && var thinking := if Thinks(message) == "" then [] else [Thinking(Thinks(message), env.signature(Thinks(message)))];
         content == (if thinking + words + tools == [] then [Text("")] else thinking + words + tools)
  }

  lemma CallsOf(env: Env, message: Fields) returns (calls: seq<Json>)
    ensures Calls(message, calls)
    ensures ToolCalls(env, message).Success? ==> RenderAll(env, calls, ToolCalls(env, message).value)
    ensures ToolCalls(env, message).Success? <==> AllCanRender(env, calls)
  {
    var listed := GetOr(ArrAt(message, "tool_calls"), []);
    var legacy := ObjAt(message, "function_call");
    BlocksRender(env, listed, |listed|);
    assert listed[..|listed|] == listed;
    calls := listed;
    if listed == [] && legacy.Some? {
      calls := [Obj(LegacyCall(legacy.value))];
      assert message["function_call"] == Obj(legacy.value);
      BlockRenders(env, calls[0], 0);
      assert AllCanRender(env, calls) <==> CanRender(env, calls[0], 0);
    }
    hide Renders, ToolBlock, CanRender;
  }

  lemma TextsOf(message: Fields)
    requires TextBlocks(At(message, "content")).Success?
    ensures Says(message, WithRefusal(TextBlocks(At(message, "content")).value, message))
  {
    var content, own := At(message, "content"), TextBlocks(At(message, "content")).value;
    if content.Some? && content.value.Arr? {
      PartTextsAreWords(content.value.items);
    }
    hide TextsOfParts, PartTexts;
    assert OwnWords(content, own);
  }

  /** Every accepted body's message holds exactly what its upstream message says, thinks and calls. */
  lemma WholeContent(env: Env, value: Json)
    requires MessageOf(env, value).Success?
    ensures Holds(env, Upstream(value), MessageOf(env, value).value.content)
  {
    var message := Upstream(value);
    AcceptedBody(env, value);
    var texts := WithRefusal(TextBlocks(At(message, "content")).value, message);
    TextsOf(message);
    NonEmptyTextsAreBlocks(texts);
    var calls := CallsOf(env, message);
    assert NonEmpty(Some(Thinks(message))) == WholeReasoning(message) by {
      assert Thinks(message) == "" ==> WholeReasoning(message).None?;
    }
    var words, tools := NonEmptyTexts(texts), ToolCalls(env, message).value;
    hide Says, TextBlocksOf, Calls, RenderAll, MessageOf, ToolCalls, NonEmptyTexts, TextBlocks, WithRefusal, WholeReasoning, Thinks, Upstream;
    assert PartsOf(env, message).value.content == OrEmptyText(ThinkingBlocks(env, WholeReasoning(message)) + words + tools);
  }

  // ---------------------------------------------------------------- refusals

  /** The upstream's own words for an error, if it has some. */
  predicate Tells(error: Json, text: string) {
    if error.Obj? && "message" in error.fields && error.fields["message"].Str? then text == error.fields["message"].s
    else if error.Str? then text == error.s
    else text == "upstream returned an error"
  }

  lemma ErrorTells(error: Json)
    ensures Tells(error, ErrorMessage(error))
  {}

  /** A body with an error is refused with that error's words. */
  lemma WholeErrorIsReported(env: Env, fields: Fields, text: string)
    requires "error" in fields && Tells(fields["error"], text)
    ensures MessageOf(env, Obj(fields)) == Failure(Reported(text))
  {
    ErrorTells(fields["error"]);
  }

  /** A body is refused exactly when it is broken: every refusal has its cause in the body. */
  lemma RefusedExactlyWhenBroken(env: Env, value: Json)
    ensures MessageOf(env, value).Success? <==>
            && value.Obj? && "error" !in value.fields
            && FirstChoice(value).Some? && ChoiceKey(value, "message").Obj?
            && var message := Upstream(value);
               && (At(message, "content").Some? ==>
                     var content := At(message, "content").value; content.Null? || content.Str? || content.Arr?)
               && exists calls :: Calls(message, calls) && AllCanRender(env, calls)
  {
    var message := Upstream(value);
    var calls := CallsOf(env, message);
    OneListOfCalls(message, calls);
    hide Calls, RenderAll, AllCanRender, ToolCalls, StopReason, UsageFrom, MessageId, WholeReasoning;
  }

  lemma OneListOfCalls(message: Fields, calls: seq<Json>)
    requires Calls(message, calls)
    ensures forall other :: Calls(message, other) ==> other == calls
  {}
}
