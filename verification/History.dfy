/**
 * An upstream answer that comes back as history: translated to Anthropic by src/bridge/response.rs,
 * kept by the client, and translated again by src/bridge/request.rs.
 */
module History {
  import opened Common
  import opened Json
  import opened Bridge
  import opened Response
  import opened Request
  import opened MessageSse
  import SdkReader

  /** A tool call as both dialects mean it: the arguments as a JSON object. */
  datatype Use = Use(id: string, name: string, input: Json)

  /** The content as the client stores it and sends it back. */
  function HistoryContent(content: seq<Content>): Json {
    Arr(ContentJsons(content))
  }

  predicate Denotes(codec: Codec, call: Json, use: Use) {
    && call.Obj? && use.id != "" && use.name != ""
    && StrAt(call.fields, "id") == Some(use.id)
    && ObjAt(call.fields, "function").Some?
    && var function_ := ObjAt(call.fields, "function").value;
    && StrAt(function_, "name") == Some(use.name)
    && ToolInput(codec, At(function_, "arguments")) == Success(use.input)
  }

  /** One text, or none at all, which is the same as an empty one. */
  predicate SaysText(message: Fields, text: string) {
    || TextBlocks(At(message, "content")) == Success([text])
    || (text == "" && TextBlocks(At(message, "content")) == Success([]) && NonEmpty(StrAt(message, "refusal")).None?)
  }

  /** An upstream assistant message that says one text and makes these calls. */
  predicate Utters(codec: Codec, message: Fields, text: string, uses: seq<Use>) {
    var calls := GetOr(ArrAt(message, "tool_calls"), []);
    && SaysText(message, text)
    && |calls| == |uses|
    && (forall i :: 0 <= i < |uses| ==> Denotes(codec, calls[i], uses[i]))
    && (uses == [] ==> ObjAt(message, "function_call").None?)
  }

  function Blocks(uses: seq<Use>): (r: seq<Content>)
    ensures |r| == |uses|
    ensures forall i :: 0 <= i < |uses| ==> r[i] == ToolUse(uses[i].id, uses[i].name, uses[i].input)
  {
    seq(|uses|, i requires 0 <= i < |uses| => ToolUse(uses[i].id, uses[i].name, uses[i].input))
  }

  /** The calls as they go out again, with the arguments printed afresh. */
  function Resent(codec: Codec, uses: seq<Use>): (r: seq<Call>)
    ensures |r| == |uses|
    ensures forall i :: 0 <= i < |uses| ==> r[i] == Call(uses[i].id, uses[i].name, codec.encode(uses[i].input))
  {
    seq(|uses|, i requires 0 <= i < |uses| => Call(uses[i].id, uses[i].name, codec.encode(uses[i].input)))
  }

  // ---------------------------------------------------------------- out: the Anthropic content

  lemma UseBecomesBlock(env: Env, call: Json, use: Use, index: nat)
    requires Denotes(env.codec, call, use)
    ensures call.Obj? && ToolBlock(env, call.fields, index) == Success(ToolUse(use.id, use.name, use.input))
  {}

  lemma {:induction false} UsesBecomeBlocks(env: Env, calls: seq<Json>, uses: seq<Use>, n: nat)
    requires n <= |calls| == |uses|
    requires forall i :: 0 <= i < |uses| ==> Denotes(env.codec, calls[i], uses[i])
    ensures ToolBlocks(env, calls, n) == Success(Blocks(uses)[..n])
  {
    var blocks := Blocks(uses);
    assert blocks[..0] == [] && ToolBlocks(env, calls, 0) == Success([]);
    hide *;
    if n > 0 {
      var last := blocks[n - 1];
      assert blocks[..n] == blocks[..n - 1] + [last];
      UsesBecomeBlocks(env, calls, uses, n - 1);
      UseBecomesBlock(env, calls[n - 1], uses[n - 1], n - 1);
      ToolBlocksSnoc(env, calls, n - 1, blocks[..n - 1], last);
    }
  }

  function Said(text: string): seq<Content> {
    if text == "" then [] else [Text(text)]
  }

  lemma UtteredContent(env: Env, message: Fields, text: string, uses: seq<Use>)
    requires Utters(env.codec, message, text, uses)
    ensures PartsOf(env, message) == Success(Parts(
              OrEmptyText(ThinkingBlocks(env, WholeReasoning(message)) + Said(text) + Blocks(uses)), uses != []))
  {
    var calls := GetOr(ArrAt(message, "tool_calls"), []);
    UsesBecomeBlocks(env, calls, uses, |uses|);
    assert Blocks(uses)[..|uses|] == Blocks(uses);
    hide ToolBlocks, Denotes, ToolBlock;
    assert ToolCalls(env, message) == Success(Blocks(uses));
    assert NonEmptyTexts([]) == [];
    assert [text][..0] == [];
    assert NonEmptyTexts([text]) == Said(text);
  }

  // ---------------------------------------------------------------- back: the Chat message

  lemma {:induction false} CollectAll<T>(read: Json -> Result<T, BridgeError>, items: seq<Json>, values: seq<T>)
    requires |items| == |values|
    requires forall i :: 0 <= i < |items| ==> read(items[i]) == Success(values[i])
    ensures Collect(read, items) == Success(values)
  {
    if items != [] {
      var n := |items| - 1;
      CollectAll(read, items[..n], values[..n]);
      assert values[..n] + [values[n]] == values;
    }
  }

  function ItemOf(codec: Codec, block: Content): AssistantItem {
    match block
    case Text(text) => AssistantItem.Said(text)
    case Thinking(_, _) => Hidden
    case ToolUse(id, name, input) => Called(Call(id, name, codec.encode(input)))
  }

  predicate Sendable(block: Content) {
    block.ToolUse? ==> block.id != "" && block.name != "" && block.input.Obj?
  }

  lemma ReadBack(codec: Codec, block: Content)
    requires Sendable(block)
    ensures ReadAssistantBlock(codec, ContentJson(block)) == Success(ItemOf(codec, block))
  {
    var v := ContentJson(block);
    match block {
      case Text(text) =>
        assert v.fields["type"] == Str("text") && v.fields["text"] == Str(text);
      case Thinking(_, _) =>
        assert v.fields["type"] == Str("thinking");
      case ToolUse(id, name, input) =>
        assert v.fields["type"] == Str("tool_use") && v.fields["id"] == Str(id);
        assert v.fields["name"] == Str(name) && v.fields["input"] == input;
    }
  }

  function ItemsOf(codec: Codec, content: seq<Content>): (r: seq<AssistantItem>)
    ensures |r| == |content|
    ensures forall i :: 0 <= i < |content| ==> r[i] == ItemOf(codec, content[i])
  {
    seq(|content|, i requires 0 <= i < |content| => ItemOf(codec, content[i]))
  }

  lemma ContentReadBack(codec: Codec, content: seq<Content>)
    requires forall i :: 0 <= i < |content| ==> Sendable(content[i])
    ensures AssistantTurn(codec, HistoryContent(content))
         == Success(Reply(Texts(ItemsOf(codec, content)), Calls(ItemsOf(codec, content))))
  {
    var items := HistoryContent(content).items;
    var read := AssistantReader(codec);
    forall i | 0 <= i < |items| ensures read(items[i]) == Success(ItemsOf(codec, content)[i]) {
      ReadBack(codec, content[i]);
    }
    CollectAll(read, items, ItemsOf(codec, content));
  }

  lemma ItemsAppend(codec: Codec, a: seq<Content>, b: seq<Content>)
    ensures ItemsOf(codec, a + b) == ItemsOf(codec, a) + ItemsOf(codec, b)
  {}

  lemma {:induction false} TextsAppend(a: seq<AssistantItem>, b: seq<AssistantItem>)
    ensures Texts(a + b) == Texts(a) + Texts(b)
  {
    if b == [] {
      assert a + b == a && Texts(b) == [];
    } else {
      var front, last := b[..|b| - 1], b[|b| - 1];
      var more := if last.Said? then [last.text] else [];
      TextsAppend(a, front);
      assert (a + b)[..|a + b| - 1] == a + front && (a + b)[|a + b| - 1] == last;
      assert Texts(a + b) == Texts(a + front) + more && Texts(b) == Texts(front) + more;
      hide Texts;
      Regroup(Texts(a), Texts(front), more);
    }
  }

  lemma {:induction false} CallsAppend(a: seq<AssistantItem>, b: seq<AssistantItem>)
    ensures Calls(a + b) == Calls(a) + Calls(b)
  {
    if b == [] {
      assert a + b == a && Calls(b) == [];
    } else {
      var front, last := b[..|b| - 1], b[|b| - 1];
      var more := if last.Called? then [last.call] else [];
      CallsAppend(a, front);
      assert (a + b)[..|a + b| - 1] == a + front && (a + b)[|a + b| - 1] == last;
      assert Calls(a + b) == Calls(a + front) + more && Calls(b) == Calls(front) + more;
      hide Calls;
      Regroup(Calls(a), Calls(front), more);
    }
  }

  lemma ListsAppend(a: seq<AssistantItem>, b: seq<AssistantItem>)
    ensures Texts(a + b) == Texts(a) + Texts(b)
    ensures Calls(a + b) == Calls(a) + Calls(b)
  {
    hide *;
    TextsAppend(a, b);
    CallsAppend(a, b);
  }

  lemma {:induction false} CallsReadBack(codec: Codec, uses: seq<Use>)
    ensures Texts(ItemsOf(codec, Blocks(uses))) == []
    ensures Calls(ItemsOf(codec, Blocks(uses))) == Resent(codec, uses)
  {
    if uses != [] {
      var front, last := uses[..|uses| - 1], uses[|uses| - 1];
      assert uses == front + [last];
      hide Texts, Calls, ItemsOf, Blocks, Resent;
      CallsReadBack(codec, front);
      UsesSnoc(codec, front, last);
      AssistantSnoc(ItemsOf(codec, Blocks(front)), Called(Call(last.id, last.name, codec.encode(last.input))));
    }
  }

  lemma UsesSnoc(codec: Codec, front: seq<Use>, last: Use)
    ensures var call := Call(last.id, last.name, codec.encode(last.input));
            && ItemsOf(codec, Blocks(front + [last])) == ItemsOf(codec, Blocks(front)) + [Called(call)]
            && Resent(codec, front + [last]) == Resent(codec, front) + [call]
  {}

  lemma HeadReadBack(codec: Codec, thinking: seq<Content>, text: string)
    requires |thinking| <= 1 && (thinking != [] ==> thinking[0].Thinking?)
    ensures Texts(ItemsOf(codec, thinking + Said(text))) == (if text == "" then [] else [text])
    ensures Calls(ItemsOf(codec, thinking + Said(text))) == []
  {
    hide Texts, Calls, ItemsOf;
    ItemsAppend(codec, thinking, Said(text));
    ListsAppend(ItemsOf(codec, thinking), ItemsOf(codec, Said(text)));
    One(codec, thinking);
    One(codec, Said(text));
  }

  lemma One(codec: Codec, content: seq<Content>)
    requires |content| <= 1
    ensures Texts(ItemsOf(codec, content)) == (if content != [] && content[0].Text? then [content[0].text] else [])
    ensures Calls(ItemsOf(codec, content))
         == (if content != [] && content[0].ToolUse?
             then [Call(content[0].id, content[0].name, codec.encode(content[0].input))] else [])
  {
    if content != [] {
      AssistantSnoc([], ItemOf(codec, content[0]));
      assert ItemsOf(codec, content) == [] + [ItemOf(codec, content[0])];
    }
  }

  // ---------------------------------------------------------------- the round trip

  /** What must come back: the same text and calls, without the thinking. */
  function Echo(codec: Codec, text: string, uses: seq<Use>, thought: bool): seq<ChatMessage> {
    if text == "" && uses == [] && thought then [] else [Spoken(codec, text, uses)]
  }

  function Spoken(codec: Codec, text: string, uses: seq<Use>): (r: ChatMessage)
    ensures r.Assistant?
  {
    Assistant(if text == "" && uses != [] then Null else Str(text), Resent(codec, uses))
  }

  lemma UsesSendable(codec: Codec, calls: seq<Json>, uses: seq<Use>)
    requires |calls| == |uses| && forall i :: 0 <= i < |uses| ==> Denotes(codec, calls[i], uses[i])
    ensures forall i :: 0 <= i < |uses| ==> Sendable(Blocks(uses)[i])
  {
    forall i | 0 <= i < |uses| ensures Sendable(Blocks(uses)[i]) {
      assert Denotes(codec, calls[i], uses[i]);
    }
  }

  lemma AllSendable(thinking: seq<Content>, text: string, uses: seq<Use>)
    requires |thinking| <= 1 && (thinking != [] ==> thinking[0].Thinking?)
    requires forall i :: 0 <= i < |uses| ==> Sendable(Blocks(uses)[i])
    ensures var content := OrEmptyText(thinking + Said(text) + Blocks(uses));
            forall i :: 0 <= i < |content| ==> Sendable(content[i])
  {
    var head := thinking + Said(text);
    var content := OrEmptyText(head + Blocks(uses));
    assert forall i :: 0 <= i < |head| ==> !head[i].ToolUse?;
    hide Blocks, Said;
    forall i | 0 <= i < |content| ensures Sendable(content[i]) {
      assert |head| <= i < |head| + |uses| ==> content[i] == Blocks(uses)[i - |head|];
    }
  }

  lemma EchoIsReply(codec: Codec, thinking: seq<Content>, text: string, uses: seq<Use>)
    requires |thinking| <= 1 && (thinking != [] ==> thinking[0].Thinking?)
    ensures var items := ItemsOf(codec, OrEmptyText(thinking + Said(text) + Blocks(uses)));
            Reply(Texts(items), Calls(items)) == Echo(codec, text, uses, thinking != [])
  {
    hide Texts, Calls;
    var head := thinking + Said(text);
    if head + Blocks(uses) == [] {
      One(codec, [Text("")]);
      assert text == "" && uses == [];
      assert Resent(codec, uses) == [];
    } else {
      HeadReadBack(codec, thinking, text);
      CallsReadBack(codec, uses);
      hide ItemsOf, Blocks;
      ItemsAppend(codec, head, Blocks(uses));
      ListsAppend(ItemsOf(codec, head), ItemsOf(codec, Blocks(uses)));
      assert Calls(ItemsOf(codec, head + Blocks(uses))) == Resent(codec, uses);
    }
  }

  /**
   * The same text and the same calls in the same order come back, and only thinking is lost.
   * An empty text comes back as null beside calls, and thinking alone leaves no message at all.
   */
  lemma HistoryRoundTrip(env: Env, message: Fields, text: string, uses: seq<Use>)
    requires Utters(env.codec, message, text, uses)
    ensures PartsOf(env, message).Success?
    ensures AssistantTurn(env.codec, HistoryContent(PartsOf(env, message).value.content))
         == Success(Echo(env.codec, text, uses, WholeReasoning(message).Some?))
  {
    var codec, thinking := env.codec, ThinkingBlocks(env, WholeReasoning(message));
    UtteredContent(env, message, text, uses);
    UsesSendable(codec, GetOr(ArrAt(message, "tool_calls"), []), uses);
    var content := OrEmptyText(thinking + Said(text) + Blocks(uses));
    AllSendable(thinking, text, uses);
    hide PartsOf, Utters, AssistantTurn, HistoryContent, Texts, Calls, ToolInput, Sendable;
    ContentReadBack(codec, content);
    EchoIsReply(codec, thinking, text, uses);
  }

  // ---------------------------------------------------------------- again and again

  function CallJson(call: Call): Json {
    Obj(map["id" := Str(call.id), "type" := Str("function"),
            "function" := Obj(map["name" := Str(call.name), "arguments" := Str(call.arguments)])])
  }

  /** A Chat assistant message read as an upstream answer. */
  function AsAnswer(message: ChatMessage): Fields
    requires message.Assistant?
  {
    map["role" := Str("assistant"), "content" := message.content,
        "tool_calls" := Arr(seq(|message.calls|, i requires 0 <= i < |message.calls| => CallJson(message.calls[i])))]
  }

  lemma PrintedArguments(codec: Codec, input: Json)
    requires codec.RoundTrips() && input.Obj? && SdkReader.Braced(codec.encode(input))
    ensures ToolInput(codec, Some(Str(codec.encode(input)))) == Success(input)
  {
    var raw := codec.encode(input);
    assert !IsWhite('{') && !IsWhite('}');
    TrimKeeps(raw);
    assert codec.decode(raw) == Some(input);
  }

  /** Resent arguments may be spelled differently from the upstream's, but read as the same object. */
  lemma ArgumentsKeepTheirValue(codec: Codec, message: Fields, text: string, uses: seq<Use>, i: nat)
    requires codec.RoundTrips() && SdkReader.OneLine(codec) && Utters(codec, message, text, uses) && i < |uses|
    ensures var call := GetOr(ArrAt(message, "tool_calls"), [])[i];
            && Denotes(codec, call, uses[i])
            && ToolInput(codec, Some(Str(Resent(codec, uses)[i].arguments)))
               == ToolInput(codec, At(ObjAt(call.fields, "function").value, "arguments"))
  {
    PrintedArguments(codec, uses[i].input);
  }

  lemma CallJsonDenotes(codec: Codec, use: Use)
    requires codec.RoundTrips() && use.input.Obj? && SdkReader.Braced(codec.encode(use.input))
    requires use.id != "" && use.name != ""
    ensures Denotes(codec, CallJson(Call(use.id, use.name, codec.encode(use.input))), use)
  {
    var call := CallJson(Call(use.id, use.name, codec.encode(use.input)));
    var function_ := map["name" := Str(use.name), "arguments" := Str(codec.encode(use.input))];
    assert call.fields["function"] == Obj(function_) && call.fields["id"] == Str(use.id);
    assert At(function_, "arguments") == Some(Str(codec.encode(use.input)));
    PrintedArguments(codec, use.input);
  }

  /** The message that comes back says the same again... */
  lemma EchoUtters(codec: Codec, message: Fields, text: string, uses: seq<Use>)
    requires codec.RoundTrips() && SdkReader.OneLine(codec)
    requires Utters(codec, message, text, uses)
    ensures Utters(codec, AsAnswer(Spoken(codec, text, uses)), text, uses)
    ensures WholeReasoning(AsAnswer(Spoken(codec, text, uses))).None?
  {
    var back := Spoken(codec, text, uses);
    var answer := AsAnswer(back);
    var before, calls := GetOr(ArrAt(message, "tool_calls"), []), answer["tool_calls"].items;
    forall i | 0 <= i < |uses| ensures Denotes(codec, calls[i], uses[i]) {
      assert Denotes(codec, before[i], uses[i]);
      assert calls[i] == CallJson(Resent(codec, uses)[i]);
      CallJsonDenotes(codec, uses[i]);
    }
    hide Denotes;
    assert answer["content"] == back.content;
    assert ArrAt(answer, "tool_calls") == Some(calls);
  }

  /** ... so, unless it was thinking alone, further trips change nothing. */
  lemma HistoryIsStable(env: Env, message: Fields, text: string, uses: seq<Use>)
    requires env.codec.RoundTrips() && SdkReader.OneLine(env.codec)
    requires Utters(env.codec, message, text, uses)
    requires text != "" || uses != [] || WholeReasoning(message).None?
    ensures var back := Spoken(env.codec, text, uses);
            && PartsOf(env, message).Success?
            && AssistantTurn(env.codec, HistoryContent(PartsOf(env, message).value.content)) == Success([back])
            && PartsOf(env, AsAnswer(back)) == Success(Parts(OrEmptyText(Said(text) + Blocks(uses)), uses != []))
            && AssistantTurn(env.codec, HistoryContent(OrEmptyText(Said(text) + Blocks(uses)))) == Success([back])
  {
    var codec, back := env.codec, Spoken(env.codec, text, uses);
    assert [] + Said(text) == Said(text);
    assert ThinkingBlocks(env, None) == [];
    assert Echo(codec, text, uses, WholeReasoning(message).Some?) == [back] == Echo(codec, text, uses, false);
    hide *;
    EchoUtters(codec, message, text, uses);
    UtteredContent(env, AsAnswer(back), text, uses);
    HistoryRoundTrip(env, message, text, uses);
    HistoryRoundTrip(env, AsAnswer(back), text, uses);
  }
}
