/** Anthropic Messages request -> OpenAI Chat messages (src/bridge/request.rs). */
module Request {
  import opened Common
  import opened Json
  import opened Bridge

  datatype Call = Call(id: string, name: string, arguments: string)

  /** One message of the Chat request; `content` is the value of its `content` key. */
  datatype ChatMessage =
    | System(text: string)
    | User(content: Json)
    | Assistant(content: Json, calls: seq<Call>)
    | Tool(callId: string, content: Json)

  datatype ChatRequest = ChatRequest(model: string, maxTokens: nat, stream: bool, messages: seq<ChatMessage>)

  // ---------------------------------------------------------------- reading lists of blocks

  /** Reads every item in order; the first that cannot be read decides the error. */
  function Collect<T>(read: Json -> Result<T, BridgeError>, items: seq<Json>): (r: Result<seq<T>, BridgeError>)
    ensures r.Success? ==> |r.value| == |items|
  {
    if items == [] then Success([])
    else
      var before := Collect(read, items[..|items| - 1]);
      if before.Failure? then Failure(before.error)
      else
        var last := read(items[|items| - 1]);
        if last.Failure? then Failure(last.error) else Success(before.value + [last.value])
  }

  lemma CollectStep<T>(read: Json -> Result<T, BridgeError>, items: seq<Json>, i: nat)
    requires i < |items| && Collect(read, items[..i]).Success?
    ensures read(items[i]).Success? ==>
              Collect(read, items[..i + 1]) == Success(Collect(read, items[..i]).value + [read(items[i]).value])
    ensures read(items[i]).Failure? ==> Collect(read, items) == Failure(read(items[i]).error)
  {
    assert items[..i + 1][..i] == items[..i];
    if read(items[i]).Failure? {
      CollectStops(read, items, i + 1);
    }
  }

  lemma {:induction false} CollectStops<T>(read: Json -> Result<T, BridgeError>, items: seq<Json>, i: nat)
    requires i <= |items| && Collect(read, items[..i]).Failure?
    ensures Collect(read, items) == Collect(read, items[..i])
  {
    if i < |items| {
      var front := items[..|items| - 1];
      assert front[..i] == items[..i];
      CollectStops(read, front, i);
    } else {
      assert items[..i] == items;
    }
  }

  lemma {:induction false} CollectTail<T>(read: Json -> Result<T, BridgeError>, items: seq<Json>)
    requires items != [] && Collect(read, items).Success?
    ensures read(items[0]).Success? && Collect(read, items[1..]).Success?
    ensures Collect(read, items).value == [read(items[0]).value] + Collect(read, items[1..]).value
  {
    var front := items[..|items| - 1];
    if front != [] {
      CollectTail(read, front);
      assert front[1..] == items[1..][..|items| - 2];
    }
  }

  function Kind(block: Json): Result<string, BridgeError> {
    var kind := AsStr(Get(block, "type"));
    if kind.None? then Failure(InvalidRequest) else Success(kind.value)
  }

  function TextOf(block: Json): Result<string, BridgeError> {
    var text := AsStr(Get(block, "text"));
    if text.None? then Failure(InvalidRequest) else Success(text.value)
  }

  function TextPart(text: string): Json {
    Obj(map["type" := Str("text"), "text" := Str(text)])
  }

  function ImagePart(url: string): Json {
    Obj(map["type" := Str("image_url"), "image_url" := Obj(map["url" := Str(url)])])
  }

  function ConvertImage(block: Json): Result<Json, BridgeError> {
    var source := Get(block, "source");
    if source.None? || !source.value.Obj? then Failure(InvalidRequest)
    else
      var kind := StrAt(source.value.fields, "type");
      if kind.None? then Failure(InvalidRequest)
      else if kind.value == "base64" then
        var media := NonEmpty(StrAt(source.value.fields, "media_type"));
        var data := StrAt(source.value.fields, "data");
        if media.None? || data.None? then Failure(InvalidRequest)
        else Success(ImagePart("data:" + media.value + ";base64," + data.value))
      else if kind.value == "url" then
        var url := NonEmpty(StrAt(source.value.fields, "url"));
        if url.None? then Failure(InvalidRequest) else Success(ImagePart(url.value))
      else Failure(Unsupported)
  }

  function Join(parts: seq<string>): string {
    if parts == [] then ""
    else if |parts| == 1 then parts[0]
    else Join(parts[..|parts| - 1]) + "\n\n" + parts[|parts| - 1]
  }

  function Blank(text: string): bool {
    Trim(text) == ""
  }

  // ---------------------------------------------------------------- system text

  function SystemBlock(block: Json): Result<string, BridgeError> {
    var kind := Kind(block);
    if kind.Failure? then Failure(kind.error)
    else if kind.value != "text" then Failure(Unsupported)
    else TextOf(block)
  }

  function SystemContent(content: Json): Result<string, BridgeError> {
    if content.Str? then Success(content.s)
    else if !content.Arr? then Failure(InvalidRequest)
    else
      var parts := Collect(SystemBlock, content.items);
      if parts.Failure? then Failure(parts.error) else Success(Join(parts.value))
  }

  /** The non-blank texts, which are the ones that reach the system message. */
  function Visible(text: string): seq<string> {
    if Blank(text) then [] else [text]
  }

  function TopSystem(system: Option<Json>): Result<seq<string>, BridgeError> {
    if system.None? || system.value.Null? then Success([])
    else
      var text := SystemContent(system.value);
      if text.Failure? then Failure(text.error) else Success(Visible(text.value))
  }

  method ReadSystemContent(content: Json) returns (r: Result<string, BridgeError>)
    ensures r == SystemContent(content)
  {
    if content.Str? {
      return Success(content.s);
    }
    if !content.Arr? {
      return Failure(InvalidRequest);
    }
    var blocks := content.items;
    var parts: seq<string> := [];
    for i := 0 to |blocks|
      invariant Collect(SystemBlock, blocks[..i]) == Success(parts)
    {
      CollectStep(SystemBlock, blocks, i);
      var text := SystemBlock(blocks[i]);
      if text.Failure? {
        return Failure(text.error);
      }
      parts := parts + [text.value];
    }
    assert blocks[..|blocks|] == blocks;
    return Success(Join(parts));
  }

  // ---------------------------------------------------------------- tool results

  function ResultBlock(block: Json): Result<Json, BridgeError> {
    var kind := Kind(block);
    if kind.Failure? then Failure(kind.error)
    else if kind.value == "text" then
      var text := TextOf(block);
      if text.Failure? then Failure(text.error) else Success(TextPart(text.value))
    else if kind.value == "image" then ConvertImage(block)
    else Failure(Unsupported)
  }

  /** A single text part is sent as a plain string. */
  function Compact(parts: seq<Json>): Json {
    if |parts| == 1 && AsStr(Get(parts[0], "text")).Some? then Str(AsStr(Get(parts[0], "text")).value)
    else Arr(parts)
  }

  function ErrorPart(isError: bool): seq<Json> {
    if isError then [TextPart("Error:")] else []
  }

  function ResultContent(content: Json, isError: bool): Result<Json, BridgeError> {
    if content.Str? then Success(Str(if isError then "Error: " + content.s else content.s))
    else if !content.Arr? then Failure(InvalidRequest)
    else
      var parts := Collect(ResultBlock, content.items);
      if parts.Failure? then Failure(parts.error) else Success(Compact(ErrorPart(isError) + parts.value))
  }

  method ConvertResultContent(content: Json, isError: bool) returns (r: Result<Json, BridgeError>)
    ensures r == ResultContent(content, isError)
  {
    if content.Str? {
      return Success(Str(if isError then "Error: " + content.s else content.s));
    }
    if !content.Arr? {
      return Failure(InvalidRequest);
    }
    var blocks := content.items;
    var parts := ErrorPart(isError);
    for i := 0 to |blocks|
      invariant Collect(ResultBlock, blocks[..i]).Success?
      invariant parts == ErrorPart(isError) + Collect(ResultBlock, blocks[..i]).value
    {
      CollectStep(ResultBlock, blocks, i);
      var part := ResultBlock(blocks[i]);
      if part.Failure? {
        return Failure(part.error);
      }
      parts := parts + [part.value];
    }
    assert blocks[..|blocks|] == blocks;
    return Success(Compact(parts));
  }

  // ---------------------------------------------------------------- user turns

  datatype UserItem = Part(part: Json) | Answer(message: ChatMessage) | Private

  function ToolResult(block: Json): (r: Result<ChatMessage, BridgeError>)
    ensures r.Success? ==> r.value.Tool? && AsStr(Get(block, "tool_use_id")) == Some(r.value.callId) && r.value.callId != ""
  {
    var id := NonEmpty(AsStr(Get(block, "tool_use_id")));
    if id.None? then Failure(InvalidRequest)
    else
      var content := Get(block, "content");
      if content.None? then Failure(InvalidRequest)
      else
        var converted := ResultContent(content.value, Get(block, "is_error") == Some(Bool(true)));
        if converted.Failure? then Failure(converted.error) else Success(Tool(id.value, converted.value))
  }

  function ReadUserBlock(block: Json): Result<UserItem, BridgeError> {
    var kind := Kind(block);
    if kind.Failure? then Failure(kind.error)
    else if kind.value == "text" then
      var text := TextOf(block);
      if text.Failure? then Failure(text.error) else Success(Part(TextPart(text.value)))
    else if kind.value == "image" then
      var image := ConvertImage(block);
      if image.Failure? then Failure(image.error) else Success(Part(image.value))
    else if kind.value == "tool_result" then
      var answer := ToolResult(block);
      if answer.Failure? then Failure(answer.error) else Success(Answer(answer.value))
    else if kind.value == "thinking" || kind.value == "redacted_thinking" then Success(Private)
    else Failure(Unsupported)
  }

  function Parts(items: seq<UserItem>): seq<Json> {
    if items == [] then []
    else
      var last := items[|items| - 1];
      Parts(items[..|items| - 1]) + (if last.Part? then [last.part] else [])
  }

  function Answers(items: seq<UserItem>): seq<ChatMessage> {
    if items == [] then []
    else
      var last := items[|items| - 1];
      Answers(items[..|items| - 1]) + (if last.Answer? then [last.message] else [])
  }

  lemma UserSnoc(items: seq<UserItem>, item: UserItem)
    ensures Parts(items + [item]) == Parts(items) + (if item.Part? then [item.part] else [])
    ensures Answers(items + [item]) == Answers(items) + (if item.Answer? then [item.message] else [])
  {
    assert (items + [item])[..|items|] == items;
  }

  function Spoken(parts: seq<Json>): seq<ChatMessage> {
    if parts == [] then [] else [User(Compact(parts))]
  }

  /** Tool answers come first, in order, then one message with everything else the user said. */
  function UserTurn(content: Json): Result<seq<ChatMessage>, BridgeError> {
    if content.Str? then Success([User(Str(content.s))])
    else if !content.Arr? then Failure(InvalidRequest)
    else
      var items := Collect(ReadUserBlock, content.items);
      if items.Failure? then Failure(items.error)
      else Success(Answers(items.value) + Spoken(Parts(items.value)))
  }

  function Appended(before: seq<ChatMessage>, turn: Result<seq<ChatMessage>, BridgeError>): Result<seq<ChatMessage>, BridgeError> {
    if turn.Failure? then turn else Success(before + turn.value)
  }

  method ConvertUserMessage(content: Json, before: seq<ChatMessage>) returns (r: Result<seq<ChatMessage>, BridgeError>)
    ensures r == Appended(before, UserTurn(content))
  {
    if content.Str? {
      return Success(before + [User(Str(content.s))]);
    }
    if !content.Arr? {
      return Failure(InvalidRequest);
    }
    var blocks := content.items;
    ghost var read: Json -> Result<UserItem, BridgeError> := ReadUserBlock;
    var tools: seq<ChatMessage> := [];
    var parts: seq<Json> := [];
    assert blocks[..0] == [] && Collect(read, []) == Success([]) && Answers([]) == [] && Parts([]) == [];
    hide Collect, ReadUserBlock,  Parts, Answers, Compact;
    for i := 0 to |blocks|
      invariant Collect(read, blocks[..i]).Success?
      invariant tools == Answers(Collect(read, blocks[..i]).value)
      invariant parts == Parts(Collect(read, blocks[..i]).value)
    {
      CollectStep(read, blocks, i);
      var item := ReadUserBlock(blocks[i]);
      if item.Failure? {
        return Failure(item.error);
      }
      UserSnoc(Collect(read, blocks[..i]).value, item.value);
      match item.value {
        case Part(part) => parts := parts + [part];
        case Answer(message) => tools := tools + [message];
        case Private =>
      }
    }
    assert blocks[..|blocks|] == blocks;
    Regroup(before, tools, Spoken(parts));
    var out := before + tools;
    assert out + [] == out;
    if parts != [] {
      out := out + [User(Compact(parts))];
    }
    return Success(out);
  }

  // ---------------------------------------------------------------- assistant turns

  datatype AssistantItem = Said(text: string) | Called(call: Call) | Hidden

  function ToolUseCall(codec: Codec, block: Json): (r: Result<Call, BridgeError>)
    ensures r.Success? ==> AsStr(Get(block, "id")) == Some(r.value.id) && r.value.id != "" && r.value.name != ""
  {
    var id := NonEmpty(AsStr(Get(block, "id")));
    var name := NonEmpty(AsStr(Get(block, "name")));
    var input := Get(block, "input");
    if id.None? || name.None? || input.None? || !input.value.Obj? then Failure(InvalidRequest)
    else Success(Call(id.value, name.value, codec.encode(input.value)))
  }

  function ReadAssistantBlock(codec: Codec, block: Json): Result<AssistantItem, BridgeError> {
    var kind := Kind(block);
    if kind.Failure? then Failure(kind.error)
    else if kind.value == "text" then
      var text := TextOf(block);
      if text.Failure? then Failure(text.error) else Success(Said(text.value))
    else if kind.value == "tool_use" then
      var call := ToolUseCall(codec, block);
      if call.Failure? then Failure(call.error) else Success(Called(call.value))
    else if kind.value == "thinking" || kind.value == "redacted_thinking" then Success(Hidden)
    else Failure(Unsupported)
  }

  function AssistantReader(codec: Codec): Json -> Result<AssistantItem, BridgeError> {
    (block: Json) => ReadAssistantBlock(codec, block)
  }

  function Texts(items: seq<AssistantItem>): seq<string> {
    if items == [] then []
    else
      var last := items[|items| - 1];
      Texts(items[..|items| - 1]) + (if last.Said? then [last.text] else [])
  }

  function Calls(items: seq<AssistantItem>): seq<Call> {
    if items == [] then []
    else
      var last := items[|items| - 1];
      Calls(items[..|items| - 1]) + (if last.Called? then [last.call] else [])
  }

  lemma AssistantSnoc(items: seq<AssistantItem>, item: AssistantItem)
    ensures Texts(items + [item]) == Texts(items) + (if item.Said? then [item.text] else [])
    ensures Calls(items + [item]) == Calls(items) + (if item.Called? then [item.call] else [])
  {
    assert (items + [item])[..|items|] == items;
  }

  function Reply(texts: seq<string>, calls: seq<Call>): seq<ChatMessage> {
    if texts == [] && calls == [] then []
    else [Assistant(if texts == [] then Null else Str(Join(texts)), calls)]
  }

  function AssistantTurn(codec: Codec, content: Json): Result<seq<ChatMessage>, BridgeError> {
    if content.Str? then Success(if content.s == "" then [] else [Assistant(Str(content.s), [])])
    else if !content.Arr? then Failure(InvalidRequest)
    else
      var items := Collect(AssistantReader(codec), content.items);
      if items.Failure? then Failure(items.error)
      else Success(Reply(Texts(items.value), Calls(items.value)))
  }

  method ConvertAssistantMessage(codec: Codec, content: Json, before: seq<ChatMessage>)
    returns (r: Result<seq<ChatMessage>, BridgeError>)
    ensures r == Appended(before, AssistantTurn(codec, content))
  {
    if content.Str? {
      if content.s != "" {
        return Success(before + [Assistant(Str(content.s), [])]);
      }
      assert before + [] == before;
      return Success(before);
    }
    if !content.Arr? {
      return Failure(InvalidRequest);
    }
    var blocks := content.items;
    ghost var read := AssistantReader(codec);
    assert blocks[..0] == [] && Collect(read, []) == Success([]) && Texts([]) == [] && Calls([]) == [];
    hide Collect, ReadAssistantBlock, Texts, Calls, Join;
    var texts: seq<string> := [];
    var calls: seq<Call> := [];
    for i := 0 to |blocks|
      invariant Collect(read, blocks[..i]).Success?
      invariant texts == Texts(Collect(read, blocks[..i]).value)
      invariant calls == Calls(Collect(read, blocks[..i]).value)
    {
      CollectStep(read, blocks, i);
      var item := ReadAssistantBlock(codec, blocks[i]);
      if item.Failure? {
        return Failure(item.error);
      }
      AssistantSnoc(Collect(read, blocks[..i]).value, item.value);
      match item.value {
        case Said(text) => texts := texts + [text];
        case Called(call) => calls := calls + [call];
        case Hidden =>
      }
    }
    assert blocks[..|blocks|] == blocks;
    if texts == [] && calls == [] {
      assert before + [] == before;
      return Success(before);
    }
    return Success(before + [Assistant(if texts == [] then Null else Str(Join(texts)), calls)]);
  }

  // ---------------------------------------------------------------- the whole request

  /** What one input message becomes: text for the leading system message, or chat messages. */
  datatype Turn = SystemTurn(texts: seq<string>) | ChatTurn(messages: seq<ChatMessage>)

  function Role(message: Json): string {
    GetOr(AsStr(Get(message, "role")), "")
  }

  function AsTurn(messages: Result<seq<ChatMessage>, BridgeError>): Result<Turn, BridgeError> {
    if messages.Failure? then Failure(messages.error) else Success(ChatTurn(messages.value))
  }

  function ReadMessage(codec: Codec, message: Json): Result<Turn, BridgeError> {
    var content := Get(message, "content");
    if content.None? then Failure(InvalidRequest)
    else if Role(message) == "system" then
      var text := SystemContent(content.value);
      if text.Failure? then Failure(text.error) else Success(SystemTurn(Visible(text.value)))
    else if Role(message) == "user" then AsTurn(UserTurn(content.value))
    else if Role(message) == "assistant" then AsTurn(AssistantTurn(codec, content.value))
    else Failure(InvalidRequest)
  }

  function MessageReader(codec: Codec): Json -> Result<Turn, BridgeError> {
    (message: Json) => ReadMessage(codec, message)
  }

  function SystemTexts(turns: seq<Turn>): seq<string> {
    if turns == [] then []
    else
      var last := turns[|turns| - 1];
      SystemTexts(turns[..|turns| - 1]) + (if last.SystemTurn? then last.texts else [])
  }

  function ChatMessages(turns: seq<Turn>): seq<ChatMessage> {
    if turns == [] then []
    else
      var last := turns[|turns| - 1];
      ChatMessages(turns[..|turns| - 1]) + (if last.ChatTurn? then last.messages else [])
  }

  lemma TurnSnoc(turns: seq<Turn>, turn: Turn)
    ensures SystemTexts(turns + [turn]) == SystemTexts(turns) + (if turn.SystemTurn? then turn.texts else [])
    ensures ChatMessages(turns + [turn]) == ChatMessages(turns) + (if turn.ChatTurn? then turn.messages else [])
  {
    assert (turns + [turn])[..|turns|] == turns;
  }

  function Leading(texts: seq<string>): seq<ChatMessage> {
    if texts == [] then [] else [System(Join(texts))]
  }

  function InputMessages(request: Json): Option<seq<Json>> {
    var messages := Get(request, "messages");
    if messages.Some? && messages.value.Arr? && messages.value.items != [] then Some(messages.value.items) else None
  }

  function Translate(codec: Codec, publicModel: string, request: Json): Result<ChatRequest, BridgeError> {
    var messages := InputMessages(request);
    var maxTokens := AsU64(Get(request, "max_tokens"));
    if messages.None? || maxTokens.None? || maxTokens.value == 0 then Failure(InvalidRequest)
    else
      var system := TopSystem(Get(request, "system"));
      if system.Failure? then Failure(system.error)
      else
        var all := Gather(codec, system.value, messages.value);
        if all.Failure? then Failure(all.error)
        else if all.value.chat == [] then Failure(InvalidRequest)
        else
          Success(ChatRequest(
            publicModel, maxTokens.value, Get(request, "stream") == Some(Bool(true)),
            Leading(all.value.system) + all.value.chat))
  }

  method ConvertMessage(codec: Codec, message: Json, before: seq<ChatMessage>)
    returns (r: Result<seq<ChatMessage>, BridgeError>)
    requires Role(message) != "system"
    ensures ReadMessage(codec, message).Failure? ==> r == Failure(ReadMessage(codec, message).error)
    ensures ReadMessage(codec, message).Success? ==>
              ReadMessage(codec, message).value.ChatTurn? && r == Success(before + ReadMessage(codec, message).value.messages)
  {
    var content := Get(message, "content");
    if content.None? {
      return Failure(InvalidRequest);
    }
    if Role(message) == "user" {
      r := ConvertUserMessage(content.value, before);
    } else if Role(message) == "assistant" {
      r := ConvertAssistantMessage(codec, content.value, before);
    } else {
      r := Failure(InvalidRequest);
    }
  }

  /** The two lists the message loop fills. */
  datatype Gathered = Gathered(system: seq<string>, chat: seq<ChatMessage>)

  function Gather(codec: Codec, first: seq<string>, messages: seq<Json>): Result<Gathered, BridgeError> {
    var turns := Collect(MessageReader(codec), messages);
    if turns.Failure? then Failure(turns.error)
    else Success(Gathered(first + SystemTexts(turns.value), ChatMessages(turns.value)))
  }

  lemma GatherStop(codec: Codec, first: seq<string>, messages: seq<Json>, i: nat)
    requires i < |messages| && Gather(codec, first, messages[..i]).Success?
    requires ReadMessage(codec, messages[i]).Failure?
    ensures Gather(codec, first, messages) == Failure(ReadMessage(codec, messages[i]).error)
  {
    CollectStep(MessageReader(codec), messages, i);
  }

  function Add(all: Gathered, turn: Turn): Gathered {
    match turn
    case SystemTurn(texts) => all.(system := all.system + texts)
    case ChatTurn(messages) => all.(chat := all.chat + messages)
  }

  lemma GatherStep(codec: Codec, first: seq<string>, messages: seq<Json>, i: nat)
    requires i < |messages| && Gather(codec, first, messages[..i]).Success?
    requires ReadMessage(codec, messages[i]).Success?
    ensures Gather(codec, first, messages[..i + 1])
         == Success(Add(Gather(codec, first, messages[..i]).value, ReadMessage(codec, messages[i]).value))
  {
    var read, turn := MessageReader(codec), ReadMessage(codec, messages[i]).value;
    assert read(messages[i]) == Success(turn);
    CollectStep(read, messages, i);
    hide Collect, SystemTexts, ChatMessages, ReadMessage, MessageReader;
    var before := Collect(read, messages[..i]).value;
    TurnSnoc(before, turn);
    if turn.SystemTurn? {
      Regroup(first, SystemTexts(before), turn.texts);
      assert ChatMessages(before) + [] == ChatMessages(before);
    } else {
      assert SystemTexts(before) + [] == SystemTexts(before);
    }
  }

  /** One turn of the message loop. */
  method TakeMessage(codec: Codec, message: Json, all: Gathered) returns (r: Result<Gathered, BridgeError>)
    ensures ReadMessage(codec, message).Failure? ==> r == Failure(ReadMessage(codec, message).error)
    ensures ReadMessage(codec, message).Success? ==> r == Success(Add(all, ReadMessage(codec, message).value))
  {
    if Role(message) != "system" {
      var chat := ConvertMessage(codec, message, all.chat);
      if chat.Failure? {
        return Failure(chat.error);
      }
      return Success(all.(chat := chat.value));
    }
    var content := Get(message, "content");
    if content.None? {
      return Failure(InvalidRequest);
    }
    var text := ReadSystemContent(content.value);
    if text.Failure? {
      return Failure(text.error);
    }
    if Blank(text.value) {
      assert all.system + [] == all.system;
      return Success(all);
    }
    return Success(all.(system := all.system + [text.value]));
  }

  method ConvertMessages(codec: Codec, first: seq<string>, messages: seq<Json>) returns (r: Result<Gathered, BridgeError>)
    ensures r == Gather(codec, first, messages)
  {
    var all := Gathered(first, []);
    assert messages[..0] == [] && first + [] == first;
    assert Collect(MessageReader(codec), []) == Success([]);
    assert Gather(codec, first, []) == Success(all);
    hide Gather, ReadMessage, Add;
    for i := 0 to |messages|
      invariant Gather(codec, first, messages[..i]) == Success(all)
    {
      var next := TakeMessage(codec, messages[i], all);
      if next.Failure? {
        GatherStop(codec, first, messages, i);
        return Failure(next.error);
      }
      GatherStep(codec, first, messages, i);
      all := next.value;
    }
    assert messages[..|messages|] == messages;
    return Success(all);
  }

  method AnthropicToOpenAi(codec: Codec, publicModel: string, body: string) returns (r: Result<ChatRequest, BridgeError>)
    ensures codec.decode(body).None? ==> r == Failure(InvalidRequest)
    ensures codec.decode(body).Some? ==> r == Translate(codec, publicModel, codec.decode(body).value)
  {
    var parsed := codec.decode(body);
    if parsed.None? {
      return Failure(InvalidRequest);
    }
    var request := parsed.value;
    var messages := InputMessages(request);
    if messages.None? {
      return Failure(InvalidRequest);
    }
    var maxTokens := AsU64(Get(request, "max_tokens"));
    if maxTokens.None? || maxTokens.value == 0 {
      return Failure(InvalidRequest);
    }
    var systemParts: seq<string> := [];
    var top := Get(request, "system");
    if top.Some? && !top.value.Null? {
      var text := ReadSystemContent(top.value);
      if text.Failure? {
        return Failure(text.error);
      }
      if !Blank(text.value) {
        systemParts := [text.value];
      }
    }
    assert TopSystem(top) == Success(systemParts);
    var all := ConvertMessages(codec, systemParts, messages.value);
    if all.Failure? {
      return Failure(all.error);
    }
    var chat := all.value.chat;
    if chat == [] {
      return Failure(InvalidRequest);
    }
    assert [] + chat == chat;
    if all.value.system != [] {
      chat := [System(Join(all.value.system))] + chat;
    }
    return Success(ChatRequest(publicModel, maxTokens.value, Get(request, "stream") == Some(Bool(true)), chat));
  }
}
