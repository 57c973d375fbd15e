/** Which requests are translated, read off the request itself (src/bridge/request.rs). */
module Acceptance {
  import opened Common
  import opened Json
  import opened Bridge
  import opened Request
  import opened ContentLaws

  predicate HasText(v: Json, key: string) {
    Get(v, key).Some? && Get(v, key).value.Str?
  }

  predicate HasName(v: Json, key: string) {
    HasText(v, key) && Get(v, key).value.s != ""
  }

  /** Image data with its media type, or a place to find it. */
  predicate SoundImage(block: Json) {
    var source := GetOr(Get(block, "source"), Null);
    || (IsKind(source, "base64") && HasName(source, "media_type") && HasText(source, "data"))
    || (IsKind(source, "url") && HasName(source, "url"))
  }

  predicate SoundPart(block: Json) {
    (IsKind(block, "text") && HasText(block, "text")) || (IsKind(block, "image") && SoundImage(block))
  }

  predicate SoundResult(block: Json) {
    && HasName(block, "tool_use_id") && Get(block, "content").Some?
    && var content := Get(block, "content").value;
       content.Str? || (content.Arr? && forall i :: 0 <= i < |content.items| ==> SoundPart(content.items[i]))
  }

  predicate Thinks(block: Json) {
    IsKind(block, "thinking") || IsKind(block, "redacted_thinking")
  }

  predicate SoundUserBlock(block: Json) {
    SoundPart(block) || (IsKind(block, "tool_result") && SoundResult(block)) || Thinks(block)
  }

  predicate SoundCall(block: Json) {
    HasName(block, "id") && HasName(block, "name") && Get(block, "input").Some? && Get(block, "input").value.Obj?
  }

  predicate SoundAssistantBlock(block: Json) {
    (IsKind(block, "text") && HasText(block, "text")) || (IsKind(block, "tool_use") && SoundCall(block)) || Thinks(block)
  }

  predicate SoundSystem(content: Json) {
    || content.Str?
    || (content.Arr? && forall i :: 0 <= i < |content.items| ==> IsKind(content.items[i], "text") && HasText(content.items[i], "text"))
  }

  predicate HasRole(message: Json, role: string) {
    Get(message, "role") == Some(Str(role))
  }

  predicate SoundUser(content: Json) {
    content.Str? || (content.Arr? && forall i :: 0 <= i < |content.items| ==> SoundUserBlock(content.items[i]))
  }

  predicate SoundAssistant(content: Json) {
    content.Str? || (content.Arr? && forall i :: 0 <= i < |content.items| ==> SoundAssistantBlock(content.items[i]))
  }

  predicate SoundMessage(message: Json) {
    && Get(message, "content").Some?
    && var content := Get(message, "content").value;
       || (HasRole(message, "system") && SoundSystem(content))
       || (HasRole(message, "user") && SoundUser(content))
       || (HasRole(message, "assistant") && SoundAssistant(content))
  }

  predicate NotOnlyThoughts(blocks: seq<Json>) {
    exists i :: 0 <= i < |blocks| && !Thinks(blocks[i])
  }

  /** Something of the message is left to send: thinking is not, nor is an empty assistant string. */
  predicate Speaks(message: Json) {
    var content := GetOr(Get(message, "content"), Null);
    || (HasRole(message, "user") && (content.Str? || (content.Arr? && NotOnlyThoughts(content.items))))
    || (HasRole(message, "assistant") && ((content.Str? && content.s != "") || (content.Arr? && NotOnlyThoughts(content.items))))
  }

  /** The requests the bridge translates. */
  predicate Sound(request: Json) {
    && Get(request, "messages").Some? && Get(request, "messages").value.Arr?
    && Get(request, "max_tokens").Some? && Get(request, "max_tokens").value.Int?
    && 0 < Get(request, "max_tokens").value.n < 0x1_0000_0000_0000_0000
    && (var system := GetOr(Get(request, "system"), Null); system.Null? || SoundSystem(system))
    && var messages := Get(request, "messages").value.items;
       && (forall i :: 0 <= i < |messages| ==> SoundMessage(messages[i]))
       && (exists i :: 0 <= i < |messages| && Speaks(messages[i]))
  }

  // ---------------------------------------------------------------- blocks

  lemma ReadIfEach<T>(read: Json -> Result<T, BridgeError>, items: seq<Json>)
    ensures Collect(read, items).Success? <==> forall j :: 0 <= j < |items| ==> read(items[j]).Success?
  {
    if Collect(read, items).Success? {
      AllRead(read, items);
    } else {
      var i := FirstBadDecides(read, items);
    }
  }

  lemma {:induction false} ReadInOrder<T>(read: Json -> Result<T, BridgeError>, items: seq<Json>)
    requires Collect(read, items).Success?
    ensures forall j :: 0 <= j < |items| ==> read(items[j]) == Success(Collect(read, items).value[j])
    decreases |items|
  {
    if items != [] {
      var front := items[..|items| - 1];
      ReadInOrder(read, front);
      assert forall j :: 0 <= j < |front| ==> items[j] == front[j] && Collect(read, items).value[j] == Collect(read, front).value[j];
    }
  }

  lemma ImageIsRead(block: Json)
    ensures ConvertImage(block).Success? <==> SoundImage(block)
  {}

  lemma PartIsRead(block: Json)
    ensures ResultBlock(block).Success? <==> SoundPart(block)
  {
    ImageIsRead(block);
    hide ConvertImage, SoundImage;
  }

  lemma ResultIsRead(block: Json)
    ensures ToolResult(block).Success? <==> SoundResult(block)
  {
    var content := GetOr(Get(block, "content"), Null);
    if content.Arr? {
      ReadIfEach(ResultBlock, content.items);
      forall i | 0 <= i < |content.items| ensures ResultBlock(content.items[i]).Success? <==> SoundPart(content.items[i]) {
        PartIsRead(content.items[i]);
      }
    }
    hide Collect, ResultBlock, SoundPart, Compact;
  }

  lemma UserBlockIsRead(block: Json)
    ensures ReadUserBlock(block).Success? <==> SoundUserBlock(block)
    ensures ReadUserBlock(block).Success? ==> (ReadUserBlock(block).value.Private? <==> Thinks(block))
  {
    ImageIsRead(block);
    ResultIsRead(block);
    hide ConvertImage, SoundImage, ToolResult, SoundResult;
  }

  lemma AssistantBlockIsRead(codec: Codec, block: Json)
    ensures ReadAssistantBlock(codec, block).Success? <==> SoundAssistantBlock(block)
    ensures ReadAssistantBlock(codec, block).Success? ==> (ReadAssistantBlock(codec, block).value.Hidden? <==> Thinks(block))
  {}

  lemma SystemIsRead(content: Json)
    ensures SystemContent(content).Success? <==> SoundSystem(content)
  {
    if content.Arr? {
      ReadIfEach(SystemBlock, content.items);
    }
    hide Collect, Join;
  }

  // ---------------------------------------------------------------- turns

  lemma {:induction false} UserItemsSpeak(items: seq<UserItem>)
    ensures |Answers(items)| + |Parts(items)| == 0 <==> forall i :: 0 <= i < |items| ==> items[i].Private?
    decreases |items|
  {
    if items != [] {
      var front, last := items[..|items| - 1], items[|items| - 1];
      UserItemsSpeak(front);
      assert |Answers(items)| + |Parts(items)| == |Answers(front)| + |Parts(front)| + (if last.Private? then 0 else 1);
      assert forall i :: 0 <= i < |front| ==> items[i] == front[i];
      hide Answers, Parts;
    }
  }

  lemma {:induction false} AssistantItemsSpeak(items: seq<AssistantItem>)
    ensures |Texts(items)| + |Request.Calls(items)| == 0 <==> forall i :: 0 <= i < |items| ==> items[i].Hidden?
    decreases |items|
  {
    if items != [] {
      var front, last := items[..|items| - 1], items[|items| - 1];
      AssistantItemsSpeak(front);
      assert |Texts(items)| + |Request.Calls(items)| == |Texts(front)| + |Request.Calls(front)| + (if last.Hidden? then 0 else 1);
      assert forall i :: 0 <= i < |front| ==> items[i] == front[i];
      hide Texts, Request.Calls;
    }
  }

  lemma UserTurnIsRead(content: Json)
    ensures UserTurn(content).Success? <==> SoundUser(content)
    ensures UserTurn(content).Success? ==>
              (UserTurn(content).value != [] <==> content.Str? || (content.Arr? && NotOnlyThoughts(content.items)))
  {
    if content.Arr? {
      var blocks := content.items;
      ReadIfEach(ReadUserBlock, blocks);
      forall i | 0 <= i < |blocks|
        ensures ReadUserBlock(blocks[i]).Success? <==> SoundUserBlock(blocks[i])
        ensures ReadUserBlock(blocks[i]).Success? ==> (ReadUserBlock(blocks[i]).value.Private? <==> Thinks(blocks[i]))
      {
        UserBlockIsRead(blocks[i]);
      }
      if Collect(ReadUserBlock, blocks).Success? {
        ReadInOrder(ReadUserBlock, blocks);
        UserItemsSpeak(Collect(ReadUserBlock, blocks).value);
      }
    }
    hide Collect, ReadUserBlock, SoundUserBlock, Thinks, Answers, Parts, Compact;
  }

  lemma AssistantTurnIsRead(codec: Codec, content: Json)
    ensures AssistantTurn(codec, content).Success? <==> SoundAssistant(content)
    ensures AssistantTurn(codec, content).Success? ==>
              (AssistantTurn(codec, content).value != []
               <==> (content.Str? && content.s != "") || (content.Arr? && NotOnlyThoughts(content.items)))
  {
    if content.Arr? {
      var blocks, read := content.items, AssistantReader(codec);
      ReadIfEach(read, blocks);
      forall i | 0 <= i < |blocks|
        ensures read(blocks[i]).Success? <==> SoundAssistantBlock(blocks[i])
        ensures read(blocks[i]).Success? ==> (read(blocks[i]).value.Hidden? <==> Thinks(blocks[i]))
      {
        AssistantBlockIsRead(codec, blocks[i]);
      }
      if Collect(read, blocks).Success? {
        ReadInOrder(read, blocks);
        AssistantItemsSpeak(Collect(read, blocks).value);
      }
    }
    hide Collect, ReadAssistantBlock, SoundAssistantBlock, Thinks, Texts, Request.Calls, Join;
  }

  lemma MessageIsRead(codec: Codec, message: Json)
    ensures ReadMessage(codec, message).Success? <==> SoundMessage(message)
    ensures ReadMessage(codec, message).Success? ==>
              (ReadMessage(codec, message).value.ChatTurn? && ReadMessage(codec, message).value.messages != [] <==> Speaks(message))
  {
    var content := GetOr(Get(message, "content"), Null);
    SystemIsRead(content);
    UserTurnIsRead(content);
    AssistantTurnIsRead(codec, content);
    hide SystemContent, UserTurn, AssistantTurn, SoundSystem, SoundUser, SoundAssistant, Visible, NotOnlyThoughts;
  }

  // ---------------------------------------------------------------- the request

  lemma {:induction false} SomeTurnSpeaks(turns: seq<Turn>)
    ensures ChatMessages(turns) != [] <==> exists i :: 0 <= i < |turns| && turns[i].ChatTurn? && turns[i].messages != []
    decreases |turns|
  {
    if turns != [] {
      var front, last := turns[..|turns| - 1], turns[|turns| - 1];
      SomeTurnSpeaks(front);
      assert forall i :: 0 <= i < |front| ==> turns[i] == front[i];
      assert turns[|turns| - 1] == last;
    }
  }

  lemma MessagesAreRead(codec: Codec, messages: seq<Json>)
    ensures var turns := Collect(MessageReader(codec), messages);
            && (turns.Success? <==> forall i :: 0 <= i < |messages| ==> SoundMessage(messages[i]))
            && (turns.Success? ==> (ChatMessages(turns.value) != [] <==> exists i :: 0 <= i < |messages| && Speaks(messages[i])))
  {
    var read := MessageReader(codec);
    ReadIfEach(read, messages);
    forall i | 0 <= i < |messages|
      ensures read(messages[i]).Success? <==> SoundMessage(messages[i])
      ensures read(messages[i]).Success? ==> (read(messages[i]).value.ChatTurn? && read(messages[i]).value.messages != [] <==> Speaks(messages[i]))
    {
      MessageIsRead(codec, messages[i]);
    }
    hide ReadMessage, SoundMessage, Speaks;
    if Collect(read, messages).Success? {
      ReadInOrder(read, messages);
      SomeTurnSpeaks(Collect(read, messages).value);
    }
    hide Collect, ChatMessages;
  }

  /** A request is translated exactly when it is sound. */
  lemma AcceptedExactlyWhenSound(codec: Codec, publicModel: string, request: Json)
    ensures Translate(codec, publicModel, request).Success? <==> Sound(request)
  {
    SystemIsRead(GetOr(Get(request, "system"), Null));
    if Get(request, "messages").Some? && Get(request, "messages").value.Arr? {
      MessagesAreRead(codec, Get(request, "messages").value.items);
    }
    hide Collect, SystemContent, SoundSystem, SoundMessage, Speaks, ChatMessages, SystemTexts, Visible;
  }
}
