/** What is said survives the request translation, read off the input blocks (src/bridge/request.rs). */
module ContentLaws {
  import opened Common
  import opened Json
  import opened Bridge
  import opened Request

  /** One thing said to the model: words, or an image by its URL. */
  datatype Spoken = Words(text: string) | Picture(url: string)

  // ---------------------------------------------------------------- what the Chat side hears

  function HeardPart(part: Json): Option<Spoken> {
    if Get(part, "type") == Some(Str("text")) && AsStr(Get(part, "text")).Some? then Some(Words(AsStr(Get(part, "text")).value))
    else if Get(part, "type") == Some(Str("image_url")) then
      var url := AsStr(Get(GetOr(Get(part, "image_url"), Null), "url"));
      if url.Some? then Some(Picture(url.value)) else None
    else None
  }

  ghost predicate HearsParts(parts: seq<Json>, spoken: seq<Spoken>) {
    |parts| == |spoken| && forall i :: 0 <= i < |parts| ==> HeardPart(parts[i]) == Some(spoken[i])
  }

  /** A string is one thing said, an array what its parts say. */
  ghost predicate Hears(content: Json, spoken: seq<Spoken>) {
    if content.Str? then spoken == [Words(content.s)] else content.Arr? && HearsParts(content.items, spoken)
  }

  lemma TextPartHeard(text: string)
    ensures HeardPart(TextPart(text)) == Some(Words(text))
  {
    var part := TextPart(text);
    assert part.fields["type"] == Str("text") && part.fields["text"] == Str(text);
  }

  lemma ImagePartHeard(url: string)
    ensures HeardPart(ImagePart(url)) == Some(Picture(url))
    ensures Get(ImagePart(url), "text").None?
  {
    var part := ImagePart(url);
    assert part.fields["type"] == Str("image_url") && part.fields["image_url"] == Obj(map["url" := Str(url)]);
    assert part.fields["image_url"].fields["url"] == Str(url);
  }

  /** A part as the translation makes them. */
  predicate Made(part: Json, spoken: Spoken) {
    part == (if spoken.Words? then TextPart(spoken.text) else ImagePart(spoken.url))
  }

  ghost predicate MadeParts(parts: seq<Json>, spoken: seq<Spoken>) {
    |parts| == |spoken| && forall i :: 0 <= i < |parts| ==> Made(parts[i], spoken[i])
  }

  /** Sending a single text as a string loses nothing and adds nothing. */
  lemma CompactIsHeard(parts: seq<Json>, spoken: seq<Spoken>)
    requires MadeParts(parts, spoken)
    ensures Hears(Compact(parts), spoken)
  {
    forall i | 0 <= i < |parts| ensures HeardPart(parts[i]) == Some(spoken[i]) {
      TextPartHeard(if spoken[i].Words? then spoken[i].text else "");
      ImagePartHeard(if spoken[i].Picture? then spoken[i].url else "");
    }
    if |parts| == 1 {
      if spoken[0].Words? {
        assert parts[0].fields["text"] == Str(spoken[0].text);
      } else {
        ImagePartHeard(spoken[0].url);
      }
    }
    hide HeardPart;
  }

  // ---------------------------------------------------------------- what the Anthropic side says

  predicate IsKind(block: Json, kind: string) {
    Get(block, "type") == Some(Str(kind))
  }

  /** The URL of an image block: the data itself, or where it is. */
  ghost predicate Shows(block: Json, url: string) {
    var source := GetOr(Get(block, "source"), Null);
    || (exists media, data :: && IsKind(source, "base64") && media != ""
                              && Get(source, "media_type") == Some(Str(media)) && Get(source, "data") == Some(Str(data))
                              && url == "data:" + media + ";base64," + data)
    || (IsKind(source, "url") && url != "" && Get(source, "url") == Some(Str(url)))
  }

  ghost predicate Says(block: Json, spoken: Spoken) {
    if IsKind(block, "text") then spoken.Words? && Get(block, "text") == Some(Str(spoken.text))
    else IsKind(block, "image") && spoken.Picture? && Shows(block, spoken.url)
  }

  /** The text and image blocks, in order, say these things. */
  ghost predicate SpokenIn(blocks: seq<Json>, spoken: seq<Spoken>) {
    if blocks == [] then spoken == []
    else
      var front, last := blocks[..|blocks| - 1], blocks[|blocks| - 1];
      if IsKind(last, "text") || IsKind(last, "image")
      then spoken != [] && Says(last, spoken[|spoken| - 1]) && SpokenIn(front, spoken[..|spoken| - 1])
      else SpokenIn(front, spoken)
  }

  lemma ImageShows(block: Json)
    requires ConvertImage(block).Success?
    ensures exists url :: ConvertImage(block) == Success(ImagePart(url)) && Shows(block, url)
  {
    var source := Get(block, "source").value.fields;
    assert Get(block, "source").value == Obj(source);
    if StrAt(source, "type") == Some("base64") {
      var media, data := StrAt(source, "media_type").value, StrAt(source, "data").value;
      var url := "data:" + media + ";base64," + data;
      assert Get(Obj(source), "media_type") == Some(Str(media)) && Get(Obj(source), "data") == Some(Str(data));
      assert ConvertImage(block) == Success(ImagePart(url)) && Shows(block, url);
    } else {
      var url := StrAt(source, "url").value;
      assert ConvertImage(block) == Success(ImagePart(url)) && Shows(block, url);
    }
  }

  /** A text or image block becomes the part that says the same. */
  lemma TextSays(block: Json)
    requires IsKind(block, "text") && TextOf(block).Success?
    ensures Says(block, Words(TextOf(block).value)) && Made(TextPart(TextOf(block).value), Words(TextOf(block).value))
  {}

  lemma MadeSnoc(parts: seq<Json>, spoken: seq<Spoken>, part: Json, s: Spoken)
    requires MadeParts(parts, spoken) && Made(part, s)
    ensures MadeParts(parts + [part], spoken + [s])
  {
    hide Made;
  }

  lemma SpokenSnoc(blocks: seq<Json>, spoken: seq<Spoken>, block: Json, s: Spoken)
    requires SpokenIn(blocks, spoken) && (IsKind(block, "text") || IsKind(block, "image")) && Says(block, s)
    ensures SpokenIn(blocks + [block], spoken + [s])
  {
    assert (blocks + [block])[..|blocks|] == blocks && (spoken + [s])[..|spoken|] == spoken;
    hide Says;
  }

  lemma SpokenSkip(blocks: seq<Json>, spoken: seq<Spoken>, block: Json)
    requires SpokenIn(blocks, spoken) && !IsKind(block, "text") && !IsKind(block, "image")
    ensures SpokenIn(blocks + [block], spoken)
  {
    assert (blocks + [block])[..|blocks|] == blocks;
  }

  lemma CollectFront<T>(read: Json -> Result<T, BridgeError>, items: seq<Json>)
    requires items != [] && Collect(read, items).Success?
    ensures var front, last := items[..|items| - 1], items[|items| - 1];
            && Collect(read, front).Success? && read(last).Success?
            && Collect(read, items) == Success(Collect(read, front).value + [read(last).value])
  {}

  // ---------------------------------------------------------------- tool results

  /** Every block of a tool result says something, in order. */
  lemma {:induction false} ResultBlocksSay(blocks: seq<Json>) returns (spoken: seq<Spoken>)
    requires Collect(ResultBlock, blocks).Success?
    ensures SpokenIn(blocks, spoken) && |spoken| == |blocks| && MadeParts(Collect(ResultBlock, blocks).value, spoken)
    decreases |blocks|
  {
    spoken := [];
    if blocks != [] {
      var front, last := blocks[..|blocks| - 1], blocks[|blocks| - 1];
      CollectFront(ResultBlock, blocks);
      var part := ResultBlock(last).value;
      assert blocks == front + [last];
      var s;
      if IsKind(last, "text") {
        TextSays(last);
        s := Words(TextOf(last).value);
      } else {
        ImageShows(last);
        var url :| ConvertImage(last) == Success(ImagePart(url)) && Shows(last, url);
        s := Picture(url);
      }
      assert Says(last, s) && Made(part, s);
      hide ResultBlock, Says, Made, SpokenIn, MadeParts, Collect;
      spoken := ResultBlocksSay(front);
      MadeSnoc(Collect(ResultBlock, front).value, spoken, part, s);
      SpokenSnoc(front, spoken, last, s);
      spoken := spoken + [s];
    }
  }

  predicate IsError(block: Json) {
    Get(block, "is_error") == Some(Bool(true))
  }

  /** A tool message for a tool_result block: its id, and its own content, marked if it is an error. */
  ghost predicate AnswersTo(block: Json, answer: ChatMessage) {
    var content := GetOr(Get(block, "content"), Null);
    && answer.Tool? && answer.callId != "" && Get(block, "tool_use_id") == Some(Str(answer.callId))
    && (content.Str? ==> answer.content == Str(if IsError(block) then "Error: " + content.s else content.s))
    && (!content.Str? ==>
          && content.Arr?
          && exists spoken :: && SpokenIn(content.items, spoken) && |spoken| == |content.items|
                              && Hears(answer.content, (if IsError(block) then [Words("Error:")] else []) + spoken))
  }

  lemma ToolResultAnswers(block: Json)
    requires ToolResult(block).Success?
    ensures AnswersTo(block, ToolResult(block).value)
  {
    var content, answer := Get(block, "content").value, ToolResult(block).value;
    if content.Arr? {
      var spoken := ResultBlocksSay(content.items);
      var parts := Collect(ResultBlock, content.items).value;
      var mark := ErrorPart(IsError(block));
      var led := (if IsError(block) then [Words("Error:")] else []) + spoken;
      assert MadeParts(mark + parts, led);
      CompactIsHeard(mark + parts, led);
      hide Hears, SpokenIn, Compact, Collect, MadeParts;
    }
  }

  // ---------------------------------------------------------------- user turns

  /** The tool messages answer the tool_result blocks, one for one and in order. */
  ghost predicate AnswersIn(blocks: seq<Json>, answers: seq<ChatMessage>) {
    if blocks == [] then answers == []
    else
      var front, last := blocks[..|blocks| - 1], blocks[|blocks| - 1];
      if IsKind(last, "tool_result")
      then answers != [] && AnswersTo(last, answers[|answers| - 1]) && AnswersIn(front, answers[..|answers| - 1])
      else AnswersIn(front, answers)
  }

  lemma AnswersSnoc(blocks: seq<Json>, answers: seq<ChatMessage>, block: Json, answer: ChatMessage)
    requires AnswersIn(blocks, answers) && IsKind(block, "tool_result") && AnswersTo(block, answer)
    ensures AnswersIn(blocks + [block], answers + [answer])
  {
    assert (blocks + [block])[..|blocks|] == blocks && (answers + [answer])[..|answers|] == answers;
    hide AnswersTo;
  }

  lemma AnswersSkip(blocks: seq<Json>, answers: seq<ChatMessage>, block: Json)
    requires AnswersIn(blocks, answers) && !IsKind(block, "tool_result")
    ensures AnswersIn(blocks + [block], answers)
  {
    assert (blocks + [block])[..|blocks|] == blocks;
  }

  /** One block of a user turn, by its kind. */
  lemma UserBlock(block: Json) returns (s: Spoken)
    requires ReadUserBlock(block).Success?
    ensures var item := ReadUserBlock(block).value;
            && (IsKind(block, "text") || IsKind(block, "image") <==> item.Part?)
            && (item.Part? ==> Says(block, s) && Made(item.part, s))
            && (IsKind(block, "tool_result") <==> item.Answer?)
            && (item.Answer? ==> AnswersTo(block, item.message))
  {
    s := Words("");
    if IsKind(block, "text") {
      TextSays(block);
      s := Words(TextOf(block).value);
    } else if IsKind(block, "image") {
      ImageShows(block);
      var url :| ConvertImage(block) == Success(ImagePart(url)) && Shows(block, url);
      s := Picture(url);
    } else if IsKind(block, "tool_result") {
      ToolResultAnswers(block);
    }
    hide AnswersTo, ToolResult, Shows, ConvertImage;
  }

  lemma {:induction false} UserBlocks(blocks: seq<Json>) returns (spoken: seq<Spoken>)
    requires Collect(ReadUserBlock, blocks).Success?
    ensures var items := Collect(ReadUserBlock, blocks).value;
            && SpokenIn(blocks, spoken) && MadeParts(Parts(items), spoken) && AnswersIn(blocks, Answers(items))
    decreases |blocks|
  {
    spoken := [];
    if blocks != [] {
      var front, last := blocks[..|blocks| - 1], blocks[|blocks| - 1];
      assert blocks == front + [last];
      CollectFront(ReadUserBlock, blocks);
      hide *;
      spoken := UserBlocks(front);
      var s := UserBlock(last);
      var before, item := Collect(ReadUserBlock, front).value, ReadUserBlock(last).value;
      UserSnoc(before, item);
      NoMore(Parts(before));
      NoMore(Answers(before));
      if item.Part? {
        MadeSnoc(Parts(before), spoken, item.part, s);
        SpokenSnoc(front, spoken, last, s);
        AnswersSkip(front, Answers(before), last);
        spoken := spoken + [s];
      } else {
        SpokenSkip(front, spoken, last);
        if item.Answer? {
          AnswersSnoc(front, Answers(before), last, item.message);
        } else {
          AnswersSkip(front, Answers(before), last);
        }
      }
    }
  }

  lemma NoMore<T>(s: seq<T>)
    ensures s + [] == s
  {}

  /** A block turn is its answers, then one message with everything spoken, if anything was. */
  ghost predicate KeepsBlocks(blocks: seq<Json>, turn: seq<ChatMessage>, answers: seq<ChatMessage>, spoken: seq<Spoken>, said: seq<ChatMessage>) {
    && turn == answers + said && AnswersIn(blocks, answers) && SpokenIn(blocks, spoken)
    && (spoken == [] ==> said == [])
    && (spoken != [] ==> |said| == 1 && said[0].User? && Hears(said[0].content, spoken))
  }

  /**
   A user turn: its tool results first, each with its own id and content, then one message that
   says exactly what its text and image blocks say, in order; a plain string is kept as it is.
   */
  lemma UserTurnKeepsContent(content: Json)
    requires UserTurn(content).Success?
    ensures content.Str? ==> UserTurn(content).value == [User(content)]
    ensures !content.Str? ==>
              && content.Arr?
              && exists answers: seq<ChatMessage>, spoken: seq<Spoken>, said: seq<ChatMessage> ::
                   KeepsBlocks(content.items, UserTurn(content).value, answers, spoken, said)
  {
    if !content.Str? {
      var items := Collect(ReadUserBlock, content.items).value;
      var spoken := UserBlocks(content.items);
      CompactIsHeard(Parts(items), spoken);
      var answers, said := Answers(items), Request.Spoken(Parts(items));
      assert UserTurn(content).value == answers + said;
      assert |Parts(items)| == |spoken|;
      hide AnswersIn, SpokenIn, Hears, Compact, UserTurn, Collect, Parts, Answers, MadeParts;
      assert KeepsBlocks(content.items, UserTurn(content).value, answers, spoken, said);
    }
  }

  // ---------------------------------------------------------------- assistant turns

  /** The texts of the text blocks, in order. */
  ghost predicate TextsIn(blocks: seq<Json>, texts: seq<string>) {
    if blocks == [] then texts == []
    else
      var front, last := blocks[..|blocks| - 1], blocks[|blocks| - 1];
      if IsKind(last, "text")
      then texts != [] && Get(last, "text") == Some(Str(texts[|texts| - 1])) && TextsIn(front, texts[..|texts| - 1])
      else TextsIn(front, texts)
  }

  /** The call of a tool_use block: its id, its name, its input printed. */
  predicate Calls(codec: Codec, block: Json, call: Call) {
    && call.id != "" && Get(block, "id") == Some(Str(call.id))
    && call.name != "" && Get(block, "name") == Some(Str(call.name))
    && var input := GetOr(Get(block, "input"), Null); input.Obj? && call.arguments == codec.encode(input)
  }

  ghost predicate CallsIn(codec: Codec, blocks: seq<Json>, calls: seq<Call>) {
    if blocks == [] then calls == []
    else
      var front, last := blocks[..|blocks| - 1], blocks[|blocks| - 1];
      if IsKind(last, "tool_use")
      then calls != [] && Calls(codec, last, calls[|calls| - 1]) && CallsIn(codec, front, calls[..|calls| - 1])
      else CallsIn(codec, front, calls)
  }

  lemma AssistantBlock(codec: Codec, block: Json)
    requires ReadAssistantBlock(codec, block).Success?
    ensures var item := ReadAssistantBlock(codec, block).value;
            && (IsKind(block, "text") <==> item.Said?) && (item.Said? ==> Get(block, "text") == Some(Str(item.text)))
            && (IsKind(block, "tool_use") <==> item.Called?) && (item.Called? ==> Calls(codec, block, item.call))
  {}

  lemma {:induction false} AssistantBlocks(codec: Codec, blocks: seq<Json>)
    requires Collect(AssistantReader(codec), blocks).Success?
    ensures var items := Collect(AssistantReader(codec), blocks).value;
            TextsIn(blocks, Texts(items)) && CallsIn(codec, blocks, Request.Calls(items))
    decreases |blocks|
  {
    if blocks != [] {
      var front, last := blocks[..|blocks| - 1], blocks[|blocks| - 1];
      CollectFront(AssistantReader(codec), blocks);
      assert AssistantReader(codec)(last) == ReadAssistantBlock(codec, last);
      AssistantBlocks(codec, front);
      AssistantBlock(codec, last);
      var before, item := Collect(AssistantReader(codec), front).value, ReadAssistantBlock(codec, last).value;
      hide Collect, ReadAssistantBlock, AssistantReader, Texts, Request.Calls, Calls;
      AssistantSnoc(before, item);
      NoMore(Texts(before));
      NoMore(Request.Calls(before));
      var texts, calls := Texts(before + [item]), Request.Calls(before + [item]);
      if item.Said? {
        assert texts[|texts| - 1] == item.text && texts[..|texts| - 1] == Texts(before);
      }
      if item.Called? {
        assert calls[|calls| - 1] == item.call && calls[..|calls| - 1] == Request.Calls(before);
      }
    }
  }

  /** An assistant turn: its texts joined, its calls with their own names and inputs, nothing for a turn without either. */
  lemma AssistantTurnKeepsContent(codec: Codec, content: Json)
    requires AssistantTurn(codec, content).Success?
    ensures content.Str? ==> AssistantTurn(codec, content).value == if content.s == "" then [] else [Assistant(content, [])]
    ensures !content.Str? ==>
              && content.Arr?
              && exists texts, calls ::
                   && TextsIn(content.items, texts) && CallsIn(codec, content.items, calls)
                   && AssistantTurn(codec, content).value
                      == if texts == [] && calls == [] then []
                         else [Assistant(if texts == [] then Null else Str(Join(texts)), calls)]
  {
    if !content.Str? {
      AssistantBlocks(codec, content.items);
      var items := Collect(AssistantReader(codec), content.items).value;
      var texts, calls := Texts(items), Request.Calls(items);
      hide TextsIn, CallsIn, Collect, Texts, Request.Calls, Join;
      assert AssistantTurn(codec, content).value == Reply(texts, calls);
    }
  }

  // ---------------------------------------------------------------- joined texts

  /** One text is itself; two lists joined are their joins with a blank line between. */
  lemma {:induction false} JoinIsBlankLineBetween(a: seq<string>, b: seq<string>)
    requires a != [] && b != []
    ensures Join([a[0]]) == a[0]
    ensures Join(a + b) == Join(a) + "\n\n" + Join(b)
    decreases |b|
  {
    var all := a + b;
    assert all[..|all| - 1] == a + b[..|b| - 1] && all[|all| - 1] == b[|b| - 1];
    if |b| == 1 {
      assert a + b[..0] == a;
    } else {
      var front, last := b[..|b| - 1], b[|b| - 1];
      JoinIsBlankLineBetween(a, front);
      assert Join(all) == Join(a + front) + "\n\n" + last && Join(b) == Join(front) + "\n\n" + last;
      hide Join;
    }
  }

  /** System content is a string, or all of its blocks' texts joined. */
  lemma SystemContentIsJoined(content: Json)
    requires SystemContent(content).Success?
    ensures content.Str? ==> SystemContent(content).value == content.s
    ensures !content.Str? ==>
              && content.Arr?
              && exists texts :: && |texts| == |content.items| && TextsIn(content.items, texts)
                                 && SystemContent(content).value == Join(texts)
  {
    if content.Arr? {
      SystemBlocks(content.items);
    }
  }

  lemma {:induction false} SystemBlocks(blocks: seq<Json>)
    requires Collect(SystemBlock, blocks).Success?
    ensures TextsIn(blocks, Collect(SystemBlock, blocks).value)
    decreases |blocks|
  {
    if blocks != [] {
      CollectFront(SystemBlock, blocks);
      SystemBlocks(blocks[..|blocks| - 1]);
      var texts := Collect(SystemBlock, blocks).value;
      assert texts[..|texts| - 1] == Collect(SystemBlock, blocks[..|blocks| - 1]).value;
    }
  }

  // ---------------------------------------------------------------- refusals

  /** The first block that cannot be read decides why a list is refused. */
  lemma {:induction false} FirstBadDecides<T>(read: Json -> Result<T, BridgeError>, items: seq<Json>) returns (i: nat)
    requires Collect(read, items).Failure?
    ensures i < |items| && read(items[i]) == Failure(Collect(read, items).error)
    ensures forall j :: 0 <= j < i ==> read(items[j]).Success?
    decreases |items|
  {
    var front := items[..|items| - 1];
    if Collect(read, front).Failure? {
      i := FirstBadDecides(read, front);
      assert forall j :: 0 <= j < |front| ==> front[j] == items[j];
    } else {
      i := |items| - 1;
      AllRead(read, front);
      assert forall j :: 0 <= j < |front| ==> front[j] == items[j];
    }
  }

  lemma {:induction false} AllRead<T>(read: Json -> Result<T, BridgeError>, items: seq<Json>)
    requires Collect(read, items).Success?
    ensures forall j :: 0 <= j < |items| ==> read(items[j]).Success?
    decreases |items|
  {
    if items != [] {
      AllRead(read, items[..|items| - 1]);
      assert forall j :: 0 <= j < |items| - 1 ==> items[..|items| - 1][j] == items[j];
    }
  }

  /** A block without a type is invalid; a type the turn has no use for is unsupported. */
  lemma WhyBlocksAreRefused(codec: Codec, block: Json)
    ensures AsStr(Get(block, "type")).None? ==>
              && ReadUserBlock(block) == Failure(InvalidRequest) && ReadAssistantBlock(codec, block) == Failure(InvalidRequest)
              && SystemBlock(block) == Failure(InvalidRequest) && ResultBlock(block) == Failure(InvalidRequest)
    ensures forall kind :: IsKind(block, kind) ==>
              && (kind !in {"text", "image", "tool_result", "thinking", "redacted_thinking"} ==>
                    ReadUserBlock(block) == Failure(Unsupported))
              && (kind !in {"text", "tool_use", "thinking", "redacted_thinking"} ==>
                    ReadAssistantBlock(codec, block) == Failure(Unsupported))
              && (kind != "text" ==> SystemBlock(block) == Failure(Unsupported))
              && (kind !in {"text", "image"} ==> ResultBlock(block) == Failure(Unsupported))
  {}

  /** Every refused request is the client's fault. */
  lemma RefusedRequestIsClientError(codec: Codec, publicModel: string, request: Json)
    requires Translate(codec, publicModel, request).Failure?
    ensures Status(Translate(codec, publicModel, request).error) == 400
  {
    var messages := InputMessages(request);
    var system := TopSystem(Get(request, "system"));
    SystemErrors(GetOr(Get(request, "system"), Null));
    if messages.Some? && system.Success? {
      var turns := Collect(MessageReader(codec), messages.value);
      if turns.Failure? {
        var i := FirstBadDecides(MessageReader(codec), messages.value);
        MessageErrors(codec, messages.value[i]);
      }
      hide Collect, ReadMessage, SystemTexts, ChatMessages;
    }
    hide SystemContent;
  }

  predicate ClientError(e: BridgeError) {
    e == InvalidRequest || e == Unsupported
  }

  lemma SystemErrors(content: Json)
    ensures SystemContent(content).Failure? ==> ClientError(SystemContent(content).error)
  {
    if content.Arr? && Collect(SystemBlock, content.items).Failure? {
      var i := FirstBadDecides(SystemBlock, content.items);
    }
    hide Collect;
  }

  lemma MessageErrors(codec: Codec, message: Json)
    requires ReadMessage(codec, message).Failure?
    ensures ClientError(ReadMessage(codec, message).error)
  {
    var content := Get(message, "content");
    if content.Some? {
      SystemErrors(content.value);
      UserErrors(content.value);
      AssistantErrors(codec, content.value);
      hide SystemContent, UserTurn, AssistantTurn;
    }
  }

  lemma UserErrors(content: Json)
    ensures UserTurn(content).Failure? ==> ClientError(UserTurn(content).error)
  {
    if content.Arr? && Collect(ReadUserBlock, content.items).Failure? {
      var i := FirstBadDecides(ReadUserBlock, content.items);
      var block := content.items[i];
      if ToolResult(block).Failure? {
        ResultErrors(GetOr(Get(block, "content"), Null), IsError(block));
      }
      hide ResultContent;
    }
    hide Collect;
  }

  lemma ResultErrors(content: Json, isError: bool)
    ensures ResultContent(content, isError).Failure? ==> ClientError(ResultContent(content, isError).error)
  {
    if content.Arr? && Collect(ResultBlock, content.items).Failure? {
      var i := FirstBadDecides(ResultBlock, content.items);
    }
    hide Collect;
  }

  lemma AssistantErrors(codec: Codec, content: Json)
    ensures AssistantTurn(codec, content).Failure? ==> ClientError(AssistantTurn(codec, content).error)
  {
    if content.Arr? && Collect(AssistantReader(codec), content.items).Failure? {
      var i := FirstBadDecides(AssistantReader(codec), content.items);
      assert AssistantReader(codec)(content.items[i]) == ReadAssistantBlock(codec, content.items[i]);
    }
    hide Collect;
  }

  // ---------------------------------------------------------------- the rest of the request

  /** The public model, a positive token limit and the stream flag; a request without messages or limit is refused. */
  lemma HeaderIsKept(codec: Codec, publicModel: string, request: Json)
    ensures Translate(codec, publicModel, request).Success? ==>
              var chat := Translate(codec, publicModel, request).value;
              && chat.model == publicModel
              && chat.maxTokens > 0 && Get(request, "max_tokens") == Some(Int(chat.maxTokens))
              && (chat.stream <==> Get(request, "stream") == Some(Bool(true)))
    ensures (forall n: int :: 0 < n < 0x1_0000_0000_0000_0000 ==> Get(request, "max_tokens") != Some(Int(n)))
            ==> Translate(codec, publicModel, request) == Failure(InvalidRequest)
    ensures (Get(request, "messages").None? || !Get(request, "messages").value.Arr? || Get(request, "messages").value.items == [])
            ==> Translate(codec, publicModel, request) == Failure(InvalidRequest)
  {
    hide Gather, TopSystem;
    var limit := Get(request, "max_tokens");
    assert limit.Some? && limit.value.Int? ==> limit == Some(Int(limit.value.n));
  }
}
