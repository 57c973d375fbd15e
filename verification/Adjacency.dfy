/**
 * The tool-call protocol across the request translation (src/bridge/request.rs): in the Chat list
 * every assistant message must be followed at once by exactly the tool messages that answer its calls.
 */
module Adjacency {
  import opened Common
  import opened Json
  import opened Bridge
  import opened Request

  // ---------------------------------------------------------------- the Chat side

  function CallIds(calls: seq<Call>): seq<string> {
    if calls == [] then [] else CallIds(calls[..|calls| - 1]) + [calls[|calls| - 1].id]
  }

  /** The ids answered by the tool messages that `chat` starts with. */
  function Run(chat: seq<ChatMessage>): seq<string> {
    if chat != [] && chat[0].Tool? then [chat[0].callId] + Run(chat[1..]) else []
  }

  ghost predicate Answered(chat: seq<ChatMessage>) {
    forall i :: 0 <= i < |chat| && chat[i].Assistant? ==>
      multiset(Run(chat[i + 1..])) == multiset(CallIds(chat[i].calls))
  }

  /** No tool message stands apart from an assistant's run. */
  ghost predicate NoOrphans(chat: seq<ChatMessage>) {
    forall i :: 0 < i < |chat| && chat[i].Tool? ==> chat[i - 1].Tool? || chat[i - 1].Assistant?
  }

  ghost predicate Adjacent(chat: seq<ChatMessage>) {
    Answered(chat) && NoOrphans(chat) && Run(chat) == []
  }

  // ---------------------------------------------------------------- the Anthropic side

  predicate IsKind(block: Json, kind: string) {
    Kind(block) == Success(kind)
  }

  function IdsIn(blocks: seq<Json>, kind: string, key: string): seq<string> {
    if blocks == [] then []
    else
      var last := blocks[|blocks| - 1];
      IdsIn(blocks[..|blocks| - 1], kind, key)
      + (if IsKind(last, kind) then [GetOr(AsStr(Get(last, key)), "")] else [])
  }

  function TextContent(message: Json): Option<string> {
    AsStr(Get(message, "content"))
  }

  function UseIds(message: Json): seq<string> {
    IdsIn(ContentBlocks(message), "tool_use", "id")
  }

  function ResultIds(message: Json): seq<string> {
    IdsIn(ContentBlocks(message), "tool_result", "tool_use_id")
  }

  predicate Has(blocks: seq<Json>, kind: string) {
    exists b :: b in blocks && IsKind(b, kind)
  }

  /** A user turn that holds something besides tool results and thinking. */
  predicate Speaks(message: Json) {
    TextContent(message).Some? || Has(ContentBlocks(message), "text") || Has(ContentBlocks(message), "image")
  }

  /** An assistant turn that holds something besides thinking. */
  predicate Replies(message: Json) {
    GetOr(TextContent(message), "") != "" || Has(ContentBlocks(message), "text") || Has(ContentBlocks(message), "tool_use")
  }

  /** The tool results still owed after one message, or nothing when the protocol is broken. */
  function OweNext(owed: multiset<string>, message: Json): Option<multiset<string>> {
    if Role(message) == "user" then
      var given := multiset(ResultIds(message));
      if given <= owed && (Speaks(message) ==> given == owed) then Some(owed - given) else None
    else if Role(message) == "assistant" && Replies(message) then
      if owed == multiset{} then Some(multiset(UseIds(message))) else None
    else Some(owed)
  }

  function Owed(messages: seq<Json>, owed: multiset<string>): Option<multiset<string>> {
    if messages == [] then Some(owed)
    else
      var next := OweNext(owed, messages[0]);
      if next.None? then None else Owed(messages[1..], next.value)
  }

  /** Every tool use is answered before anyone speaks again, and nothing else is answered. */
  predicate Settled(messages: seq<Json>) {
    Owed(messages, multiset{}) == Some(multiset{})
  }

  // ---------------------------------------------------------------- the ledger of a Chat list

  function LedgerNext(owed: multiset<string>, message: ChatMessage): Option<multiset<string>> {
    match message
    case Tool(id, _) => if id in owed then Some(owed - multiset{id}) else None
    case Assistant(_, calls) => if owed == multiset{} then Some(multiset(CallIds(calls))) else None
    case _ => if owed == multiset{} then Some(owed) else None
  }

  function Ledger(chat: seq<ChatMessage>, owed: multiset<string>): Option<multiset<string>> {
    if chat == [] then Some(owed)
    else
      var next := LedgerNext(owed, chat[0]);
      if next.None? then None else Ledger(chat[1..], next.value)
  }

  lemma {:induction false} LedgerAppend(a: seq<ChatMessage>, b: seq<ChatMessage>, owed: multiset<string>)
    ensures Ledger(a + b, owed)
         == if Ledger(a, owed).None? then None else Ledger(b, Ledger(a, owed).value)
  {
    if a == [] {
      assert a + b == b;
    } else {
      assert (a + b)[1..] == a[1..] + b;
      if LedgerNext(owed, a[0]).Some? {
        LedgerAppend(a[1..], b, LedgerNext(owed, a[0]).value);
      }
    }
  }

  lemma AnsweredTail(chat: seq<ChatMessage>)
    requires chat != []
    ensures Answered(chat) <==>
            && Answered(chat[1..])
            && (chat[0].Assistant? ==> multiset(Run(chat[1..])) == multiset(CallIds(chat[0].calls)))
  {
    var rest := chat[1..];
    assert forall i :: 0 <= i < |rest| ==> rest[i] == chat[i + 1] && rest[i + 1..] == chat[i + 2..];
    if Answered(chat) {
      forall i | 0 <= i < |rest| && rest[i].Assistant?
        ensures multiset(Run(rest[i + 1..])) == multiset(CallIds(rest[i].calls))
      {
        assert chat[i + 1].Assistant?;
      }
    }
    if Answered(rest) && (chat[0].Assistant? ==> multiset(Run(rest)) == multiset(CallIds(chat[0].calls))) {
      forall i | 0 <= i < |chat| && chat[i].Assistant?
        ensures multiset(Run(chat[i + 1..])) == multiset(CallIds(chat[i].calls))
      {
        if i > 0 {
          assert rest[i - 1].Assistant?;
        }
      }
    }
  }

  lemma NoOrphansTail(chat: seq<ChatMessage>)
    requires chat != []
    ensures NoOrphans(chat) <==>
            && NoOrphans(chat[1..])
            && (Run(chat[1..]) != [] ==> chat[0].Tool? || chat[0].Assistant?)
  {
    var rest := chat[1..];
    assert forall i :: 0 <= i < |rest| ==> rest[i] == chat[i + 1];
    if NoOrphans(chat) {
      forall i | 0 < i < |rest| && rest[i].Tool? ensures rest[i - 1].Tool? || rest[i - 1].Assistant? {
        assert chat[i + 1].Tool?;
      }
    }
    if NoOrphans(rest) && (Run(rest) != [] ==> chat[0].Tool? || chat[0].Assistant?) {
      forall i | 0 < i < |chat| && chat[i].Tool? ensures chat[i - 1].Tool? || chat[i - 1].Assistant? {
        if i > 1 {
          assert rest[i - 1].Tool?;
        }
      }
    }
  }

  lemma PayOne(owed: multiset<string>, id: string, rest: multiset<string>)
    ensures id in owed && rest == owed - multiset{id} <==> multiset{id} + rest == owed
  {
    if multiset{id} + rest == owed {
      assert rest == owed - multiset{id};
    }
    if id in owed && rest == owed - multiset{id} {
      assert multiset{id} + rest == owed;
    }
  }

  lemma NoneOwed(run: seq<string>)
    ensures multiset(run) == multiset{} <==> run == []
  {
    if run != [] {
      assert run[0] in multiset(run);
    }
  }

  lemma RunTail(chat: seq<ChatMessage>)
    requires chat != []
    ensures chat[0].Tool? ==> multiset(Run(chat)) == multiset{chat[0].callId} + multiset(Run(chat[1..]))
    ensures !chat[0].Tool? ==> Run(chat) == []
  {}

  lemma LedgerTail(chat: seq<ChatMessage>, owed: multiset<string>)
    requires chat != []
    ensures Ledger(chat, owed)
         == if LedgerNext(owed, chat[0]).None? then None else Ledger(chat[1..], LedgerNext(owed, chat[0]).value)
  {}

  /** The ledger closes at zero exactly when the list is adjacent and starts by paying what was owed. */
  lemma {:induction false} LedgerIsAdjacency(chat: seq<ChatMessage>, owed: multiset<string>)
    ensures Ledger(chat, owed) == Some(multiset{})
            <==> Answered(chat) && NoOrphans(chat) && multiset(Run(chat)) == owed
  {
    if chat != [] {
      var m, rest := chat[0], chat[1..];
      hide Answered, NoOrphans, Run, Ledger;
      LedgerTail(chat, owed);
      RunTail(chat);
      AnsweredTail(chat);
      NoOrphansTail(chat);
      NoneOwed(Run(rest));
      match m {
        case Tool(id, _) =>
          LedgerIsAdjacency(rest, owed - multiset{id});
          PayOne(owed, id, multiset(Run(rest)));
        case Assistant(_, calls) =>
          LedgerIsAdjacency(rest, multiset(CallIds(calls)));
        case System(_) =>
          LedgerIsAdjacency(rest, multiset{});
        case User(_) =>
          LedgerIsAdjacency(rest, multiset{});
      }
    }
  }

  // ---------------------------------------------------------------- one turn

  function AnswerIds(answers: seq<ChatMessage>): seq<string> {
    if answers == [] then []
    else
      var last := answers[|answers| - 1];
      AnswerIds(answers[..|answers| - 1]) + (if last.Tool? then [last.callId] else [])
  }

  lemma OneMore(before: multiset<string>, owed: multiset<string>, id: string)
    requires before <= owed
    ensures before + multiset{id} <= owed <==> id in owed - before
    ensures owed - before - multiset{id} == owed - (before + multiset{id})
  {}

  /** Paying off a list of tool messages. */
  lemma {:induction false} LedgerAnswers(answers: seq<ChatMessage>, owed: multiset<string>)
    requires forall m :: m in answers ==> m.Tool?
    ensures var given := multiset(AnswerIds(answers));
            Ledger(answers, owed) == if given <= owed then Some(owed - given) else None
  {
    if answers == [] {
      assert owed - multiset{} == owed;
    } else {
      var front, last := answers[..|answers| - 1], answers[|answers| - 1];
      assert answers == front + [last];
      var before := multiset(AnswerIds(front));
      assert multiset(AnswerIds(answers)) == before + multiset{last.callId};
      hide Ledger, AnswerIds;
      LedgerAnswers(front, owed);
      LedgerAppend(front, [last], owed);
      if before <= owed {
        LedgerOne(last, owed - before);
        OneMore(before, owed, last.callId);
      } else {
        assert !(before + multiset{last.callId} <= owed);
      }
    }
  }

  lemma LedgerOne(m: ChatMessage, owed: multiset<string>)
    ensures Ledger([m], owed) == LedgerNext(owed, m)
  {
    assert [m][1..] == [];
  }

  lemma HasSnoc(blocks: seq<Json>, last: Json, kind: string)
    ensures Has(blocks + [last], kind) <==> Has(blocks, kind) || IsKind(last, kind)
  {
    if Has(blocks, kind) {
      var b :| b in blocks && IsKind(b, kind);
      assert b in blocks + [last];
    }
    if IsKind(last, kind) {
      assert last in blocks + [last];
    }
  }

  /** What the user reader takes out of a list of blocks. */
  lemma {:induction false} UserItems(blocks: seq<Json>)
    requires Collect(ReadUserBlock, blocks).Success?
    ensures var items := Collect(ReadUserBlock, blocks).value;
            && (forall m :: m in Answers(items) ==> m.Tool?)
            && AnswerIds(Answers(items)) == IdsIn(blocks, "tool_result", "tool_use_id")
            && (Parts(items) != [] <==> Has(blocks, "text") || Has(blocks, "image"))
  {
    if blocks != [] {
      var front, last := blocks[..|blocks| - 1], blocks[|blocks| - 1];
      assert blocks == front + [last];
      hide Collect, Has, IsKind, ReadUserBlock, Answers, Parts, AnswerIds, IdsIn, Get, AsStr;
      CollectFront(ReadUserBlock, front, last);
      UserItems(front);
      var item := ReadUserBlock(last).value;
      var before := Collect(ReadUserBlock, front).value;
      UserSnoc(before, item);
      UserBlockItem(last);
      AnswersSnoc(Answers(before), item);
      IdsSnoc(front, last, "tool_result", "tool_use_id");
      HasSnoc(front, last, "text");
      HasSnoc(front, last, "image");
    }
  }

  lemma UserBlockItem(block: Json)
    requires ReadUserBlock(block).Success?
    ensures var item := ReadUserBlock(block).value;
            && (item.Part? <==> IsKind(block, "text") || IsKind(block, "image"))
            && (item.Answer? <==> IsKind(block, "tool_result"))
            && (item.Answer? ==> item.message.Tool? && AsStr(Get(block, "tool_use_id")) == Some(item.message.callId))
  {}

  lemma AnswersSnoc(answers: seq<ChatMessage>, item: UserItem)
    requires item.Answer? ==> item.message.Tool?
    ensures AnswerIds(answers + (if item.Answer? then [item.message] else []))
         == AnswerIds(answers) + (if item.Answer? then [item.message.callId] else [])
  {
    if item.Answer? {
      assert (answers + [item.message])[..|answers|] == answers;
    } else {
      assert answers + [] == answers;
      assert AnswerIds(answers) + [] == AnswerIds(answers);
    }
  }

  lemma UserTurnShape(codec: Codec, message: Json)
    returns (answers: seq<ChatMessage>, said: seq<ChatMessage>)
    requires Role(message) == "user" && ReadMessage(codec, message).Success?
    ensures ReadMessage(codec, message).value == ChatTurn(answers + said)
    ensures (forall m :: m in answers ==> m.Tool?) && AnswerIds(answers) == ResultIds(message)
    ensures |said| <= 1 && (forall m :: m in said ==> m.User?) && (said != [] <==> Speaks(message))
  {
    var content := Get(message, "content").value;
    if content.Str? {
      answers, said := [], [User(Str(content.s))];
    } else {
      UserItems(content.items);
      var items := Collect(ReadUserBlock, content.items).value;
      hide Collect, ReadUserBlock, Answers, Parts, AnswerIds, IdsIn, Has, Compact;
      answers, said := Answers(items), Spoken(Parts(items));
    }
  }

  lemma PaidInFull(owed: multiset<string>, given: multiset<string>)
    ensures given <= owed ==> (owed - given == multiset{} <==> given == owed)
  {
    if given <= owed {
      assert owed == given + (owed - given);
    }
  }

  lemma UserTurnOwes(codec: Codec, message: Json, owed: multiset<string>)
    requires Role(message) == "user" && ReadMessage(codec, message).Success?
    ensures Ledger(ReadMessage(codec, message).value.messages, owed) == OweNext(owed, message)
  {
    var answers, said := UserTurnShape(codec, message);
    hide Ledger, AnswerIds, ReadMessage, ResultIds, Speaks;
    LedgerAppend(answers, said, owed);
    LedgerAnswers(answers, owed);
    var given := multiset(ResultIds(message));
    PaidInFull(owed, given);
    if said == [] {
      LedgerNone(owed - given);
    } else {
      assert said == [said[0]];
      LedgerOne(said[0], owed - given);
    }
  }

  lemma IdsSnoc(blocks: seq<Json>, last: Json, kind: string, key: string)
    ensures IdsIn(blocks + [last], kind, key)
         == IdsIn(blocks, kind, key) + (if IsKind(last, kind) then [GetOr(AsStr(Get(last, key)), "")] else [])
  {
    assert (blocks + [last])[..|blocks|] == blocks;
  }

  lemma CollectFront<T>(read: Json -> Result<T, BridgeError>, front: seq<Json>, last: Json)
    requires Collect(read, front + [last]).Success?
    ensures Collect(read, front).Success? && read(last).Success?
    ensures Collect(read, front + [last]) == Success(Collect(read, front).value + [read(last).value])
  {
    assert (front + [last])[..|front|] == front;
  }

  lemma {:induction false} AssistantItems(codec: Codec, blocks: seq<Json>)
    requires Collect(AssistantReader(codec), blocks).Success?
    ensures var items := Collect(AssistantReader(codec), blocks).value;
            && CallIds(Calls(items)) == IdsIn(blocks, "tool_use", "id")
            && (Texts(items) != [] <==> Has(blocks, "text"))
            && (Calls(items) != [] <==> Has(blocks, "tool_use"))
  {
    if blocks != [] {
      var front, last := blocks[..|blocks| - 1], blocks[|blocks| - 1];
      assert blocks == front + [last];
      assert AssistantReader(codec)(last) == ReadAssistantBlock(codec, last);
      hide Collect, Has, IsKind, ReadAssistantBlock, Texts, Calls, CallIds, IdsIn, AssistantReader, Get, AsStr;
      CollectFront(AssistantReader(codec), front, last);
      AssistantItems(codec, front);
      var item := ReadAssistantBlock(codec, last).value;
      var before := Collect(AssistantReader(codec), front).value;
      AssistantSnoc(before, item);
      AssistantBlockItem(codec, last);
      CallsSnoc(Calls(before), item);
      IdsSnoc(front, last, "tool_use", "id");
      HasSnoc(front, last, "text");
      HasSnoc(front, last, "tool_use");
    }
  }

  lemma AssistantBlockItem(codec: Codec, block: Json)
    requires ReadAssistantBlock(codec, block).Success?
    ensures var item := ReadAssistantBlock(codec, block).value;
            && (item.Said? <==> IsKind(block, "text"))
            && (item.Called? <==> IsKind(block, "tool_use"))
            && (item.Called? ==> AsStr(Get(block, "id")) == Some(item.call.id))
  {}

  lemma CallsSnoc(calls: seq<Call>, item: AssistantItem)
    ensures CallIds(calls + (if item.Called? then [item.call] else []))
         == CallIds(calls) + (if item.Called? then [item.call.id] else [])
  {
    if item.Called? {
      assert (calls + [item.call])[..|calls|] == calls;
    } else {
      assert calls + [] == calls;
      assert CallIds(calls) + [] == CallIds(calls);
    }
  }

  lemma AssistantTurnOwes(codec: Codec, message: Json, owed: multiset<string>)
    requires Role(message) == "assistant" && ReadMessage(codec, message).Success?
    ensures Ledger(ReadMessage(codec, message).value.messages, owed) == OweNext(owed, message)
  {
    var content := Get(message, "content").value;
    var out := AssistantTurn(codec, content).value;
    assert ReadMessage(codec, message).value.messages == out;
    AssistantTurnShape(codec, message);
    hide AssistantTurn, ReadMessage, Replies, UseIds, Ledger;
    if out == [] {
      assert Ledger([], owed) == Some(owed) by {
        LedgerNone(owed);
      }
    } else {
      assert out == [out[0]];
      LedgerOne(out[0], owed);
    }
  }

  lemma LedgerNone(owed: multiset<string>)
    ensures Ledger([], owed) == Some(owed)
  {}

  lemma AssistantTurnShape(codec: Codec, message: Json)
    requires Role(message) == "assistant" && ReadMessage(codec, message).Success?
    ensures var out := AssistantTurn(codec, Get(message, "content").value).value;
            && (out == [] <==> !Replies(message))
            && (out != [] ==> |out| == 1 && out[0].Assistant? && CallIds(out[0].calls) == UseIds(message))
  {
    var content := Get(message, "content").value;
    if content.Arr? {
      AssistantItems(codec, content.items);
      hide Collect, ReadAssistantBlock, IdsIn, Has, Join, Texts, Calls, CallIds;
    }
  }

  // ---------------------------------------------------------------- the whole list

  lemma {:induction false} ChatMessagesCons(turns: seq<Turn>)
    requires turns != []
    ensures ChatMessages(turns) == (if turns[0].ChatTurn? then turns[0].messages else []) + ChatMessages(turns[1..])
  {
    var front, last := turns[..|turns| - 1], turns[|turns| - 1];
    if front != [] {
      var first, rest := turns[0], turns[1..];
      assert front[1..] == rest[..|rest| - 1];
      assert front[0] == first && rest[|rest| - 1] == last;
      var now := if first.ChatTurn? then first.messages else [];
      ChatMessagesCons(front);
      Regroup(now, ChatMessages(front[1..]), if last.ChatTurn? then last.messages else []);
    }
  }

  lemma {:induction false} OwedIsLedger(codec: Codec, messages: seq<Json>, owed: multiset<string>)
    requires Collect(MessageReader(codec), messages).Success?
    ensures Ledger(ChatMessages(Collect(MessageReader(codec), messages).value), owed) == Owed(messages, owed)
  {
    if messages != [] {
      var read := MessageReader(codec);
      CollectTail(read, messages);
      var turns := Collect(read, messages).value;
      ChatMessagesCons(turns);
      assert turns[1..] == Collect(read, messages[1..]).value;
      TurnOwes(codec, messages[0], owed);
      var now := if turns[0].ChatTurn? then turns[0].messages else [];
      LedgerAppend(now, ChatMessages(turns[1..]), owed);
      if OweNext(owed, messages[0]).Some? {
        OwedIsLedger(codec, messages[1..], OweNext(owed, messages[0]).value);
      }
    }
  }

  lemma TurnOwes(codec: Codec, message: Json, owed: multiset<string>)
    requires ReadMessage(codec, message).Success?
    ensures var turn := ReadMessage(codec, message).value;
            Ledger(if turn.ChatTurn? then turn.messages else [], owed) == OweNext(owed, message)
  {
    if Role(message) == "user" {
      UserTurnOwes(codec, message, owed);
    } else if Role(message) == "assistant" {
      AssistantTurnOwes(codec, message, owed);
    }
  }

  /**
   * The translated list keeps the tool-call protocol exactly when the Anthropic history settles
   * every tool use: ids are read off the input blocks, not off the translation.
   */
  lemma AdjacencyIsExact(codec: Codec, publicModel: string, request: Json)
    requires Translate(codec, publicModel, request).Success?
    ensures Adjacent(Translate(codec, publicModel, request).value.messages)
            <==> Settled(InputMessages(request).value)
  {
    var messages := InputMessages(request).value;
    var all := Gather(codec, TopSystem(Get(request, "system")).value, messages).value;
    var out := Leading(all.system) + all.chat;
    OwedIsLedger(codec, messages, multiset{});
    LedgerAppend(Leading(all.system), all.chat, multiset{});
    if all.system != [] {
      LedgerOne(Leading(all.system)[0], multiset{});
    }
    LedgerIsAdjacency(out, multiset{});
    assert multiset(Run(out)) == multiset{} <==> Run(out) == [];
  }

  // ---------------------------------------------------------------- the protocol as clients follow it

  /** Not system-role, and not empty of everything but thinking. */
  predicate IsShown(message: Json) {
    || (Role(message) == "user" && (Speaks(message) || ResultIds(message) != []))
    || (Role(message) == "assistant" && Replies(message))
  }

  /** The messages that reach the chat list. */
  function Shown(messages: seq<Json>): seq<Json> {
    if messages == [] then []
    else
      var m := messages[0];
      (if IsShown(m) then [m] else []) + Shown(messages[1..])
  }

  predicate Calling(message: Json) {
    Role(message) == "assistant" && Replies(message) && UseIds(message) != []
  }

  /** Each turn with tool uses is followed by a user turn that answers exactly them; no other turn answers. */
  ghost predicate TurnByTurn(shown: seq<Json>) {
    && (forall i :: 0 <= i < |shown| && Calling(shown[i]) ==>
          && i + 1 < |shown| && Role(shown[i + 1]) == "user"
          && multiset(ResultIds(shown[i + 1])) == multiset(UseIds(shown[i])))
    && (forall i :: 0 <= i < |shown| && Role(shown[i]) == "user" && ResultIds(shown[i]) != [] ==>
          i > 0 && Calling(shown[i - 1]))
  }

  lemma {:induction false} ShownOwes(messages: seq<Json>, owed: multiset<string>)
    ensures Owed(Shown(messages), owed) == Owed(messages, owed)
  {
    if messages != [] {
      var m, rest := messages[0], messages[1..];
      if IsShown(m) {
        assert Shown(messages)[1..] == Shown(rest);
      } else {
        assert owed - multiset{} == owed;
        assert OweNext(owed, m) == Some(owed);
        assert [] + Shown(rest) == Shown(rest);
      }
      if OweNext(owed, m).Some? {
        ShownOwes(rest, OweNext(owed, m).value);
      }
    }
  }

  lemma TurnByTurnTail(shown: seq<Json>, n: nat)
    requires TurnByTurn(shown) && 0 < n <= |shown| && !Calling(shown[n - 1])
    ensures TurnByTurn(shown[n..])
  {
    var rest := shown[n..];
    assert forall i :: 0 <= i < |rest| ==> rest[i] == shown[i + n];
    forall i | 0 <= i < |rest| && Calling(rest[i])
      ensures i + 1 < |rest| && Role(rest[i + 1]) == "user" && multiset(ResultIds(rest[i + 1])) == multiset(UseIds(rest[i]))
    {
      assert Calling(shown[i + n]);
    }
    forall i | 0 <= i < |rest| && Role(rest[i]) == "user" && ResultIds(rest[i]) != []
      ensures i > 0 && Calling(rest[i - 1])
    {
      assert Calling(shown[i + n - 1]);
    }
  }

  lemma {:induction false} TurnByTurnSettles(shown: seq<Json>)
    requires TurnByTurn(shown)
    ensures Settled(shown)
    decreases |shown|
  {
    if shown != [] {
      var m := shown[0];
      if Calling(m) {
        var ids := multiset(UseIds(m));
        assert OweNext(multiset{}, m) == Some(ids);
        assert OweNext(ids, shown[1]) == Some(multiset{}) by {
          assert ids - ids == multiset{};
        }
        TurnByTurnTail(shown, 2);
        TurnByTurnSettles(shown[2..]);
        assert shown[1..][1..] == shown[2..];
      } else {
        assert OweNext(multiset{}, m) == Some(multiset{});
        TurnByTurnTail(shown, 1);
        TurnByTurnSettles(shown[1..]);
      }
    }
  }

  /** System-role messages and thinking-only turns in between do not matter. */
  lemma TurnByTurnIsAdjacent(codec: Codec, publicModel: string, request: Json)
    requires Translate(codec, publicModel, request).Success?
    requires TurnByTurn(Shown(InputMessages(request).value))
    ensures Adjacent(Translate(codec, publicModel, request).value.messages)
  {
    var messages := InputMessages(request).value;
    TurnByTurnSettles(Shown(messages));
    ShownOwes(messages, multiset{});
    AdjacencyIsExact(codec, publicModel, request);
  }

  // ---------------------------------------------------------------- the system message

  lemma {:induction false} NoSystemInChat(codec: Codec, messages: seq<Json>)
    requires Collect(MessageReader(codec), messages).Success?
    ensures forall m :: m in ChatMessages(Collect(MessageReader(codec), messages).value) ==> !m.System?
  {
    if messages != [] {
      var last := messages[|messages| - 1];
      NoSystemInChat(codec, messages[..|messages| - 1]);
      if Role(last) == "user" {
        var answers, said := UserTurnShape(codec, last);
      } else if Role(last) == "assistant" {
        AssistantTurnShape(codec, last);
      }
    }
  }

  /** Texts of the system-role messages and of the top-level field that are not blank, in order. */
  function SystemInput(request: Json): seq<string> {
    var top := GetOr(Get(request, "system"), Null);
    (if top.Null? then [] else SystemText(top)) + SystemRoleTexts(GetOr(InputMessages(request), []))
  }

  /** A system text, if it is not blank. */
  function SystemText(content: Json): seq<string> {
    var text := SystemContent(content);
    if text.Success? && Trim(text.value) != "" then [text.value] else []
  }

  function SystemRoleTexts(messages: seq<Json>): seq<string> {
    if messages == [] then []
    else
      var last := messages[|messages| - 1];
      SystemRoleTexts(messages[..|messages| - 1])
      + (if Get(last, "role") == Some(Str("system")) && Get(last, "content").Some? then SystemText(Get(last, "content").value) else [])
  }

  lemma {:induction false} SystemTextsAreInput(codec: Codec, messages: seq<Json>)
    requires Collect(MessageReader(codec), messages).Success?
    ensures SystemTexts(Collect(MessageReader(codec), messages).value) == SystemRoleTexts(messages)
  {
    if messages != [] {
      SystemTextsAreInput(codec, messages[..|messages| - 1]);
    }
  }

  /** All system text moves into one message, which is first; without any there is none. */
  lemma OneLeadingSystem(codec: Codec, publicModel: string, request: Json)
    requires Translate(codec, publicModel, request).Success?
    ensures var out, texts := Translate(codec, publicModel, request).value.messages, SystemInput(request);
            && out != []
            && (forall i :: 0 < i < |out| ==> !out[i].System?)
            && (out[0].System? <==> texts != [])
            && (texts != [] ==> out[0] == System(Join(texts)))
  {
    var messages := InputMessages(request).value;
    NoSystemInChat(codec, messages);
    SystemTextsAreInput(codec, messages);
    var all := Gather(codec, TopSystem(Get(request, "system")).value, messages).value;
    assert all.chat[0] in all.chat;
    var out := Leading(all.system) + all.chat;
    forall i | 0 < i < |out| ensures !out[i].System? {
      assert out[i] in all.chat;
    }
  }
}
