/**
 * Every way of cutting one answer into delta frames: pieces of reasoning, of text and of tool
 * arguments in any lengths, the fragments of several tool calls interleaved in any order; or one
 * call in the legacy `function_call` form.
 */
module Cuts {
  import opened Common
  import opened Json
  import opened Bridge
  import opened Response
  import opened Translator
  import opened ToolFragments
  import opened Client
  import opened Refinement
  import opened Chunking
  import SdkReader
  import EndToEnd

  datatype Piece =
    | Thought(text: string)
    | Words(text: string)
    | OpenCall(id: string, name: string)
    | Arguments(slot: nat, text: string)
    | OpenLegacy(name: string)
    | LegacyArguments(text: string)

  datatype WholeCall = WholeCall(id: string, name: string, arguments: string)

  /** The answer the pieces add up to; a legacy call is its only call and has no id. */
  datatype Answer = Answer(thought: string, text: string, calls: seq<WholeCall>, legacy: bool)

  const NO_ANSWER := Answer("", "", [], false)

  function Lengthen(calls: seq<WholeCall>, slot: nat, text: string): (r: seq<WholeCall>)
    requires slot < |calls|
    ensures |r| == |calls|
  {
    calls[slot := calls[slot].(arguments := calls[slot].arguments + text)]
  }

  function Add(a: Answer, p: Piece): Answer {
    match p
    case Thought(text) => a.(thought := a.thought + text)
    case Words(text) => a.(text := a.text + text)
    case OpenCall(id, name) => a.(calls := a.calls + [WholeCall(id, name, "")])
    case Arguments(slot, text) => if slot < |a.calls| then a.(calls := Lengthen(a.calls, slot, text)) else a
    case OpenLegacy(name) => a.(calls := a.calls + [WholeCall("", name, "")], legacy := true)
    case LegacyArguments(text) => if 0 < |a.calls| then a.(calls := Lengthen(a.calls, 0, text)) else a
  }

  function AddUp(ps: seq<Piece>): Answer {
    if ps == [] then NO_ANSWER else Add(AddUp(ps[..|ps| - 1]), ps[|ps| - 1])
  }

  /** Reasoning comes before text, and arguments after the call they belong to was opened. */
  predicate MayAdd(a: Answer, p: Piece) {
    match p
    case Thought(_) => a.text == ""
    case Words(_) => true
    case OpenCall(_, _) => !a.legacy && |a.calls| < U64_BOUND
    case Arguments(slot, _) => !a.legacy && slot < |a.calls| && slot < U64_BOUND
    case OpenLegacy(_) => a.calls == []
    case LegacyArguments(_) => a.legacy
  }

  predicate Legal(ps: seq<Piece>) {
    ps == [] || (Legal(ps[..|ps| - 1]) && MayAdd(AddUp(ps[..|ps| - 1]), ps[|ps| - 1]))
  }

  predicate Proper(a: Answer) {
    a.legacy ==> |a.calls| == 1 && a.calls[0].id == ""
  }

  lemma {:induction false} LegalIsProper(ps: seq<Piece>)
    requires Legal(ps)
    ensures Proper(AddUp(ps))
    decreases |ps|
  {
    if ps != [] {
      LegalIsProper(ps[..|ps| - 1]);
    }
  }

  // ---------------------------------------------------------------- as frames

  function CallDelta(call: Fields): Fields {
    map["tool_calls" := Arr([Obj(call)])]
  }

  function OpenFields(slot: nat, id: string, name: string): Fields {
    map["index" := Int(slot), "id" := Str(id),
        "function" := Obj(map["name" := Str(name), "arguments" := Str("")])]
  }

  function ArgumentFields(slot: nat, text: string): Fields {
    map["index" := Int(slot), "function" := Obj(map["arguments" := Str(text)])]
  }

  function LegacyFields(name: string, text: string): Fields {
    map["name" := Str(name), "arguments" := Str(text)]
  }

  function LegacyDelta(call: Fields): Fields {
    map["function_call" := Obj(call)]
  }

  function DeltaFor(a: Answer, p: Piece): Fields {
    match p
    case Thought(text) => map["reasoning_content" := Str(text)]
    case Words(text) => map["content" := Str(text)]
    case OpenCall(id, name) => CallDelta(OpenFields(|a.calls|, id, name))
    case Arguments(slot, text) => CallDelta(ArgumentFields(slot, text))
    case OpenLegacy(name) => LegacyDelta(LegacyFields(name, ""))
    case LegacyArguments(text) => LegacyDelta(map["arguments" := Str(text)])
  }

  function DeltaFrame(id: string, delta: Fields): Json {
    Obj(map["id" := Str(id), "choices" := Arr([Obj(map["delta" := Obj(delta)])])])
  }

  function WithFinish(choice: Fields, finish: Option<string>): Fields {
    if finish.Some? then choice["finish_reason" := Str(finish.value)] else choice
  }

  function UsageField(output: nat): Json {
    Obj(map["completion_tokens" := Int(output)])
  }

  function LastFrame(finish: Option<string>, output: nat): Json {
    Obj(map["choices" := Arr([Obj(WithFinish(map["delta" := Obj(map[])], finish))]), "usage" := UsageField(output)])
  }

  /** An opening frame with the id, then one frame a piece. */
  function PieceFrames(id: string, ps: seq<Piece>): seq<Json> {
    if ps == [] then [DeltaFrame(id, map[])]
    else
      var front := ps[..|ps| - 1];
      PieceFrames(id, front) + [DeltaFrame(id, DeltaFor(AddUp(front), ps[|ps| - 1]))]
  }

  function StreamOf(id: string, ps: seq<Piece>, finish: Option<string>, output: nat): seq<Json> {
    PieceFrames(id, ps) + [LastFrame(finish, output)]
  }

  // ---------------------------------------------------------------- as one body

  function WholeCallJson(c: WholeCall): Json {
    Obj(map["id" := Str(c.id), "type" := Str("function"),
            "function" := Obj(map["name" := Str(c.name), "arguments" := Str(c.arguments)])])
  }

  function CallsJson(calls: seq<WholeCall>): (r: seq<Json>)
    ensures |r| == |calls| && forall i :: 0 <= i < |r| ==> r[i] == WholeCallJson(calls[i])
  {
    seq(|calls|, i requires 0 <= i < |calls| => WholeCallJson(calls[i]))
  }

  /** Keys with nothing to say are null, as upstreams send them. */
  function MessageFields(a: Answer): Fields {
    map["role" := Str("assistant"), "reasoning_content" := Str(a.thought), "content" := Str(a.text),
        "refusal" := Null,
        "tool_calls" := if a.legacy || a.calls == [] then Null else Arr(CallsJson(a.calls)),
        "function_call" := if a.legacy && a.calls != [] then Obj(LegacyFields(a.calls[0].name, a.calls[0].arguments)) else Null]
  }

  function BodyOf(id: string, a: Answer, finish: Option<string>, output: nat): Json {
    Obj(map["id" := Str(id), "choices" := Arr([Obj(WithFinish(map["message" := Obj(MessageFields(a))], finish))]),
            "usage" := UsageField(output)])
  }

  // ---------------------------------------------------------------- one frame

  lemma DeltaFrameFacts(id: string, delta: Fields)
    ensures var f := DeltaFrame(id, delta);
            && Accepted(f) && FrameDelta(f) == Some(delta) && FrameId(f) == NonEmpty(Some(id))
            && FrameFinish(f).None? && UsageFrom(f).1 == 0
  {
    var f := DeltaFrame(id, delta);
    var choice: Fields := map["delta" := Obj(delta)];
    assert f.fields["choices"] == Arr([Obj(choice)]) && f.fields["id"] == Str(id);
    assert Choice(f.fields) == Some(choice) && choice["delta"] == Obj(delta);
  }

  lemma LastFrameFacts(finish: Option<string>, output: nat)
    requires output < U64_BOUND
    ensures var f := LastFrame(finish, output);
            && Accepted(f) && FrameDelta(f) == Some(map[]) && FrameId(f).None?
            && FrameFinish(f) == finish && UsageFrom(f).1 == output
            && FrameThought(f) == "" && FrameText(f) == "" && FrameFragments(f) == []
  {
    assert Fragments(map[]) == [] by {
      assert CallFragments([], 0) + [] == [];
    }
    var f := LastFrame(finish, output);
    var choice := WithFinish(map["delta" := Obj(map[])], finish);
    assert f.fields["choices"] == Arr([Obj(choice)]) && f.fields["usage"] == UsageField(output);
    assert Choice(f.fields) == Some(choice) && choice["delta"] == Obj(map[]);
    assert UsageField(output).fields["completion_tokens"] == Int(output);
  }

  /** What the fragment of one frame is. */
  lemma OneFragment(slot: nat, call: Fields)
    requires slot < U64_BOUND && At(call, "index") == Some(Int(slot))
    ensures Fragments(CallDelta(call)) == [Call(slot, call)]
  {
    var calls := [Obj(call)];
    assert CallDelta(call)["tool_calls"] == Arr(calls);
    assert CallFragments(calls, 0) == [];
    assert CallFragments(calls, 1) == [] + [Call(slot, call)];
    assert CallFragments(calls, 1) + [] == [Call(slot, call)];
  }

  function FragmentsFor(a: Answer, p: Piece): seq<Fragment> {
    match p
    case Thought(_) => []
    case Words(_) => []
    case OpenCall(id, name) => [Call(|a.calls|, OpenFields(|a.calls|, id, name))]
    case Arguments(slot, text) => [Call(slot, ArgumentFields(slot, text))]
    case OpenLegacy(name) => [Legacy(LegacyFields(name, ""))]
    case LegacyArguments(text) => [Legacy(map["arguments" := Str(text)])]
  }

  lemma OneLegacyFragment(call: Fields)
    ensures Fragments(LegacyDelta(call)) == [Legacy(call)]
  {
    assert LegacyDelta(call)["function_call"] == Obj(call);
    assert CallFragments([], 0) + [Legacy(call)] == [Legacy(call)];
  }

  lemma PieceFacts(a: Answer, p: Piece)
    requires MayAdd(a, p)
    ensures var d := DeltaFor(a, p);
            && Fragments(d) == FragmentsFor(a, p)
            && Reasoning(d) == (if p.Thought? then p.text else "")
            && At(d, "content") == (if p.Words? then Some(Str(p.text)) else None)
  {
    match p
    case Thought(_) => assert CallFragments([], 0) + [] == [];
    case Words(_) => assert CallFragments([], 0) + [] == [];
    case OpenCall(id, name) => OneFragment(|a.calls|, OpenFields(|a.calls|, id, name));
    case Arguments(slot, text) => OneFragment(slot, ArgumentFields(slot, text));
    case OpenLegacy(name) => OneLegacyFragment(LegacyFields(name, ""));
    case LegacyArguments(text) => OneLegacyFragment(map["arguments" := Str(text)]);
  }

  // ---------------------------------------------------------------- the stream so far

  function ToolOf(c: WholeCall): Tool {
    Tool(NonEmpty(Some(c.id)), NonEmpty(Some(c.name)), c.arguments)
  }

  /** The fragments so far build the calls so far. */
  ghost predicate Builds(codec: Codec, fs: seq<Fragment>, calls: seq<WholeCall>) {
    && (forall f :: f in fs ==> Slot(f) < |calls|)
    && (forall k :: 0 <= k < |calls| ==> ForSlot(fs, k) != [] && AbsorbAll(codec, ForSlot(fs, k)) == ToolOf(calls[k]))
  }

  lemma SlotSnoc(codec: Codec, fs: seq<Fragment>, f: Fragment, k: nat)
    ensures k != Slot(f) ==> ForSlot(fs + [f], k) == ForSlot(fs, k)
    ensures k == Slot(f) ==> ForSlot(fs + [f], k) == ForSlot(fs, k) + [f]
    ensures k == Slot(f) ==> AbsorbAll(codec, ForSlot(fs + [f], k)) == Absorb(codec, AbsorbAll(codec, ForSlot(fs, k)), f)
  {
    assert (fs + [f])[..|fs|] == fs;
    var own := ForSlot(fs, k);
    assert (own + [f])[..|own|] == own;
  }

  lemma {:induction false} NoneForSlot(fs: seq<Fragment>, k: nat)
    requires forall f :: f in fs ==> Slot(f) != k
    ensures ForSlot(fs, k) == []
    decreases |fs|
  {
    if fs != [] {
      NoneForSlot(fs[..|fs| - 1], k);
      assert fs[|fs| - 1] in fs;
    }
  }

  lemma OpenAbsorbed(codec: Codec, slot: nat, id: string, name: string)
    ensures Absorb(codec, NEW_TOOL, Call(slot, OpenFields(slot, id, name))) == ToolOf(WholeCall(id, name, ""))
    ensures Absorb(codec, NEW_TOOL, Legacy(LegacyFields(name, ""))) == ToolOf(WholeCall("", name, ""))
  {
    var call := OpenFields(slot, id, name);
    var body := LegacyFields(name, "");
    assert call["id"] == Str(id) && call["function"] == Obj(body);
    assert body["name"] == Str(name) && body["arguments"] == Str("");
    assert "" + "" == "";
  }

  lemma ArgumentsAbsorbed(codec: Codec, slot: nat, c: WholeCall, text: string)
    ensures Absorb(codec, ToolOf(c), Call(slot, ArgumentFields(slot, text))) == ToolOf(c.(arguments := c.arguments + text))
    ensures Absorb(codec, ToolOf(c), Legacy(map["arguments" := Str(text)])) == ToolOf(c.(arguments := c.arguments + text))
  {
    var call := ArgumentFields(slot, text);
    var body: Fields := map["arguments" := Str(text)];
    assert call["function"] == Obj(body) && body["arguments"] == Str(text);
  }

  /** A fragment that opens the next slot. */
  lemma OpenBuilds(codec: Codec, fs: seq<Fragment>, calls: seq<WholeCall>, f: Fragment, c: WholeCall)
    requires Builds(codec, fs, calls) && Slot(f) == |calls| && Absorb(codec, NEW_TOOL, f) == ToolOf(c)
    ensures Builds(codec, fs + [f], calls + [c])
  {
    var more := calls + [c];
    NoneForSlot(fs, |calls|);
    assert AbsorbAll(codec, []) == NEW_TOOL;
    hide Absorb, ToolOf, ForSlot, AbsorbAll;
    forall k | 0 <= k < |more|
      ensures ForSlot(fs + [f], k) != [] && AbsorbAll(codec, ForSlot(fs + [f], k)) == ToolOf(more[k])
    {
      SlotSnoc(codec, fs, f, k);
    }
  }

  /** A fragment that adds to an open slot. */
  lemma ArgumentsBuild(codec: Codec, fs: seq<Fragment>, calls: seq<WholeCall>, f: Fragment, text: string)
    requires Builds(codec, fs, calls) && Slot(f) < |calls|
    requires Absorb(codec, ToolOf(calls[Slot(f)]), f) == ToolOf(Lengthen(calls, Slot(f), text)[Slot(f)])
    ensures Builds(codec, fs + [f], Lengthen(calls, Slot(f), text))
  {
    var more := Lengthen(calls, Slot(f), text);
    hide Absorb, ToolOf, ForSlot, AbsorbAll;
    forall k | 0 <= k < |more|
      ensures ForSlot(fs + [f], k) != [] && AbsorbAll(codec, ForSlot(fs + [f], k)) == ToolOf(more[k])
    {
      SlotSnoc(codec, fs, f, k);
    }
  }

  lemma PieceBuilds(codec: Codec, fs: seq<Fragment>, a: Answer, p: Piece)
    requires Builds(codec, fs, a.calls) && MayAdd(a, p) && Proper(a)
    ensures Builds(codec, fs + FragmentsFor(a, p), Add(a, p).calls)
  {
    hide Builds, Absorb, ToolOf, OpenFields, ArgumentFields, LegacyFields;
    match p
    case Thought(_) => assert fs + [] == fs;
    case Words(_) => assert fs + [] == fs;
    case OpenCall(id, name) =>
      OpenAbsorbed(codec, |a.calls|, id, name);
      OpenBuilds(codec, fs, a.calls, FragmentsFor(a, p)[0], WholeCall(id, name, ""));
    case Arguments(slot, text) =>
      ArgumentsAbsorbed(codec, slot, a.calls[slot], text);
      ArgumentsBuild(codec, fs, a.calls, FragmentsFor(a, p)[0], text);
    case OpenLegacy(name) =>
      OpenAbsorbed(codec, 0, "", name);
      OpenBuilds(codec, fs, a.calls, FragmentsFor(a, p)[0], WholeCall("", name, ""));
    case LegacyArguments(text) =>
      ArgumentsAbsorbed(codec, 0, a.calls[0], text);
      ArgumentsBuild(codec, fs, a.calls, FragmentsFor(a, p)[0], text);
  }

  /** The frames so far are in the domain and have told exactly the answer so far. */
  ghost predicate Tells(codec: Codec, frames: seq<Json>, id: string, a: Answer) {
    && StreamDomain(frames)
    && Told(frames) == Digest(NonEmpty(Some(id)), a.thought, a.text, None, 0)
    && Builds(codec, StreamFragments(frames), a.calls)
  }

  lemma OneMoreFrame(frames: seq<Json>, frame: Json)
    requires StreamDomain(frames) && Accepted(frame) && MayFollow(Told(frames), frame)
    ensures StreamDomain(frames + [frame])
    ensures Told(frames + [frame]) == Fold(Told(frames), frame)
    ensures StreamFragments(frames + [frame]) == StreamFragments(frames) + FrameFragments(frame)
  {
    assert (frames + [frame])[..|frames|] == frames;
  }

  lemma OpeningTells(codec: Codec, id: string)
    ensures Tells(codec, [DeltaFrame(id, map[])], id, NO_ANSWER)
  {
    var f := DeltaFrame(id, map[]);
    DeltaFrameFacts(id, map[]);
    assert Fragments(map[]) == [] by {
      assert CallFragments([], 0) + [] == [];
    }
    hide DeltaFrame, FrameDelta, FrameId, FrameFinish, UsageFrom, Fragments;
    assert StreamDomain([]) && StreamFragments([]) == [] && Told([]) == NO_DIGEST;
    OneMoreFrame([], f);
    assert [] + [f] == [f];
  }

  lemma PieceMayFollow(id: string, a: Answer, p: Piece, f: Json)
    requires MayAdd(a, p) && f == DeltaFrame(id, DeltaFor(a, p))
    ensures Accepted(f) && MayFollow(Digest(NonEmpty(Some(id)), a.thought, a.text, None, 0), f)
  {
    DeltaFrameFacts(id, DeltaFor(a, p));
    PieceFacts(a, p);
    hide DeltaFrame, DeltaFor, FrameDelta, FrameId, FrameFinish, UsageFrom, Fragments, Reasoning;
  }

  lemma PieceTells(codec: Codec, frames: seq<Json>, id: string, a: Answer, p: Piece)
    requires Tells(codec, frames, id, a) && MayAdd(a, p) && Proper(a)
    ensures Tells(codec, frames + [DeltaFrame(id, DeltaFor(a, p))], id, Add(a, p))
  {
    var d := DeltaFor(a, p);
    var f := DeltaFrame(id, d);
    DeltaFrameFacts(id, d);
    PieceFacts(a, p);
    PieceMayFollow(id, a, p, f);
    hide DeltaFrame, DeltaFor, FrameDelta, FrameId, FrameFinish, UsageFrom, Fragments, Builds, Reasoning, StreamDomain, Told, StreamFragments;
    hide MayFollow, Proper, MayAdd;
    assert a.thought + "" == a.thought && a.text + "" == a.text;
    OneMoreFrame(frames, f);
    PieceBuilds(codec, StreamFragments(frames), a, p);
  }

  lemma {:induction false} PiecesTell(codec: Codec, id: string, ps: seq<Piece>)
    requires Legal(ps)
    ensures Tells(codec, PieceFrames(id, ps), id, AddUp(ps))
    decreases |ps|
  {
    if ps == [] {
      OpeningTells(codec, id);
    } else {
      var front, last := ps[..|ps| - 1], ps[|ps| - 1];
      hide Tells, Add, MayAdd, DeltaFrame, DeltaFor;
      PiecesTell(codec, id, front);
      LegalIsProper(front);
      PieceTells(codec, PieceFrames(id, front), id, AddUp(front), last);
    }
  }

  // ---------------------------------------------------------------- the whole stream and the whole body

  lemma StreamTold(codec: Codec, id: string, ps: seq<Piece>, finish: Option<string>, output: nat)
    requires Legal(ps) && output < U64_BOUND
    ensures var frames, a := StreamOf(id, ps, finish, output), AddUp(ps);
            && StreamDomain(frames)
            && Told(frames) == Digest(NonEmpty(Some(id)), a.thought, a.text, finish, output)
            && Builds(codec, StreamFragments(frames), a.calls)
  {
    var frames, a, last := PieceFrames(id, ps), AddUp(ps), LastFrame(finish, output);
    PiecesTell(codec, id, ps);
    LastFrameFacts(finish, output);
    hide FrameThought, FrameText, FrameFragments, LastFrame, PieceFrames, AddUp, Accepted, FrameDelta, FrameId, FrameFinish, UsageFrom, Fragments, Builds, StreamDomain, Told, StreamFragments;
    assert a.thought + "" == a.thought && a.text + "" == a.text;
    OneMoreFrame(frames, last);
    assert StreamFragments(frames) + [] == StreamFragments(frames);
  }

  lemma BodyFacts(id: string, a: Answer, finish: Option<string>, output: nat)
    requires output < U64_BOUND
    ensures var body := BodyOf(id, a, finish, output);
            && body.Obj? && "error" !in body.fields && Choice(body.fields).Some?
            && StrAt(body.fields, "id") == Some(id) && UsageFrom(body).1 == output
            && var choice := Choice(body.fields).value;
            && StrAt(choice, "finish_reason") == finish
            && ObjAt(choice, "message") == Some(MessageFields(a))
  {
    var body := BodyOf(id, a, finish, output);
    var choice := WithFinish(map["message" := Obj(MessageFields(a))], finish);
    assert body.fields["choices"] == Arr([Obj(choice)]) && body.fields["id"] == Str(id);
    assert body.fields["usage"] == UsageField(output);
    assert UsageField(output).fields["completion_tokens"] == Int(output);
    assert Choice(body.fields) == Some(choice) && choice["message"] == Obj(MessageFields(a));
    hide MessageFields;
  }

  lemma BodyInDomain(codec: Codec, id: string, a: Answer, finish: Option<string>, output: nat)
    requires output < U64_BOUND && Proper(a)
    ensures WholeDomain(codec, BodyOf(id, a, finish, output))
  {
    BodyFacts(id, a, finish, output);
    MessageFacts(codec, a);
    hide BodyOf, MessageFields, CallsIn, PlainCall, CallTool, Choice, UsageFrom, Reasoning;
  }

  lemma MessageFacts(codec: Codec, a: Answer)
    requires Proper(a)
    ensures var m := MessageFields(a);
            && At(m, "content") == Some(Str(a.text)) && StrAt(m, "content") == Some(a.text) && Reasoning(m) == a.thought && "reasoning_content" in m
            && |CallsIn(m)| == |a.calls|
            && forall i :: 0 <= i < |a.calls| ==>
                 PlainCall(codec, CallsIn(m)[i]) && CallTool(codec, CallsIn(m)[i]) == ToolOf(a.calls[i])
  {
    var m := MessageFields(a);
    assert m["content"] == Str(a.text) && m["reasoning_content"] == Str(a.thought);
    MessageCalls(a);
    hide MessageFields, CallsIn, CallTool, PlainCall, ToolOf, WholeCallJson;
    forall i | 0 <= i < |a.calls|
      ensures PlainCall(codec, CallsIn(m)[i]) && CallTool(codec, CallsIn(m)[i]) == ToolOf(a.calls[i])
    {
      CallFacts(codec, a.calls[i]);
    }
  }

  function LegacyJson(c: WholeCall): Json {
    Obj(LegacyCall(LegacyFields(c.name, c.arguments)))
  }

  lemma MessageCalls(a: Answer)
    requires Proper(a)
    ensures CallsIn(MessageFields(a)) == if a.legacy then [LegacyJson(a.calls[0])] else CallsJson(a.calls)
  {
    var m := MessageFields(a);
    assert m["tool_calls"] == if a.legacy || a.calls == [] then Null else Arr(CallsJson(a.calls));
    if a.legacy {
      assert m["function_call"] == Obj(LegacyFields(a.calls[0].name, a.calls[0].arguments));
    } else {
      assert m["function_call"] == Null;
      assert a.calls == [] ==> CallsJson(a.calls) == [];
    }
  }

  lemma CallFacts(codec: Codec, c: WholeCall)
    ensures PlainCall(codec, WholeCallJson(c)) && CallTool(codec, WholeCallJson(c)) == ToolOf(c)
    ensures PlainCall(codec, LegacyJson(c))
    ensures c.id == "" ==> CallTool(codec, LegacyJson(c)) == ToolOf(c)
  {
    var call := WholeCallJson(c);
    var body := LegacyFields(c.name, c.arguments);
    assert call.fields["function"] == Obj(body) && call.fields["id"] == Str(c.id);
    assert body["name"] == Str(c.name) && body["arguments"] == Str(c.arguments);
    assert LegacyCall(body)["function"] == Obj(body);
    assert "" + c.arguments == c.arguments;
  }

  lemma BuildsCarry(codec: Codec, fs: seq<Fragment>, a: Answer)
    requires Proper(a) && Builds(codec, fs, a.calls)
    ensures AllPlain(codec, CallsIn(MessageFields(a))) && Carry(codec, fs, CallsIn(MessageFields(a)))
  {
    MessageFacts(codec, a);
    hide MessageFields, CallsIn, PlainCall, CallTool, ToolOf, ForSlot, AbsorbAll;
  }

  /** The stream and the body carry the same answer. */
  lemma CutCarriesAnswer(codec: Codec, id: string, ps: seq<Piece>, finish: Option<string>, output: nat)
    requires Legal(ps) && output < U64_BOUND
    ensures var frames, body := StreamOf(id, ps, finish, output), BodyOf(id, AddUp(ps), finish, output);
            StreamDomain(frames) && WholeDomain(codec, body) && SameAnswer(codec, frames, body)
  {
    var a := AddUp(ps);
    LegalIsProper(ps);
    StreamTold(codec, id, ps, finish, output);
    BodyFacts(id, a, finish, output);
    BodyInDomain(codec, id, a, finish, output);
    MessageFacts(codec, a);
    BuildsCarry(codec, StreamFragments(StreamOf(id, ps, finish, output)), a);
    hide Builds, Carry, AllPlain, Proper, StrAt, ObjAt, At, StreamOf, BodyOf, MessageFields, WholeDomain, StreamDomain, Told, UsageFrom, Reasoning, PlainCall, CallTool, ToolOf, StreamFragments, ForSlot, AbsorbAll, AddUp, Choice, CallsIn;
  }

  /**
   * However an answer is cut, the client of the stream assembles the message that the non-stream
   * translation makes of the whole, and one fails exactly when the other does.
   */
  lemma EveryCutRefines(env: Env, id: string, ps: seq<Piece>, finish: Option<string>, output: nat)
    requires env.codec.RoundTrips() && Legal(ps) && output < U64_BOUND
    ensures var whole := MessageOf(env, BodyOf(id, AddUp(ps), finish, output));
            var seen := Assemble(env.codec, StreamEnd(env, StreamOf(id, ps, finish, output)).trace);
            && (whole.Failure? <==> seen.None?)
            && (whole.Success? ==> SameButEstimate(seen, whole.value))
  {
    CutCarriesAnswer(env.codec, id, ps, finish, output);
    hide *;
    StreamingRefinesWhole(env, StreamOf(id, ps, finish, output), BodyOf(id, AddUp(ps), finish, output));
  }

  /** The same from upstream bytes that spell the frames, in any chunks, to the SDK's user. */
  lemma EveryCutDelivers(env: Env, utf8: SdkReader.Utf8, id: string, ps: seq<Piece>, finish: Option<string>,
                                            output: nat, chunks: seq<Bytes>)
    requires env.codec.RoundTrips() && SdkReader.OneLine(env.codec) && utf8.Lawful() && KeepsLines(env)
    requires Legal(ps) && output < U64_BOUND
    requires EndToEnd.Wire(env, Flatten(chunks), StreamOf(id, ps, finish, output))
    ensures var sent := Finish(env, FeedAll(env, NEW_SESSION, chunks)).st;
            && sent.finished
            && EndToEnd.Delivers(env.codec,
                                 SdkReader.ReadEvents(env.codec, utf8, SdkReader.Print(env.codec, utf8, sent.trace)),
                                 MessageOf(env, BodyOf(id, AddUp(ps), finish, output)))
  {
    CutCarriesAnswer(env.codec, id, ps, finish, output);
    hide *;
    EndToEnd.BytesRefineWhole(env, utf8, StreamOf(id, ps, finish, output), BodyOf(id, AddUp(ps), finish, output), chunks);
  }
}
