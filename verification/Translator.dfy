/**
 The SSE translator as a state machine on values (src/bridge/stream.rs).

 `State` holds the fields of the translator plus `trace`: every event sent to
 the client so far. One call's output is what it adds to the trace. `Session`
 adds the bytes of the line that has not been completed yet.
 */
module Translator {
  import opened Common
  import opened Json
  import opened Bridge
  import opened Response

  const LINE_LIMIT: nat := 1024 * 1024

  datatype Tool = Tool(id: Option<string>, name: Option<string>, arguments: string)

  const NEW_TOOL := Tool(None, None, "")

  datatype OpenBlock = NoBlock | OpenText(index: nat) | OpenThinking(index: nat, text: string)

  datatype State = State(
    started: bool,
    finished: bool,
    upstreamId: Option<string>,
    nextIndex: nat,
    open: OpenBlock,
    tools: map<nat, Tool>,
    finishReason: Option<string>,
    usageInput: nat,
    usageOutput: nat,
    emittedBlock: bool,
    error: Option<BridgeError>,
    trace: seq<Event>)

  const INITIAL :=
    State(false, false, None, 0, NoBlock, map[], None, 0, 0, false, None, [])

  datatype Session = Session(buffer: Bytes, st: State)

  const NEW_SESSION := Session([], INITIAL)

  /** A state together with the error that stopped the step, if one did. */
  datatype Outcome = Outcome(st: State, error: Option<BridgeError>)

  function Send(s: State, e: Event): State {
    s.(trace := s.trace + [e])
  }

  // ---------------------------------------------------------------- blocks

  function EnsureStarted(env: Env, s: State): State {
    if s.started then s
    else
      Send(s.(started := true),
           MessageStart(MessageId(env.ctx.requestId, s.upstreamId), env.ctx.publicModel,
                        if s.usageInput > 0 then s.usageInput else env.ctx.estimatedInputTokens))
  }

  function CloseOpen(env: Env, s: State): State {
    match s.open
    case NoBlock => s
    case OpenText(index) => Send(s.(open := NoBlock), BlockStop(index))
    case OpenThinking(index, text) =>
      Send(Send(s.(open := NoBlock), BlockDelta(index, SignatureDelta(env.signature(text)))), BlockStop(index))
  }

  function OpenTextBlock(env: Env, s: State): State {
    if s.open.OpenText? then s
    else
      var ready := CloseOpen(env, EnsureStarted(env, s));
      Send(ready.(nextIndex := ready.nextIndex + 1, open := OpenText(ready.nextIndex), emittedBlock := true),
           BlockStart(ready.nextIndex, TextKind))
  }

  function OpenThinkingBlock(env: Env, s: State): State {
    if s.open.OpenThinking? then s
    else
      var ready := CloseOpen(env, EnsureStarted(env, s));
      Send(ready.(nextIndex := ready.nextIndex + 1, open := OpenThinking(ready.nextIndex, ""), emittedBlock := true),
           BlockStart(ready.nextIndex, ThinkingKind))
  }

  function EmitText(env: Env, s: State, text: string): State {
    if text == "" then s
    else
      var live := OpenTextBlock(env, s);
      Send(live.(emittedBlock := true), BlockDelta(live.open.index, TextDelta(text)))
  }

  function EmitThinking(env: Env, s: State, text: string): State {
    if text == "" then s
    else
      var live := OpenThinkingBlock(env, s);
      Send(live.(open := OpenThinking(live.open.index, live.open.text + text), emittedBlock := true),
           BlockDelta(live.open.index, ThinkingDelta(text)))
  }

  /** What one part of a streamed content array contributes. */
  function StreamPart(part: Json): string {
    var kind := GetOr(AsStr(Get(part, "type")), "text");
    if kind == "text" || kind == "output_text" then GetOr(AsStr(Get(part, "text")), "") else ""
  }

  function EmitParts(env: Env, s: State, parts: seq<Json>): State {
    if parts == [] then s
    else EmitText(env, EmitParts(env, s, parts[..|parts| - 1]), StreamPart(parts[|parts| - 1]))
  }

  function EmitContent(env: Env, s: State, content: Option<Json>): State {
    if content.None? then s
    else if content.value.Str? then EmitText(env, s, content.value.s)
    else if content.value.Arr? then EmitParts(env, s, content.value.items)
    else s
  }

  // ---------------------------------------------------------------- tool fragments

  /** One fragment of a tool call, addressed to one slot. */
  datatype Fragment =
    | Call(slot: nat, call: Fields)
    | Legacy(call: Fields)

  function Slot(f: Fragment): nat {
    if f.Call? then f.slot else 0
  }

  function AppendArguments(codec: Codec, arguments: string, piece: Option<Json>): string {
    if piece.None? then arguments
    else if piece.value.Str? then arguments + piece.value.s
    else if piece.value.Obj? then codec.encode(piece.value)
    else arguments
  }

  /** The effect of a fragment on the tool call it is addressed to. */
  function Absorb(codec: Codec, t: Tool, f: Fragment): Tool {
    match f
    case Legacy(call) =>
      Tool(t.id, OrElse(t.name, NonEmpty(StrAt(call, "name"))),
           AppendArguments(codec, t.arguments, At(call, "arguments")))
    case Call(_, call) =>
      var id := OrElse(t.id, NonEmpty(StrAt(call, "id")));
      var body := ObjAt(call, "function");
      if body.Some? then
        Tool(id, OrElse(t.name, NonEmpty(StrAt(body.value, "name"))),
             AppendArguments(codec, t.arguments, At(body.value, "arguments")))
      else
        Tool(id, OrElse(t.name, NonEmpty(StrAt(call, "name"))), t.arguments)
  }

  function Route(codec: Codec, tools: map<nat, Tool>, f: Fragment): map<nat, Tool> {
    var slot := Slot(f);
    tools[slot := Absorb(codec, if slot in tools then tools[slot] else NEW_TOOL, f)]
  }

  function RouteAll(codec: Codec, tools: map<nat, Tool>, fs: seq<Fragment>): map<nat, Tool> {
    if fs == [] then tools
    else Route(codec, RouteAll(codec, tools, fs[..|fs| - 1]), fs[|fs| - 1])
  }

  /** The fragments in the first `n` entries of a `tool_calls` array. */
  function CallFragments(calls: seq<Json>, n: nat): seq<Fragment>
    requires n <= |calls|
  {
    if n == 0 then []
    else
      var before := CallFragments(calls, n - 1);
      var call := calls[n - 1];
      if call.Obj? then before + [Call(GetOr(AsU64(At(call.fields, "index")), n - 1), call.fields)] else before
  }

  function Fragments(delta: Fields): seq<Fragment> {
    var calls := GetOr(ArrAt(delta, "tool_calls"), []);
    var legacy := ObjAt(delta, "function_call");
    CallFragments(calls, |calls|) + (if legacy.Some? then [Legacy(legacy.value)] else [])
  }

  // ---------------------------------------------------------------- frames

  function Reasoning(delta: Fields): string {
    GetOr(AsStr(OrElse(At(delta, "reasoning_content"), At(delta, "reasoning"))), "")
  }

  function ProcessDelta(env: Env, s: State, delta: Fields): State {
    var spoken := EmitContent(env, EmitThinking(env, s, Reasoning(delta)), At(delta, "content"));
    spoken.(tools := RouteAll(env.codec, spoken.tools, Fragments(delta)))
  }

  /** `delta` wins over `message`; a choice with neither contributes nothing. */
  function DeltaOf(choice: Fields): Option<Fields> {
    OrElse(ObjAt(choice, "delta"), ObjAt(choice, "message"))
  }

  function ProcessChoice(env: Env, s: State, choice: Fields): State {
    var delta := DeltaOf(choice);
    var s1 := if delta.Some? then ProcessDelta(env, s, delta.value) else s;
    var reason := StrAt(choice, "finish_reason");
    if reason.Some? then CloseOpen(env, s1.(finishReason := reason)) else s1
  }

  function NoteHeader(s: State, value: Json): State
    requires value.Obj?
  {
    var (input, output) := UsageFrom(value);
    s.(upstreamId := OrElse(s.upstreamId, NonEmpty(StrAt(value.fields, "id"))),
       usageInput := if input > 0 then input else s.usageInput,
       usageOutput := if output > 0 then output else s.usageOutput)
  }

  function ProcessValue(env: Env, s: State, value: Json): Outcome {
    if !value.Obj? then Outcome(s, Some(NotAnObject))
    else if "error" in value.fields && !value.fields["error"].Null? then
      Outcome(s, Some(Reported(ErrorMessage(value.fields["error"]))))
    else
      var noted := NoteHeader(s, value);
      var choice := Choice(value.fields);
      Outcome(if choice.Some? then ProcessChoice(env, noted, choice.value) else noted, None)
  }

  // ---------------------------------------------------------------- endings

  lemma {:induction false} LeastOf(s: set<nat>) returns (m: nat)
    requires s != {}
    ensures m in s && forall x :: x in s ==> m <= x
  {
    var x :| x in s;
    var rest := s - {x};
    m := x;
    if rest != {} {
      var least := LeastOf(rest);
      m := if x < least then x else least;
    }
    forall y | y in s ensures m <= y {
      assert y == x || y in rest;
    }
  }

  lemma LeastExists(s: set<nat>)
    requires s != {}
    ensures exists m :: m in s && forall x :: x in s ==> m <= x
  {
    var m := LeastOf(s);
  }

  function Least(s: set<nat>): (m: nat)
    requires s != {}
    ensures m in s && forall x :: x in s ==> m <= x
  {
    LeastExists(s);
    var m :| m in s && forall x :: x in s ==> m <= x;
    m
  }

  /** The tool calls in ascending slot order, as an ordered map iterates them. */
  function InOrder(tools: map<nat, Tool>): seq<Tool>
    decreases |tools|
  {
    if tools == map[] then []
    else
      var k := Least(tools.Keys);
      assert (tools - {k}).Keys == tools.Keys - {k};
      [tools[k]] + InOrder(tools - {k})
  }

  function SendTool(env: Env, s: State, t: Tool, order: nat): Outcome {
    if t.name.None? then Outcome(s, Some(MissingToolName))
    else
      var input := ToolInput(env.codec, Some(Str(t.arguments)));
      if input.Failure? then Outcome(s, Some(input.error))
      else
        var id := GetOr(t.id, SyntheticToolId(env.ctx.requestId, order));
        var s1 := Send(s, BlockStart(s.nextIndex, ToolKind(id, t.name.value)));
        var s2 := Send(s1, BlockDelta(s.nextIndex, InputJsonDelta(env.codec.encode(input.value))));
        Outcome(Send(s2, BlockStop(s.nextIndex)).(nextIndex := s.nextIndex + 1, emittedBlock := true), None)
  }

  function SendTools(env: Env, s: State, tools: seq<Tool>, order: nat): Outcome
    requires order <= |tools|
    decreases |tools| - order
  {
    if order == |tools| then Outcome(s, None)
    else
      var sent := SendTool(env, s, tools[order], order);
      if sent.error.Some? then sent else SendTools(env, sent.st, tools, order + 1)
  }

  lemma NextTool(env: Env, s: State, tools: seq<Tool>, order: nat)
    requires order < |tools|
    ensures var sent := SendTool(env, s, tools[order], order);
            (SendTools(env, s, tools, order)
             == if sent.error.Some? then sent else SendTools(env, sent.st, tools, order + 1))
  {
    hide SendTool;
  }

  /** An answer with no block at all still gets one empty text block. */
  function SendFallback(s: State): State {
    if s.emittedBlock then s
    else
      Send(Send(s, BlockStart(s.nextIndex, TextKind)), BlockStop(s.nextIndex))
      .(nextIndex := s.nextIndex + 1, emittedBlock := true)
  }

  function Finalize(env: Env, s: State): Outcome {
    if s.finished then Outcome(s, None)
    else
      var ready := CloseOpen(env, EnsureStarted(env, s)).(tools := map[]);
      var sent := SendTools(env, ready, InOrder(s.tools), 0);
      if sent.error.Some? then sent
      else
        var filled := SendFallback(sent.st);
        Outcome(
          Send(Send(filled, MessageDelta(StopReason(s.finishReason, s.tools != map[]), s.usageOutput)),
               MessageStop).(finished := true),
          None)
  }

  function EndWith(env: Env, s: State, status: nat, reason: BridgeError): State {
    Send(CloseOpen(env, s), Error(status, reason)).(error := Some(reason), finished := true)
  }

  function Fail(env: Env, s: State, reason: BridgeError): State {
    if s.finished then s else EndWith(env, s, Status(reason), reason)
  }

  function Settle(env: Env, o: Outcome): State {
    if o.error.Some? then Fail(env, o.st, o.error.value) else o.st
  }

  // ---------------------------------------------------------------- lines

  function TrimEndCr(s: string): string {
    if s != "" && s[|s| - 1] == '\r' then TrimEndCr(s[..|s| - 1]) else s
  }

  /** The JSON text a line carries; none for comments, blank lines and other fields. */
  function Payload(line: string): Option<string> {
    var body := TrimEndCr(line);
    var data :=
      if "data:" <= body then Some(Trim(body[5..]))
      else
        var trimmed := Trim(body);
        if trimmed != "" && trimmed[0] == '{' then Some(trimmed) else None;
    if data == Some("") then None else data
  }

  function ProcessLine(env: Env, s: State, line: string): Outcome {
    var data := Payload(line);
    if data.None? then Outcome(s, None)
    else if data.value == "[DONE]" then Finalize(env, s)
    else
      var value := env.codec.decode(data.value);
      if value.None? then Outcome(s, Some(InvalidJson)) else ProcessValue(env, s, value.value)
  }

  /** One decoded line, with its failure turned into the closing error event. */
  function TextStep(env: Env, s: State, line: string): State {
    if s.finished then s else Settle(env, ProcessLine(env, s, line))
  }

  function LineStep(env: Env, s: State, line: Bytes): State {
    TextStep(env, s, env.lossy(line))
  }

  function Lines(env: Env, s: State, lines: seq<Bytes>): State
    decreases |lines|
  {
    if lines == [] then s else Lines(env, LineStep(env, s, lines[0]), lines[1..])
  }

  function TextLines(env: Env, s: State, lines: seq<string>): State
    decreases |lines|
  {
    if lines == [] then s else TextLines(env, TextStep(env, s, lines[0]), lines[1..])
  }

  /** Decoding whole lines never makes a newline out of other bytes, nor text out of none. */
  ghost predicate KeepsLines(env: Env) {
    && env.lossy([]) == ""
    && forall b :: LF !in b ==> '\n' !in env.lossy(b)
  }

  // ---------------------------------------------------------------- splitting

  function NewlineAt(b: Bytes): (i: nat)
    ensures i <= |b|
    ensures i < |b| ==> b[i] == LF
    ensures forall k :: 0 <= k < i ==> b[k] != LF
  {
    if b == [] || b[0] == LF then 0 else 1 + NewlineAt(b[1..])
  }

  /** The newline-terminated lines of a buffer, without their terminators. */
  function Complete(b: Bytes): seq<Bytes>
    decreases |b|
  {
    var i := NewlineAt(b);
    if i == |b| then [] else [b[..i]] + Complete(b[i + 1..])
  }

  /** What follows the last newline. */
  function Tail(b: Bytes): (t: Bytes)
    ensures LF !in t
    ensures LF !in b ==> t == b
    decreases |b|
  {
    var i := NewlineAt(b);
    if i == |b| then b else Tail(b[i + 1..])
  }

  function CharAt(text: string, c: char): (i: nat)
    ensures i <= |text|
    ensures i < |text| ==> text[i] == c
    ensures forall k :: 0 <= k < i ==> text[k] != c
  {
    if text == "" || text[0] == c then 0 else 1 + CharAt(text[1..], c)
  }

  function SplitText(text: string): (lines: seq<string>)
    ensures '\n' !in text ==> lines == [text]
    decreases |text|
  {
    var i := CharAt(text, '\n');
    if i == |text| then [text] else [text[..i]] + SplitText(text[i + 1..])
  }

  // ---------------------------------------------------------------- calls

  function Feed(env: Env, s: Session, chunk: Bytes): Session {
    if s.st.finished then s
    else
      var data := s.buffer + chunk;
      var done := Lines(env, s.st, Complete(data));
      if done.finished then Session([], done)
      else if |Tail(data)| > LINE_LIMIT then Session(Tail(data), Fail(env, done, LineTooLong))
      else Session(Tail(data), done)
  }

  function Flush(env: Env, st: State, buffer: Bytes): State {
    if buffer == [] then st else TextLines(env, st, SplitText(env.lossy(buffer)))
  }

  function Finish(env: Env, s: Session): Session {
    if s.st.finished then s
    else
      var flushed := Flush(env, s.st, s.buffer);
      Session([], if flushed.finished then flushed else Settle(env, Finalize(env, flushed)))
  }

  function Abort(env: Env, s: Session, status: nat, message: string): Session {
    if s.st.finished then s else s.(st := EndWith(env, s.st, status, Aborted(message)))
  }

  // ---------------------------------------------------------------- what a line carries

  predicate EndsInCr(s: string) {
    s != "" && s[|s| - 1] == '\r'
  }

  lemma {:induction false} CrsAreTrimmed(x: string, crs: string)
    requires !EndsInCr(x) && forall i :: 0 <= i < |crs| ==> crs[i] == '\r'
    ensures TrimEndCr(x + crs) == x
    decreases |crs|
  {
    var all := x + crs;
    if crs == "" {
      assert all == x;
    } else {
      assert all[..|all| - 1] == x + crs[..|crs| - 1];
      CrsAreTrimmed(x, crs[..|crs| - 1]);
    }
  }

  /** A data line carries its trimmed rest, whatever carriage returns end it; an empty one carries nothing. */
  lemma DataLineCarries(x: string, crs: string)
    requires !EndsInCr(x) && forall i :: 0 <= i < |crs| ==> crs[i] == '\r'
    ensures Payload("data:" + x + crs) == if Trim(x) == "" then None else Some(Trim(x))
  {
    CrsAreTrimmed("data:" + x, crs);
    assert ("data:" + x)[..5] == "data:" && ("data:" + x)[5..] == x && "data:" <= "data:" + x;
    hide Trim, TrimEndCr;
  }

  /** Any other line carries something only if it is a bare object. */
  lemma OtherLineCarries(x: string, crs: string)
    requires !EndsInCr(x) && forall i :: 0 <= i < |crs| ==> crs[i] == '\r'
    requires |x| < 5 || x[..5] != "data:"
    ensures Payload(x + crs) == if Trim(x) != "" && Trim(x)[0] == '{' then Some(Trim(x)) else None
  {
    CrsAreTrimmed(x, crs);
    assert !("data:" <= x);
    hide Trim, TrimEndCr;
  }
}
