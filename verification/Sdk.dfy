/** The bytes of an event stream and the SDK that reads them (src/bridge/mod.rs, brighto.py). */
module Sdk {
  import opened Common
  import opened Json
  import opened Bridge
  import opened MessageSse

  // ---------------------------------------------------------------- event objects

  function KindJson(kind: BlockKind): Json {
    match kind
    case TextKind => Obj(map["type" := Str("text"), "text" := Str("")])
    case ThinkingKind => Obj(map["type" := Str("thinking"), "thinking" := Str("")])
    case ToolKind(id, name) =>
      Obj(map["type" := Str("tool_use"), "id" := Str(id), "name" := Str(name), "input" := Obj(map[])])
  }

  function DeltaJson(d: Delta): Json {
    match d
    case TextDelta(text) => Obj(map["type" := Str("text_delta"), "text" := Str(text)])
    case ThinkingDelta(text) => Obj(map["type" := Str("thinking_delta"), "thinking" := Str(text)])
    case SignatureDelta(signature) => Obj(map["type" := Str("signature_delta"), "signature" := Str(signature)])
    case InputJsonDelta(json) => Obj(map["type" := Str("input_json_delta"), "partial_json" := Str(json)])
  }

  function StartJson(id: string, model: string, tokens: nat): Json {
    Obj(map["id" := Str(id), "type" := Str("message"), "role" := Str("assistant"), "model" := Str(model),
            "content" := Arr([]), "stop_reason" := Null, "stop_sequence" := Null, "usage" := UsageJson(tokens, 0)])
  }

  function EventName(e: Event): string {
    match e
    case MessageStart(_, _, _) => "message_start"
    case BlockStart(_, _) => "content_block_start"
    case BlockDelta(_, _) => "content_block_delta"
    case BlockStop(_) => "content_block_stop"
    case MessageDelta(_, _) => "message_delta"
    case MessageStop => "message_stop"
    case Error(_, _) => "error"
  }

  /** The JSON body of an event. */
  function EventJson(e: Event): Json {
    match e
    case MessageStart(id, model, tokens) =>
      Obj(map["type" := Str("message_start"), "message" := StartJson(id, model, tokens)])
    case BlockStart(index, kind) =>
      Obj(map["type" := Str("content_block_start"), "index" := Int(index), "content_block" := KindJson(kind)])
    case BlockDelta(index, delta) =>
      Obj(map["type" := Str("content_block_delta"), "index" := Int(index), "delta" := DeltaJson(delta)])
    case BlockStop(index) => Obj(map["type" := Str("content_block_stop"), "index" := Int(index)])
    case MessageDelta(reason, tokens) =>
      Obj(map["type" := Str("message_delta"),
              "delta" := Obj(map["stop_reason" := Str(reason), "stop_sequence" := Null]),
              "usage" := Obj(map["output_tokens" := Int(tokens)])])
    case MessageStop => Obj(map["type" := Str("message_stop")])
    case Error(status, reason) =>
      Obj(map["type" := Str("error"),
              "error" := Obj(map["type" := Str(ErrorType(status)), "message" := Str(Truncated(Wording(reason)))])])
  }

  function ErrorType(status: nat): string {
    if status == 400 || status == 422 then "invalid_request_error"
    else if status == 401 then "authentication_error"
    else if status == 403 then "permission_error"
    else if status == 404 then "not_found_error"
    else if status == 413 then "request_too_large"
    else if status == 429 then "rate_limit_error"
    else if status == 503 || status == 529 then "overloaded_error"
    else "api_error"
  }

  /** The statuses that have an error type of their own. */
  lemma ErrorTypes(status: nat)
    ensures var own := map[400 := "invalid_request_error", 422 := "invalid_request_error", 401 := "authentication_error",
                           403 := "permission_error", 404 := "not_found_error", 413 := "request_too_large",
                           429 := "rate_limit_error", 503 := "overloaded_error", 529 := "overloaded_error"];
            ErrorType(status) == if status in own then own[status] else "api_error"
  {}

  /** The words of an error: the upstream's own or the caller's; the router's own sentences are not modelled. */
  function Wording(reason: BridgeError): string {
    if reason.Reported? || reason.Aborted? then reason.message else "bridge error"
  }

  const MESSAGE_LIMIT := 2000

  function Truncated(message: string): string {
    if |message| <= MESSAGE_LIMIT then message else message[..MESSAGE_LIMIT] + ['\U{2026}']
  }

  /** An error event carries the words it was given, and says where it cut them. */
  lemma ErrorEventTells(status: nat, message: string)
    ensures var told := Get(GetOr(Get(EventJson(Error(status, Reported(message))), "error"), Null), "message");
            && told.Some? && told.value.Str?
            && Get(GetOr(Get(EventJson(Error(status, Aborted(message))), "error"), Null), "message") == told
            && (|message| <= 2000 ==> told.value.s == message)
            && (|message| > 2000 ==> |told.value.s| == 2001 && told.value.s[..2000] == message[..2000] && told.value.s[2000] == '\U{2026}')
  {
    var text := Truncated(message);
    var inner: Fields := map["type" := Str(ErrorType(status)), "message" := Str(text)];
    assert inner["message"] == Str(text);
    assert EventJson(Error(status, Reported(message))).fields["error"] == Obj(inner);
    assert EventJson(Error(status, Aborted(message))).fields["error"] == Obj(inner);
  }

  // ---------------------------------------------------------------- reading an event object

  function NatAt(v: Json, key: string): Option<nat> {
    if Get(v, key).Some? && Get(v, key).value.Int? && Get(v, key).value.n >= 0 then Some(Get(v, key).value.n) else None
  }

  function KindOf(v: Json): Option<BlockKind> {
    var kind := Field(v, "type", "");
    if kind == "text" then Some(TextKind)
    else if kind == "thinking" then Some(ThinkingKind)
    else if kind == "tool_use" then Some(ToolKind(Field(v, "id", ""), Field(v, "name", "")))
    else None
  }

  function DeltaIn(v: Json): Option<Delta> {
    var kind := Field(v, "type", "");
    if kind == "text_delta" then Some(TextDelta(Field(v, "text", "")))
    else if kind == "thinking_delta" then Some(ThinkingDelta(Field(v, "thinking", "")))
    else if kind == "signature_delta" then Some(SignatureDelta(Field(v, "signature", "")))
    else if kind == "input_json_delta" then Some(InputJsonDelta(Field(v, "partial_json", "")))
    else None
  }

  function Sub(v: Json, key: string): Json {
    GetOr(Get(v, key), Null)
  }

  function EventOf(v: Json): Option<Event> {
    var kind := Field(v, "type", "");
    if kind == "message_start" then
      var message := Sub(v, "message");
      var tokens := NatAt(Sub(message, "usage"), "input_tokens");
      if tokens.Some? then Some(MessageStart(Field(message, "id", ""), Field(message, "model", ""), tokens.value)) else None
    else if kind == "content_block_start" then
      var index, block := NatAt(v, "index"), KindOf(Sub(v, "content_block"));
      if index.Some? && block.Some? then Some(BlockStart(index.value, block.value)) else None
    else if kind == "content_block_delta" then
      var index, delta := NatAt(v, "index"), DeltaIn(Sub(v, "delta"));
      if index.Some? && delta.Some? then Some(BlockDelta(index.value, delta.value)) else None
    else if kind == "content_block_stop" then
      var index := NatAt(v, "index");
      if index.Some? then Some(BlockStop(index.value)) else None
    else if kind == "message_delta" then
      var tokens := NatAt(Sub(v, "usage"), "output_tokens");
      if tokens.Some? then Some(MessageDelta(Field(Sub(v, "delta"), "stop_reason", ""), tokens.value)) else None
    else if kind == "message_stop" then Some(MessageStop)
    else None
  }

  function EventsOf(vs: seq<Json>): Option<seq<Event>> {
    if vs == [] then Some([])
    else
      var first, rest := EventOf(vs[0]), EventsOf(vs[1..]);
      if first.Some? && rest.Some? then Some([first.value] + rest.value) else None
  }

  lemma KindRoundTrip(kind: BlockKind)
    ensures KindOf(KindJson(kind)) == Some(kind)
  {}

  lemma DeltaRoundTrip(d: Delta)
    ensures DeltaIn(DeltaJson(d)) == Some(d)
  {
    var v := DeltaJson(d);
    match d
    case TextDelta(text) => assert Field(v, "type", "") == "text_delta" && Field(v, "text", "") == text;
    case ThinkingDelta(text) => assert Field(v, "type", "") == "thinking_delta" && Field(v, "thinking", "") == text;
    case SignatureDelta(s) => assert Field(v, "type", "") == "signature_delta" && Field(v, "signature", "") == s;
    case InputJsonDelta(json) => assert Field(v, "type", "") == "input_json_delta" && Field(v, "partial_json", "") == json;
  }

  lemma StartRoundTrip(id: string, model: string, tokens: nat)
    ensures EventOf(EventJson(MessageStart(id, model, tokens))) == Some(MessageStart(id, model, tokens))
  {
    var v := EventJson(MessageStart(id, model, tokens));
    var message := StartJson(id, model, tokens);
    assert Field(v, "type", "") == "message_start" && Sub(v, "message") == message;
    assert Field(message, "id", "") == id && Field(message, "model", "") == model;
    assert Sub(message, "usage") == UsageJson(tokens, 0);
    assert NatAt(UsageJson(tokens, 0), "input_tokens") == Some(tokens);
  }

  lemma BlockRoundTrip(e: Event)
    requires e.BlockStart? || e.BlockDelta? || e.BlockStop?
    ensures EventOf(EventJson(e)) == Some(e)
  {
    var v := EventJson(e);
    hide KindJson, KindOf, DeltaJson, DeltaIn;
    match e
    case BlockStart(index, kind) =>
      KindRoundTrip(kind);
      assert Field(v, "type", "") == "content_block_start" && NatAt(v, "index") == Some(index);
      assert Sub(v, "content_block") == KindJson(kind);
    case BlockDelta(index, delta) =>
      DeltaRoundTrip(delta);
      assert Field(v, "type", "") == "content_block_delta" && NatAt(v, "index") == Some(index);
      assert Sub(v, "delta") == DeltaJson(delta);
    case BlockStop(index) =>
      assert Field(v, "type", "") == "content_block_stop" && NatAt(v, "index") == Some(index);
  }

  lemma EndRoundTrip(e: Event)
    requires e.MessageDelta? || e.MessageStop?
    ensures EventOf(EventJson(e)) == Some(e)
  {
    var v := EventJson(e);
    if e.MessageDelta? {
      assert Field(v, "type", "") == "message_delta";
      assert Sub(v, "delta") == Obj(map["stop_reason" := Str(e.stopReason), "stop_sequence" := Null]);
      assert Sub(v, "usage") == Obj(map["output_tokens" := Int(e.outputTokens)]);
      assert Field(Sub(v, "delta"), "stop_reason", "") == e.stopReason;
    } else {
      assert Field(v, "type", "") == "message_stop";
    }
  }

  /** Every event but an error is read back as it was printed. */
  lemma EventRoundTrip(e: Event)
    requires !e.Error?
    ensures EventOf(EventJson(e)) == Some(e)
  {
    hide EventOf, EventJson;
    if e.MessageStart? {
      StartRoundTrip(e.id, e.model, e.inputTokens);
    } else if e.MessageDelta? || e.MessageStop? {
      EndRoundTrip(e);
    } else {
      BlockRoundTrip(e);
    }
  }
}
