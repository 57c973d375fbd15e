/** What a client that accumulates the event stream ends up with. */
module Client {
  import opened Common
  import opened Json
  import opened Bridge
  import opened Response

  datatype Piece =
    | TextPiece(text: string)
    | ThinkingPiece(thinking: string, signature: string)
    | ToolPiece(id: string, name: string, json: string)

  datatype Header = Header(id: string, model: string, inputTokens: nat)

  datatype Closing = Closing(stopReason: string, outputTokens: nat)

  datatype View = View(header: Option<Header>, pieces: seq<Piece>, closing: Option<Closing>, stopped: bool, failed: bool)

  const NEW_VIEW := View(None, [], None, false, false)

  function NewPiece(kind: BlockKind): Piece {
    match kind
    case TextKind => TextPiece("")
    case ThinkingKind => ThinkingPiece("", "")
    case ToolKind(id, name) => ToolPiece(id, name, "")
  }

  /** A delta of the wrong kind does not fit the piece it is addressed to. */
  function Extend(p: Piece, d: Delta): Option<Piece> {
    match d
    case TextDelta(text) => if p.TextPiece? then Some(TextPiece(p.text + text)) else None
    case ThinkingDelta(text) => if p.ThinkingPiece? then Some(p.(thinking := p.thinking + text)) else None
    case SignatureDelta(signature) => if p.ThinkingPiece? then Some(p.(signature := signature)) else None
    case InputJsonDelta(json) => if p.ToolPiece? then Some(p.(json := p.json + json)) else None
  }

  function See(v: View, e: Event): View {
    match e
    case MessageStart(id, model, tokens) => v.(header := Some(Header(id, model, tokens)))
    case BlockStart(index, kind) =>
      if index == |v.pieces| then v.(pieces := v.pieces + [NewPiece(kind)]) else v.(failed := true)
    case BlockDelta(index, delta) =>
      if index < |v.pieces| && Extend(v.pieces[index], delta).Some?
      then v.(pieces := v.pieces[index := Extend(v.pieces[index], delta).value]) else v.(failed := true)
    case BlockStop(_) => v
    case MessageDelta(reason, tokens) => v.(closing := Some(Closing(reason, tokens)))
    case MessageStop => v.(stopped := true)
    case Error(_, _) => v.(failed := true)
  }

  function SeeAll(v: View, es: seq<Event>): View {
    if es == [] then v else See(SeeAll(v, es[..|es| - 1]), es[|es| - 1])
  }

  lemma SeeOne(v: View, es: seq<Event>, e: Event)
    ensures SeeAll(v, es + [e]) == See(SeeAll(v, es), e)
  {
    assert (es + [e])[..|es|] == es;
  }

  lemma {:induction false} SeeConcat(v: View, a: seq<Event>, b: seq<Event>)
    ensures SeeAll(v, a + b) == SeeAll(SeeAll(v, a), b)
    decreases |b|
  {
    if b == [] {
      assert a + b == a;
    } else {
      SeeConcat(v, a, b[..|b| - 1]);
      assert (a + b)[..|a + b| - 1] == a + b[..|b| - 1];
    }
  }

  function ContentOf(codec: Codec, p: Piece): Option<Content> {
    match p
    case TextPiece(text) => Some(Text(text))
    case ThinkingPiece(thinking, signature) => Some(Thinking(thinking, signature))
    case ToolPiece(id, name, json) =>
      var input := codec.decode(json);
      if input.Some? then Some(ToolUse(id, name, input.value)) else None
  }

  function Contents(codec: Codec, pieces: seq<Piece>): Option<seq<Content>> {
    if pieces == [] then Some([])
    else
      var front := Contents(codec, pieces[..|pieces| - 1]);
      var last := ContentOf(codec, pieces[|pieces| - 1]);
      if front.Some? && last.Some? then Some(front.value + [last.value]) else None
  }

  lemma ContentsOne(codec: Codec, pieces: seq<Piece>, p: Piece)
    ensures Contents(codec, pieces + [p])
            == var front, last := Contents(codec, pieces), ContentOf(codec, p);
               if front.Some? && last.Some? then Some(front.value + [last.value]) else None
  {
    assert (pieces + [p])[..|pieces|] == pieces;
  }

  function MessageFrom(codec: Codec, v: View): Option<Message> {
    var contents := Contents(codec, v.pieces);
    if v.failed || !v.stopped || v.header.None? || v.closing.None? || contents.None? then None
    else
      Some(Message(v.header.value.id, v.header.value.model, contents.value,
                   v.closing.value.stopReason, v.header.value.inputTokens, v.closing.value.outputTokens))
  }

  /** The finished message, or nothing if the stream broke or is incomplete. */
  function Assemble(codec: Codec, es: seq<Event>): Option<Message> {
    MessageFrom(codec, SeeAll(NEW_VIEW, es))
  }
}
