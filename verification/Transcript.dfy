/**
 A translated stream as a document: a header, a list of blocks, an ending. The
 recogniser of EventGrammar accepts exactly the renderings of such documents.
 */
module Transcript {
  import opened Common
  import opened Bridge
  import opened Translator
  import opened EventGrammar

  datatype Block =
    | TextBlock(parts: seq<string>)
    | ThinkingBlock(parts: seq<string>)
    | ToolBlock(id: string, name: string, partialJson: string)

  datatype Ending =
    | Stopped(stopReason: string, outputTokens: nat)
    | Broken(status: nat, reason: BridgeError)

  datatype Transcript =
    | Lone(status: nat, reason: BridgeError)
    | Told(id: string, model: string, inputTokens: nat, blocks: seq<Block>, ending: Ending)

  // ---------------------------------------------------------------- rendering

  function TextDeltas(parts: seq<string>, n: nat): seq<Event> {
    seq(|parts|, i requires 0 <= i < |parts| => BlockDelta(n, TextDelta(parts[i])))
  }

  function ThinkingDeltas(parts: seq<string>, n: nat): seq<Event> {
    seq(|parts|, i requires 0 <= i < |parts| => BlockDelta(n, ThinkingDelta(parts[i])))
  }

  function RenderBlock(sign: string -> string, b: Block, n: nat): seq<Event> {
    match b
    case TextBlock(parts) => [BlockStart(n, TextKind)] + TextDeltas(parts, n) + [BlockStop(n)]
    case ThinkingBlock(parts) =>
      [BlockStart(n, ThinkingKind)] + ThinkingDeltas(parts, n)
      + [BlockDelta(n, SignatureDelta(sign(Flatten(parts))))] + [BlockStop(n)]
    case ToolBlock(id, name, json) =>
      [BlockStart(n, ToolKind(id, name))] + [BlockDelta(n, InputJsonDelta(json))] + [BlockStop(n)]
  }

  /** Blocks are numbered consecutively from 0. */
  function RenderBlocks(sign: string -> string, blocks: seq<Block>): seq<Event> {
    if blocks == [] then []
    else
      var n := |blocks| - 1;
      RenderBlocks(sign, blocks[..n]) + RenderBlock(sign, blocks[n], n)
  }

  function RenderEnding(e: Ending): seq<Event> {
    match e
    case Stopped(reason, tokens) => [MessageDelta(reason, tokens)] + [MessageStop]
    case Broken(status, reason) => [Error(status, reason)]
  }

  function Render(sign: string -> string, t: Transcript): seq<Event> {
    match t
    case Lone(status, reason) => [Error(status, reason)]
    case Told(id, model, tokens, blocks, ending) =>
      [MessageStart(id, model, tokens)] + RenderBlocks(sign, blocks) + RenderEnding(ending)
  }

  // ---------------------------------------------------------------- well-formedness

  predicate Spoken(parts: seq<string>) {
    parts != [] && forall i :: 0 <= i < |parts| ==> parts[i] != ""
  }

  predicate Proper(b: Block) {
    match b
    case TextBlock(parts) => Spoken(parts)
    case ThinkingBlock(parts) => Spoken(parts)
    case ToolBlock(_, _, _) => true
  }

  /** Every block says something, and tool calls come last. */
  predicate Orderly(blocks: seq<Block>) {
    && (forall i :: 0 <= i < |blocks| ==> Proper(blocks[i]))
    && (forall i, j :: 0 <= i < j < |blocks| && blocks[i].ToolBlock? ==> blocks[j].ToolBlock?)
  }

  /** A finished message has at least one block; an empty answer is one empty text block. */
  predicate WellFormed(t: Transcript) {
    t.Lone?
    || (if t.ending.Broken? then Orderly(t.blocks)
        else t.blocks == [TextBlock([])] || (t.blocks != [] && Orderly(t.blocks)))
  }

  // ---------------------------------------------------------------- accepted => rendered

  /** What has been read of a transcript so far. */
  datatype Tail =
    | Gap
    | TextOpen(parts: seq<string>)
    | ThinkingOpen(parts: seq<string>, signed: bool)
    | ToolOpen(id: string, name: string, fill: Option<string>)
    | Delivered(stopReason: string, outputTokens: nat)

  datatype Partial =
    | Nothing
    | Part(id: string, model: string, inputTokens: nat, blocks: seq<Block>, tail: Tail)
    | Whole(t: Transcript)

  function RenderTail(sign: string -> string, tail: Tail, n: nat): seq<Event> {
    match tail
    case Gap => []
    case TextOpen(parts) => [BlockStart(n, TextKind)] + TextDeltas(parts, n)
    case ThinkingOpen(parts, signed) =>
      [BlockStart(n, ThinkingKind)] + ThinkingDeltas(parts, n)
      + (if signed then [BlockDelta(n, SignatureDelta(sign(Flatten(parts))))] else [])
    case ToolOpen(id, name, fill) =>
      [BlockStart(n, ToolKind(id, name))] + (if fill.Some? then [BlockDelta(n, InputJsonDelta(fill.value))] else [])
    case Delivered(reason, tokens) => [MessageDelta(reason, tokens)]
  }

  function RenderPartial(sign: string -> string, q: Partial): seq<Event> {
    match q
    case Nothing => []
    case Part(id, model, tokens, blocks, tail) =>
      [MessageStart(id, model, tokens)] + RenderBlocks(sign, blocks) + RenderTail(sign, tail, |blocks|)
    case Whole(t) => Render(sign, t)
  }

  predicate NoTools(blocks: seq<Block>) {
    forall i :: 0 <= i < |blocks| ==> !blocks[i].ToolBlock?
  }

  predicate AllSaid(parts: seq<string>) {
    forall i :: 0 <= i < |parts| ==> parts[i] != ""
  }

  predicate Fits(p: Phase, q: Partial) {
    match p
    case Opening => q.Nothing?
    case Between(n) => q.Part? && q.tail.Gap? && |q.blocks| == n && NoTools(q.blocks) && Orderly(q.blocks)
    case InText(n, empty) =>
      && q.Part? && q.tail.TextOpen? && |q.blocks| == n && NoTools(q.blocks) && Orderly(q.blocks)
      && AllSaid(q.tail.parts) && (empty <==> q.tail.parts == [])
    case InThinking(n, text) =>
      && q.Part? && q.tail.ThinkingOpen? && !q.tail.signed && |q.blocks| == n
      && NoTools(q.blocks) && Orderly(q.blocks) && AllSaid(q.tail.parts) && Flatten(q.tail.parts) == text
    case Signed(n) =>
      && q.Part? && q.tail.ThinkingOpen? && q.tail.signed && |q.blocks| == n
      && NoTools(q.blocks) && Orderly(q.blocks) && Spoken(q.tail.parts)
    case InTool(n, filled) =>
      q.Part? && q.tail.ToolOpen? && |q.blocks| == n && Orderly(q.blocks) && (filled <==> q.tail.fill.Some?)
    case AfterTool(n) =>
      q.Part? && q.tail.Gap? && |q.blocks| == n && n > 0 && Orderly(q.blocks)
    case AfterFallback => q.Part? && q.tail.Gap? && q.blocks == [TextBlock([])]
    case AwaitStop =>
      q.Part? && q.tail.Delivered? && (q.blocks == [TextBlock([])] || (q.blocks != [] && Orderly(q.blocks)))
    case Ended => q.Whole? && WellFormed(q.t)
    case Rejected => false
  }

  /** Closing a block moves its events from the tail into the block list. */
  lemma CloseBlock(sign: string -> string, q: Partial, b: Block)
    requires q.Part?
    requires RenderTail(sign, q.tail, |q.blocks|) + [BlockStop(|q.blocks|)] == RenderBlock(sign, b, |q.blocks|)
    ensures RenderPartial(sign, q.(blocks := q.blocks + [b], tail := Gap))
            == RenderPartial(sign, q) + [BlockStop(|q.blocks|)]
  {
    var n, start := |q.blocks|, [MessageStart(q.id, q.model, q.inputTokens)];
    RenderBlocksSnoc(sign, q.blocks, b);
    hide RenderBlocks, RenderBlock;
    assert RenderTail(sign, Gap, n + 1) == [];
    var before, tail := RenderBlocks(sign, q.blocks), RenderTail(sign, q.tail, n);
    hide RenderTail;
    Regroup(before, tail, [BlockStop(n)]);
    Regroup(start, before + tail, [BlockStop(n)]);
    Regroup(start, before, tail);
    NothingMore(start + (before + (tail + [BlockStop(n)])));
  }

  lemma NothingMore(es: seq<Event>)
    ensures es + [] == es
  {}

  lemma RenderBlocksSnoc(sign: string -> string, blocks: seq<Block>, b: Block)
    ensures RenderBlocks(sign, blocks + [b]) == RenderBlocks(sign, blocks) + RenderBlock(sign, b, |blocks|)
  {
    hide RenderBlock;
    assert (blocks + [b])[..|blocks|] == blocks;
  }

  lemma GrowTail(sign: string -> string, q: Partial, tail: Tail, e: Event)
    requires q.Part? && RenderTail(sign, tail, |q.blocks|) == RenderTail(sign, q.tail, |q.blocks|) + [e]
    ensures RenderPartial(sign, q.(tail := tail)) == RenderPartial(sign, q) + [e]
  {}

  lemma NextPartial(sign: string -> string, p: Phase, q: Partial, e: Event) returns (r: Partial)
    requires Fits(p, q) && Read(sign, p, e) != Rejected
    ensures Fits(Read(sign, p, e), r)
    ensures RenderPartial(sign, r) == RenderPartial(sign, q) + [e]
  {
    if p.Opening? {
      r := if e.MessageStart? then Part(e.id, e.model, e.inputTokens, [], Gap) else Whole(Lone(e.status, e.reason));
    } else if p.InText? {
      r := FromText(sign, p, q, e);
    } else if p.InThinking? || p.Signed? {
      r := FromThinking(sign, p, q, e);
    } else if p.InTool? {
      r := FromTool(sign, p, q, e);
    } else if p.AwaitStop? {
      r := Whole(Told(q.id, q.model, q.inputTokens, q.blocks, Stopped(q.tail.stopReason, q.tail.outputTokens)));
    } else {
      r := FromGap(sign, p, q, e);
    }
  }

  lemma FromText(sign: string -> string, p: Phase, q: Partial, e: Event) returns (r: Partial)
    requires p.InText? && Fits(p, q) && Read(sign, p, e) != Rejected
    ensures Fits(Read(sign, p, e), r)
    ensures RenderPartial(sign, r) == RenderPartial(sign, q) + [e]
  {
    if e.BlockStop? {
      r := q.(blocks := q.blocks + [TextBlock(q.tail.parts)], tail := Gap);
      CloseBlock(sign, q, TextBlock(q.tail.parts));
    } else {
      var parts := q.tail.parts + [e.delta.text];
      r := q.(tail := TextOpen(parts));
      assert TextDeltas(parts, p.index) == TextDeltas(q.tail.parts, p.index) + [e];
      GrowTail(sign, q, TextOpen(parts), e);
    }
  }

  lemma CloseThinking(blocks: seq<Block>, parts: seq<string>)
    requires NoTools(blocks) && Orderly(blocks) && Spoken(parts)
    ensures NoTools(blocks + [ThinkingBlock(parts)]) && Orderly(blocks + [ThinkingBlock(parts)])
  {}

  lemma FromThinking(sign: string -> string, p: Phase, q: Partial, e: Event) returns (r: Partial)
    requires (p.InThinking? || p.Signed?) && Fits(p, q) && Read(sign, p, e) != Rejected
    ensures Fits(Read(sign, p, e), r)
    ensures RenderPartial(sign, r) == RenderPartial(sign, q) + [e]
  {
    hide RenderPartial, NoTools, Orderly;
    if p.Signed? {
      CloseThinking(q.blocks, q.tail.parts);
      r := q.(blocks := q.blocks + [ThinkingBlock(q.tail.parts)], tail := Gap);
      CloseBlock(sign, q, ThinkingBlock(q.tail.parts));
    } else if e.delta.SignatureDelta? {
      r := q.(tail := ThinkingOpen(q.tail.parts, true));
      GrowTail(sign, q, r.tail, e);
    } else {
      var parts := q.tail.parts + [e.delta.thinking];
      r := q.(tail := ThinkingOpen(parts, false));
      assert ThinkingDeltas(parts, p.index) == ThinkingDeltas(q.tail.parts, p.index) + [e];
      FlattenAppend(q.tail.parts, [e.delta.thinking]);
      FlattenSingle(e.delta.thinking);
      GrowTail(sign, q, r.tail, e);
    }
  }

  lemma FromTool(sign: string -> string, p: Phase, q: Partial, e: Event) returns (r: Partial)
    requires p.InTool? && Fits(p, q) && Read(sign, p, e) != Rejected
    ensures Fits(Read(sign, p, e), r)
    ensures RenderPartial(sign, r) == RenderPartial(sign, q) + [e]
  {
    if p.filled {
      var b := ToolBlock(q.tail.id, q.tail.name, q.tail.fill.value);
      r := q.(blocks := q.blocks + [b], tail := Gap);
      CloseBlock(sign, q, b);
    } else {
      r := q.(tail := q.tail.(fill := Some(e.delta.partialJson)));
      GrowTail(sign, q, r.tail, e);
    }
  }

  lemma FromGap(sign: string -> string, p: Phase, q: Partial, e: Event) returns (r: Partial)
    requires p.Between? || p.AfterTool? || p.AfterFallback?
    requires Fits(p, q) && Read(sign, p, e) != Rejected
    ensures Fits(Read(sign, p, e), r)
    ensures RenderPartial(sign, r) == RenderPartial(sign, q) + [e]
  {
    hide NoTools, Orderly;
    if e.Error? {
      r := Whole(Told(q.id, q.model, q.inputTokens, q.blocks, Broken(e.status, e.reason)));
    } else if e.MessageDelta? {
      r := q.(tail := Delivered(e.stopReason, e.outputTokens));
    } else if e.kind.TextKind? {
      r := q.(tail := TextOpen([]));
    } else if e.kind.ThinkingKind? {
      r := q.(tail := ThinkingOpen([], false));
    } else {
      r := q.(tail := ToolOpen(e.kind.id, e.kind.name, None));
    }
    if !e.Error? {
      GrowTail(sign, q, r.tail, e);
    }
  }

  lemma {:induction false} Parse(sign: string -> string, es: seq<Event>) returns (q: Partial)
    requires ReadAll(sign, Opening, es) != Rejected
    ensures Fits(ReadAll(sign, Opening, es), q)
    ensures es == RenderPartial(sign, q)
    decreases |es|
  {
    if es == [] {
      q := Nothing;
    } else {
      var before, e := es[..|es| - 1], es[|es| - 1];
      assert es == before + [e];
      assert ReadAll(sign, Opening, before) != Rejected;
      hide Fits, RenderPartial, Read;
      var r := Parse(sign, before);
      q := NextPartial(sign, ReadAll(sign, Opening, before), r, e);
    }
  }

  // ---------------------------------------------------------------- rendered => accepted

  lemma {:induction false} ReadTexts(sign: string -> string, parts: seq<string>, n: nat)
    requires AllSaid(parts)
    ensures ReadAll(sign, InText(n, true), TextDeltas(parts, n)) == InText(n, parts == [])
    decreases |parts|
  {
    if parts != [] {
      var front := parts[..|parts| - 1];
      ReadTexts(sign, front, n);
      assert TextDeltas(parts, n)[..|parts| - 1] == TextDeltas(front, n);
    }
  }

  lemma {:induction false} ReadThoughts(sign: string -> string, parts: seq<string>, n: nat)
    requires AllSaid(parts)
    ensures ReadAll(sign, InThinking(n, ""), ThinkingDeltas(parts, n)) == InThinking(n, Flatten(parts))
    decreases |parts|
  {
    if parts != [] {
      var front, last := parts[..|parts| - 1], parts[|parts| - 1];
      assert parts == front + [last] && last != "";
      var e := BlockDelta(n, ThinkingDelta(last));
      assert ThinkingDeltas(parts, n) == ThinkingDeltas(front, n) + [e];
      hide ReadAll, Flatten, ThinkingDeltas;
      ReadThoughts(sign, front, n);
      ReadOne(sign, InThinking(n, ""), ThinkingDeltas(front, n), e);
      FlattenAppend(front, [last]);
      FlattenSingle(last);
    }
  }

  lemma SaidIsNotEmpty(parts: seq<string>)
    requires Spoken(parts)
    ensures Flatten(parts) != ""
  {}

  lemma ReadTextBlock(sign: string -> string, parts: seq<string>, n: nat)
    requires AllSaid(parts)
    ensures ReadAll(sign, Between(n), RenderBlock(sign, TextBlock(parts), n))
            == Read(sign, InText(n, parts == []), BlockStop(n))
  {
    var start := [BlockStart(n, TextKind)];
    hide ReadAll, TextDeltas;
    ReadFirst(sign, Between(n), start[0]);
    ReadConcat(sign, Between(n), start, TextDeltas(parts, n));
    ReadTexts(sign, parts, n);
    ReadOne(sign, Between(n), start + TextDeltas(parts, n), BlockStop(n));
  }

  lemma ReadThinkingBlock(sign: string -> string, parts: seq<string>, n: nat)
    requires Spoken(parts)
    ensures ReadAll(sign, Between(n), RenderBlock(sign, ThinkingBlock(parts), n)) == Between(n + 1)
  {
    var start := [BlockStart(n, ThinkingKind)];
    var signature := BlockDelta(n, SignatureDelta(sign(Flatten(parts))));
    hide ReadAll, Flatten, ThinkingDeltas;
    ReadFirst(sign, Between(n), start[0]);
    ReadConcat(sign, Between(n), start, ThinkingDeltas(parts, n));
    ReadThoughts(sign, parts, n);
    SaidIsNotEmpty(parts);
    ReadOne(sign, Between(n), start + ThinkingDeltas(parts, n), signature);
    ReadOne(sign, Between(n), start + ThinkingDeltas(parts, n) + [signature], BlockStop(n));
  }

  lemma ReadToolBlock(sign: string -> string, b: Block, p: Phase, n: nat)
    requires b.ToolBlock? && (p == Between(n) || p == AfterTool(n))
    ensures ReadAll(sign, p, RenderBlock(sign, b, n)) == AfterTool(n + 1)
  {
    var start := BlockStart(n, ToolKind(b.id, b.name));
    var fill := BlockDelta(n, InputJsonDelta(b.partialJson));
    ReadOne(sign, p, [], start);
    assert [] + [start] == [start];
    ReadOne(sign, p, [start], fill);
    ReadOne(sign, p, [start] + [fill], BlockStop(n));
  }

  lemma OrderlySplit(blocks: seq<Block>, n: nat)
    requires Orderly(blocks) && |blocks| == n + 1
    ensures Orderly(blocks[..n]) && Proper(blocks[n])
    ensures if blocks[n].ToolBlock? then !NoTools(blocks) else NoTools(blocks[..n]) && NoTools(blocks)
  {}

  lemma {:induction false} ReadBlocks(sign: string -> string, blocks: seq<Block>)
    requires Orderly(blocks)
    ensures ReadAll(sign, Between(0), RenderBlocks(sign, blocks))
            == (if NoTools(blocks) then Between(|blocks|) else AfterTool(|blocks|))
    decreases |blocks|
  {
    if blocks != [] {
      var n := |blocks| - 1;
      assert RenderBlocks(sign, blocks) == RenderBlocks(sign, blocks[..n]) + RenderBlock(sign, blocks[n], n);
      hide Read, ReadAll, RenderBlock, RenderBlocks, Orderly, NoTools;
      OrderlySplit(blocks, n);
      ReadBlocks(sign, blocks[..n]);
      ReadConcat(sign, Between(0), RenderBlocks(sign, blocks[..n]), RenderBlock(sign, blocks[n], n));
      ReadBlock(sign, blocks[n], ReadAll(sign, Between(0), RenderBlocks(sign, blocks[..n])), n);
    }
  }

  lemma ReadBlock(sign: string -> string, b: Block, p: Phase, n: nat)
    requires Proper(b) && (p == Between(n) || (p == AfterTool(n) && b.ToolBlock?))
    ensures ReadAll(sign, p, RenderBlock(sign, b, n)) == if b.ToolBlock? then AfterTool(n + 1) else Between(n + 1)
  {
    match b
    case TextBlock(parts) => ReadTextBlock(sign, parts, n);
    case ThinkingBlock(parts) => ReadThinkingBlock(sign, parts, n);
    case ToolBlock(_, _, _) => ReadToolBlock(sign, b, p, n);
  }

  lemma ReadBody(sign: string -> string, blocks: seq<Block>)
    requires blocks == [TextBlock([])] || Orderly(blocks)
    ensures ReadAll(sign, Between(0), RenderBlocks(sign, blocks))
            == (if blocks == [TextBlock([])] then AfterFallback
                else if NoTools(blocks) then Between(|blocks|) else AfterTool(|blocks|))
  {
    hide ReadAll, RenderBlock;
    if blocks == [TextBlock([])] {
      ReadTextBlock(sign, [], 0);
      assert blocks[..0] == [];
      assert RenderBlocks(sign, blocks) == RenderBlock(sign, TextBlock([]), 0);
    } else {
      ReadBlocks(sign, blocks);
    }
  }

  lemma ReadEnding(sign: string -> string, p: Phase, e: Ending)
    requires p == AfterFallback || p.AfterTool? || p.Between?
    requires e.Stopped? ==> p != Between(0)
    requires e.Broken? ==> !p.AfterFallback?
    ensures ReadAll(sign, p, RenderEnding(e)) == Ended
  {
    hide ReadAll;
    match e
    case Stopped(reason, tokens) =>
      ReadFirst(sign, p, MessageDelta(reason, tokens));
      ReadOne(sign, p, [MessageDelta(reason, tokens)], MessageStop);
    case Broken(status, reason) =>
      ReadFirst(sign, p, Error(status, reason));
  }

  lemma ReadFirst(sign: string -> string, p: Phase, e: Event)
    ensures ReadAll(sign, p, [e]) == Read(sign, p, e)
  {
    hide Read;
    assert [e][..0] == [];
  }

  lemma RenderedIsAccepted(sign: string -> string, t: Transcript)
    requires WellFormed(t)
    ensures ReadAll(sign, Opening, Render(sign, t)) == Ended
  {
    if t.Lone? {
      ReadOne(sign, Opening, [], Error(t.status, t.reason));
      assert [] + [Error(t.status, t.reason)] == [Error(t.status, t.reason)];
    } else {
      var start := MessageStart(t.id, t.model, t.inputTokens);
      var body := RenderBlocks(sign, t.blocks);
      ReadOne(sign, Opening, [], start);
      assert [] + [start] == [start];
      assert ReadAll(sign, Opening, [start]) == Between(0);
      hide Read, RenderBlocks, RenderEnding, ReadAll;
      ReadConcat(sign, Opening, [start], body);
      ReadBody(sign, t.blocks);
      ReadConcat(sign, Opening, [start] + body, RenderEnding(t.ending));
      ReadEnding(sign, ReadAll(sign, Opening, [start] + body), t.ending);
    }
  }

  // ---------------------------------------------------------------- results

  /** The recogniser and the document grammar define the same language. */
  lemma GrammarIsExact(sign: string -> string, es: seq<Event>)
    ensures ReadAll(sign, Opening, es) == Ended <==> exists t :: WellFormed(t) && es == Render(sign, t)
  {
    if ReadAll(sign, Opening, es) == Ended {
      var q := Parse(sign, es);
      assert WellFormed(q.t) && es == Render(sign, q.t);
    }
    if t :| WellFormed(t) && es == Render(sign, t) {
      RenderedIsAccepted(sign, t);
    }
  }

  /**
   Every run that ends with finish or abort, or that ended by itself, has sent
   exactly one well-formed transcript, and later calls add nothing to it.
   */
  lemma EveryRunIsATranscript(env: Env, ops: seq<Op>, later: seq<Op>)
    requires (ops != [] && !ops[|ops| - 1].FeedOp?) || Run(env, NEW_SESSION, ops).st.finished
    ensures var end := Run(env, NEW_SESSION, ops);
            && end.st.finished
            && (exists t :: WellFormed(t) && end.st.trace == Render(env.signature, t))
            && Run(env, end, later) == end
  {
    var end := Run(env, NEW_SESSION, ops);
    RunKeeps(env, ops);
    if ops != [] {
      RunKeeps(env, ops[..|ops| - 1]);
      ApplyKeeps(env, Run(env, NEW_SESSION, ops[..|ops| - 1]), ops[|ops| - 1]);
    }
    GrammarIsExact(env.signature, end.st.trace);
    EndedStaysEnded(env, end, later);
  }
}
