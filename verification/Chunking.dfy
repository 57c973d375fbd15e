/** The client sees the same events however the upstream bytes are cut. */
module Chunking {
  import opened Common
  import opened Bridge
  import Json
  import Response
  import opened Translator

  // ---------------------------------------------------------------- splitting

  lemma NewlineIsFirst(a: Bytes, i: nat)
    requires i < |a| && a[i] == LF && forall k :: 0 <= k < i ==> a[k] != LF
    ensures NewlineAt(a) == i
  {}

  lemma FirstLine(line: Bytes, rest: Bytes)
    requires LF !in line
    ensures Complete(line + [LF] + rest) == [line] + Complete(rest)
    ensures Tail(line + [LF] + rest) == Tail(rest)
  {
    var data := line + [LF] + rest;
    NewlineIsFirst(data, |line|);
    assert data[..|line|] == line && data[|line| + 1..] == rest;
  }

  lemma NoLine(line: Bytes)
    requires LF !in line
    ensures Complete(line) == [] && Tail(line) == line
  {}

  /** Every buffer is either one unfinished line, or a line, its newline and a rest. */
  lemma Cut(a: Bytes) returns (line: Bytes, rest: Bytes)
    ensures LF !in line
    ensures LF !in a ==> line == a
    ensures LF in a ==> a == line + [LF] + rest
  {
    var i := NewlineAt(a);
    line, rest := a[..i], if i < |a| then a[i + 1..] else [];
  }

  /** Cutting a buffer anywhere loses nothing: the tail of the first part joins the second. */
  lemma {:induction false} SplitConcat(a: Bytes, b: Bytes)
    ensures Complete(a + b) == Complete(a) + Complete(Tail(a) + b)
    ensures Tail(a + b) == Tail(Tail(a) + b)
    decreases |a|
  {
    hide Complete, Tail, NewlineAt;
    var line, rest := Cut(a);
    if LF in a {
      SplitConcat(rest, b);
      FirstLine(line, rest);
      FirstLine(line, rest + b);
      assert a + b == line + [LF] + (rest + b);
      Regroup([line], Complete(rest), Complete(Tail(rest) + b));
    } else {
      NoLine(a);
    }
  }

  lemma LinesFirst(env: Env, s: State, lines: seq<Bytes>)
    requires lines != []
    ensures Lines(env, s, lines) == Lines(env, LineStep(env, s, lines[0]), lines[1..])
  {
    hide LineStep;
  }

  lemma {:induction false} LinesConcat(env: Env, s: State, x: seq<Bytes>, y: seq<Bytes>)
    ensures Lines(env, s, x + y) == Lines(env, Lines(env, s, x), y)
    decreases |x|
  {
    if x == [] {
      assert x + y == y;
    } else {
      assert (x + y)[0] == x[0] && (x + y)[1..] == x[1..] + y;
      LinesFirst(env, s, x);
      LinesFirst(env, s, x + y);
      hide Lines, LineStep;
      LinesConcat(env, LineStep(env, s, x[0]), x[1..], y);
    }
  }

  lemma {:induction false} LinesAfterEnd(env: Env, s: State, lines: seq<Bytes>)
    requires s.finished
    ensures Lines(env, s, lines) == s
    decreases |lines|
  {
    if lines != [] {
      LinesAfterEnd(env, s, lines[1..]);
    }
  }

  // ---------------------------------------------------------------- feeding

  /** Every newline-terminated line that is reached before the end fits the limit. */
  ghost predicate LinesFit(env: Env, b: Bytes) {
    var lines := Complete(b);
    forall k :: 0 <= k < |lines| && !Lines(env, INITIAL, lines[..k]).finished ==> |lines[k]| <= LINE_LIMIT
  }

  function FeedAll(env: Env, s: Session, chunks: seq<Bytes>): Session {
    if chunks == [] then s else Feed(env, FeedAll(env, s, chunks[..|chunks| - 1]), chunks[|chunks| - 1])
  }

  /** The state after a whole byte stream, without any chunk boundary in sight. */
  function Whole(env: Env, st: State, data: Bytes): State {
    var done := Lines(env, st, Complete(data));
    if !done.finished && |Tail(data)| > LINE_LIMIT then Fail(env, done, LineTooLong) else done
  }

  /** An unfinished line that outgrew the limit in a prefix is still the tail of the whole. */
  lemma LongTailStays(env: Env, a: Bytes, b: Bytes)
    requires LinesFit(env, a + b) && |Tail(a)| > LINE_LIMIT && !Lines(env, INITIAL, Complete(a)).finished
    ensures Complete(a + b) == Complete(a) && |Tail(a + b)| > LINE_LIMIT
  {
    SplitConcat(a, b);
    var rest := Tail(a) + b;
    if NewlineAt(rest) < |rest| {
      NextLine(a, b);
      assert false;
    }
    assert Complete(rest) == [];
  }

  /** If the second part completes the tail of the first, that is the next line. */
  lemma NextLine(a: Bytes, b: Bytes)
    requires NewlineAt(Tail(a) + b) < |Tail(a) + b|
    ensures var k := |Complete(a)|;
            && k < |Complete(a + b)| && Complete(a + b)[..k] == Complete(a)
            && |Complete(a + b)[k]| >= |Tail(a)|
  {
    SplitConcat(a, b);
  }

  lemma PrefixFits(env: Env, a: Bytes, b: Bytes)
    requires LinesFit(env, a + b)
    ensures LinesFit(env, a)
  {
    SplitConcat(a, b);
    var lines, all := Complete(a), Complete(a + b);
    forall k | 0 <= k < |lines| && !Lines(env, INITIAL, lines[..k]).finished
      ensures |lines[k]| <= LINE_LIMIT
    {
      assert all[..k] == lines[..k] && all[k] == lines[k];
    }
  }

  /** One more chunk has the effect of one longer stream. */
  lemma FeedExtends(env: Env, s: Session, a: Bytes, b: Bytes)
    requires LinesFit(env, a + b)
    requires s.st == Whole(env, INITIAL, a)
    requires !s.st.finished ==> s.buffer == Tail(a)
    ensures var t := Feed(env, s, b);
            t.st == Whole(env, INITIAL, a + b) && (!t.st.finished ==> t.buffer == Tail(a + b))
  {
    SplitConcat(a, b);
    var done := Lines(env, INITIAL, Complete(a));
    LinesConcat(env, INITIAL, Complete(a), Complete(Tail(a) + b));
    if done.finished {
      LinesAfterEnd(env, done, Complete(Tail(a) + b));
    } else if |Tail(a)| > LINE_LIMIT {
      LongTailStays(env, a, b);
    }
  }

  lemma {:induction false} FeedAllIsWhole(env: Env, chunks: seq<Bytes>)
    requires LinesFit(env, Flatten(chunks))
    ensures var t := FeedAll(env, NEW_SESSION, chunks);
            && t.st == Whole(env, INITIAL, Flatten(chunks))
            && (!t.st.finished ==> t.buffer == Tail(Flatten(chunks)))
    decreases |chunks|
  {
    if chunks != [] {
      var front, last := chunks[..|chunks| - 1], chunks[|chunks| - 1];
      assert chunks == front + [last];
      FlattenAppend(front, [last]);
      FlattenSingle(last);
      PrefixFits(env, Flatten(front), last);
      FeedAllIsWhole(env, front);
      FeedExtends(env, FeedAll(env, NEW_SESSION, front), Flatten(front), last);
    }
  }

  /**
   Chunk independence: two ways of cutting the same bytes send the same events
   and reach the same status, before and after `finish`.
   */
  lemma ChunkIndependence(env: Env, x: seq<Bytes>, y: seq<Bytes>)
    requires Flatten(x) == Flatten(y) && LinesFit(env, Flatten(x))
    ensures FeedAll(env, NEW_SESSION, x).st == FeedAll(env, NEW_SESSION, y).st
    ensures Finish(env, FeedAll(env, NEW_SESSION, x)).st == Finish(env, FeedAll(env, NEW_SESSION, y)).st
  {
    FeedAllIsWhole(env, x);
    FeedAllIsWhole(env, y);
  }

  /** A completed tail is one more line. */
  lemma TailCompleted(a: Bytes)
    ensures Complete(a + [LF]) == Complete(a) + [Tail(a)] && Tail(a + [LF]) == []
  {
    SplitConcat(a, [LF]);
    FirstLine(Tail(a), []);
    NoLine([]);
    assert Tail(a) + [LF] + [] == Tail(a) + [LF];
  }

  /** The unterminated last line counts as a line; an empty one says nothing. */
  lemma LastLine(env: Env, st: State, tail: Bytes)
    requires KeepsLines(env) && LF !in tail && !st.finished
    ensures Flush(env, st, tail) == Lines(env, st, [tail])
  {
    var text := env.lossy(tail);
    assert Lines(env, st, [tail]) == TextStep(env, st, text) by {
      assert [tail][1..] == [];
    }
    if tail != [] {
      assert SplitText(text) == [text];
      assert TextLines(env, st, [text]) == TextStep(env, st, text) by {
        assert [text][1..] == [];
      }
    }
  }

  /** A final newline makes no difference once the stream is finished. */
  lemma FinalNewline(env: Env, x: seq<Bytes>, y: seq<Bytes>)
    requires KeepsLines(env)
    requires Flatten(y) == Flatten(x) + [LF] && LinesFit(env, Flatten(y))
    ensures Finish(env, FeedAll(env, NEW_SESSION, x)).st == Finish(env, FeedAll(env, NEW_SESSION, y)).st
  {
    hide FeedAll, TextStep, TextLines, Finalize, Lines, Complete, Tail;
    var a := Flatten(x);
    PrefixFits(env, a, [LF]);
    FeedAllIsWhole(env, x);
    FeedAllIsWhole(env, y);
    TailCompleted(a);
    var done := Lines(env, INITIAL, Complete(a));
    var k := |Complete(a)|;
    assert Complete(Flatten(y))[..k] == Complete(a) && Complete(Flatten(y))[k] == Tail(a);
    LinesConcat(env, INITIAL, Complete(a), [Tail(a)]);
    hide LinesFit;
    if done.finished {
      LinesAfterEnd(env, done, [Tail(a)]);
    } else {
      LastLine(env, done, Tail(a));
    }
  }

  // ---------------------------------------------------------------- exactness

  /** No line, however processed, reports that it was too long. */
  lemma LineErrors(env: Env, s: State, line: string)
    requires s.error != Some(LineTooLong)
    ensures TextStep(env, s, line).error != Some(LineTooLong)
  {
    var data := Payload(line);
    if !s.finished && data.Some? {
      if data.value == "[DONE]" {
        FinalizeErrors(env, s);
      } else if env.codec.decode(data.value).Some? {
        ValueErrors(env, s, env.codec.decode(data.value).value);
      }
    }
  }

  lemma FinalizeErrors(env: Env, s: State)
    requires !s.finished
    ensures Finalize(env, s).error != Some(LineTooLong) && Finalize(env, s).st.error == s.error
  {
    var ready := CloseOpen(env, EnsureStarted(env, s)).(tools := map[]);
    ToolErrors(env, ready, InOrder(s.tools), 0);
  }

  lemma {:induction false} ToolErrors(env: Env, s: State, tools: seq<Tool>, order: nat)
    requires order <= |tools|
    ensures var o := SendTools(env, s, tools, order); o.error != Some(LineTooLong) && o.st.error == s.error
    decreases |tools| - order
  {
    if order < |tools| {
      var sent := SendTool(env, s, tools[order], order);
      if sent.error.None? {
        ToolErrors(env, sent.st, tools, order + 1);
      }
    }
  }

  lemma SpeechErrors(env: Env, s: State, text: string)
    ensures EmitText(env, s, text).error == s.error
    ensures EmitThinking(env, s, text).error == s.error
    ensures CloseOpen(env, s).error == s.error
  {}

  lemma {:induction false} PartErrors(env: Env, s: State, parts: seq<Json.Json>)
    ensures EmitParts(env, s, parts).error == s.error
    decreases |parts|
  {
    if parts != [] {
      PartErrors(env, s, parts[..|parts| - 1]);
      SpeechErrors(env, EmitParts(env, s, parts[..|parts| - 1]), StreamPart(parts[|parts| - 1]));
    }
  }

  lemma DeltaErrors(env: Env, s: State, delta: Json.Fields)
    ensures ProcessDelta(env, s, delta).error == s.error
  {
    SpeechErrors(env, s, Reasoning(delta));
    var thought := EmitThinking(env, s, Reasoning(delta));
    var content := Json.At(delta, "content");
    if content.Some? && content.value.Arr? {
      PartErrors(env, thought, content.value.items);
    } else if content.Some? && content.value.Str? {
      SpeechErrors(env, thought, content.value.s);
    }
  }

  lemma ValueErrors(env: Env, s: State, value: Json.Json)
    ensures var o := ProcessValue(env, s, value); o.error != Some(LineTooLong) && o.st.error == s.error
  {
    hide ProcessDelta, Response.UsageFrom;
    if value.Obj? && Response.Choice(value.fields).Some? {
      var noted := NoteHeader(s, value);
      var choice := Response.Choice(value.fields).value;
      if DeltaOf(choice).Some? {
        DeltaErrors(env, noted, DeltaOf(choice).value);
      }
    }
  }

  lemma {:induction false} LinesErrors(env: Env, s: State, lines: seq<Bytes>)
    requires s.error != Some(LineTooLong)
    ensures Lines(env, s, lines).error != Some(LineTooLong)
    decreases |lines|
  {
    if lines != [] {
      LineErrors(env, s, env.lossy(lines[0]));
      LinesErrors(env, LineStep(env, s, lines[0]), lines[1..]);
    }
  }

  ghost predicate CutFree(env: Env, data: Bytes) {
    forall x, y :: Flatten(x) == data && Flatten(y) == data
                   ==> FeedAll(env, NEW_SESSION, x).st == FeedAll(env, NEW_SESSION, y).st
  }

  /** The bytes before and after the `k`-th newline. */
  lemma {:induction false} UpToLine(data: Bytes, k: nat) returns (a: Bytes, b: Bytes)
    requires k < |Complete(data)|
    ensures Complete(a) == Complete(data)[..k] && Tail(a) == Complete(data)[k]
    ensures data == a + [LF] + b
    decreases |data|
  {
    hide Complete, Tail, NewlineAt;
    var line, after := Cut(data);
    if LF !in data {
      NoLine(data);
      assert false;
    }
    FirstLine(line, after);
    if k == 0 {
      a, b := line, after;
      NoLine(line);
    } else {
      var rest;
      rest, b := UpToLine(after, k - 1);
      a := line + [LF] + rest;
      FirstLine(line, rest);
      assert ([line] + Complete(after))[..k] == [line] + Complete(after)[..k - 1];
      assert data == a + [LF] + b;
    }
  }

  lemma FeedFirst(env: Env, a: Bytes)
    ensures FeedAll(env, NEW_SESSION, [a]) == Feed(env, NEW_SESSION, a)
    ensures FeedAll(env, NEW_SESSION, [a]).st == Whole(env, INITIAL, a)
    ensures !Whole(env, INITIAL, a).finished ==> FeedAll(env, NEW_SESSION, [a]).buffer == Tail(a)
  {
    assert [a][..0] == [] && [] + a == a;
  }

  /** With its newline in the same chunk, no line is too long. */
  lemma TogetherPasses(env: Env, a: Bytes)
    ensures FeedAll(env, NEW_SESSION, [a + [LF]]).st.error != Some(LineTooLong)
  {
    FeedFirst(env, a + [LF]);
    TailCompleted(a);
    LinesErrors(env, INITIAL, Complete(a + [LF]));
    hide FeedAll, Feed, Lines, Complete, Tail;
  }

  lemma LongTailFails(env: Env, a: Bytes)
    requires !Lines(env, INITIAL, Complete(a)).finished && |Tail(a)| > LINE_LIMIT
    ensures Whole(env, INITIAL, a).finished && Whole(env, INITIAL, a).error == Some(LineTooLong)
  {
    hide Lines, Complete, Tail, CloseOpen;
  }

  lemma FeedAfterEnd(env: Env, a: Bytes, b: Bytes)
    requires FeedAll(env, NEW_SESSION, [a]).st.finished
    ensures FeedAll(env, NEW_SESSION, [a, b]) == FeedAll(env, NEW_SESSION, [a])
  {
    var y := [a, b];
    assert y[..1] == [a];
    assert FeedAll(env, NEW_SESSION, y) == Feed(env, FeedAll(env, NEW_SESSION, [a]), b);
  }

  /** A line over the limit passes when it arrives with its newline and breaks the stream when it does not. */
  lemma LongLineDepends(env: Env, a: Bytes)
    requires !Lines(env, INITIAL, Complete(a)).finished && |Tail(a)| > LINE_LIMIT
    ensures FeedAll(env, NEW_SESSION, [a + [LF]]).st.error != Some(LineTooLong)
    ensures FeedAll(env, NEW_SESSION, [a, [LF]]).st.error == Some(LineTooLong)
    ensures !CutFree(env, a + [LF])
  {
    var y := [a, [LF]];
    assert y[1..] == [[LF]];
    FlattenSingle(a + [LF]);
    FlattenSingle([LF]);
    assert Flatten(y) == a + [LF];
    hide FeedAll, Flatten, Whole, Lines, Complete, Tail;
    TogetherPasses(env, a);
    LongTailFails(env, a);
    FeedFirst(env, a);
    FeedAfterEnd(env, a, [LF]);
  }

  /** The events never depend on the cut of any prefix exactly when every live line fits. */
  lemma ChunkIndependenceIsExact(env: Env, data: Bytes)
    ensures LinesFit(env, data) <==> forall a :: a <= data ==> CutFree(env, a)
  {
    if LinesFit(env, data) {
      forall a | a <= data
        ensures CutFree(env, a)
      {
        assert data == a + data[|a|..];
        PrefixFits(env, a, data[|a|..]);
        forall x, y | Flatten(x) == a && Flatten(y) == a
          ensures FeedAll(env, NEW_SESSION, x).st == FeedAll(env, NEW_SESSION, y).st
        {
          ChunkIndependence(env, x, y);
        }
      }
    } else {
      var lines := Complete(data);
      var k :| 0 <= k < |lines| && !Lines(env, INITIAL, lines[..k]).finished && |lines[k]| > LINE_LIMIT;
      var a, _ := UpToLine(data, k);
      LongLineDepends(env, a);
      assert a + [LF] <= data;
    }
  }
}
