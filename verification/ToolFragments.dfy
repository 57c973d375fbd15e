/** Half-received tool calls: what a slot holds depends only on its own fragments. */
module ToolFragments {
  import opened Common
  import opened Json
  import opened Bridge
  import opened Response
  import opened Translator

  // ---------------------------------------------------------------- one slot

  /** The fragments addressed to one slot, in arrival order. */
  function ForSlot(fs: seq<Fragment>, slot: nat): seq<Fragment> {
    if fs == [] then []
    else ForSlot(fs[..|fs| - 1], slot) + (if Slot(fs[|fs| - 1]) == slot then [fs[|fs| - 1]] else [])
  }

  function AbsorbAll(codec: Codec, fs: seq<Fragment>): Tool {
    if fs == [] then NEW_TOOL else Absorb(codec, AbsorbAll(codec, fs[..|fs| - 1]), fs[|fs| - 1])
  }

  /** Routing a mixed stream fills each slot with the fold of that slot's own fragments. */
  lemma {:induction false} SlotsAreIndependent(codec: Codec, fs: seq<Fragment>)
    ensures forall k: nat :: k in RouteAll(codec, map[], fs) <==> ForSlot(fs, k) != []
    ensures forall k: nat :: k in RouteAll(codec, map[], fs)
                        ==> RouteAll(codec, map[], fs)[k] == AbsorbAll(codec, ForSlot(fs, k))
    decreases |fs|
  {
    if fs != [] {
      var front, last := fs[..|fs| - 1], fs[|fs| - 1];
      SlotsAreIndependent(codec, front);
      var slot := Slot(last);
      var own := ForSlot(front, slot);
      assert ForSlot(fs, slot) == own + [last];
      assert (own + [last])[..|own|] == own;
      assert AbsorbAll(codec, own + [last]) == Absorb(codec, AbsorbAll(codec, own), last);
      forall k: nat | k != slot
        ensures ForSlot(fs, k) == ForSlot(front, k)
      {}
    }
  }

  /** Two interleavings with the same order per slot build the same tool calls. */
  lemma InterleavingIsIrrelevant(codec: Codec, fs: seq<Fragment>, gs: seq<Fragment>)
    requires forall k: nat :: ForSlot(fs, k) == ForSlot(gs, k)
    ensures RouteAll(codec, map[], fs) == RouteAll(codec, map[], gs)
  {
    SlotsAreIndependent(codec, fs);
    SlotsAreIndependent(codec, gs);
    assert RouteAll(codec, map[], fs).Keys == RouteAll(codec, map[], gs).Keys;
  }

  // ---------------------------------------------------------------- meaning of a slot

  function IdIn(f: Fragment): Option<string> {
    if f.Call? then NonEmpty(StrAt(f.call, "id")) else None
  }

  function NameIn(f: Fragment): Option<string> {
    if f.Call? && ObjAt(f.call, "function").Some? then NonEmpty(StrAt(ObjAt(f.call, "function").value, "name"))
    else NonEmpty(StrAt(f.call, "name"))
  }

  function ArgumentsIn(f: Fragment): Option<Json> {
    if f.Legacy? then At(f.call, "arguments")
    else if ObjAt(f.call, "function").Some? then At(ObjAt(f.call, "function").value, "arguments")
    else None
  }

  predicate HoldsObject(f: Fragment) {
    ArgumentsIn(f).Some? && ArgumentsIn(f).value.Obj?
  }

  function TextIn(f: Fragment): string {
    GetOr(AsStr(ArgumentsIn(f)), "")
  }

  /** `v` is the first value given among the fragments, or nothing if none gives one. */
  ghost predicate FirstGiven(given: Fragment -> Option<string>, fs: seq<Fragment>, v: Option<string>) {
    if v.None? then forall i :: 0 <= i < |fs| ==> given(fs[i]).None?
    else exists i :: 0 <= i < |fs| && given(fs[i]) == v && forall j :: 0 <= j < i ==> given(fs[j]).None?
  }

  function Texts(fs: seq<Fragment>): string {
    if fs == [] then "" else Texts(fs[..|fs| - 1]) + TextIn(fs[|fs| - 1])
  }

  /** The string fragments since the last object fragment, behind that object's text. */
  ghost predicate ArgumentsSince(codec: Codec, fs: seq<Fragment>, arguments: string) {
    if forall i :: 0 <= i < |fs| ==> !HoldsObject(fs[i]) then arguments == Texts(fs)
    else
      exists i :: && 0 <= i < |fs| && HoldsObject(fs[i]) && (forall j :: i < j < |fs| ==> !HoldsObject(fs[j]))
                  && arguments == codec.encode(ArgumentsIn(fs[i]).value) + Texts(fs[i + 1..])
  }

  lemma FirstGivenGrows(given: Fragment -> Option<string>, fs: seq<Fragment>, v: Option<string>, f: Fragment)
    requires FirstGiven(given, fs, v)
    ensures FirstGiven(given, fs + [f], OrElse(v, given(f)))
  {
    var all := fs + [f];
    if v.Some? {
      var i :| 0 <= i < |fs| && given(fs[i]) == v && forall j :: 0 <= j < i ==> given(fs[j]).None?;
      assert given(all[i]) == v && forall j :: 0 <= j < i ==> all[j] == fs[j];
    } else {
      assert forall j :: 0 <= j < |fs| ==> given(all[j]).None?;
      assert all[|fs|] == f;
    }
  }

  lemma TextsGrow(fs: seq<Fragment>, f: Fragment)
    ensures Texts(fs + [f]) == Texts(fs) + TextIn(f)
  {
    assert (fs + [f])[..|fs|] == fs;
  }

  lemma ArgumentsGrowSince(codec: Codec, fs: seq<Fragment>, i: nat, f: Fragment)
    requires i < |fs| && HoldsObject(fs[i]) && (forall j :: i < j < |fs| ==> !HoldsObject(fs[j])) && !HoldsObject(f)
    ensures ArgumentsSince(codec, fs + [f], codec.encode(ArgumentsIn(fs[i]).value) + Texts(fs[i + 1..]) + TextIn(f))
  {
    var all := fs + [f];
    TextsGrow(fs[i + 1..], f);
    assert all[i + 1..] == fs[i + 1..] + [f];
    assert all[i] == fs[i] && forall j :: i < j < |all| ==> !HoldsObject(all[j]);
    Regroup(codec.encode(ArgumentsIn(fs[i]).value), Texts(fs[i + 1..]), TextIn(f));
  }

  lemma ArgumentsReplaced(codec: Codec, fs: seq<Fragment>, f: Fragment)
    requires HoldsObject(f)
    ensures ArgumentsSince(codec, fs + [f], codec.encode(ArgumentsIn(f).value))
  {
    var all, text := fs + [f], codec.encode(ArgumentsIn(f).value);
    assert all[|fs|] == f && all[|fs| + 1..] == [] && Texts([]) == "";
    assert text + "" == text;
  }

  lemma ArgumentsGrowPlain(codec: Codec, fs: seq<Fragment>, f: Fragment)
    requires !HoldsObject(f) && forall i :: 0 <= i < |fs| ==> !HoldsObject(fs[i])
    ensures ArgumentsSince(codec, fs + [f], Texts(fs) + TextIn(f))
  {
    var all := fs + [f];
    assert all[|fs|] == f;
    assert forall i :: 0 <= i < |all| ==> !HoldsObject(all[i]);
    TextsGrow(fs, f);
  }

  lemma ArgumentsGrow(codec: Codec, fs: seq<Fragment>, arguments: string, f: Fragment)
    requires ArgumentsSince(codec, fs, arguments)
    ensures ArgumentsSince(codec, fs + [f], AppendArguments(codec, arguments, ArgumentsIn(f)))
  {
    if HoldsObject(f) {
      ArgumentsReplaced(codec, fs, f);
    } else {
      assert AppendArguments(codec, arguments, ArgumentsIn(f)) == arguments + TextIn(f);
      if forall i :: 0 <= i < |fs| ==> !HoldsObject(fs[i]) {
        ArgumentsGrowPlain(codec, fs, f);
      } else {
        var i :| && 0 <= i < |fs| && HoldsObject(fs[i]) && (forall j :: i < j < |fs| ==> !HoldsObject(fs[j]))
                 && arguments == codec.encode(ArgumentsIn(fs[i]).value) + Texts(fs[i + 1..]);
        hide ArgumentsSince;
        ArgumentsGrowSince(codec, fs, i, f);
      }
    }
  }

  lemma AbsorbParts(codec: Codec, t: Tool, f: Fragment)
    ensures Absorb(codec, t, f)
            == Tool(OrElse(t.id, IdIn(f)), OrElse(t.name, NameIn(f)), AppendArguments(codec, t.arguments, ArgumentsIn(f)))
  {}

  /** First non-empty id, first non-empty name, and the arguments since the last object. */
  lemma {:induction false} SlotMeaning(codec: Codec, fs: seq<Fragment>)
    ensures var t := AbsorbAll(codec, fs);
            FirstGiven(IdIn, fs, t.id) && FirstGiven(NameIn, fs, t.name) && ArgumentsSince(codec, fs, t.arguments)
    decreases |fs|
  {
    if fs != [] {
      hide FirstGiven, ArgumentsSince, Absorb, AppendArguments;
      var front, last := fs[..|fs| - 1], fs[|fs| - 1];
      SlotMeaning(codec, front);
      var t := AbsorbAll(codec, front);
      assert fs == front + [last];
      AbsorbParts(codec, t, last);
      FirstGivenGrows(IdIn, front, t.id, last);
      FirstGivenGrows(NameIn, front, t.name, last);
      ArgumentsGrow(codec, front, t.arguments, last);
    }
  }

  // ---------------------------------------------------------------- order of the blocks

  /** The slots in the order their blocks are sent. */
  function Slots(tools: map<nat, Tool>): seq<nat>
    decreases |tools|
  {
    if tools == map[] then []
    else
      var k := Least(tools.Keys);
      assert (tools - {k}).Keys == tools.Keys - {k};
      [k] + Slots(tools - {k})
  }

  lemma {:induction false} SlotsCover(tools: map<nat, Tool>, k: nat)
    ensures k in Slots(tools) <==> k in tools
    decreases |tools|
  {
    if tools != map[] {
      var least := Least(tools.Keys);
      assert (tools - {least}).Keys == tools.Keys - {least};
      SlotsCover(tools - {least}, k);
    }
  }

  lemma {:induction false} SlotsAscend(tools: map<nat, Tool>, i: nat, j: nat)
    requires i < j < |Slots(tools)|
    ensures Slots(tools)[i] < Slots(tools)[j]
    decreases |tools|
  {
    var least := Least(tools.Keys);
    var rest := tools - {least};
    assert rest.Keys == tools.Keys - {least};
    assert Slots(tools)[j] == Slots(rest)[j - 1];
    if i > 0 {
      SlotsAscend(rest, i - 1, j - 1);
    } else {
      SlotsCover(rest, Slots(rest)[j - 1]);
    }
  }

  lemma {:induction false} BlockAt(tools: map<nat, Tool>, i: nat)
    requires i < |Slots(tools)|
    ensures |Slots(tools)| == |InOrder(tools)|
    ensures Slots(tools)[i] in tools && InOrder(tools)[i] == tools[Slots(tools)[i]]
    decreases |tools|
  {
    var least := Least(tools.Keys);
    var rest := tools - {least};
    assert rest.Keys == tools.Keys - {least};
    if i > 0 {
      BlockAt(rest, i - 1);
    } else if rest != map[] {
      BlockAt(rest, 0);
    }
  }

  /** Blocks are sent in strictly ascending slot order, each slot exactly once. */
  lemma BlocksAscend(tools: map<nat, Tool>)
    ensures |Slots(tools)| == |InOrder(tools)|
    ensures forall k: nat :: k in Slots(tools) <==> k in tools
    ensures forall i :: 0 <= i < |Slots(tools)| ==>
                          Slots(tools)[i] in tools && InOrder(tools)[i] == tools[Slots(tools)[i]]
    ensures forall i, j :: 0 <= i < j < |Slots(tools)| ==> Slots(tools)[i] < Slots(tools)[j]
  {
    forall k: nat ensures k in Slots(tools) <==> k in tools {
      SlotsCover(tools, k);
    }
    forall i | 0 <= i < |Slots(tools)|
      ensures |Slots(tools)| == |InOrder(tools)|
      ensures Slots(tools)[i] in tools && InOrder(tools)[i] == tools[Slots(tools)[i]]
    {
      BlockAt(tools, i);
    }
    if tools != map[] {
      BlockAt(tools, 0);
    }
    forall i, j | 0 <= i < j < |Slots(tools)| ensures Slots(tools)[i] < Slots(tools)[j] {
      SlotsAscend(tools, i, j);
    }
  }

  // ---------------------------------------------------------------- frames

  predicate Accepted(frame: Json) {
    frame.Obj? && ("error" in frame.fields ==> frame.fields["error"].Null?)
  }

  function FrameDelta(frame: Json): Option<Fields> {
    if frame.Obj? && Choice(frame.fields).Some? then
      var choice := Choice(frame.fields).value;
      if "delta" in choice && choice["delta"].Obj? then Some(choice["delta"].fields)
      else if "message" in choice && choice["message"].Obj? then Some(choice["message"].fields)
      else None
    else None
  }

  function FrameFragments(frame: Json): seq<Fragment> {
    var delta := FrameDelta(frame);
    if delta.Some? then Fragments(delta.value) else []
  }

  function StreamFragments(frames: seq<Json>): seq<Fragment> {
    if frames == [] then []
    else StreamFragments(frames[..|frames| - 1]) + FrameFragments(frames[|frames| - 1])
  }

  function ProcessAll(env: Env, s: State, frames: seq<Json>): State {
    if frames == [] then s
    else ProcessValue(env, ProcessAll(env, s, frames[..|frames| - 1]), frames[|frames| - 1]).st
  }

  lemma {:induction false} RouteConcat(codec: Codec, tools: map<nat, Tool>, a: seq<Fragment>, b: seq<Fragment>)
    ensures RouteAll(codec, tools, a + b) == RouteAll(codec, RouteAll(codec, tools, a), b)
    decreases |b|
  {
    if b == [] {
      assert a + b == a;
    } else {
      RouteConcat(codec, tools, a, b[..|b| - 1]);
      assert (a + b)[..|a + b| - 1] == a + b[..|b| - 1];
    }
  }

  lemma SpeechKeepsTools(env: Env, s: State, text: string)
    ensures EmitText(env, s, text).tools == s.tools
    ensures EmitThinking(env, s, text).tools == s.tools
    ensures CloseOpen(env, s).tools == s.tools
  {}

  lemma {:induction false} PartsKeepTools(env: Env, s: State, parts: seq<Json>)
    ensures EmitParts(env, s, parts).tools == s.tools
    decreases |parts|
  {
    if parts != [] {
      PartsKeepTools(env, s, parts[..|parts| - 1]);
      SpeechKeepsTools(env, EmitParts(env, s, parts[..|parts| - 1]), StreamPart(parts[|parts| - 1]));
    }
  }

  lemma DeltaTools(env: Env, s: State, delta: Fields)
    ensures ProcessDelta(env, s, delta).tools == RouteAll(env.codec, s.tools, Fragments(delta))
  {
    SpeechKeepsTools(env, s, Reasoning(delta));
    var thought := EmitThinking(env, s, Reasoning(delta));
    var content := At(delta, "content");
    if content.Some? && content.value.Arr? {
      PartsKeepTools(env, thought, content.value.items);
    } else if content.Some? && content.value.Str? {
      SpeechKeepsTools(env, thought, content.value.s);
    }
  }

  lemma ValueTools(env: Env, s: State, frame: Json)
    requires Accepted(frame)
    ensures ProcessValue(env, s, frame).st.tools == RouteAll(env.codec, s.tools, FrameFragments(frame))
  {
    var noted := NoteHeader(s, frame);
    var choice := Choice(frame.fields);
    if choice.Some? {
      var delta := DeltaOf(choice.value);
      if delta.Some? {
        DeltaTools(env, noted, delta.value);
      }
      var s1 := if delta.Some? then ProcessDelta(env, noted, delta.value) else noted;
      SpeechKeepsTools(env, s1.(finishReason := StrAt(choice.value, "finish_reason")), "");
    }
  }

  lemma {:induction false} StreamTools(env: Env, frames: seq<Json>)
    requires forall i :: 0 <= i < |frames| ==> Accepted(frames[i])
    ensures ProcessAll(env, INITIAL, frames).tools == RouteAll(env.codec, map[], StreamFragments(frames))
    decreases |frames|
  {
    if frames != [] {
      var front, last := frames[..|frames| - 1], frames[|frames| - 1];
      StreamTools(env, front);
      ValueTools(env, ProcessAll(env, INITIAL, front), last);
      RouteConcat(env.codec, map[], StreamFragments(front), FrameFragments(last));
    }
  }

  /**
   Tool fragments commute: frame streams with the same fragment order per slot
   end with the same tool calls, so the closing sequence sends the same blocks.
   */
  lemma ToolFragmentsCommute(env: Env, x: seq<Json>, y: seq<Json>, s: State)
    requires forall i :: 0 <= i < |x| ==> Accepted(x[i])
    requires forall i :: 0 <= i < |y| ==> Accepted(y[i])
    requires forall k: nat :: ForSlot(StreamFragments(x), k) == ForSlot(StreamFragments(y), k)
    ensures var tx, ty := ProcessAll(env, INITIAL, x).tools, ProcessAll(env, INITIAL, y).tools;
            tx == ty && SendTools(env, s, InOrder(tx), 0) == SendTools(env, s, InOrder(ty), 0)
    ensures forall k :: k in ProcessAll(env, INITIAL, x).tools
                        ==> ProcessAll(env, INITIAL, x).tools[k] == AbsorbAll(env.codec, ForSlot(StreamFragments(x), k))
  {
    StreamTools(env, x);
    StreamTools(env, y);
    InterleavingIsIrrelevant(env.codec, StreamFragments(x), StreamFragments(y));
    SlotsAreIndependent(env.codec, StreamFragments(x));
  }

  // ---------------------------------------------------------------- where fragments go

  /** The slot of a call: the index it names, if that is a count, else its position in the list. */
  function SlotOf(call: Fields, position: nat): nat {
    if "index" in call && call["index"].Int? && 0 <= call["index"].n < 0x1_0000_0000_0000_0000 then call["index"].n else position
  }

  /** Every object in the list is a fragment for its slot, in order; a legacy call comes last, for slot 0. */
  lemma FragmentsInOrder(delta: Fields)
    ensures var calls := if "tool_calls" in delta && delta["tool_calls"].Arr? then delta["tool_calls"].items else [];
            && (forall i :: 0 <= i < |calls| && calls[i].Obj? ==> Call(SlotOf(calls[i].fields, i), calls[i].fields) in Fragments(delta))
            && ((forall i :: 0 <= i < |calls| ==> calls[i].Obj?) ==>
                  && |Fragments(delta)| == |calls| + (if "function_call" in delta && delta["function_call"].Obj? then 1 else 0)
                  && forall i :: 0 <= i < |calls| ==> Fragments(delta)[i] == Call(SlotOf(calls[i].fields, i), calls[i].fields))
            && ("function_call" in delta && delta["function_call"].Obj? ==>
                  && Fragments(delta) != []
                  && Fragments(delta)[|Fragments(delta)| - 1] == Legacy(delta["function_call"].fields)
                  && Slot(Fragments(delta)[|Fragments(delta)| - 1]) == 0)
  {
    var calls := GetOr(ArrAt(delta, "tool_calls"), []);
    CallFragmentsInOrder(calls, |calls|);
    hide CallFragments;
  }

  lemma {:induction false} CallFragmentsInOrder(calls: seq<Json>, n: nat)
    requires n <= |calls|
    ensures forall i :: 0 <= i < n && calls[i].Obj? ==> Call(SlotOf(calls[i].fields, i), calls[i].fields) in CallFragments(calls, n)
    ensures (forall i :: 0 <= i < n ==> calls[i].Obj?) ==>
              && |CallFragments(calls, n)| == n
              && forall i :: 0 <= i < n ==> CallFragments(calls, n)[i] == Call(SlotOf(calls[i].fields, i), calls[i].fields)
    decreases n
  {
    if n > 0 {
      CallFragmentsInOrder(calls, n - 1);
    }
  }
}
