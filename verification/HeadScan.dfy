/** The request-head fast path: a prefix scan of a JSON body (src/handlers.rs). */
module HeadScan {
  import opened Common

  const COMMA: byte := 44
  const COLON: byte := 58
  const OPEN_ARRAY: byte := 91
  const BACKSLASH: byte := 92
  const CLOSE_ARRAY: byte := 93
  const OPEN_OBJECT: byte := 123
  const CLOSE_OBJECT: byte := 125

  const TRUE_TEXT: Bytes := [116, 114, 117, 101]
  const FALSE_TEXT: Bytes := [102, 97, 108, 115, 101]
  const NULL_TEXT: Bytes := [110, 117, 108, 108]

  /** What the JSON library makes of one string token, quotes included. */
  type Decoder = Bytes -> Option<string>

  datatype Head = Head(model: string, stream: bool)

  datatype PrefixScan = NeedMore | Found(head: Head)

  /** The top-level fields met so far. */
  datatype Seen = Seen(model: Option<string>, stream: Option<bool>)

  const NOTHING := Seen(None, None)

  predicate Complete(seen: Seen) {
    seen.model.Some? && seen.stream.Some?
  }

  predicate IsSpace(b: byte) {
    b == 32 || b == 10 || b == 13 || b == 9
  }

  function SkipWs(d: Bytes, i: nat): (j: nat)
    requires i <= |d|
    ensures i <= j <= |d|
    ensures forall k :: i <= k < j ==> IsSpace(d[k])
    ensures j < |d| ==> !IsSpace(d[j])
    decreases |d| - i
  {
    if i < |d| && IsSpace(d[i]) then SkipWs(d, i + 1) else i
  }

  /** The closing quote of a string whose content starts at `i`. */
  function QuoteFrom(d: Bytes, i: nat, escaped: bool): (e: Option<nat>)
    requires i <= |d|
    ensures e.Some? ==> i <= e.value < |d| && d[e.value] == QUOTE
    decreases |d| - i
  {
    if i == |d| then None
    else if escaped then QuoteFrom(d, i + 1, false)
    else if d[i] == BACKSLASH then QuoteFrom(d, i + 1, true)
    else if d[i] == QUOTE then Some(i)
    else QuoteFrom(d, i + 1, false)
  }

  predicate TextAt(d: Bytes, i: nat, text: Bytes) {
    i + |text| <= |d| && d[i..i + |text|] == text
  }

  /** Where to go on after a top-level key whose value starts at `j`, and what it told; none if the value is cut off. */
  function AfterKey(decode: Decoder, d: Bytes, key: string, keyEnd: nat, j: nat, seen: Seen): (r: Option<(nat, Seen)>)
    requires keyEnd < j <= |d|
    ensures r.Some? ==> keyEnd < r.value.0 <= |d|
  {
    if key == "model" then
      if j < |d| && d[j] == QUOTE then
        var e := QuoteFrom(d, j + 1, false);
        if e.None? then None
        else
          var model := decode(d[j..e.value + 1]);
          Some((e.value + 1, if model.Some? then seen.(model := model) else seen))
      else Some((j, seen))
    else if key == "stream" then
      if TextAt(d, j, TRUE_TEXT) then Some((j + 4, seen.(stream := Some(true))))
      else if TextAt(d, j, FALSE_TEXT) then Some((j + 5, seen.(stream := Some(false))))
      else Some((j, seen))
    else if key == "stream_options" then Some((j, seen))
    else Some((keyEnd + 1, seen))
  }

  /** The scanner's loop as a function of its position, depth and findings. */
  function ScanFrom(decode: Decoder, d: Bytes, at: nat, depth: int, seen: Seen): PrefixScan
    requires at <= |d|
    decreases |d| - at, 2
  {
    var i := SkipWs(d, at);
    if i == |d| then NeedMore else ScanByte(decode, d, i, depth, seen)
  }

  /** What one byte that is not white space makes the loop do. */
  datatype Move = Halt | Go(next: nat, depth: int) | Top(end: nat)

  function MoveAt(d: Bytes, i: nat, depth: int): (m: Move)
    requires i < |d|
    ensures m.Go? ==> i < m.next <= |d|
    ensures m.Top? ==> depth == 1 && i < m.end < |d|
  {
    if d[i] == CLOSE_OBJECT then
      if depth == 1 then Halt else Go(i + 1, depth - 1)
    else if d[i] == OPEN_OBJECT || d[i] == OPEN_ARRAY then Go(i + 1, depth + 1)
    else if d[i] == CLOSE_ARRAY then Go(i + 1, depth - 1)
    else if d[i] == QUOTE then
      var end := QuoteFrom(d, i + 1, false);
      if end.None? then Halt
      else if depth != 1 then Go(end.value + 1, depth)
      else Top(end.value)
    else Go(i + 1, depth)
  }

  function ScanByte(decode: Decoder, d: Bytes, i: nat, depth: int, seen: Seen): PrefixScan
    requires i < |d|
    decreases |d| - i, 1
  {
    match MoveAt(d, i, depth)
    case Halt => NeedMore
    case Go(next, deeper) => ScanFrom(decode, d, next, deeper, seen)
    case Top(end) => TopString(decode, d, i, end, seen)
  }

  /** A string at the top level: a key if a colon follows, else a value. */
  function TopString(decode: Decoder, d: Bytes, i: nat, end: nat, seen: Seen): PrefixScan
    requires i < end < |d|
    decreases |d| - i, 0
  {
    var key := decode(d[i..end + 1]);
    if key.None? then NeedMore
    else
      var colon := SkipWs(d, end + 1);
      if colon == |d| || d[colon] != COLON then ScanFrom(decode, d, end + 1, 1, seen)
      else
        var after := AfterKey(decode, d, key.value, end, SkipWs(d, colon + 1), seen);
        if after.None? then NeedMore
        else
          var (next, told) := after.value;
          if Complete(told) then Found(Head(told.model.value, told.stream.value))
          else ScanFrom(decode, d, next, 1, told)
  }

  function Scan(decode: Decoder, d: Bytes): PrefixScan {
    var i := SkipWs(d, 0);
    if i == |d| || d[i] != OPEN_OBJECT then NeedMore else ScanFrom(decode, d, i + 1, 1, NOTHING)
  }

  lemma ScanOnce(decode: Decoder, d: Bytes, at: nat, depth: int, seen: Seen)
    requires at <= |d|
    ensures ScanFrom(decode, d, at, depth, seen)
         == if SkipWs(d, at) == |d| then NeedMore else ScanByte(decode, d, SkipWs(d, at), depth, seen)
    ensures at == |d| ==> SkipWs(d, at) == |d|
  {}

  // ---------------------------------------------------------------- the loops

  method SkipSpaces(d: Bytes, start: nat) returns (i: nat)
    requires start <= |d|
    ensures i == SkipWs(d, start)
  {
    i := start;
    while i < |d| && IsSpace(d[i])
      invariant start <= i <= |d| && SkipWs(d, start) == SkipWs(d, i)
    {
      i := i + 1;
    }
  }

  method FindStringEnd(d: Bytes, start: nat) returns (end: Option<nat>)
    requires start < |d|
    ensures end == QuoteFrom(d, start + 1, false)
  {
    var escaped, i := false, start + 1;
    while i < |d|
      invariant start < i <= |d| && QuoteFrom(d, start + 1, false) == QuoteFrom(d, i, escaped)
    {
      var b := d[i];
      if escaped {
        escaped := false;
      } else if b == BACKSLASH {
        escaped := true;
      } else if b == QUOTE {
        return Some(i);
      }
      i := i + 1;
    }
    return None;
  }

  /** One string at the top level: either the scan is over, or it goes on at `next`. */
  method TakeTopString(decode: Decoder, d: Bytes, i: nat, end: nat, seen: Seen)
    returns (over: Option<PrefixScan>, next: nat, told: Seen)
    requires i < end < |d| && !Complete(seen)
    ensures i < next <= |d| && !Complete(told)
    ensures TopString(decode, d, i, end, seen) == if over.Some? then over.value else ScanFrom(decode, d, next, 1, told)
  {
    hide SkipWs, AfterKey, ScanFrom;
    over, next, told := None, end + 1, seen;
    var key := decode(d[i..end + 1]);
    if key.None? {
      over := Some(NeedMore);
      return;
    }
    var j := SkipSpaces(d, end + 1);
    if j == |d| || d[j] != COLON {
      return;
    }
    j := SkipSpaces(d, j + 1);
    var after := AfterKey(decode, d, key.value, end, j, seen);
    if after.None? {
      over := Some(NeedMore);
    } else if Complete(after.value.1) {
      over := Some(Found(Head(after.value.1.model.value, after.value.1.stream.value)));
    } else {
      next, told := after.value.0, after.value.1;
    }
  }

  method NextMove(d: Bytes, i: nat, depth: int) returns (m: Move)
    requires i < |d|
    ensures m == MoveAt(d, i, depth)
  {
    if d[i] == CLOSE_OBJECT {
      return if depth == 1 then Halt else Go(i + 1, depth - 1);
    } else if d[i] == OPEN_OBJECT || d[i] == OPEN_ARRAY {
      return Go(i + 1, depth + 1);
    } else if d[i] == CLOSE_ARRAY {
      return Go(i + 1, depth - 1);
    } else if d[i] == QUOTE {
      var end := FindStringEnd(d, i);
      if end.None? {
        return Halt;
      }
      return if depth == 1 then Top(end.value) else Go(end.value + 1, depth);
    }
    return Go(i + 1, depth);
  }

  method ScanHeadPrefix(decode: Decoder, d: Bytes) returns (r: PrefixScan)
    ensures r == Scan(decode, d)
  {
    var i := SkipSpaces(d, 0);
    if i == |d| || d[i] != OPEN_OBJECT {
      return NeedMore;
    }
    i := i + 1;
    var seen, depth := NOTHING, 1;
    assert Scan(decode, d) == ScanFrom(decode, d, i, depth, seen);
    hide Scan, SkipWs, MoveAt, TopString, ScanFrom;
    while i < |d|
      invariant i <= |d| && !Complete(seen)
      invariant Scan(decode, d) == ScanFrom(decode, d, i, depth, seen)
      decreases |d| - i
    {
      ScanOnce(decode, d, i, depth, seen);
      i := SkipSpaces(d, i);
      if i >= |d| {
        return NeedMore;
      }
      var move := NextMove(d, i, depth);
      match move {
        case Halt => return NeedMore;
        case Go(next, deeper) => i, depth := next, deeper;
        case Top(end) =>
          var over;
          over, i, seen := TakeTopString(decode, d, i, end, seen);
          if over.Some? {
            return over.value;
          }
      }
    }
    ScanOnce(decode, d, i, depth, seen);
    return NeedMore;
  }

  // ---------------------------------------------------------------- more bytes never change a finding

  lemma {:induction false} SkipWsLonger(p: Bytes, s: Bytes, i: nat)
    requires i <= |p| && SkipWs(p, i) < |p|
    ensures SkipWs(p + s, i) == SkipWs(p, i)
    decreases |p| - i
  {
    if IsSpace(p[i]) {
      SkipWsLonger(p, s, i + 1);
    }
  }

  lemma {:induction false} QuoteFromLonger(p: Bytes, s: Bytes, i: nat, escaped: bool)
    requires i <= |p| && QuoteFrom(p, i, escaped).Some?
    ensures QuoteFrom(p + s, i, escaped) == QuoteFrom(p, i, escaped)
    decreases |p| - i
  {
    if escaped {
      QuoteFromLonger(p, s, i + 1, false);
    } else if p[i] == BACKSLASH {
      QuoteFromLonger(p, s, i + 1, true);
    } else if p[i] != QUOTE {
      QuoteFromLonger(p, s, i + 1, false);
    }
  }

  predicate Structural(b: byte) {
    b == QUOTE || b == OPEN_OBJECT || b == CLOSE_OBJECT || b == OPEN_ARRAY || b == CLOSE_ARRAY
  }

  lemma SkipWsStep(d: Bytes, i: nat)
    requires i < |d| && IsSpace(d[i])
    ensures SkipWs(d, i) == SkipWs(d, i + 1)
  {}

  lemma SkipWsStays(d: Bytes, i: nat)
    requires i < |d| && !IsSpace(d[i])
    ensures SkipWs(d, i) == i
  {}

  lemma GlideOne(decode: Decoder, d: Bytes, i: nat, depth: int, seen: Seen)
    requires i < |d| && !Structural(d[i])
    ensures ScanFrom(decode, d, i, depth, seen) == ScanFrom(decode, d, i + 1, depth, seen)
  {
    hide ScanFrom, SkipWs, QuoteFrom, TopString;
    ScanOnce(decode, d, i, depth, seen);
    if IsSpace(d[i]) {
      SkipWsStep(d, i);
      ScanOnce(decode, d, i + 1, depth, seen);
    } else {
      SkipWsStays(d, i);
    }
  }

  /** Bytes that open or close nothing are passed over. */
  lemma {:induction false} Glide(decode: Decoder, d: Bytes, i: nat, e: nat, depth: int, seen: Seen)
    requires i <= e <= |d| && forall k :: i <= k < e ==> !Structural(d[k])
    ensures ScanFrom(decode, d, i, depth, seen) == ScanFrom(decode, d, e, depth, seen)
    decreases e - i
  {
    if i < e {
      hide ScanFrom;
      Glide(decode, d, i + 1, e, depth, seen);
      GlideOne(decode, d, i, depth, seen);
    }
  }

  /** If nothing structural is left, nothing will be found. */
  lemma GlideOff(decode: Decoder, d: Bytes, i: nat, depth: int, seen: Seen)
    requires i <= |d| && forall k :: i <= k < |d| ==> !Structural(d[k])
    ensures ScanFrom(decode, d, i, depth, seen) == NeedMore
  {
    Glide(decode, d, i, |d|, depth, seen);
  }

  lemma TextAtLonger(p: Bytes, s: Bytes, j: nat, text: Bytes)
    requires j <= |p|
    ensures TextAt(p, j, text) ==> TextAt(p + s, j, text)
    ensures TextAt(p + s, j, text) && !TextAt(p, j, text) ==> j + |text| > |p| && p[j..] == text[..|p| - j]
  {
    var d := p + s;
    if j + |text| <= |p| {
      assert d[j..j + |text|] == p[j..j + |text|];
    } else if TextAt(d, j, text) {
      assert d[j..j + |text|][..|p| - j] == p[j..];
    }
  }

  /** A literal cut off by the end of the data holds nothing structural. */
  lemma CutLiteral(decode: Decoder, p: Bytes, j: nat, text: Bytes, seen: Seen)
    requires j <= |p| && |p| - j <= |text| && p[j..] == text[..|p| - j] && (text == TRUE_TEXT || text == FALSE_TEXT)
    ensures ScanFrom(decode, p, j, 1, seen) == NeedMore
  {
    forall k | j <= k < |p| ensures !Structural(p[k]) {
      assert p[k] == p[j..][k - j] == text[k - j];
    }
    GlideOff(decode, p, j, 1, seen);
  }

  lemma LiteralsDiffer(d: Bytes, j: nat)
    ensures !(TextAt(d, j, TRUE_TEXT) && TextAt(d, j, FALSE_TEXT))
  {
    if TextAt(d, j, TRUE_TEXT) {
      assert d[j] == d[j..j + 4][0] == 116;
      if j + 5 <= |d| {
        assert d[j..j + 5][0] == 116;
      }
    }
  }

  /** What a key tells is not changed by more bytes, unless nothing can be found in these. */
  lemma {:induction false} AfterKeyLonger(decode: Decoder, p: Bytes, s: Bytes, key: string, keyEnd: nat, j: nat, seen: Seen)
    requires keyEnd < j < |p|
    requires AfterKey(decode, p, key, keyEnd, j, seen).Some?
    ensures var a := AfterKey(decode, p, key, keyEnd, j, seen);
            || AfterKey(decode, p + s, key, keyEnd, j, seen) == a
            || (a.value.1 == seen && ScanFrom(decode, p, a.value.0, 1, seen) == NeedMore)
  {
    var d := p + s;
    if key == "model" {
      if p[j] == QUOTE {
        QuoteFromLonger(p, s, j + 1, false);
        var e := QuoteFrom(p, j + 1, false).value;
        assert d[j..e + 1] == p[j..e + 1];
      }
    } else if key == "stream" {
      TextAtLonger(p, s, j, TRUE_TEXT);
      TextAtLonger(p, s, j, FALSE_TEXT);
      if !TextAt(p, j, TRUE_TEXT) && !TextAt(p, j, FALSE_TEXT) {
        if TextAt(d, j, TRUE_TEXT) {
          CutLiteral(decode, p, j, TRUE_TEXT, seen);
        } else if TextAt(d, j, FALSE_TEXT) {
          CutLiteral(decode, p, j, FALSE_TEXT, seen);
        }
      } else {
        LiteralsDiffer(d, j);
      }
    }
  }

  lemma {:induction false} TopStringLonger(decode: Decoder, p: Bytes, s: Bytes, i: nat, end: nat, seen: Seen)
    requires i < end < |p| && !Complete(seen) && TopString(decode, p, i, end, seen).Found?
    ensures TopString(decode, p + s, i, end, seen) == TopString(decode, p, i, end, seen)
    decreases |p| - i, 0
  {
    hide SkipWs, AfterKey, ScanFrom;
    var d := p + s;
    assert d[i..end + 1] == p[i..end + 1];
    var colon := SkipWs(p, end + 1);
    if colon == |p| {
      GlideOff(decode, p, end + 1, 1, seen);
      assert false;
    }
    SkipWsLonger(p, s, end + 1);
    if p[colon] != COLON {
      FoundStays(decode, p, s, end + 1, 1, seen);
    } else {
      var key, j := decode(p[i..end + 1]).value, SkipWs(p, colon + 1);
      if j < |p| {
        SkipWsLonger(p, s, colon + 1);
        AfterKeyLonger(decode, p, s, key, end, j, seen);
        var (next, told) := AfterKey(decode, p, key, end, j, seen).value;
        if !Complete(told) {
          FoundStays(decode, p, s, next, 1, told);
        }
      } else {
        KeyAtTheEnd(decode, p, key, end, colon, seen);
        assert false;
      }
    }
  }

  /** A key whose value has not arrived yet finds nothing. */
  lemma KeyAtTheEnd(decode: Decoder, p: Bytes, key: string, end: nat, colon: nat, seen: Seen)
    requires end < colon < |p| && p[colon] == COLON && SkipWs(p, end + 1) == colon && SkipWs(p, colon + 1) == |p|
    ensures var a := AfterKey(decode, p, key, end, |p|, seen);
            a.Some? && a.value.1 == seen && ScanFrom(decode, p, a.value.0, 1, seen) == NeedMore
  {
    GlideOff(decode, p, end + 1, 1, seen);
    GlideOff(decode, p, |p|, 1, seen);
  }

  /** Whatever the bytes are, a finding is final. */
  lemma {:induction false} FoundStays(decode: Decoder, p: Bytes, s: Bytes, at: nat, depth: int, seen: Seen)
    requires at <= |p| && !Complete(seen) && ScanFrom(decode, p, at, depth, seen).Found?
    ensures ScanFrom(decode, p + s, at, depth, seen) == ScanFrom(decode, p, at, depth, seen)
    decreases |p| - at, 1
  {
    var d, i := p + s, SkipWs(p, at);
    hide SkipWs, MoveAt, TopString, ScanFrom, Complete;
    ScanOnce(decode, p, at, depth, seen);
    ScanOnce(decode, d, at, depth, seen);
    SkipWsLonger(p, s, at);
    MoveLonger(p, s, i, depth);
    match MoveAt(p, i, depth) {
      case Halt =>
      case Go(next, deeper) => FoundStays(decode, p, s, next, deeper, seen);
      case Top(end) => TopStringLonger(decode, p, s, i, end, seen);
    }
  }

  lemma MoveLonger(p: Bytes, s: Bytes, i: nat, depth: int)
    requires i < |p| && !MoveAt(p, i, depth).Halt?
    ensures MoveAt(p + s, i, depth) == MoveAt(p, i, depth)
  {
    hide QuoteFrom;
    if p[i] == QUOTE {
      QuoteFromLonger(p, s, i + 1, false);
    }
  }

  lemma ScanIsFinal(decode: Decoder, p: Bytes, s: Bytes)
    requires Scan(decode, p).Found?
    ensures Scan(decode, p + s) == Scan(decode, p)
  {
    SkipWsLonger(p, s, 0);
    FoundStays(decode, p, s, SkipWs(p, 0) + 1, 1, NOTHING);
  }
}
