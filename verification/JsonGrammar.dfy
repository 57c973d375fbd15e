/**
 JSON text as a byte grammar (sections 2 to 7 of RFC 8259), and the full parse
 of a request head that the prefix scan stands in for (src/handlers.rs).
 */
module JsonGrammar {
  import opened Common
  import opened HeadScan

  // ---------------------------------------------------------------- tokens

  predicate IsDigit(b: byte) {
    48 <= b <= 57
  }

  predicate IsHex(b: byte) {
    IsDigit(b) || 65 <= b <= 70 || 97 <= b <= 102
  }

  predicate IsEscape(b: byte) {
    b == QUOTE || b == BACKSLASH || b == 47 || b == 98 || b == 102 || b == 110 || b == 114 || b == 116
  }

  /** The end of a string whose content starts at `i`: just past its closing quote. */
  function StringFrom(d: Bytes, i: nat): (e: Option<nat>)
    requires i <= |d|
    ensures e.Some? ==> i < e.value <= |d|
    decreases |d| - i
  {
    if i == |d| || d[i] < 32 then None
    else if d[i] == QUOTE then Some(i + 1)
    else if d[i] != BACKSLASH then StringFrom(d, i + 1)
    else if i + 1 < |d| && IsEscape(d[i + 1]) then StringFrom(d, i + 2)
    else if i + 5 < |d| && d[i + 1] == 117 && IsHex(d[i + 2]) && IsHex(d[i + 3]) && IsHex(d[i + 4]) && IsHex(d[i + 5])
    then StringFrom(d, i + 6)
    else None
  }

  function StringEnd(d: Bytes, i: nat): (e: Option<nat>)
    requires i <= |d|
    ensures e.Some? ==> i + 1 < e.value <= |d| && d[i] == QUOTE
  {
    if i < |d| && d[i] == QUOTE then StringFrom(d, i + 1) else None
  }

  function Digits(d: Bytes, i: nat): (e: nat)
    requires i <= |d|
    ensures i <= e <= |d| && forall k :: i <= k < e ==> IsDigit(d[k])
    decreases |d| - i
  {
    if i < |d| && IsDigit(d[i]) then Digits(d, i + 1) else i
  }

  /** An integer part: zero, or digits that do not start with zero. */
  function IntegerEnd(d: Bytes, i: nat): (e: Option<nat>)
    requires i <= |d|
    ensures e.Some? ==> i < e.value <= |d| && forall k :: i <= k < e.value ==> !Structural(d[k])
  {
    if i == |d| || !IsDigit(d[i]) then None
    else if d[i] == 48 then Some(i + 1)
    else Some(Digits(d, i))
  }

  function FractionEnd(d: Bytes, i: nat): (e: Option<nat>)
    requires i <= |d|
    ensures e.Some? ==> i <= e.value <= |d| && forall k :: i <= k < e.value ==> !Structural(d[k])
  {
    if i < |d| && d[i] == 46 then
      var e := Digits(d, i + 1);
      if e == i + 1 then None else Some(e)
    else Some(i)
  }

  function ExponentEnd(d: Bytes, i: nat): (e: Option<nat>)
    requires i <= |d|
    ensures e.Some? ==> i <= e.value <= |d| && forall k :: i <= k < e.value ==> !Structural(d[k])
  {
    if i < |d| && (d[i] == 101 || d[i] == 69) then
      var from := if i + 1 < |d| && (d[i + 1] == 43 || d[i + 1] == 45) then i + 2 else i + 1;
      var e := Digits(d, from);
      if e == from then None else Some(e)
    else Some(i)
  }

  function NumberEnd(d: Bytes, i: nat): (e: Option<nat>)
    requires i <= |d|
    ensures e.Some? ==> i < e.value <= |d| && forall k :: i <= k < e.value ==> !Structural(d[k])
  {
    var whole := IntegerEnd(d, if i < |d| && d[i] == 45 then i + 1 else i);
    if whole.None? then None
    else
      var fraction := FractionEnd(d, whole.value);
      if fraction.None? then None else ExponentEnd(d, fraction.value)
  }

  function LiteralEnd(d: Bytes, i: nat): (e: Option<nat>)
    ensures e.Some? ==> i < e.value <= |d| && forall k :: i <= k < e.value ==> !Structural(d[k])
  {
    if TextAt(d, i, TRUE_TEXT) then PlainText(d, i, TRUE_TEXT); Some(i + 4)
    else if TextAt(d, i, FALSE_TEXT) then PlainText(d, i, FALSE_TEXT); Some(i + 5)
    else if TextAt(d, i, NULL_TEXT) then PlainText(d, i, NULL_TEXT); Some(i + 4)
    else None
  }

  lemma PlainText(d: Bytes, i: nat, text: Bytes)
    requires TextAt(d, i, text) && forall k :: 0 <= k < |text| ==> !Structural(text[k])
    ensures forall k :: i <= k < i + |text| ==> !Structural(d[k])
  {
    forall k | i <= k < i + |text| ensures !Structural(d[k]) {
      assert d[k] == d[i..i + |text|][k - i];
    }
  }

  // ---------------------------------------------------------------- values

  predicate At(d: Bytes, i: nat, b: byte) {
    i < |d| && d[i] == b
  }

  /** The end of the value that starts at `i`, if one does. */
  function ValueEnd(d: Bytes, i: nat): (e: Option<nat>)
    requires i <= |d|
    ensures e.Some? ==> i < e.value <= |d|
    decreases |d| - i, 1
  {
    if i == |d| then None
    else if d[i] == QUOTE then StringEnd(d, i)
    else if d[i] == OPEN_OBJECT then
      var j := SkipWs(d, i + 1);
      if At(d, j, CLOSE_OBJECT) then Some(j + 1) else MembersEnd(d, j)
    else if d[i] == OPEN_ARRAY then
      var j := SkipWs(d, i + 1);
      if At(d, j, CLOSE_ARRAY) then Some(j + 1) else ElementsEnd(d, j)
    else if LiteralEnd(d, i).Some? then LiteralEnd(d, i)
    else NumberEnd(d, i)
  }

  /** Where the value of the member that starts at `i` begins: past its key and the colon. */
  function KeyEnd(d: Bytes, i: nat): (e: Option<nat>)
    requires i <= |d|
    ensures e.Some? ==> StringEnd(d, i).Some? && StringEnd(d, i).value < e.value <= |d|
  {
    var key := StringEnd(d, i);
    if key.None? then None
    else
      var colon := SkipWs(d, key.value);
      if At(d, colon, COLON) then Some(SkipWs(d, colon + 1)) else None
  }

  function MembersEnd(d: Bytes, i: nat): (e: Option<nat>)
    requires i <= |d|
    ensures e.Some? ==> i < e.value <= |d|
    decreases |d| - i, 2
  {
    var value := KeyEnd(d, i);
    if value.None? then None
    else
      var end := ValueEnd(d, value.value);
      if end.None? then None
      else
        var next := SkipWs(d, end.value);
        if At(d, next, CLOSE_OBJECT) then Some(next + 1)
        else if At(d, next, COMMA) then MembersEnd(d, SkipWs(d, next + 1))
        else None
  }

  function ElementsEnd(d: Bytes, i: nat): (e: Option<nat>)
    requires i <= |d|
    ensures e.Some? ==> i < e.value <= |d|
    decreases |d| - i, 2
  {
    var end := ValueEnd(d, i);
    if end.None? then None
    else
      var next := SkipWs(d, end.value);
      if At(d, next, CLOSE_ARRAY) then Some(next + 1)
      else if At(d, next, COMMA) then ElementsEnd(d, SkipWs(d, next + 1))
      else None
  }

  // ---------------------------------------------------------------- the full parse of a head

  /** Fields read by the full parse; `options` only matters for duplicates. */
  datatype Parsed = Parsed(seen: Seen, options: bool, end: nat)

  predicate Borrowable(d: Bytes, i: nat, e: nat)
    requires i <= e <= |d|
  {
    BACKSLASH !in d[i..e]
  }

  /** One member's value; a repeated known field, or one of the wrong type, is refused. */
  function FieldValue(decode: Decoder, d: Bytes, key: string, v: nat, p: Parsed): (r: Option<Parsed>)
    requires v <= |d|
    ensures r.Some? ==> v < r.value.end <= |d|
  {
    if key == "model" then
      var e := StringEnd(d, v);
      if p.seen.model.Some? || e.None? || !Borrowable(d, v, e.value) || decode(d[v..e.value]).None? then None
      else Some(Parsed(p.seen.(model := decode(d[v..e.value])), p.options, e.value))
    else if key == "stream" then
      if p.seen.stream.Some? then None
      else if TextAt(d, v, TRUE_TEXT) then Some(Parsed(p.seen.(stream := Some(true)), p.options, v + 4))
      else if TextAt(d, v, FALSE_TEXT) then Some(Parsed(p.seen.(stream := Some(false)), p.options, v + 5))
      else None
    else
      var e := ValueEnd(d, v);
      if e.None? || (key == "stream_options" && p.options) then None
      else Some(Parsed(p.seen, p.options || key == "stream_options", e.value))
  }

  function HeadMembers(decode: Decoder, d: Bytes, i: nat, p: Parsed): (r: Option<Parsed>)
    requires i <= |d|
    ensures r.Some? ==> i < r.value.end <= |d|
    decreases |d| - i
  {
    var v := KeyEnd(d, i);
    if v.None? then None
    else
      var key := decode(d[i..StringEnd(d, i).value]);
      if key.None? then None
      else
        var field := FieldValue(decode, d, key.value, v.value, p);
        if field.None? then None
        else
          var next := SkipWs(d, field.value.end);
          if At(d, next, CLOSE_OBJECT) then Some(field.value.(end := next + 1))
          else if At(d, next, COMMA) then HeadMembers(decode, d, SkipWs(d, next + 1), field.value)
          else None
  }

  const FIELDS: seq<string> := ["model", "stream", "stream_options"]

  /** The positional form the library also accepts for a struct: its fields in order, the later ones optional. */
  function HeadElements(decode: Decoder, d: Bytes, i: nat, names: seq<string>, p: Parsed): (r: Option<Parsed>)
    requires i <= |d| && names != []
    ensures r.Some? ==> i < r.value.end <= |d|
    decreases |names|
  {
    var field := FieldValue(decode, d, names[0], i, p);
    if field.None? then None
    else
      var next := SkipWs(d, field.value.end);
      if At(d, next, CLOSE_ARRAY) then Some(field.value.(end := next + 1))
      else if At(d, next, COMMA) && |names| > 1 then HeadElements(decode, d, SkipWs(d, next + 1), names[1..], field.value)
      else None
  }

  function ParseBody(decode: Decoder, d: Bytes): Option<Parsed> {
    var i := SkipWs(d, 0);
    if At(d, i, OPEN_OBJECT) then HeadMembers(decode, d, SkipWs(d, i + 1), Parsed(NOTHING, false, 0))
    else if At(d, i, OPEN_ARRAY) then HeadElements(decode, d, SkipWs(d, i + 1), FIELDS, Parsed(NOTHING, false, 0))
    else None
  }

  /** The buffered route's parse: a model is required, `stream` defaults to false, nothing may follow. */
  function ParseHead(decode: Decoder, d: Bytes): Option<Head> {
    var p := ParseBody(decode, d);
    if p.None? || p.value.seen.model.None? || p.value.end > |d| || SkipWs(d, p.value.end) < |d| then None
    else Some(Head(p.value.seen.model.value, p.value.seen.stream == Some(true)))
  }

  // ---------------------------------------------------------------- strings: strict and lenient agree

  /** The scanner's quote search stops at the end of every well-formed string. */
  lemma {:induction false} QuoteIsEnd(d: Bytes, i: nat)
    requires i <= |d| && StringFrom(d, i).Some?
    ensures QuoteFrom(d, i, false) == Some(StringFrom(d, i).value - 1)
    decreases |d| - i
  {
    if d[i] != QUOTE {
      if d[i] != BACKSLASH {
        QuoteIsEnd(d, i + 1);
      } else if IsEscape(d[i + 1]) {
        QuoteIsEnd(d, i + 2);
      } else {
        QuoteIsEnd(d, i + 6);
        HexIsPlain(d, i + 2, i + 6);
      }
    }
  }

  lemma {:induction false} HexIsPlain(d: Bytes, i: nat, e: nat)
    requires i <= e <= |d| && forall k :: i <= k < e ==> IsHex(d[k])
    ensures QuoteFrom(d, i, false) == QuoteFrom(d, e, false)
    decreases e - i
  {
    if i < e {
      HexIsPlain(d, i + 1, e);
    }
  }

  // ---------------------------------------------------------------- the scan passes over values

  /** A string at the top level that cannot be decoded makes the scan give up; deeper ones are not decoded. */
  predicate Stops(decode: Decoder, d: Bytes, i: nat, depth: int) {
    depth == 1 && i < |d| && StringEnd(d, i).Some? && decode(d[i..StringEnd(d, i).value]).None?
  }

  lemma OnlyStringsStop(decode: Decoder, d: Bytes, i: nat, depth: int)
    requires i < |d| && d[i] != QUOTE
    ensures !Stops(decode, d, i, depth)
  {}

  /** A value is not a key: no colon follows it. */
  predicate NoColon(d: Bytes, e: nat)
    requires e <= |d|
  {
    !At(d, SkipWs(d, e), COLON)
  }

  /** The scan from the value at `a` goes on as from `b`, unless the value is a string that stops it. */
  ghost predicate Passes(decode: Decoder, d: Bytes, a: nat, b: nat, depth: int, seen: Seen)
    requires a <= |d| && b <= |d|
  {
    ScanFrom(decode, d, a, depth, seen)
    == if Stops(decode, d, a, depth) then NeedMore else ScanFrom(decode, d, b, depth, seen)
  }

  /** A string that no colon follows is a value, and tells nothing. */
  lemma TopValue(decode: Decoder, d: Bytes, i: nat, end: nat, seen: Seen)
    requires i < end < |d| && NoColon(d, end + 1)
    ensures TopString(decode, d, i, end, seen)
         == if decode(d[i..end + 1]).None? then NeedMore else ScanFrom(decode, d, end + 1, 1, seen)
  {
    hide ScanFrom, SkipWs;
  }

  lemma PassString(decode: Decoder, d: Bytes, i: nat, depth: int, seen: Seen)
    requires i <= |d| && depth >= 1 && StringEnd(d, i).Some?
    requires depth == 1 ==> NoColon(d, StringEnd(d, i).value)
    ensures Passes(decode, d, i, StringEnd(d, i).value, depth, seen)
  {
    QuoteIsEnd(d, i + 1);
    assert SkipWs(d, i) == i;
    ScanOnce(decode, d, i, depth, seen);
    hide ScanFrom, SkipWs, QuoteFrom;
    if depth == 1 {
      var end := StringEnd(d, i).value - 1;
      assert MoveAt(d, i, 1) == Top(end);
      TopValue(decode, d, i, end, seen);
    }
    hide TopString;
  }

  /** A structural byte is where the scan stands after any white space before it. */
  lemma ReachToken(decode: Decoder, d: Bytes, i: nat, depth: int, seen: Seen)
    requires i <= |d|
    ensures ScanFrom(decode, d, i, depth, seen) == ScanFrom(decode, d, SkipWs(d, i), depth, seen)
  {
    assert forall k :: i <= k < SkipWs(d, i) ==> !Structural(d[k]);
    Glide(decode, d, i, SkipWs(d, i), depth, seen);
  }

  /** Past a separator and the white space around it. */
  lemma ReachPast(decode: Decoder, d: Bytes, i: nat, depth: int, seen: Seen)
    requires i <= |d| && SkipWs(d, i) < |d| && !Structural(d[SkipWs(d, i)])
    ensures ScanFrom(decode, d, i, depth, seen) == ScanFrom(decode, d, SkipWs(d, SkipWs(d, i) + 1), depth, seen)
  {
    var sep := SkipWs(d, i);
    var to := SkipWs(d, sep + 1);
    assert forall k :: i <= k < to ==> !Structural(d[k]);
    Glide(decode, d, i, to, depth, seen);
  }

  lemma OpenStep(decode: Decoder, d: Bytes, i: nat, depth: int, seen: Seen)
    requires i < |d| && (d[i] == OPEN_OBJECT || d[i] == OPEN_ARRAY)
    ensures ScanFrom(decode, d, i, depth, seen) == ScanFrom(decode, d, i + 1, depth + 1, seen)
  {
    assert SkipWs(d, i) == i;
  }

  /** A literal or a number holds nothing structural. */
  lemma ScalarIsPlain(d: Bytes, i: nat)
    requires i < |d| && ValueEnd(d, i).Some? && d[i] != QUOTE && d[i] != OPEN_OBJECT && d[i] != OPEN_ARRAY
    ensures forall k :: i <= k < ValueEnd(d, i).value ==> !Structural(d[k])
  {
    hide LiteralEnd, NumberEnd;
  }

  lemma {:induction false} PassValue(decode: Decoder, d: Bytes, i: nat, depth: int, seen: Seen)
    requires i <= |d| && depth >= 1 && ValueEnd(d, i).Some?
    requires depth == 1 ==> NoColon(d, ValueEnd(d, i).value)
    ensures Passes(decode, d, i, ValueEnd(d, i).value, depth, seen)
    decreases |d| - i, 1
  {
    hide Stops, SkipWs, ScanFrom, LiteralEnd, NumberEnd, StringEnd, MembersEnd, ElementsEnd;
    var j := SkipWs(d, i + 1);
    if d[i] == QUOTE {
      PassString(decode, d, i, depth, seen);
    } else if d[i] == OPEN_OBJECT || d[i] == OPEN_ARRAY {
      OnlyStringsStop(decode, d, i, depth);
      OpenStep(decode, d, i, depth, seen);
      ReachToken(decode, d, i + 1, depth + 1, seen);
      if At(d, j, if d[i] == OPEN_OBJECT then CLOSE_OBJECT else CLOSE_ARRAY) {
        CloseStep(decode, d, j, depth + 1, seen);
      } else if d[i] == OPEN_OBJECT {
        PassMembers(decode, d, j, depth + 1, seen);
      } else {
        PassElements(decode, d, j, depth + 1, seen);
      }
    } else {
      OnlyStringsStop(decode, d, i, depth);
      ScalarIsPlain(d, i);
      Glide(decode, d, i, ValueEnd(d, i).value, depth, seen);
    }
  }

  /** Below the top level nothing is decoded, so nothing can be given up. */
  lemma {:induction false} PassDeep(decode: Decoder, d: Bytes, i: nat, depth: int, seen: Seen)
    requires i <= |d| && depth >= 2 && ValueEnd(d, i).Some?
    ensures ScanFrom(decode, d, i, depth, seen) == ScanFrom(decode, d, ValueEnd(d, i).value, depth, seen)
    decreases |d| - i, 2
  {
    hide ValueEnd, ScanFrom, StringEnd;
    PassValue(decode, d, i, depth, seen);
  }

  /** A nested key, its colon and the white space around it. */
  lemma PassKey(decode: Decoder, d: Bytes, i: nat, depth: int, seen: Seen)
    requires i <= |d| && depth >= 2 && KeyEnd(d, i).Some?
    ensures ScanFrom(decode, d, i, depth, seen) == ScanFrom(decode, d, KeyEnd(d, i).value, depth, seen)
  {
    hide SkipWs, ScanFrom, StringEnd;
    PassString(decode, d, i, depth, seen);
    ReachPast(decode, d, StringEnd(d, i).value, depth, seen);
  }

  /** Inside an object: its members are passed and its closing brace takes the depth back. */
  lemma {:induction false} PassMembers(decode: Decoder, d: Bytes, i: nat, depth: int, seen: Seen)
    requires i <= |d| && depth >= 2 && MembersEnd(d, i).Some?
    ensures ScanFrom(decode, d, i, depth, seen) == ScanFrom(decode, d, MembersEnd(d, i).value, depth - 1, seen)
    decreases |d| - i, 3
  {
    hide SkipWs, ScanFrom, ValueEnd, KeyEnd;
    var v := KeyEnd(d, i).value;
    PassKey(decode, d, i, depth, seen);
    PassDeep(decode, d, v, depth, seen);
    var end := ValueEnd(d, v).value;
    var next := SkipWs(d, end);
    if At(d, next, CLOSE_OBJECT) {
      ReachToken(decode, d, end, depth, seen);
      CloseStep(decode, d, next, depth, seen);
    } else {
      ReachPast(decode, d, end, depth, seen);
      PassMembers(decode, d, SkipWs(d, next + 1), depth, seen);
    }
  }

  lemma CloseStep(decode: Decoder, d: Bytes, i: nat, depth: int, seen: Seen)
    requires i < |d| && depth >= 2 && (d[i] == CLOSE_OBJECT || d[i] == CLOSE_ARRAY)
    ensures ScanFrom(decode, d, i, depth, seen) == ScanFrom(decode, d, i + 1, depth - 1, seen)
  {
    assert SkipWs(d, i) == i;
  }

  lemma {:induction false} PassElements(decode: Decoder, d: Bytes, i: nat, depth: int, seen: Seen)
    requires i <= |d| && depth >= 2 && ElementsEnd(d, i).Some?
    ensures ScanFrom(decode, d, i, depth, seen) == ScanFrom(decode, d, ElementsEnd(d, i).value, depth - 1, seen)
    decreases |d| - i, 3
  {
    hide SkipWs, ScanFrom, ValueEnd;
    PassDeep(decode, d, i, depth, seen);
    var end := ValueEnd(d, i).value;
    var next := SkipWs(d, end);
    if At(d, next, CLOSE_ARRAY) {
      ReachToken(decode, d, end, depth, seen);
      CloseStep(decode, d, next, depth, seen);
    } else {
      ReachPast(decode, d, end, depth, seen);
      PassElements(decode, d, SkipWs(d, next + 1), depth, seen);
    }
  }
}
