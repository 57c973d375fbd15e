/** Reading and rewriting one text field of a multipart body (src/handlers.rs). */
module Multipart {
  import opened Common
  import opened Json

  const DASH: byte := 45

  const BLANK_LINE: Bytes := [CR, LF, CR, LF]
  const DELIMITER: Bytes := [CR, LF, DASH, DASH]

  /** `name="` */
  const NAME: Bytes := [110, 97, 109, 101, 61, QUOTE]

  predicate OccursAt(s: Bytes, i: nat, p: Bytes) {
    i + |p| <= |s| && s[i..i + |p|] == p
  }

  predicate Contains(s: Bytes, p: Bytes) {
    exists i: nat :: i <= |s| && OccursAt(s, i, p)
  }

  predicate IsFirst(s: Bytes, i: nat, p: Bytes) {
    OccursAt(s, i, p) && forall j: nat :: j < i ==> !OccursAt(s, j, p)
  }

  /** Substring search: the first occurrence at or after `from`, counted from the start of `s`. */
  function FindFrom(s: Bytes, p: Bytes, from: nat): (r: Option<nat>)
    requires from <= |s|
    ensures r.Some? ==> from <= r.value && OccursAt(s, r.value, p)
    ensures r.Some? ==> forall j: nat :: from <= j < r.value ==> !OccursAt(s, j, p)
    ensures r.None? ==> forall j: nat :: from <= j ==> !OccursAt(s, j, p)
    decreases |s| - from
  {
    if OccursAt(s, from, p) then Some(from)
    else if from == |s| then None
    else FindFrom(s, p, from + 1)
  }

  lemma FindByFirstByte(s: Bytes, p: Bytes, from: nat, i: nat)
    requires from <= i && OccursAt(s, i, p) && p != []
    requires forall j :: from <= j < i ==> s[j] != p[0]
    ensures FindFrom(s, p, from) == Some(i)
  {
    var found := FindFrom(s, p, from).value;
    assert s[found..found + |p|][0] == s[found];
  }

  function Needle(field: Bytes): Bytes {
    NAME + field + [QUOTE]
  }

  /** Where the value of a field lies: `body[start..end]`. */
  datatype Span = Span(start: nat, end: nat)

  function FieldSpan(body: Bytes, field: Bytes): (r: Option<Span>)
    ensures r.Some? ==> r.value.start <= r.value.end <= |body|
  {
    var at := FindFrom(body, Needle(field), 0);
    if at.None? then None
    else
      var blank := FindFrom(body, BLANK_LINE, at.value);
      if blank.None? then None
      else
        var end := FindFrom(body, DELIMITER, blank.value + 4);
        if end.None? then None else Some(Span(blank.value + 4, end.value))
  }

  /** The bytes of the field, before decoding. */
  function Raw(body: Bytes, field: Bytes): Option<Bytes> {
    var span := FieldSpan(body, field);
    if span.None? then None else Some(body[span.value.start..span.value.end])
  }

  /** `text` is strict UTF-8 decoding. */
  function Extract(body: Bytes, field: Bytes, text: Bytes -> Option<string>): Option<string> {
    var raw := Raw(body, field);
    if raw.None? then None
    else
      var decoded := text(raw.value);
      if decoded.None? then None else Some(Trim(decoded.value))
  }

  function Rewrite(body: Bytes, field: Bytes, value: Bytes): Option<Bytes> {
    var span := FieldSpan(body, field);
    if span.None? then None else Some(body[..span.value.start] + value + body[span.value.end..])
  }

  // ---------------------------------------------------------------- the shape of a body

  /** `head` runs from the start of the body to the blank line that ends the field's part header. */
  ghost predicate IsHead(head: Bytes, field: Bytes) {
    exists at: nat ::
      && at + 4 <= |head|
      && IsFirst(head, at, Needle(field))
      && OccursAt(head, |head| - 4, BLANK_LINE)
      && forall j: nat :: at <= j < |head| - 4 ==> !OccursAt(head, j, BLANK_LINE)
  }

  /** Appending to a text neither adds nor removes occurrences that lie within it. */
  lemma Within(s: Bytes, more: Bytes, i: nat, p: Bytes)
    requires i + |p| <= |s|
    ensures OccursAt(s + more, i, p) == OccursAt(s, i, p)
  {
    assert (s + more)[i..i + |p|] == s[i..i + |p|];
  }

  lemma FindWithin(s: Bytes, more: Bytes, p: Bytes, from: nat, i: nat)
    requires from <= i && OccursAt(s, i, p)
    requires forall j: nat :: from <= j < i ==> !OccursAt(s, j, p)
    ensures FindFrom(s + more, p, from) == Some(i)
  {
    assert i + |p| <= |s|;
    hide OccursAt;
    forall j: nat | j <= i ensures OccursAt(s + more, j, p) == OccursAt(s, j, p) {
      Within(s, more, j, p);
    }
  }

  /** A blank line that starts inside the needle lies inside the field name: the needle ends with a quote. */
  lemma {:induction false} BlankInNeedle(s: Bytes, at: nat, blank: nat, field: Bytes)
    requires OccursAt(s, at, Needle(field)) && OccursAt(s, blank, BLANK_LINE)
    requires at <= blank < at + |Needle(field)|
    ensures Contains(field, BLANK_LINE)
  {
    var n, k := Needle(field), blank - at;
    OccursByte(s, at, n, |n| - 1);
    assert n[|n| - 1] == QUOTE;
    forall i | 0 <= i < 4 && k + i < |n| ensures n[k + i] == BLANK_LINE[i] {
      OccursByte(s, at, n, k + i);
      OccursByte(s, blank, BLANK_LINE, i);
    }
    hide OccursAt;
    assert n[k + 0] == BLANK_LINE[0];
    NameIsPlain(field, k);
    BlankEndsBefore(n, k);
    assert field == n[6..|n| - 1];
    FieldByte(field, k, 0);
    FieldByte(field, k, 1);
    FieldByte(field, k, 2);
    FieldByte(field, k, 3);
    assert field[k - 6..k - 2] == BLANK_LINE;
    assert Contains(field, BLANK_LINE) by {
      OccursIs(field, k - 6, BLANK_LINE);
    }
  }

  lemma OccursIs(s: Bytes, i: nat, p: Bytes)
    requires i + |p| <= |s| && s[i..i + |p|] == p
    ensures OccursAt(s, i, p)
  {}

  lemma OccursByte(s: Bytes, i: nat, p: Bytes, k: nat)
    requires OccursAt(s, i, p) && k < |p|
    ensures i + k < |s| && s[i + k] == p[k]
  {
    assert s[i..i + |p|][k] == s[i + k];
  }

  /** No byte of `name="` can start a blank line. */
  lemma NameIsPlain(field: Bytes, k: nat)
    requires k < |Needle(field)| && Needle(field)[k] == CR
    ensures k >= 6
  {
    assert forall i :: 0 <= i < 6 ==> Needle(field)[i] == NAME[i];
  }

  /** The quote at the end is no byte of a blank line. */
  lemma BlankEndsBefore(n: Bytes, k: nat)
    requires k < |n| && n[|n| - 1] == QUOTE
    requires forall i :: 0 <= i < 4 && k + i < |n| ==> n[k + i] == BLANK_LINE[i]
    ensures k + 4 < |n|
  {
    assert n[k + 0] == BLANK_LINE[0] == CR;
    if k + 1 < |n| {
      assert n[k + 1] == BLANK_LINE[1] == LF;
      if k + 2 < |n| {
        assert n[k + 2] == BLANK_LINE[2] == CR;
        if k + 3 < |n| {
          assert n[k + 3] == BLANK_LINE[3] == LF;
        }
      }
    }
  }

  lemma FieldByte(field: Bytes, k: nat, i: nat)
    requires 6 <= k && k + i < |Needle(field)| - 1
    ensures field[k - 6 + i] == Needle(field)[k + i]
  {}

  lemma BlankAfterNeedle(s: Bytes, at: nat, blank: nat, field: Bytes)
    requires !Contains(field, BLANK_LINE)
    requires OccursAt(s, at, Needle(field)) && at <= blank && OccursAt(s, blank, BLANK_LINE)
    ensures at + |Needle(field)| <= blank
  {
    hide OccursAt, Contains;
    if blank < at + |Needle(field)| {
      BlankInNeedle(s, at, blank, field);
    }
  }

  /** The delimiter has no border, so it cannot straddle the place where another one starts. */
  lemma NoStraddle(s: Bytes, i: nat, j: nat)
    requires OccursAt(s, i, DELIMITER) && OccursAt(s, j, DELIMITER) && i < j
    ensures i + 4 <= j
  {
    assert s[j] == s[j..j + 4][0] == CR;
    assert s[i + 1] == s[i..i + 4][1] && s[i + 2] == s[i..i + 4][2] && s[i + 3] == s[i..i + 4][3];
  }

  /** Where the search for the closing delimiter stops, for a value followed by a delimiter. */
  lemma {:induction false} FirstDelimiter(head: Bytes, value: Bytes, tail: Bytes)
    requires OccursAt(tail, 0, DELIMITER)
    ensures var r := FindFrom(head + value + tail, DELIMITER, |head|);
            && r.Some? && |head| <= r.value <= |head| + |value|
            && (r.value == |head| + |value| <==> !Contains(value, DELIMITER))
  {
    var s := head + value + tail;
    var stop := |head| + |value|;
    assert s[stop..stop + 4] == tail[..4];
    assert OccursAt(s, stop, DELIMITER);
    var r := FindFrom(s, DELIMITER, |head|);
    if Contains(value, DELIMITER) {
      var i: nat :| i <= |value| && OccursAt(value, i, DELIMITER);
      assert s[|head| + i..|head| + i + 4] == value[i..i + 4];
      assert OccursAt(s, |head| + i, DELIMITER);
    } else if r.value < stop {
      NoStraddle(s, r.value, stop);
      var i := r.value - |head|;
      assert value[i..i + 4] == s[r.value..r.value + 4];
      assert OccursAt(value, i, DELIMITER);
    }
  }

  /** The two header searches stop at the end of `head`, whatever follows it. */
  lemma HeadDecides(head: Bytes, rest: Bytes, field: Bytes)
    requires IsHead(head, field) && !Contains(field, BLANK_LINE)
    ensures var at := FindFrom(head + rest, Needle(field), 0);
            && at.Some? && |head| >= 4 && FindFrom(head + rest, BLANK_LINE, at.value) == Some(|head| - 4)
  {
    var needle := Needle(field);
    var at: nat :|
      && at + 4 <= |head| && IsFirst(head, at, needle)
      && OccursAt(head, |head| - 4, BLANK_LINE)
      && forall j: nat :: at <= j < |head| - 4 ==> !OccursAt(head, j, BLANK_LINE);
    FindWithin(head, rest, needle, 0, at);
    FindWithin(head, rest, BLANK_LINE, at, |head| - 4);
  }

  /** What the three searches find: a head, the value without a delimiter, and a tail that starts with one. */
  lemma SpanShape(body: Bytes, field: Bytes)
    requires FieldSpan(body, field).Some? && !Contains(field, BLANK_LINE)
    ensures var span := FieldSpan(body, field).value;
            && IsHead(body[..span.start], field)
            && !Contains(body[span.start..span.end], DELIMITER)
            && OccursAt(body[span.end..], 0, DELIMITER)
  {
    var at := FindFrom(body, Needle(field), 0).value;
    var span := FieldSpan(body, field).value;
    BlankAfterNeedle(body, at, span.start - 4, field);
    hide Needle, Contains, FindFrom, OccursAt, IsHead;
    var head, value, tail := body[..span.start], body[span.start..span.end], body[span.end..];
    SplitAt(body, span.start);
    HeadShape(head, body[span.start..], field, at);
    DropTo(body, span.end, DELIMITER);
    CutAt(body, span.start, span.end);
    FirstDelimiter(head, value, tail);
  }

  lemma DropTo(s: Bytes, i: nat, p: Bytes)
    requires OccursAt(s, i, p)
    ensures OccursAt(s[i..], 0, p)
  {
    assert s[i..][0..|p|] == s[i..i + |p|];
  }

  lemma CutAt(s: Bytes, i: nat, j: nat)
    requires i <= j <= |s|
    ensures s == s[..i] + s[i..j] + s[j..]
  {}

  lemma HeadShape(head: Bytes, rest: Bytes, field: Bytes, at: nat)
    requires IsFirst(head + rest, at, Needle(field)) && at + |Needle(field)| + 4 <= |head|
    requires OccursAt(head + rest, |head| - 4, BLANK_LINE)
    requires forall j: nat :: at <= j < |head| - 4 ==> !OccursAt(head + rest, j, BLANK_LINE)
    ensures IsHead(head, field)
  {
    hide OccursAt, Needle;
    var needle := Needle(field);
    forall j: nat | j <= at ensures OccursAt(head + rest, j, needle) == OccursAt(head, j, needle) {
      Within(head, rest, j, needle);
    }
    forall j: nat | j <= |head| - 4 ensures OccursAt(head + rest, j, BLANK_LINE) == OccursAt(head, j, BLANK_LINE) {
      Within(head, rest, j, BLANK_LINE);
    }
    assert IsFirst(head, at, needle);
  }

  lemma SplitAt(s: Bytes, n: nat)
    requires n <= |s|
    ensures s == s[..n] + s[n..]
  {}

  /** And conversely: any body of that shape is read as that value. */
  lemma ShapeSpan(head: Bytes, value: Bytes, tail: Bytes, field: Bytes)
    requires IsHead(head, field) && OccursAt(tail, 0, DELIMITER) && !Contains(field, BLANK_LINE)
    ensures var span := FieldSpan(head + value + tail, field);
            && span.Some? && span.value.start == |head| && span.value.end <= |head| + |value|
            && (span.value.end == |head| + |value| <==> !Contains(value, DELIMITER))
  {
    FirstDelimiter(head, value, tail);
    HeadDecides(head, value + tail, field);
    Regroup(head, value, tail);
    SpanBySearch(head + value + tail, field, |head|);
  }

  lemma SpanBySearch(body: Bytes, field: Bytes, start: nat)
    requires 4 <= start <= |body|
    requires var at := FindFrom(body, Needle(field), 0);
             at.Some? && FindFrom(body, BLANK_LINE, at.value) == Some(start - 4)
    requires FindFrom(body, DELIMITER, start).Some?
    ensures FieldSpan(body, field) == Some(Span(start, FindFrom(body, DELIMITER, start).value))
  {}

  // ---------------------------------------------------------------- lens laws

  /** The rewritten body, split where the old one was. */
  lemma Rewritten(body: Bytes, field: Bytes, value: Bytes) returns (head: Bytes, old_: Bytes, tail: Bytes)
    requires !Contains(field, BLANK_LINE) && Rewrite(body, field, value).Some?
    ensures body == head + old_ + tail && Raw(body, field) == Some(old_)
    ensures IsHead(head, field) && !Contains(old_, DELIMITER) && OccursAt(tail, 0, DELIMITER)
    ensures Rewrite(body, field, value) == Some(head + value + tail)
    ensures FieldSpan(body, field) == Some(Span(|head|, |head| + |old_|))
  {
    var span := FieldSpan(body, field).value;
    SpanShape(body, field);
    hide FieldSpan, IsHead, Contains, OccursAt;
    head, old_, tail := body[..span.start], body[span.start..span.end], body[span.end..];
  }

  /** Put then get: the value comes back exactly when it holds no delimiter; reading never fails. */
  lemma PutGet(body: Bytes, field: Bytes, value: Bytes)
    requires !Contains(field, BLANK_LINE) && Rewrite(body, field, value).Some?
    ensures Raw(Rewrite(body, field, value).value, field).Some?
    ensures Raw(Rewrite(body, field, value).value, field) == Some(value) <==> !Contains(value, DELIMITER)
  {
    var head, old_, tail := Rewritten(body, field, value);
    ShapeSpan(head, value, tail, field);
    var now := head + value + tail;
    var span := FieldSpan(now, field).value;
    if !Contains(value, DELIMITER) {
      assert now[span.start..span.end] == value;
    } else {
      assert |now[span.start..span.end]| < |value|;
    }
  }

  /** The reader's own view: the new value, trimmed. */
  lemma PutGetText(body: Bytes, field: Bytes, value: Bytes, text: Bytes -> Option<string>, s: string)
    requires !Contains(field, BLANK_LINE) && Rewrite(body, field, value).Some?
    requires text(value) == Some(s) && !Contains(value, DELIMITER)
    ensures Extract(Rewrite(body, field, value).value, field, text) == Some(Trim(s))
  {
    PutGet(body, field, value);
  }

  /** Get then put: writing back the raw value changes nothing. */
  lemma GetPut(body: Bytes, field: Bytes)
    requires Raw(body, field).Some?
    ensures Rewrite(body, field, Raw(body, field).value) == Some(body)
  {
    var span := FieldSpan(body, field).value;
    CutAt(body, span.start, span.end);
  }

  lemma RewriteAt(body: Bytes, field: Bytes, value: Bytes, start: nat, end: nat)
    requires FieldSpan(body, field) == Some(Span(start, end))
    ensures start <= end <= |body|
    ensures Rewrite(body, field, value) == Some(body[..start] + value + body[end..])
  {}

  lemma Splice(head: Bytes, value: Bytes, tail: Bytes, end: nat)
    requires |head| <= end <= |head| + |value|
    ensures (head + value + tail)[..|head|] == head
    ensures (head + value + tail)[end..] == value[end - |head|..] + tail
  {}

  /** Put then put: the first value is forgotten exactly when it holds no delimiter. */
  lemma PutPut(body: Bytes, field: Bytes, first: Bytes, second: Bytes)
    requires !Contains(field, BLANK_LINE) && Rewrite(body, field, first).Some?
    ensures Rewrite(Rewrite(body, field, first).value, field, second) == Rewrite(body, field, second)
            <==> !Contains(first, DELIMITER)
  {
    var head, old_, tail := Rewritten(body, field, first);
    var now := head + first + tail;
    ShapeSpan(head, first, tail, field);
    var end := FieldSpan(now, field).value.end;
    RewriteAt(body, field, second, |head|, |head| + |old_|);
    RewriteAt(now, field, second, |head|, end);
    hide *;
    Splice(head, first, tail, end);
    Splice(head, old_, tail, |head| + |old_|);
    assert |head + second + tail| == |head| + |second| + |tail|;
  }

  /** A rewrite is possible exactly when a read is, and touches no byte outside the field. */
  lemma OutsideUntouched(body: Bytes, field: Bytes, value: Bytes)
    ensures Rewrite(body, field, value).Some? <==> Raw(body, field).Some?
    ensures Rewrite(body, field, value).Some? ==>
              var span, now := FieldSpan(body, field).value, Rewrite(body, field, value).value;
              && |now| - |value| == |body| - (span.end - span.start)
              && now[..span.start] == body[..span.start]
              && now[|now| - (|body| - span.end)..] == body[span.end..]
  {
    if Rewrite(body, field, value).Some? {
      var span, now := FieldSpan(body, field).value, Rewrite(body, field, value).value;
      assert now[|now| - (|body| - span.end)..] == body[span.end..];
    }
  }

  lemma RawAt(body: Bytes, field: Bytes, start: nat, end: nat)
    requires FieldSpan(body, field) == Some(Span(start, end))
    ensures start <= end <= |body| && Raw(body, field) == Some(body[start..end])
  {}

  lemma FindSame(head: Bytes, a: Bytes, b: Bytes, p: Bytes, from: nat, i: nat)
    requires from <= |head| && FindFrom(head + a, p, from) == Some(i) && i + |p| <= |head|
    ensures FindFrom(head + b, p, from) == Some(i)
  {
    hide OccursAt;
    forall j: nat | j <= i ensures OccursAt(head + a, j, p) == OccursAt(head, j, p) {
      Within(head, a, j, p);
    }
    FindWithin(head, b, p, from, i);
  }

  /** A field that lies before the rewritten one is found at the same place. */
  lemma EarlierSpan(head: Bytes, a: Bytes, b: Bytes, field: Bytes)
    requires !Contains(field, BLANK_LINE) && FieldSpan(head + a, field).Some?
    requires FieldSpan(head + a, field).value.end + 4 <= |head|
    ensures FieldSpan(head + b, field) == FieldSpan(head + a, field)
  {
    var at := FindFrom(head + a, Needle(field), 0).value;
    var span := FieldSpan(head + a, field).value;
    BlankAfterNeedle(head + a, at, span.start - 4, field);
    hide FindFrom, OccursAt, Contains, Needle;
    FindSame(head, a, b, Needle(field), 0, at);
    FindSame(head, a, b, BLANK_LINE, at, span.start - 4);
    FindSame(head, a, b, DELIMITER, span.start, span.end);
  }

  lemma SliceWithin(s: Bytes, more: Bytes, start: nat, end: nat)
    requires start <= end <= |s|
    ensures (s + more)[start..end] == s[start..end]
  {}

  /** Rewriting one field leaves the value read for every field before it as it was. */
  lemma EarlierFieldsKept(body: Bytes, field: Bytes, value: Bytes, other: Bytes)
    requires !Contains(other, BLANK_LINE) && Rewrite(body, field, value).Some? && FieldSpan(body, other).Some?
    requires FieldSpan(body, other).value.end + 4 <= FieldSpan(body, field).value.start
    ensures Raw(Rewrite(body, field, value).value, other) == Raw(body, other)
  {
    var span, o := FieldSpan(body, field).value, FieldSpan(body, other).value;
    RewriteAt(body, field, value, span.start, span.end);
    RawAt(body, other, o.start, o.end);
    hide *;
    var head, tail, rest := body[..span.start], body[span.start..], value + body[span.end..];
    Regroup(head, value, body[span.end..]);
    SplitAt(body, span.start);
    EarlierSpan(head, tail, rest, other);
    RawAt(head + rest, other, o.start, o.end);
    SliceWithin(head, rest, o.start, o.end);
    SliceWithin(head, tail, o.start, o.end);
  }

  /** The field the router uses is `model`; its name holds no blank line. */
  const MODEL_FIELD: Bytes := [109, 111, 100, 101, 108]

  lemma ModelFieldIsPlain()
    ensures !Contains(MODEL_FIELD, BLANK_LINE)
  {
    assert forall i :: 0 <= i < |MODEL_FIELD| ==> MODEL_FIELD[i] != CR;
    forall i: nat | i + 4 <= |MODEL_FIELD| ensures !OccursAt(MODEL_FIELD, i, BLANK_LINE) {
      assert MODEL_FIELD[i..i + 4][0] == MODEL_FIELD[i];
    }
  }

  /** All the laws at the only field the router reads and rewrites. */
  lemma ModelFieldLens(body: Bytes, first: Bytes, second: Bytes)
    requires Raw(body, MODEL_FIELD).Some?
    ensures var once := Rewrite(body, MODEL_FIELD, first);
            && Rewrite(body, MODEL_FIELD, Raw(body, MODEL_FIELD).value) == Some(body)
            && once.Some? && Raw(once.value, MODEL_FIELD).Some?
            && (Raw(once.value, MODEL_FIELD) == Some(first) <==> !Contains(first, DELIMITER))
            && (Rewrite(once.value, MODEL_FIELD, second) == Rewrite(body, MODEL_FIELD, second) <==> !Contains(first, DELIMITER))
  {
    ModelFieldIsPlain();
    OutsideUntouched(body, MODEL_FIELD, first);
    hide *;
    GetPut(body, MODEL_FIELD);
    PutGet(body, MODEL_FIELD, first);
    PutPut(body, MODEL_FIELD, first, second);
  }

  /** `name="field"`, byte by byte. */
  function NamedAs(field: Bytes): Bytes {
    [0x6E, 0x61, 0x6D, 0x65, 0x3D, 0x22] + field + [0x22]
  }

  /**
   A part spelled out: its name, the rest of its header, an empty line, the value, and the line break
   and two dashes before the next boundary. The value is read and rewritten in place.
   */
  lemma PartIsRead(before: Bytes, header: Bytes, value: Bytes, after: Bytes, field: Bytes, put: Bytes)
    requires !Contains(field, [0x0D, 0x0A, 0x0D, 0x0A]) && !Contains(value, [0x0D, 0x0A, 0x2D, 0x2D])
    requires var head := before + NamedAs(field) + header + [0x0D, 0x0A, 0x0D, 0x0A];
             && IsFirst(head, |before|, NamedAs(field))
             && (forall j: nat :: |before| <= j < |head| - 4 ==> !OccursAt(head, j, [0x0D, 0x0A, 0x0D, 0x0A]))
    ensures var head, tail := before + NamedAs(field) + header + [0x0D, 0x0A, 0x0D, 0x0A], [0x0D, 0x0A, 0x2D, 0x2D] + after;
            Raw(head + value + tail, field) == Some(value) && Rewrite(head + value + tail, field, put) == Some(head + put + tail)
  {
    var head, tail := before + NamedAs(field) + header + [0x0D, 0x0A, 0x0D, 0x0A], [0x0D, 0x0A, 0x2D, 0x2D] + after;
    assert NamedAs(field) == Needle(field);
    assert IsHead(head, field) by {
      assert head[|head| - 4..] == BLANK_LINE;
    }
    assert tail[..4] == DELIMITER;
    ShapeSpan(head, value, tail, field);
    hide FieldSpan, IsHead, Contains, NamedAs, Needle, IsFirst;
    var body := head + value + tail;
    assert body[..|head|] == head && body[|head|..|head| + |value|] == value && body[|head| + |value|..] == tail;
  }

  /** A body that names the field nowhere has no such field. */
  lemma UnnamedIsNotRead(body: Bytes, field: Bytes, put: Bytes)
    requires forall j: nat :: !OccursAt(body, j, NamedAs(field))
    ensures Raw(body, field).None? && Rewrite(body, field, put).None?
  {
    assert NamedAs(field) == Needle(field);
  }

  /** Why the name must hold no blank line: the part header would seem to end inside the needle. */
  lemma BlankLineInNameBreaksPutGet()
    ensures var field := BLANK_LINE;
            var body := Needle(field) + DELIMITER;
            && Rewrite(body, field, []).Some? && !Contains([], DELIMITER)
            && Raw(Rewrite(body, field, []).value, field).None?
  {
    var field := BLANK_LINE;
    var needle := Needle(field);
    var body := needle + DELIMITER;
    assert needle == [110, 97, 109, 101, 61, QUOTE, CR, LF, CR, LF, QUOTE];
    assert body[0..11] == needle;
    assert body[6..10] == BLANK_LINE;
    assert body[11..15] == DELIMITER;
    FindByFirstByte(body, needle, 0, 0);
    FindByFirstByte(body, BLANK_LINE, 0, 6);
    FindByFirstByte(body, DELIMITER, 10, 11);
    SpanBySearch(body, field, 10);
    RewriteAt(body, field, [], 10, 11);
    var now := body[..10] + [] + body[11..];
    assert now == [110, 97, 109, 101, 61, QUOTE, CR, LF, CR, LF, CR, LF, DASH, DASH];
    forall j: nat ensures !OccursAt(now, j, needle) {
      if j + 11 <= |now| {
        assert now[j..j + 11][10] == now[j + 10];
      }
    }
  }
}
