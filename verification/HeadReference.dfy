/** Which bodies carry a request head, in the terms of the JSON forms (src/handlers.rs). */
module HeadReference {
  import opened Common
  import opened HeadScan
  import opened JsonGrammar
  import opened JsonReference

  /** What has been read of a head. */
  datatype Read = Read(model: Option<string>, stream: Option<bool>, options: bool)

  const UNREAD := Read(None, None, false)

  /** One member with its value at `s..v`: known keys once each, the model a string without escapes, the flag a literal. */
  ghost predicate Takes(decode: Decoder, d: Bytes, p: Read, key: string, s: nat, v: nat, q: Read)
    requires s <= v <= |d|
  {
    if key == "model" then
      && p.model.None? && IsString(d, s, v) && BACKSLASH !in d[s..v]
      && decode(d[s..v]).Some? && q == p.(model := decode(d[s..v]))
    else if key == "stream" then
      && p.stream.None?
      && (   (d[s..v] == [0x74, 0x72, 0x75, 0x65] && q == p.(stream := Some(true)))
          || (d[s..v] == [0x66, 0x61, 0x6C, 0x73, 0x65] && q == p.(stream := Some(false))))
    else if key == "stream_options" then IsValue(d, s, v) && !p.options && q == p.(options := true)
    else IsValue(d, s, v) && q == p
  }

  /** Members from `i` to `e`, read one after the other. */
  ghost predicate Reads(decode: Decoder, d: Bytes, i: nat, e: nat, p: Read, q: Read)
    requires i <= e <= |d|
    decreases e - i, 1
  {
    exists k: nat, c: nat, s: nat, v: nat, key: string, next: Read ::
      ReadsFrom(decode, d, i, k, c, s, v, e, key, p, next, q)
  }

  /** One member in `i..v`, and what is behind it. */
  ghost predicate ReadsFrom(decode: Decoder, d: Bytes, i: nat, k: nat, c: nat, s: nat, v: nat, e: nat, key: string, p: Read, next: Read, q: Read)
    requires i <= e <= |d|
    decreases e - i, 0
  {
    && i < k <= c < s < v <= e && MemberReads(decode, d, i, k, c, s, v, key, p, next)
    && ReadsOn(decode, d, v, e, next, q)
  }

  /** Behind a member: the end, or a comma and further members. */
  ghost predicate ReadsOn(decode: Decoder, d: Bytes, v: nat, e: nat, p: Read, q: Read)
    requires v <= e <= |d|
    decreases e - v, 0
  {
    || (Blank(d, v, e) && q == p)
    || exists comma: nat, more: nat ::
         && v <= comma < more <= e && Blank(d, v, comma) && d[comma] == 0x2C && Blank(d, comma + 1, more)
         && Reads(decode, d, more, e, p, q)
  }

  ghost predicate MemberReads(decode: Decoder, d: Bytes, i: nat, k: nat, c: nat, s: nat, v: nat, key: string, p: Read, next: Read)
    requires i < k <= c < s < v <= |d|
  {
    && IsString(d, i, k) && Blank(d, k, c) && d[c] == 0x3A && Blank(d, c + 1, s)
    && decode(d[i..k]) == Some(key) && Takes(decode, d, p, key, s, v, next)
  }

  function AsRead(p: Parsed): Read {
    Read(p.seen.model, p.seen.stream, p.options)
  }

  // ---------------------------------------------------------------- one field

  lemma FieldTakes(decode: Decoder, d: Bytes, key: string, v: nat, p: Parsed)
    requires v <= |d| && FieldValue(decode, d, key, v, p).Some?
    ensures var field := FieldValue(decode, d, key, v, p).value;
            Takes(decode, d, AsRead(p), key, v, field.end, AsRead(field))
  {
    var field := FieldValue(decode, d, key, v, p).value;
    if key == "model" {
      StringsAgree(d, v, field.end);
      hide StringEnd, IsString;
    } else if key != "stream" {
      ValueIsJson(d, v);
      hide ValueEnd, IsValue;
    }
  }

  lemma TakenField(decode: Decoder, d: Bytes, key: string, s: nat, v: nat, p: Parsed, q: Read)
    requires s <= v <= |d| && Takes(decode, d, AsRead(p), key, s, v, q) && NumberStops(d, v)
    ensures var field := FieldValue(decode, d, key, s, p);
            field.Some? && field.value.end == v && AsRead(field.value) == q
  {
    if key == "model" {
      StringsAgree(d, s, v);
      hide StringEnd, IsString;
    } else if key == "stream" {
      assert |d[s..v]| == v - s;
      if d[s..v] == [0x66, 0x61, 0x6C, 0x73, 0x65] {
        assert d[s] == d[s..v][0];
        NotText(d, s, TRUE_TEXT);
      }
    } else {
      JsonIsAccepted(d, s, v);
      hide ValueEnd, IsValue;
    }
  }

  // ---------------------------------------------------------------- the members

  lemma HeadTurn(decode: Decoder, d: Bytes, i: nat, p: Parsed)
    requires i <= |d|
    ensures var v := KeyEnd(d, i);
            HeadMembers(decode, d, i, p)
            == if v.None? || decode(d[i..StringEnd(d, i).value]).None? then None
               else
                 var field := FieldValue(decode, d, decode(d[i..StringEnd(d, i).value]).value, v.value, p);
                 if field.None? then None
                 else
                   var next := SkipWs(d, field.value.end);
                   if At(d, next, CLOSE_OBJECT) then Some(field.value.(end := next + 1))
                   else if At(d, next, COMMA) then HeadMembers(decode, d, SkipWs(d, next + 1), field.value)
                   else None
  {
    hide SkipWs, KeyEnd, StringEnd, FieldValue;
  }

  lemma ReadsLast(decode: Decoder, d: Bytes, v: nat, e: nat, p: Read)
    requires v <= e <= |d| && Blank(d, v, e)
    ensures ReadsOn(decode, d, v, e, p, p)
  {}

  lemma ReadsMore(decode: Decoder, d: Bytes, v: nat, comma: nat, more: nat, e: nat, p: Read, q: Read)
    requires v <= comma < more <= e <= |d| && Blank(d, v, comma) && d[comma] == 0x2C && Blank(d, comma + 1, more)
    requires Reads(decode, d, more, e, p, q)
    ensures ReadsOn(decode, d, v, e, p, q)
  {
    hide Blank, Reads;
  }

  lemma ReadsBy(decode: Decoder, d: Bytes, i: nat, k: nat, c: nat, s: nat, v: nat, e: nat, key: string, p: Read, next: Read, q: Read)
    requires i < k <= c < s < v <= e <= |d| && MemberReads(decode, d, i, k, c, s, v, key, p, next)
    requires ReadsOn(decode, d, v, e, next, q)
    ensures Reads(decode, d, i, e, p, q)
  {
    hide MemberReads, ReadsOn;
    assert ReadsFrom(decode, d, i, k, c, s, v, e, key, p, next, q);
  }

  lemma MemberRead(decode: Decoder, d: Bytes, i: nat, p: Parsed)
    returns (k: nat, c: nat)
    requires i <= |d| && HeadMembers(decode, d, i, p).Some?
    ensures KeyEnd(d, i).Some? && StringEnd(d, i) == Some(k) && decode(d[i..k]).Some?
    ensures var s, key := KeyEnd(d, i).value, decode(d[i..k]).value;
            var field := FieldValue(decode, d, key, s, p);
            && i < k <= c < s <= |d| && field.Some? && s < field.value.end <= |d|
            && MemberReads(decode, d, i, k, c, s, field.value.end, key, AsRead(p), AsRead(field.value))
  {
    hide SkipWs, KeyEnd, StringEnd, FieldValue, HeadMembers, IsString, Blank, Takes, MembersEnd, ValueEnd;
    HeadTurn(decode, d, i, p);
    MembersTurn(d, i);
    k := StringEnd(d, i).value;
    c := SkipWs(d, k);
    StringsAgree(d, i, k);
    SpacesAreBlank(d, k);
    SpacesAreBlank(d, c + 1);
    FieldTakes(decode, d, decode(d[i..k]).value, KeyEnd(d, i).value, p);
  }

  lemma {:induction false} HeadIsRead(decode: Decoder, d: Bytes, i: nat, p: Parsed)
    requires i <= |d| && HeadMembers(decode, d, i, p).Some?
    ensures var r := HeadMembers(decode, d, i, p).value;
            r.end >= 1 && i <= r.end - 1 && d[r.end - 1] == 0x7D && Reads(decode, d, i, r.end - 1, AsRead(p), AsRead(r))
    decreases |d| - i
  {
    hide SkipWs, KeyEnd, StringEnd, FieldValue, HeadMembers, MemberReads, Blank, Reads, ReadsOn;
    HeadTurn(decode, d, i, p);
    var k, c := MemberRead(decode, d, i, p);
    var r := HeadMembers(decode, d, i, p).value;
    var s, key := KeyEnd(d, i).value, decode(d[i..k]).value;
    var field := FieldValue(decode, d, key, s, p).value;
    var v, next, e := field.end, SkipWs(d, field.end), r.end - 1;
    SpacesAreBlank(d, v);
    if At(d, next, CLOSE_OBJECT) {
      ReadsLast(decode, d, v, e, AsRead(field));
    } else {
      var more := SkipWs(d, next + 1);
      SpacesAreBlank(d, next + 1);
      HeadIsRead(decode, d, more, field);
      ReadsMore(decode, d, v, next, more, e, AsRead(field), AsRead(r));
    }
    ReadsBy(decode, d, i, k, c, s, v, e, key, AsRead(p), AsRead(field), AsRead(r));
  }

  lemma ReadsSplit(decode: Decoder, d: Bytes, i: nat, e: nat, p: Read, q: Read)
    returns (k: nat, c: nat, s: nat, v: nat, key: string, next: Read)
    requires i <= e <= |d| && Reads(decode, d, i, e, p, q)
    ensures i < k <= c < s < v <= e && MemberReads(decode, d, i, k, c, s, v, key, p, next) && ReadsOn(decode, d, v, e, next, q)
  {
    hide MemberReads, ReadsOn;
    k, c, s, v, key, next :| ReadsFrom(decode, d, i, k, c, s, v, e, key, p, next, q);
  }

  lemma ReadsOnSplit(decode: Decoder, d: Bytes, v: nat, e: nat, p: Read, q: Read)
    returns (last: bool, comma: nat, more: nat)
    requires v <= e <= |d| && ReadsOn(decode, d, v, e, p, q)
    ensures v <= comma <= e && Blank(d, v, comma)
    ensures last ==> comma == e && q == p
    ensures !last ==> comma < more <= e && d[comma] == 0x2C && Blank(d, comma + 1, more) && Reads(decode, d, more, e, p, q)
  {
    hide Blank, Reads;
    last, comma, more := Blank(d, v, e) && q == p, e, e;
    if !last {
      comma, more :|
        && v <= comma < more <= e && Blank(d, v, comma) && d[comma] == 0x2C && Blank(d, comma + 1, more)
        && Reads(decode, d, more, e, p, q);
    }
  }

  lemma ReadsStart(decode: Decoder, d: Bytes, i: nat, e: nat, p: Read, q: Read)
    requires i <= e <= |d| && Reads(decode, d, i, e, p, q)
    ensures i < e && d[i] == QUOTE && !IsSpace(d[i])
  {
    var k, c, s, v, key, next := ReadsSplit(decode, d, i, e, p, q);
    hide Reads, ReadsOn, Takes, Chars;
  }

  lemma TakenStarts(decode: Decoder, d: Bytes, p: Read, key: string, s: nat, v: nat, q: Read)
    requires s < v <= |d| && Takes(decode, d, p, key, s, v, q)
    ensures !IsSpace(d[s])
  {
    if key == "stream" {
      assert d[s] == d[s..v][0];
    } else if key != "model" {
      ValueStarts(d, s, v);
    }
    hide IsValue, Chars;
  }

  lemma {:induction false} ReadIsHead(decode: Decoder, d: Bytes, i: nat, e: nat, p: Parsed, q: Read)
    requires i <= e < |d| && d[e] == 0x7D && Reads(decode, d, i, e, AsRead(p), q)
    ensures var r := HeadMembers(decode, d, i, p); r.Some? && r.value.end == e + 1 && AsRead(r.value) == q
    decreases e - i
  {
    hide SkipWs, KeyEnd, StringEnd, FieldValue, HeadMembers, IsString, Blank, Takes, Reads, ReadsOn, NumberStops, IsSpace;
    HeadTurn(decode, d, i, p);
    var k, c, s, v, key, next := ReadsSplit(decode, d, i, e, AsRead(p), q);
    var last, comma, more := ReadsOnSplit(decode, d, v, e, next, q);
    StringsAgree(d, i, k);
    ColonIsNoSpace(d, c);
    BlankIsSkipped(d, k, c);
    TakenStarts(decode, d, AsRead(p), key, s, v, next);
    BlankIsSkipped(d, c + 1, s);
    KeyIsFound(d, i, k, c, s);
    ValueStops(d, v, comma);
    BlankIsSkipped(d, v, comma);
    TakenField(decode, d, key, s, v, p, next);
    if !last {
      var field := FieldValue(decode, d, key, s, p).value;
      ReadsStart(decode, d, more, e, next, q);
      BlankIsSkipped(d, comma + 1, more);
      ReadIsHead(decode, d, more, e, field, q);
    }
  }

  // ---------------------------------------------------------------- the body

  /** The body is one object, with white space around it, whose members read as this. */
  ghost predicate Carries(decode: Decoder, d: Bytes, q: Read) {
    exists i: nat, s: nat, e: nat ::
      && i < s <= e < |d| && Blank(d, 0, i) && d[i] == 0x7B && Blank(d, i + 1, s)
      && Reads(decode, d, s, e, UNREAD, q) && d[e] == 0x7D && Blank(d, e + 1, |d|)
  }

  lemma BlankToEnd(d: Bytes, i: nat)
    requires i <= |d|
    ensures SkipWs(d, i) == |d| <==> Blank(d, i, |d|)
  {}

  /**
   A body that is an object has a head exactly when its members read as one with a model; the
   stream flag is what its member says, and false without one.
   */
  lemma HeadIsExact(decode: Decoder, d: Bytes, head: Head)
    requires SkipWs(d, 0) < |d| && d[SkipWs(d, 0)] == OPEN_OBJECT
    ensures ParseHead(decode, d) == Some(head)
            <==> exists q :: Carries(decode, d, q) && q.model == Some(head.model) && (head.stream <==> q.stream == Some(true))
  {
    if ParseHead(decode, d) == Some(head) {
      HeadCarries(decode, d);
    }
    if q :| Carries(decode, d, q) && q.model == Some(head.model) && (head.stream <==> q.stream == Some(true)) {
      CarriedHead(decode, d, q);
    }
  }

  lemma BodyTurn(decode: Decoder, d: Bytes)
    ensures var i := SkipWs(d, 0);
            && (i < |d| && d[i] == OPEN_OBJECT ==> ParseBody(decode, d) == HeadMembers(decode, d, SkipWs(d, i + 1), Parsed(NOTHING, false, 0)))
            && (i < |d| && d[i] == OPEN_ARRAY ==> ParseBody(decode, d) == HeadElements(decode, d, SkipWs(d, i + 1), FIELDS, Parsed(NOTHING, false, 0)))
  {
    hide SkipWs, HeadMembers, HeadElements;
  }

  lemma HeadCarries(decode: Decoder, d: Bytes)
    requires ParseHead(decode, d).Some? && SkipWs(d, 0) < |d| && d[SkipWs(d, 0)] == OPEN_OBJECT
    ensures var p := ParseBody(decode, d);
            && p.Some? && Carries(decode, d, AsRead(p.value))
            && ParseHead(decode, d) == Some(Head(p.value.seen.model.value, p.value.seen.stream == Some(true)))
  {
    hide SkipWs, HeadMembers, HeadElements, Reads, Blank, ParseBody;
    BodyTurn(decode, d);
    var i := SkipWs(d, 0);
    var s := SkipWs(d, i + 1);
    var p := ParseBody(decode, d).value;
    SpacesAreBlank(d, 0);
    SpacesAreBlank(d, i + 1);
    HeadIsRead(decode, d, s, Parsed(NOTHING, false, 0));
    BlankToEnd(d, p.end);
    var e := p.end - 1;
    assert i < s <= e < |d| && Blank(d, 0, i) && d[i] == 0x7B && Blank(d, i + 1, s)
           && Reads(decode, d, s, e, UNREAD, AsRead(p)) && d[e] == 0x7D && Blank(d, e + 1, |d|);
  }

  lemma CarriedHead(decode: Decoder, d: Bytes, q: Read)
    requires Carries(decode, d, q) && q.model.Some?
    ensures ParseHead(decode, d) == Some(Head(q.model.value, q.stream == Some(true)))
  {
    hide SkipWs, Reads, Blank, ParseHead, ParseBody, IsSpace;
    var i: nat, s: nat, e: nat :|
      && i < s <= e < |d| && Blank(d, 0, i) && d[i] == 0x7B && Blank(d, i + 1, s)
      && Reads(decode, d, s, e, UNREAD, q) && d[e] == 0x7D && Blank(d, e + 1, |d|);
    CarriedAt(decode, d, q, i, s, e);
    BlankToEnd(d, e + 1);
    HeadOfBody(decode, d);
  }

  lemma CarriedAt(decode: Decoder, d: Bytes, q: Read, i: nat, s: nat, e: nat)
    requires i < s <= e < |d| && Blank(d, 0, i) && d[i] == 0x7B && Blank(d, i + 1, s)
    requires Reads(decode, d, s, e, UNREAD, q) && d[e] == 0x7D
    ensures var p := ParseBody(decode, d); p.Some? && p.value.end == e + 1 && AsRead(p.value) == q
  {
    hide SkipWs, HeadMembers, HeadElements, Reads, Blank, ParseBody, IsSpace;
    BraceIsNoSpace(d, i);
    BlankIsSkipped(d, 0, i);
    ReadsStart(decode, d, s, e, UNREAD, q);
    BlankIsSkipped(d, i + 1, s);
    BodyTurn(decode, d);
    ReadIsHead(decode, d, s, e, Parsed(NOTHING, false, 0), q);
  }

  lemma HeadOfBody(decode: Decoder, d: Bytes)
    requires ParseBody(decode, d).Some?
    ensures var p := ParseBody(decode, d).value;
            p.end <= |d| && SkipWs(d, p.end) == |d| && p.seen.model.Some?
            ==> ParseHead(decode, d) == Some(Head(p.seen.model.value, p.seen.stream == Some(true)))
  {
    hide SkipWs, ParseBody;
  }

  lemma BraceIsNoSpace(d: Bytes, i: nat)
    requires i < |d| && d[i] == 0x7B
    ensures !IsSpace(d[i])
  {}

  // ---------------------------------------------------------------- the positional form

  /** Values from `i` to `e`, one for each of the first few names. */
  ghost predicate Entries(decode: Decoder, d: Bytes, i: nat, e: nat, names: seq<string>, p: Read, q: Read)
    requires i <= e <= |d|
    decreases |names|
  {
    && names != []
    && exists v: nat, next: Read ::
         && i < v <= e && Takes(decode, d, p, names[0], i, v, next)
         && (   (Blank(d, v, e) && q == next)
             || exists comma: nat, more: nat ::
                  && v <= comma < more <= e && Blank(d, v, comma) && d[comma] == 0x2C && Blank(d, comma + 1, more)
                  && Entries(decode, d, more, e, names[1..], next, q))
  }

  /** The body is one array, with white space around it, of the model, then maybe the flag, then maybe the options. */
  ghost predicate Lists(decode: Decoder, d: Bytes, q: Read) {
    exists i: nat, s: nat, e: nat ::
      && i < s <= e < |d| && Blank(d, 0, i) && d[i] == 0x5B && Blank(d, i + 1, s)
      && Entries(decode, d, s, e, ["model", "stream", "stream_options"], UNREAD, q) && d[e] == 0x5D && Blank(d, e + 1, |d|)
  }

  lemma EntriesBy(decode: Decoder, d: Bytes, i: nat, v: nat, e: nat, names: seq<string>, p: Read, next: Read, q: Read,
                  last: bool, comma: nat, more: nat)
    requires names != [] && i < v <= e <= |d| && Takes(decode, d, p, names[0], i, v, next)
    requires last ==> Blank(d, v, e) && q == next
    requires !last ==>
               && v <= comma < more <= e && Blank(d, v, comma) && d[comma] == 0x2C && Blank(d, comma + 1, more)
               && Entries(decode, d, more, e, names[1..], next, q)
    ensures Entries(decode, d, i, e, names, p, q)
  {
    hide Takes, Blank;
  }

  lemma EntriesSplit(decode: Decoder, d: Bytes, i: nat, e: nat, names: seq<string>, p: Read, q: Read)
    returns (v: nat, next: Read, last: bool, comma: nat, more: nat)
    requires i <= e <= |d| && Entries(decode, d, i, e, names, p, q)
    ensures names != [] && i < v <= e && Takes(decode, d, p, names[0], i, v, next) && v <= comma <= e && Blank(d, v, comma)
    ensures last ==> comma == e && q == next
    ensures !last ==>
              comma < more <= e && d[comma] == 0x2C && Blank(d, comma + 1, more) && Entries(decode, d, more, e, names[1..], next, q)
  {
    hide Takes, Blank;
    v, next :|
      && i < v <= e && Takes(decode, d, p, names[0], i, v, next)
      && (   (Blank(d, v, e) && q == next)
          || exists comma: nat, more: nat ::
               && v <= comma < more <= e && Blank(d, v, comma) && d[comma] == 0x2C && Blank(d, comma + 1, more)
               && Entries(decode, d, more, e, names[1..], next, q));
    last, comma, more := Blank(d, v, e) && q == next, e, e;
    if !last {
      comma, more :|
        && v <= comma < more <= e && Blank(d, v, comma) && d[comma] == 0x2C && Blank(d, comma + 1, more)
        && Entries(decode, d, more, e, names[1..], next, q);
    }
  }

  lemma {:induction false} ElementsAreEntries(decode: Decoder, d: Bytes, i: nat, names: seq<string>, p: Parsed)
    requires i <= |d| && names != [] && HeadElements(decode, d, i, names, p).Some?
    ensures var r := HeadElements(decode, d, i, names, p).value;
            && r.end >= 1 && i <= r.end - 1 && d[r.end - 1] == 0x5D
            && Entries(decode, d, i, r.end - 1, names, AsRead(p), AsRead(r))
    decreases |names|
  {
    hide SkipWs, FieldValue, Takes, Blank, Entries;
    var r := HeadElements(decode, d, i, names, p).value;
    var field := FieldValue(decode, d, names[0], i, p).value;
    var v, next, e := field.end, SkipWs(d, field.end), r.end - 1;
    FieldTakes(decode, d, names[0], i, p);
    SpacesAreBlank(d, v);
    if At(d, next, CLOSE_ARRAY) {
      EntriesBy(decode, d, i, v, e, names, AsRead(p), AsRead(field), AsRead(r), true, 0, 0);
    } else {
      var more := SkipWs(d, next + 1);
      SpacesAreBlank(d, next + 1);
      ElementsAreEntries(decode, d, more, names[1..], field);
      EntriesBy(decode, d, i, v, e, names, AsRead(p), AsRead(field), AsRead(r), false, next, more);
    }
  }

  lemma {:induction false} EntriesAreElements(decode: Decoder, d: Bytes, i: nat, e: nat, names: seq<string>, p: Parsed, q: Read)
    requires i <= e < |d| && d[e] == 0x5D && Entries(decode, d, i, e, names, AsRead(p), q)
    ensures names != [] && i < e && !IsSpace(d[i])
    ensures var r := HeadElements(decode, d, i, names, p); r.Some? && r.value.end == e + 1 && AsRead(r.value) == q
    decreases |names|
  {
    hide SkipWs, FieldValue, Takes, Blank, Entries, NumberStops, IsSpace;
    var v, next, last, comma, more := EntriesSplit(decode, d, i, e, names, AsRead(p), q);
    TakenStarts(decode, d, AsRead(p), names[0], i, v, next);
    ValueStops(d, v, comma);
    BlankIsSkipped(d, v, comma);
    TakenField(decode, d, names[0], i, v, p, next);
    if !last {
      EntriesAreElements(decode, d, more, e, names[1..], FieldValue(decode, d, names[0], i, p).value, q);
      BlankIsSkipped(d, comma + 1, more);
    }
  }

  /** A body that is an array has a head exactly when it lists one. */
  lemma ListIsExact(decode: Decoder, d: Bytes, head: Head)
    requires SkipWs(d, 0) < |d| && d[SkipWs(d, 0)] == OPEN_ARRAY
    ensures ParseHead(decode, d) == Some(head)
            <==> exists q :: Lists(decode, d, q) && q.model == Some(head.model) && (head.stream <==> q.stream == Some(true))
  {
    if ParseHead(decode, d) == Some(head) {
      HeadLists(decode, d);
    }
    if q :| Lists(decode, d, q) && q.model == Some(head.model) && (head.stream <==> q.stream == Some(true)) {
      ListedHead(decode, d, q);
    }
  }

  lemma HeadLists(decode: Decoder, d: Bytes)
    requires ParseHead(decode, d).Some? && SkipWs(d, 0) < |d| && d[SkipWs(d, 0)] == OPEN_ARRAY
    ensures var p := ParseBody(decode, d);
            && p.Some? && Lists(decode, d, AsRead(p.value))
            && ParseHead(decode, d) == Some(Head(p.value.seen.model.value, p.value.seen.stream == Some(true)))
  {
    hide SkipWs, HeadMembers, HeadElements, Entries, Blank, ParseBody;
    BodyTurn(decode, d);
    var i := SkipWs(d, 0);
    var s := SkipWs(d, i + 1);
    var p := ParseBody(decode, d).value;
    SpacesAreBlank(d, 0);
    SpacesAreBlank(d, i + 1);
    ElementsAreEntries(decode, d, s, FIELDS, Parsed(NOTHING, false, 0));
    BlankToEnd(d, p.end);
    var e := p.end - 1;
    assert i < s <= e < |d| && Blank(d, 0, i) && d[i] == 0x5B && Blank(d, i + 1, s)
           && Entries(decode, d, s, e, ["model", "stream", "stream_options"], UNREAD, AsRead(p)) && d[e] == 0x5D && Blank(d, e + 1, |d|);
  }

  lemma ListedHead(decode: Decoder, d: Bytes, q: Read)
    requires Lists(decode, d, q) && q.model.Some?
    ensures ParseHead(decode, d) == Some(Head(q.model.value, q.stream == Some(true)))
  {
    hide SkipWs, Entries, Blank, ParseHead, ParseBody, IsSpace;
    var i: nat, s: nat, e: nat :|
      && i < s <= e < |d| && Blank(d, 0, i) && d[i] == 0x5B && Blank(d, i + 1, s)
      && Entries(decode, d, s, e, ["model", "stream", "stream_options"], UNREAD, q) && d[e] == 0x5D && Blank(d, e + 1, |d|);
    ListedAt(decode, d, q, i, s, e);
    BlankToEnd(d, e + 1);
    HeadOfBody(decode, d);
  }

  lemma ListedAt(decode: Decoder, d: Bytes, q: Read, i: nat, s: nat, e: nat)
    requires i < s <= e < |d| && Blank(d, 0, i) && d[i] == 0x5B && Blank(d, i + 1, s)
    requires Entries(decode, d, s, e, FIELDS, UNREAD, q) && d[e] == 0x5D
    ensures var p := ParseBody(decode, d); p.Some? && p.value.end == e + 1 && AsRead(p.value) == q
  {
    hide SkipWs, HeadMembers, HeadElements, Entries, Blank, ParseBody, IsSpace;
    BracketIsNoSpace(d, i);
    BlankIsSkipped(d, 0, i);
    EntriesAreElements(decode, d, s, e, FIELDS, Parsed(NOTHING, false, 0), q);
    BlankIsSkipped(d, i + 1, s);
    BodyTurn(decode, d);
  }

  lemma BracketIsNoSpace(d: Bytes, i: nat)
    requires i < |d| && d[i] == 0x5B
    ensures !IsSpace(d[i])
  {}

  /** A body that is neither has no head. */
  lemma OtherBodiesHaveNone(decode: Decoder, d: Bytes)
    requires forall i: nat :: i < |d| && Blank(d, 0, i) ==> d[i] != 0x7B && d[i] != 0x5B
    ensures ParseHead(decode, d) == None
  {
    SpacesAreBlank(d, 0);
  }
}
