/** The prefix scan refines the full parse, and both routes of a body agree (src/handlers.rs). */
module HeadRoute {
  import opened Common
  import opened HeadScan
  import opened JsonGrammar

  // ---------------------------------------------------------------- one member

  /** A string value that cannot be decoded, of a key the scan has no use for. */
  predicate Obstructs(decode: Decoder, d: Bytes, key: string, v: nat) {
    key != "model" && key != "stream" && Stops(decode, d, v, 1)
  }

  /** The scan learns from a member what the parse does, and goes on behind its value. */
  lemma MemberAgrees(decode: Decoder, d: Bytes, key: string, keyEnd: nat, v: nat, p: Parsed)
    requires keyEnd + 1 < v <= |d| && !Complete(p.seen) && FieldValue(decode, d, key, v, p).Some?
    requires SkipWs(d, keyEnd + 1) < |d| && d[SkipWs(d, keyEnd + 1)] == COLON && v == SkipWs(d, SkipWs(d, keyEnd + 1) + 1)
    requires NoColon(d, FieldValue(decode, d, key, v, p).value.end)
    ensures var field := FieldValue(decode, d, key, v, p).value;
            var after := AfterKey(decode, d, key, keyEnd, v, p.seen);
            && after.Some? && after.value.1 == field.seen
            && ScanFrom(decode, d, after.value.0, 1, field.seen)
               == if Obstructs(decode, d, key, v) then NeedMore else ScanFrom(decode, d, field.end, 1, field.seen)
  {
    if key == "model" {
      ModelAgrees(decode, d, keyEnd, v, p);
    } else if key != "stream" {
      OtherAgrees(decode, d, key, keyEnd, v, p);
    }
  }

  lemma ModelAgrees(decode: Decoder, d: Bytes, keyEnd: nat, v: nat, p: Parsed)
    requires keyEnd + 1 < v <= |d| && FieldValue(decode, d, "model", v, p).Some?
    ensures var field := FieldValue(decode, d, "model", v, p).value;
            AfterKey(decode, d, "model", keyEnd, v, p.seen) == Some((field.end, field.seen))
  {
    QuoteIsEnd(d, v + 1);
    hide QuoteFrom, StringFrom;
  }

  lemma OtherAgrees(decode: Decoder, d: Bytes, key: string, keyEnd: nat, v: nat, p: Parsed)
    requires key != "model" && key != "stream"
    requires keyEnd + 1 < v <= |d| && FieldValue(decode, d, key, v, p).Some?
    requires SkipWs(d, keyEnd + 1) < |d| && d[SkipWs(d, keyEnd + 1)] == COLON && v == SkipWs(d, SkipWs(d, keyEnd + 1) + 1)
    requires NoColon(d, FieldValue(decode, d, key, v, p).value.end)
    ensures var field := FieldValue(decode, d, key, v, p).value;
            var after := AfterKey(decode, d, key, keyEnd, v, p.seen);
            && after.Some? && after.value.1 == field.seen
            && ScanFrom(decode, d, after.value.0, 1, field.seen)
               == if Obstructs(decode, d, key, v) then NeedMore else ScanFrom(decode, d, field.end, 1, field.seen)
  {
    hide SkipWs, ScanFrom, ValueEnd, StringEnd;
    PassValue(decode, d, v, 1, p.seen);
    if key != "stream_options" {
      ReachPast(decode, d, keyEnd + 1, 1, p.seen);
    }
  }

  ghost predicate Keeps(a: Seen, b: Seen) {
    (a.model.Some? ==> b.model == a.model) && (a.stream.Some? ==> b.stream == a.stream)
  }

  lemma FieldKeeps(decode: Decoder, d: Bytes, key: string, v: nat, p: Parsed)
    requires v <= |d| && FieldValue(decode, d, key, v, p).Some?
    ensures Keeps(p.seen, FieldValue(decode, d, key, v, p).value.seen)
  {
    hide ValueEnd, StringEnd;
  }

  /** Fields once read are kept; repeating one would have been refused. */
  lemma {:induction false} SeenGrows(decode: Decoder, d: Bytes, i: nat, p: Parsed)
    requires i <= |d| && HeadMembers(decode, d, i, p).Some?
    ensures Keeps(p.seen, HeadMembers(decode, d, i, p).value.seen)
    decreases |d| - i
  {
    hide ValueEnd, StringEnd, SkipWs, FieldValue, KeyEnd;
    var key := decode(d[i..StringEnd(d, i).value]).value;
    FieldKeeps(decode, d, key, KeyEnd(d, i).value, p);
    var field := FieldValue(decode, d, key, KeyEnd(d, i).value, p).value;
    var next := SkipWs(d, field.end);
    if !At(d, next, CLOSE_OBJECT) {
      SeenGrows(decode, d, SkipWs(d, next + 1), field);
    }
  }

  // ---------------------------------------------------------------- the members of the top object

  /** No member obstructs the scan before both fields are known. */
  predicate Legible(decode: Decoder, d: Bytes, i: nat, p: Parsed)
    requires i <= |d|
    decreases |d| - i
  {
    HeadMembers(decode, d, i, p).Some? ==>
      var v := KeyEnd(d, i).value;
      var key := decode(d[i..StringEnd(d, i).value]).value;
      var field := FieldValue(decode, d, key, v, p).value;
      var next := SkipWs(d, field.end);
      && !Obstructs(decode, d, key, v)
      && (Complete(field.seen) || At(d, next, CLOSE_OBJECT) || Legible(decode, d, SkipWs(d, next + 1), field))
  }

  /** What the scan of the rest of the top object must be, given what the parse reads. */
  ghost predicate Agrees(r: PrefixScan, final: Seen, legible: bool) {
    && (r.Found? ==> final.model == Some(r.head.model) && final.stream == Some(r.head.stream))
    && (r.Found? <==> Complete(final) && legible)
  }

  lemma KeyStep(decode: Decoder, d: Bytes, i: nat, seen: Seen)
    requires i <= |d| && KeyEnd(d, i).Some?
    ensures var end := StringEnd(d, i).value - 1;
            i < end < |d| && ScanFrom(decode, d, i, 1, seen) == TopString(decode, d, i, end, seen)
  {
    QuoteIsEnd(d, i + 1);
    assert SkipWs(d, i) == i;
    hide TopString;
  }

  lemma KeyColon(d: Bytes, i: nat)
    requires i <= |d| && KeyEnd(d, i).Some?
    ensures var end := StringEnd(d, i).value - 1;
            var colon := SkipWs(d, end + 1);
            colon < |d| && d[colon] == COLON && KeyEnd(d, i).value == SkipWs(d, colon + 1) && end + 1 < KeyEnd(d, i).value
  {
    hide StringEnd, SkipWs;
  }

  lemma OnlyFieldsComplete(decode: Decoder, d: Bytes, key: string, v: nat, p: Parsed)
    requires v <= |d| && !Complete(p.seen) && FieldValue(decode, d, key, v, p).Some?
    ensures Complete(FieldValue(decode, d, key, v, p).value.seen) ==> key == "model" || key == "stream"
  {
    hide ValueEnd, StringEnd;
  }

  /** The scan of a member: over if everything is known now, else it goes on behind the value. */
  lemma TopMember(decode: Decoder, d: Bytes, i: nat, p: Parsed, key: string, field: Parsed)
    requires i <= |d| && !Complete(p.seen) && KeyEnd(d, i).Some?
    requires decode(d[i..StringEnd(d, i).value]) == Some(key)
    requires FieldValue(decode, d, key, KeyEnd(d, i).value, p) == Some(field)
    requires field.end <= |d| && NoColon(d, field.end)
    ensures var r := ScanFrom(decode, d, i, 1, p.seen);
            if Complete(field.seen) then r == Found(Head(field.seen.model.value, field.seen.stream.value))
            else r == if Obstructs(decode, d, key, KeyEnd(d, i).value) then NeedMore
                      else ScanFrom(decode, d, field.end, 1, field.seen)
    ensures Complete(field.seen) ==> !Obstructs(decode, d, key, KeyEnd(d, i).value)
  {
    hide *;
    var v, end := KeyEnd(d, i).value, StringEnd(d, i).value - 1;
    OnlyFieldsComplete(decode, d, key, v, p);
    OnlyOthersObstruct(decode, d, key, v);
    KeyColon(d, i);
    KeyStep(decode, d, i, p.seen);
    MemberAgrees(decode, d, key, end, v, p);
    TopKey(decode, d, i, end, key, p.seen);
  }

  lemma OnlyOthersObstruct(decode: Decoder, d: Bytes, key: string, v: nat)
    ensures key == "model" || key == "stream" ==> !Obstructs(decode, d, key, v)
  {}

  /** A top-level string that a colon follows is a key. */
  lemma TopKey(decode: Decoder, d: Bytes, i: nat, end: nat, key: string, seen: Seen)
    requires i < end < |d| && decode(d[i..end + 1]) == Some(key)
    requires SkipWs(d, end + 1) < |d| && d[SkipWs(d, end + 1)] == COLON
    ensures var after := AfterKey(decode, d, key, end, SkipWs(d, SkipWs(d, end + 1) + 1), seen);
            after.Some? ==> TopString(decode, d, i, end, seen)
                            == if Complete(after.value.1) then Found(Head(after.value.1.model.value, after.value.1.stream.value))
                               else ScanFrom(decode, d, after.value.0, 1, after.value.1)
  {
    hide SkipWs, AfterKey, ScanFrom;
  }

  /** One member of the top object, and what the parse and the scan's obstacles are from there on. */
  lemma MembersUnfold(decode: Decoder, d: Bytes, i: nat, p: Parsed) returns (key: string, field: Parsed, next: nat)
    requires i <= |d| && HeadMembers(decode, d, i, p).Some?
    ensures KeyEnd(d, i).Some? && decode(d[i..StringEnd(d, i).value]) == Some(key)
    ensures FieldValue(decode, d, key, KeyEnd(d, i).value, p) == Some(field) && i < field.end <= |d|
    ensures next == SkipWs(d, field.end) < |d| && NoColon(d, field.end)
    ensures d[next] != CLOSE_OBJECT ==>
              && !Structural(d[next]) && SkipWs(d, next + 1) > i
              && HeadMembers(decode, d, SkipWs(d, next + 1), field).Some?
              && HeadMembers(decode, d, i, p).value.seen == HeadMembers(decode, d, SkipWs(d, next + 1), field).value.seen
    ensures d[next] == CLOSE_OBJECT ==> HeadMembers(decode, d, i, p).value.seen == field.seen
    ensures Legible(decode, d, i, p)
            <==> !Obstructs(decode, d, key, KeyEnd(d, i).value)
                 && (Complete(field.seen) || d[next] == CLOSE_OBJECT || Legible(decode, d, SkipWs(d, next + 1), field))
  {
    hide ValueEnd, SkipWs, FieldValue, StringEnd, KeyEnd, Obstructs;
    key := decode(d[i..StringEnd(d, i).value]).value;
    field := FieldValue(decode, d, key, KeyEnd(d, i).value, p).value;
    next := SkipWs(d, field.end);
  }

  lemma {:induction false} MembersAgree(decode: Decoder, d: Bytes, i: nat, p: Parsed)
    requires i <= |d| && !Complete(p.seen) && HeadMembers(decode, d, i, p).Some?
    ensures Agrees(ScanFrom(decode, d, i, 1, p.seen), HeadMembers(decode, d, i, p).value.seen, Legible(decode, d, i, p))
    decreases |d| - i
  {
    hide *;
    var key, field, next := MembersUnfold(decode, d, i, p);
    TopMember(decode, d, i, p, key, field);
    if d[next] != CLOSE_OBJECT {
      SeenGrows(decode, d, SkipWs(d, next + 1), field);
      if Complete(field.seen) {
        FoundAgrees(field.seen, HeadMembers(decode, d, i, p).value.seen);
      } else {
        MembersAgree(decode, d, SkipWs(d, next + 1), field);
        ReachPast(decode, d, field.end, 1, field.seen);
        GivenUpAgrees(HeadMembers(decode, d, i, p).value.seen);
      }
    } else if Complete(field.seen) {
      FoundAgrees(field.seen, field.seen);
    } else {
      ReachToken(decode, d, field.end, 1, field.seen);
      TopCloses(decode, d, next, field.seen);
      NothingAgrees(field.seen, Legible(decode, d, i, p));
    }
  }

  lemma FoundAgrees(seen: Seen, final: Seen)
    requires Complete(seen) && (Keeps(seen, final) || final == seen)
    ensures Agrees(Found(Head(seen.model.value, seen.stream.value)), final, true)
  {}

  lemma GivenUpAgrees(final: Seen)
    ensures Agrees(NeedMore, final, false)
  {}

  lemma NothingAgrees(final: Seen, legible: bool)
    requires !Complete(final)
    ensures Agrees(NeedMore, final, legible)
  {}

  lemma TopCloses(decode: Decoder, d: Bytes, i: nat, seen: Seen)
    requires At(d, i, CLOSE_OBJECT)
    ensures ScanFrom(decode, d, i, 1, seen) == NeedMore
  {
    assert SkipWs(d, i) == i;
  }

  // ---------------------------------------------------------------- results

  /** Whether the body is an object that says `stream` itself. */
  predicate SaysStream(decode: Decoder, d: Bytes) {
    var p := ParseBody(decode, d);
    At(d, SkipWs(d, 0), OPEN_OBJECT) && p.Some? && p.value.seen.stream.Some?
  }

  /** Whether its top-level strings let the scan get as far as both fields. */
  predicate LegibleBody(decode: Decoder, d: Bytes) {
    var i := SkipWs(d, 0);
    At(d, i, OPEN_OBJECT) ==> Legible(decode, d, SkipWs(d, i + 1), Parsed(NOTHING, false, 0))
  }

  lemma WholeScanAgrees(decode: Decoder, d: Bytes)
    requires ParseHead(decode, d).Some?
    ensures Scan(decode, d).Found? ==> Scan(decode, d).head == ParseHead(decode, d).value
    ensures Scan(decode, d).Found? <==> SaysStream(decode, d) && LegibleBody(decode, d)
  {
    hide HeadMembers, HeadElements, ScanFrom, Legible;
    var i := SkipWs(d, 0);
    if At(d, i, OPEN_OBJECT) {
      ReachToken(decode, d, i + 1, 1, NOTHING);
      MembersAgree(decode, d, SkipWs(d, i + 1), Parsed(NOTHING, false, 0));
    }
  }

  /**
   Fast scan refines full parse: on any prefix of any body the full parse
   accepts, the scan asks for more or finds the model and the stream flag of the
   full parse; a finding never changes; and on the whole body the scan finds
   them exactly when the body is an object that states the flag and no
   undecodable string value stands at its top level before both are known.
   */
  lemma ScanRefinesParse(decode: Decoder, prefix: Bytes, rest: Bytes)
    requires ParseHead(decode, prefix + rest).Some?
    ensures Scan(decode, prefix).Found? ==> Scan(decode, prefix).head == ParseHead(decode, prefix + rest).value
    ensures Scan(decode, prefix + rest).Found? <==> SaysStream(decode, prefix + rest) && LegibleBody(decode, prefix + rest)
  {
    hide ParseHead, Scan, LegibleBody, SaysStream;
    WholeScanAgrees(decode, prefix + rest);
    if Scan(decode, prefix).Found? {
      ScanIsFinal(decode, prefix, rest);
    }
  }

  // ---------------------------------------------------------------- the two routes of a body

  /** A chunk that arrived, or a read that failed. */
  datatype Chunk = Data(bytes: Bytes) | Broken

  datatype BodyError = TooLarge | ReadFailed | InvalidJson

  datatype Incoming =
    | Buffered(head: Head, body: Bytes)
    | Streaming(head: Head, prefix: Bytes, rest: seq<Chunk>, contentLength: nat)

  const FAST_UPLOAD_MIN := 64 * 1024
  const HEAD_PREFIX_LIMIT := 16 * 1024

  /** The bytes of a stream that never fails. */
  function Joined(chunks: seq<Chunk>): Bytes {
    if chunks == [] then [] else (if chunks[0].Data? then chunks[0].bytes else []) + Joined(chunks[1..])
  }

  /** Reading the rest behind what is already held, as the source's loop decides it. */
  function Collect(held: Bytes, chunks: seq<Chunk>, max: nat): Result<Bytes, BodyError>
    decreases |chunks|
  {
    if chunks == [] then Success(held)
    else if chunks[0].Broken? then Failure(ReadFailed)
    else if |held| + |chunks[0].bytes| > max then Failure(TooLarge)
    else Collect(held + chunks[0].bytes, chunks[1..], max)
  }

  /** The connection fails at chunk `i`, and not before. */
  predicate FailsAt(chunks: seq<Chunk>, i: nat) {
    i < |chunks| && chunks[i].Broken? && forall j :: 0 <= j < i ==> chunks[j].Data?
  }

  /** Everything before the failure was within the limit. */
  predicate FailsFirst(held: Bytes, chunks: seq<Chunk>, max: nat, i: nat) {
    FailsAt(chunks, i) && (i > 0 ==> |held| + |Joined(chunks[..i])| <= max)
  }

  /**
   Collecting forwards every byte in order exactly when no chunk fails and, if anything is left to
   read, everything together is within the limit; of two failures it reports the one that comes first.
   */
  lemma {:induction false} CollectJoins(held: Bytes, chunks: seq<Chunk>, max: nat)
    ensures var r := Collect(held, chunks, max);
            && (r.Success? ==> r.value == held + Joined(chunks))
            && (r.Success? <==> (forall i :: 0 <= i < |chunks| ==> chunks[i].Data?) && (chunks != [] ==> |held| + |Joined(chunks)| <= max))
            && (r == Failure(ReadFailed) <==> exists i: nat :: FailsFirst(held, chunks, max, i))
            && (r.Failure? ==> r.error == ReadFailed || r.error == TooLarge)
    decreases |chunks|
  {
    if chunks == [] {
      assert held + [] == held;
    } else if chunks[0].Broken? {
      assert FailsFirst(held, chunks, max, 0);
    } else {
      var more, rest := held + chunks[0].bytes, chunks[1..];
      if |more| <= max {
        CollectJoins(more, rest, max);
        Regroup(held, chunks[0].bytes, Joined(rest));
        hide Collect;
        forall i: nat ensures FailsFirst(more, rest, max, i) <==> FailsFirst(held, chunks, max, i + 1) {
          FailsLater(held, chunks, max, i);
        }
        if i: nat :| FailsFirst(held, chunks, max, i) {
          assert i > 0;
          assert FailsFirst(more, rest, max, i - 1);
        }
      } else {
        forall i: nat ensures !FailsFirst(held, chunks, max, i) {
          assert i > 0 && i <= |chunks| ==> chunks[..i][0] == chunks[0];
        }
      }
    }
  }

  lemma FailsLater(held: Bytes, chunks: seq<Chunk>, max: nat, i: nat)
    requires chunks != [] && chunks[0].Data? && |held| + |chunks[0].bytes| <= max
    ensures FailsFirst(held + chunks[0].bytes, chunks[1..], max, i) <==> FailsFirst(held, chunks, max, i + 1)
  {
    if i < |chunks| {
      var part := chunks[..i + 1];
      assert part[0] == chunks[0] && part[1..] == chunks[1..][..i];
      assert |Joined(part)| == |chunks[0].bytes| + |Joined(chunks[1..][..i])|;
    }
  }

  method CollectRemaining(prefix: Bytes, rest: seq<Chunk>, max: nat) returns (r: Result<Bytes, BodyError>)
    ensures r == Collect(prefix, rest, max)
  {
    var out := prefix;
    for i := 0 to |rest|
      invariant Collect(prefix, rest, max) == Collect(out, rest[i..], max)
    {
      assert rest[i..][0] == rest[i] && rest[i..][1..] == rest[i + 1..];
      if rest[i].Broken? {
        return Failure(ReadFailed);
      }
      if |out| + |rest[i].bytes| > max {
        return Failure(TooLarge);
      }
      out := out + rest[i].bytes;
    }
    return Success(out);
  }

  /** The whole body, read and parsed at once: what every route has to agree with. */
  function ReadWhole(decode: Decoder, chunks: seq<Chunk>, max: nat): Result<(Head, Bytes), BodyError> {
    var body := Collect([], chunks, max);
    if body.Failure? then Failure(body.error)
    else if ParseHead(decode, body.value).None? then Failure(InvalidJson)
    else Success((ParseHead(decode, body.value).value, body.value))
  }

  /**
   The fast path: the first chunks, up to the prefix limit, in which the scan finds stream=false;
   what follows them is left unread.
   */
  function FastPath(decode: Decoder, held: Bytes, chunks: seq<Chunk>, max: nat, contentLength: nat): (r: Option<Incoming>)
    ensures r.Some? ==> r.value.Streaming? && !r.value.head.stream && Scan(decode, r.value.prefix) == Found(r.value.head)
    ensures r.Some? ==> Collect(held, chunks, max) == Collect(r.value.prefix, r.value.rest, max)
    decreases |chunks|
  {
    if chunks == [] || chunks[0].Broken? || |held| + |chunks[0].bytes| > max then None
    else
      var prefix := held + chunks[0].bytes;
      var scan := Scan(decode, prefix);
      if scan.Found? && !scan.head.stream then Some(Streaming(scan.head, prefix, chunks[1..], contentLength))
      else if |prefix| >= HEAD_PREFIX_LIMIT then None
      else FastPath(decode, prefix, chunks[1..], max, contentLength)
  }

  /** Only the first 16 KiB, and the chunk that goes past them, are looked at. */
  lemma {:induction false} OnlyAPrefixIsScanned(decode: Decoder, held: Bytes, chunks: seq<Chunk>, max: nat, contentLength: nat) returns (k: nat)
    requires FastPath(decode, held, chunks, max, contentLength).Some?
    ensures k < |chunks| && FastPath(decode, held, chunks, max, contentLength).value.rest == chunks[k + 1..]
    ensures k > 0 ==> |held| + |Joined(chunks[..k])| < 16 * 1024
    ensures FastPath(decode, held, chunks, max, contentLength).value.prefix == held + Joined(chunks[..k + 1])
    decreases |chunks|
  {
    hide Scan;
    var prefix := held + chunks[0].bytes;
    var scan := Scan(decode, prefix);
    k := 0;
    if scan.Found? && !scan.head.stream {
      assert chunks[..1][1..] == [];
    } else {
      var n := OnlyAPrefixIsScanned(decode, prefix, chunks[1..], max, contentLength);
      k := n + 1;
      assert chunks[1..][n + 1..] == chunks[k + 1..];
      assert chunks[..k][1..] == chunks[1..][..n] && chunks[..k + 1][1..] == chunks[1..][..n + 1];
      Regroup(held, chunks[0].bytes, Joined(chunks[1..][..n + 1]));
    }
  }

  /** A streaming candidate, if the length was announced and is large enough to try for one. */
  function Candidate(decode: Decoder, chunks: seq<Chunk>, max: nat, contentLength: Option<nat>): Option<Incoming> {
    if contentLength.Some? && contentLength.value >= FAST_UPLOAD_MIN
    then FastPath(decode, [], chunks, max, contentLength.value) else None
  }

  function AsBuffered(whole: Result<(Head, Bytes), BodyError>): Result<Incoming, BodyError> {
    if whole.Failure? then Failure(whole.error) else Success(Buffered(whole.value.0, whole.value.1))
  }

  method ReadIncomingBody(decode: Decoder, chunks: seq<Chunk>, max: nat, contentLength: Option<nat>)
    returns (r: Result<Incoming, BodyError>)
    ensures contentLength.Some? && contentLength.value > max ==> r == Failure(TooLarge)
    // Otherwise a candidate streams, and everything else is read and judged as if read at once.
    ensures contentLength.None? || contentLength.value <= max ==>
              var fast := Candidate(decode, chunks, max, contentLength);
              r == if fast.Some? then Success(fast.value) else AsBuffered(ReadWhole(decode, chunks, max))
  {
    hide Scan, ParseHead;
    if contentLength.Some? && contentLength.value > max {
      return Failure(TooLarge);
    }
    var prefix: Bytes, i := [], 0;
    assert chunks[0..] == chunks;
    if contentLength.Some? && contentLength.value >= FAST_UPLOAD_MIN {
      while i < |chunks|
        invariant 0 <= i <= |chunks|
        invariant Collect([], chunks, max) == Collect(prefix, chunks[i..], max)
        invariant FastPath(decode, [], chunks, max, contentLength.value)
               == FastPath(decode, prefix, chunks[i..], max, contentLength.value)
        decreases |chunks| - i
      {
        assert chunks[i..][0] == chunks[i] && chunks[i..][1..] == chunks[i + 1..];
        if chunks[i].Broken? {
          return Failure(ReadFailed);
        }
        if |prefix| + |chunks[i].bytes| > max {
          return Failure(TooLarge);
        }
        prefix := prefix + chunks[i].bytes;
        i := i + 1;
        var scan := ScanHeadPrefix(decode, prefix);
        if scan.Found? && !scan.head.stream {
          return Success(Streaming(scan.head, prefix, chunks[i..], contentLength.value));
        }
        if |prefix| >= HEAD_PREFIX_LIMIT {
          break;
        }
      }
      assert Candidate(decode, chunks, max, contentLength).None?;
    }
    var full := CollectRemaining(prefix, chunks[i..], max);
    if full.Failure? {
      return Failure(full.error);
    }
    var head := ParseHead(decode, full.value);
    if head.None? {
      return Failure(InvalidJson);
    }
    return Success(Buffered(head.value, full.value));
  }

  /** What is handed to the proxy: a head and a body, or a head and a stream still to be forwarded. */
  method IntoProxyBody(decode: Decoder, incoming: Incoming, allowStreaming: bool, max: nat)
    returns (r: Result<Incoming, BodyError>)
    ensures incoming.Buffered? || allowStreaming ==> r == Success(incoming)
    ensures incoming.Streaming? && !allowStreaming ==>
              var full := Collect(incoming.prefix, incoming.rest, max);
              r == (if full.Failure? then Failure(full.error)
                    else if ParseHead(decode, full.value).None? then Failure(InvalidJson)
                    else Success(Buffered(ParseHead(decode, full.value).value, full.value)))
  {
    hide ParseHead;
    if incoming.Buffered? || allowStreaming {
      return Success(incoming);
    }
    var full := CollectRemaining(incoming.prefix, incoming.rest, max);
    if full.Failure? {
      return Failure(full.error);
    }
    var head := ParseHead(decode, full.value);
    if head.None? {
      return Failure(InvalidJson);
    }
    return Success(Buffered(head.value, full.value));
  }

  /** The bytes a proxy body forwards upstream. */
  function Forwarded(b: Incoming): Bytes {
    if b.Buffered? then b.body else b.prefix + Joined(b.rest)
  }

  /**
   For every way of cutting a body, with or without permission to stream: without it the verdict is
   that of the full parse, whatever it is; with it the same, except that a candidate is forwarded
   unread. So the proxy gets the model and stream flag of the full parse and forwards exactly the
   body's bytes whenever the full parse accepts, and forwards a body that it would refuse exactly
   when streaming is allowed and the refused body is a candidate.
   */
  method RoutesAgree(decode: Decoder, chunks: seq<Chunk>, max: nat, contentLength: Option<nat>, allowStreaming: bool)
    returns (r: Result<Incoming, BodyError>)
    ensures contentLength.Some? && contentLength.value > max ==> r == Failure(TooLarge)
    ensures var whole, candidate := ReadWhole(decode, chunks, max), Candidate(decode, chunks, max, contentLength).Some?;
            contentLength.None? || contentLength.value <= max ==>
              && (!(allowStreaming && candidate) ==> r == AsBuffered(whole))
              && (whole.Success? ==> r.Success? && r.value.head == whole.value.0 && Forwarded(r.value) == whole.value.1)
              && (r.Success? && whole.Failure? <==> allowStreaming && candidate && whole.Failure?)
  {
    hide ParseHead, Scan, FastPath;
    r := ReadIncomingBody(decode, chunks, max, contentLength);
    ghost var whole := ReadWhole(decode, chunks, max);
    if r.Failure? {
      return;
    }
    var incoming := r.value;
    if incoming.Streaming? && whole.Success? {
      CollectJoins(incoming.prefix, incoming.rest, max);
      ScanRefinesParse(decode, incoming.prefix, Joined(incoming.rest));
    }
    r := IntoProxyBody(decode, incoming, allowStreaming, max);
  }

  /** Small bodies, and those whose length is not announced, are always read whole. */
  lemma SmallBodiesAreReadWhole(decode: Decoder, chunks: seq<Chunk>, max: nat, contentLength: Option<nat>)
    requires contentLength.None? || contentLength.value < 64 * 1024
    ensures Candidate(decode, chunks, max, contentLength).None?
  {}

  /** The fast path never looks at what follows the bytes that told it the head. */
  lemma RestIsUnread(decode: Decoder, first: Bytes, rest: seq<Chunk>, max: nat, contentLength: nat)
    requires Scan(decode, first).Found? && !Scan(decode, first).head.stream
    requires |first| <= max && 64 * 1024 <= contentLength
    ensures Candidate(decode, [Data(first)] + rest, max, Some(contentLength))
         == Some(Streaming(Scan(decode, first).head, first, rest, contentLength))
  {
    hide Scan;
    assert ([Data(first)] + rest)[1..] == rest;
    assert [] + first == first;
  }
}
