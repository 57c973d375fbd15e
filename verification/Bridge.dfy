/** The vocabulary shared by both directions of the bridge (src/bridge/mod.rs). */
module Bridge {
  import opened Common
  import opened Json

  datatype Context = Context(publicModel: string, requestId: string, estimatedInputTokens: nat)

  /** Why a translation was refused; the wording of the messages is not modelled. */
  datatype BridgeError =
    | InvalidRequest
    | Unsupported
    | InvalidJson
    | NotAnObject
    | Reported(message: string)
    | NoChoices
    | NoMessage
    | ContentNotText
    | BadToolCall
    | MissingToolName
    | BadArguments
    | LineTooLong
    | Aborted(message: string)

  function Status(e: BridgeError): nat {
    if e.InvalidRequest? || e.Unsupported? then 400 else 502
  }

  /** The request context together with the libraries the bridge calls. */
  datatype Env = Env(ctx: Context, codec: Codec, lossy: Bytes -> string, signature: string -> string)

  datatype BlockKind = TextKind | ThinkingKind | ToolKind(id: string, name: string)

  datatype Delta =
    | TextDelta(text: string)
    | ThinkingDelta(thinking: string)
    | SignatureDelta(signature: string)
    | InputJsonDelta(partialJson: string)

  /** One Anthropic stream event. */
  datatype Event =
    | MessageStart(id: string, model: string, inputTokens: nat)
    | BlockStart(index: nat, kind: BlockKind)
    | BlockDelta(index: nat, delta: Delta)
    | BlockStop(index: nat)
    | MessageDelta(stopReason: string, outputTokens: nat)
    | MessageStop
    | Error(status: nat, reason: BridgeError)

  function Keep(s: string, dashes: bool): string {
    if s == "" then ""
    else
      var c := s[0];
      var kept := '0' <= c <= '9' || 'a' <= c <= 'z' || 'A' <= c <= 'Z' || (dashes && (c == '-' || c == '_'));
      (if kept then [c] else []) + Keep(s[1..], dashes)
  }

  function Take(s: string, limit: nat): string {
    if |s| <= limit then s else s[..limit]
  }

  function Decimal(n: nat): string {
    var digit := [('0' as int + n % 10) as char];
    if n < 10 then digit else Decimal(n / 10) + digit
  }

  function MessageId(requestId: string, upstream: Option<string>): (id: string)
    ensures id != ""
    ensures upstream.Some? && upstream.value != "" ==> id == upstream.value
  {
    if upstream.Some? && upstream.value != "" then upstream.value
    else
      var safe := Take(Keep(requestId, true), 48);
      if safe == "" then "msg_bridge" else "msg_bridge_" + safe
  }

  function SyntheticToolId(requestId: string, index: nat): (id: string)
    ensures id != ""
  {
    var safe := Take(Keep(requestId, false), 32);
    if safe == "" then "toolu_bridge_" + Decimal(index)
    else "toolu_bridge_" + safe + "_" + Decimal(index)
  }

  // ---------------------------------------------------------------- what the ids are

  /** ASCII letters and digits, and in message ids also dashes. */
  predicate IsSafe(c: char, dashes: bool) {
    var n := c as int;
    48 <= n <= 57 || 65 <= n <= 90 || 97 <= n <= 122 || (dashes && (n == 45 || n == 95))
  }

  lemma KeepTurn(s: string, dashes: bool)
    requires s != ""
    ensures Keep(s, dashes) == (if IsSafe(s[0], dashes) then [s[0]] else "") + Keep(s[1..], dashes)
  {}

  /** Filtering keeps exactly the safe characters, in order. */
  lemma {:induction false} KeepIsFilter(a: string, c: char, dashes: bool)
    ensures Keep("", dashes) == "" && Keep(a + [c], dashes) == Keep(a, dashes) + (if IsSafe(c, dashes) then [c] else "")
    decreases |a|
  {
    var s := a + [c];
    KeepTurn(s, dashes);
    if a == "" {
      assert s[0] == c && s[1..] == "";
    } else {
      assert s[0] == a[0] && s[1..] == a[1..] + [c];
      KeepTurn(a, dashes);
      KeepIsFilter(a[1..], c, dashes);
      hide Keep, IsSafe;
    }
  }

  /** The number a string of digits stands for. */
  function Number(digits: string): int {
    if digits == "" then 0 else Number(digits[..|digits| - 1]) * 10 + (digits[|digits| - 1] as int - '0' as int)
  }

  lemma {:induction false} DecimalReadsBack(n: nat)
    ensures Number(Decimal(n)) == n
  {
    var digits := Decimal(n);
    if n < 10 {
      assert digits[..0] == "";
    } else {
      DecimalReadsBack(n / 10);
      assert digits[..|digits| - 1] == Decimal(n / 10);
    }
  }

  /** Calls without an id of their own get different ones. */
  lemma SyntheticIdsDiffer(requestId: string, i: nat, j: nat)
    requires i != j
    ensures SyntheticToolId(requestId, i) != SyntheticToolId(requestId, j)
  {
    DecimalReadsBack(i);
    DecimalReadsBack(j);
    var safe := Take(Keep(requestId, false), 32);
    var before := if safe == "" then "toolu_bridge_" else "toolu_bridge_" + safe + "_";
    assert SyntheticToolId(requestId, i) == before + Decimal(i) && SyntheticToolId(requestId, j) == before + Decimal(j);
    assert (before + Decimal(i))[|before|..] == Decimal(i) && (before + Decimal(j))[|before|..] == Decimal(j);
  }

  /** Made-up ids: a fixed prefix, the first safe characters of the request's id, the position. */
  lemma MadeUpIds(requestId: string, index: nat)
    ensures var safe := Keep(requestId, true);
            MessageId(requestId, None) == MessageId(requestId, Some(""))
            == if safe == "" then "msg_bridge" else "msg_bridge_" + (if |safe| <= 48 then safe else safe[..48])
    ensures var safe := Keep(requestId, false);
            SyntheticToolId(requestId, index)
            == if safe == "" then "toolu_bridge_" + Decimal(index)
               else "toolu_bridge_" + (if |safe| <= 32 then safe else safe[..32]) + "_" + Decimal(index)
  {}
}
