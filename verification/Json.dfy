/** JSON values, the lookups the bridge performs on them, and the text codec. */
module Json {
  import opened Common

  type Fields = map<string, Json>

  /** A parsed document. Integers are kept exact; other numbers keep their digits. */
  datatype Json =
    | Null
    | Bool(b: bool)
    | Int(n: int)
    | Float(digits: string)
    | Str(s: string)
    | Arr(items: seq<Json>)
    | Obj(fields: map<string, Json>)

  const U64_BOUND: int := 0x1_0000_0000_0000_0000

  /** Lookup in a value: missing for everything that is not an object. */
  function Get(v: Json, key: string): Option<Json> {
    if v.Obj? then At(v.fields, key) else None
  }

  function At(fields: Fields, key: string): Option<Json> {
    if key in fields then Some(fields[key]) else None
  }

  /** The blocks of a message whose content is an array. */
  function ContentBlocks(message: Json): seq<Json> {
    var content := Get(message, "content");
    if content.Some? && content.value.Arr? then content.value.items else []
  }

  function StrAt(fields: Fields, key: string): Option<string> {
    AsStr(At(fields, key))
  }

  function ArrAt(fields: Fields, key: string): Option<seq<Json>> {
    if key in fields && fields[key].Arr? then Some(fields[key].items) else None
  }

  function ObjAt(fields: Fields, key: string): Option<Fields> {
    if key in fields && fields[key].Obj? then Some(fields[key].fields) else None
  }

  function AsStr(v: Option<Json>): Option<string> {
    if v.Some? && v.value.Str? then Some(v.value.s) else None
  }

  /** Only integers that fit 64 unsigned bits count. */
  function AsU64(v: Option<Json>): Option<nat> {
    if v.Some? && v.value.Int? && 0 <= v.value.n < U64_BOUND then Some(v.value.n) else None
  }

  function OrElse<T>(a: Option<T>, b: Option<T>): Option<T> {
    if a.Some? then a else b
  }

  function NonEmpty(s: Option<string>): (r: Option<string>)
    ensures r.Some? ==> r.value != ""
  {
    if s.Some? && s.value != "" then s else None
  }

  function GetOr<T>(o: Option<T>, default: T): T {
    if o.Some? then o.value else default
  }

  /** The JSON text library: a printer and a parser, known only by its round trip. */
  datatype Codec = Codec(encode: Json -> string, decode: string -> Option<Json>) {
    ghost predicate RoundTrips() {
      forall v :: decode(encode(v)) == Some(v)
    }
  }

  /** White space as the source's string trimming sees it (Unicode White_Space). */
  predicate IsWhite(c: char) {
    var n := c as int;
    || 0x09 <= n <= 0x0D || n == 0x20 || n == 0x85 || n == 0xA0 || n == 0x1680
    || 0x2000 <= n <= 0x200A || n == 0x2028 || n == 0x2029 || n == 0x202F
    || n == 0x205F || n == 0x3000
  }

  function TrimStart(s: string): string {
    if s != "" && IsWhite(s[0]) then TrimStart(s[1..]) else s
  }

  function TrimEnd(s: string): string {
    if s != "" && IsWhite(s[|s| - 1]) then TrimEnd(s[..|s| - 1]) else s
  }

  function Trim(s: string): string {
    TrimEnd(TrimStart(s))
  }

  /** A text that neither starts nor ends with white space survives trimming. */
  lemma TrimKeeps(s: string)
    requires s != "" && !IsWhite(s[0]) && !IsWhite(s[|s| - 1])
    ensures Trim(s) == s
  {}

  predicate AllWhite(s: string) {
    forall i :: 0 <= i < |s| ==> IsWhite(s[i])
  }

  /** Trimming takes off white space at both ends, all of it and nothing else. */
  lemma TrimIsMiddle(s: string) returns (before: string, after: string)
    ensures s == before + Trim(s) + after && AllWhite(before) && AllWhite(after)
    ensures Trim(s) != "" ==> !IsWhite(Trim(s)[0]) && !IsWhite(Trim(s)[|Trim(s)| - 1])
  {
    before := TrimStartIsEnd(s);
    after := TrimEndIsFront(TrimStart(s));
  }

  lemma {:induction false} TrimStartIsEnd(s: string) returns (before: string)
    ensures s == before + TrimStart(s) && AllWhite(before)
    ensures TrimStart(s) != "" ==> !IsWhite(TrimStart(s)[0])
  {
    before := "";
    if s != "" && IsWhite(s[0]) {
      before := TrimStartIsEnd(s[1..]);
      before := [s[0]] + before;
    }
  }

  lemma {:induction false} TrimEndIsFront(s: string) returns (after: string)
    ensures s == TrimEnd(s) + after && AllWhite(after)
    ensures TrimEnd(s) != "" ==> !IsWhite(TrimEnd(s)[|TrimEnd(s)| - 1]) && TrimEnd(s)[0] == s[0]
  {
    after := "";
    if s != "" && IsWhite(s[|s| - 1]) {
      after := TrimEndIsFront(s[..|s| - 1]);
      after := after + [s[|s| - 1]];
    }
  }
}
