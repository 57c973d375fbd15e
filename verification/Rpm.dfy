/** The requests-per-minute token bucket (src/budget/mod.rs). */
module Rpm {

  const MINUTE := 60000

  datatype Bucket = Bucket(tokens: nat, last: nat)

  datatype Verdict = Granted | Refused(retryAfter: nat)

  function Elapsed(last: nat, now: nat): nat {
    if now > last then now - last else 0
  }

  function Refill(limit: nat, last: nat, now: nat): nat {
    Elapsed(last, now) * limit / MINUTE
  }

  function Available(b: Bucket, limit: nat, now: nat): nat {
    var filled := b.tokens + Refill(limit, b.last, now);
    if filled < limit then filled else limit
  }

  function RetryAfter(b: Bucket, limit: nat, now: nat): nat {
    var due := b.last + MINUTE / (if limit > 1 then limit else 1);
    if due > now then due - now else 0
  }

  /**
   One call at time `now`. The refill time is written with a weak
   compare-and-swap whose failure the source ignores: `stored` says whether it
   took effect.
   */
  function Take(b: Bucket, limit: nat, now: nat, stored: bool): (Bucket, Verdict) {
    var available := Available(b, limit, now);
    if available == 0 then (b, Refused(RetryAfter(b, limit, now)))
    else
      (Bucket(available - 1, if Refill(limit, b.last, now) > 0 && stored then now else b.last), Granted)
  }

  class RpmBucket {
    var tokens: nat
    var lastRefillMs: nat

    ghost function Value(): Bucket
      reads this
    {
      Bucket(tokens, lastRefillMs)
    }

    constructor (limit: nat, now: nat)
      ensures Value() == Bucket(limit, now)
    {
      tokens, lastRefillMs := limit, now;
    }

    /** The retry loop; `spurious` is how often the weak exchange fails for no reason. */
    method TryTake(limit: nat, now: nat, spurious: nat, stored: bool) returns (r: Verdict)
      modifies this
      ensures (Value(), r) == Take(old(Value()), limit, now, stored)
    {
      var last, observed, failures := lastRefillMs, tokens, spurious;
      while true
        invariant Value() == old(Value()) && last == lastRefillMs && observed == tokens
        decreases failures
      {
        var elapsed := if now > last then now - last else 0;
        var add := elapsed * limit / MINUTE;
        var replenished := if observed + add < limit then observed + add else limit;
        if replenished == 0 {
          return Refused(RetryAfter(Bucket(observed, last), limit, now));
        }
        if failures == 0 {
          tokens := replenished - 1;
          if add > 0 && stored {
            lastRefillMs := now;
          }
          return Granted;
        }
        failures := failures - 1;
        observed := tokens;
        last := lastRefillMs;
      }
    }
  }

  // ---------------------------------------------------------------- runs

  /** A call at a time of the caller's clock; `stored` says whether its write of the refill time takes effect. */
  datatype Call = Call(time: nat, stored: bool)

  function After(b: Bucket, limit: nat, calls: seq<Call>): Bucket
    decreases |calls|
  {
    if calls == [] then b else After(Take(b, limit, calls[0].time, calls[0].stored).0, limit, calls[1..])
  }

  function Grants(b: Bucket, limit: nat, calls: seq<Call>): nat
    decreases |calls|
  {
    if calls == [] then 0
    else
      var (next, verdict) := Take(b, limit, calls[0].time, calls[0].stored);
      (if verdict.Granted? then 1 else 0) + Grants(next, limit, calls[1..])
  }

  /** How many calls refilled the bucket without the refill time being stored. */
  function Lost(b: Bucket, limit: nat, calls: seq<Call>): nat
    decreases |calls|
  {
    if calls == [] then 0
    else
      var call := calls[0];
      (if Refill(limit, b.last, call.time) > 0 && !call.stored then 1 else 0)
      + Lost(Take(b, limit, call.time, call.stored).0, limit, calls[1..])
  }

  predicate Within(calls: seq<Call>, from: nat, to: nat) {
    forall i :: 0 <= i < |calls| ==> from <= calls[i].time <= to
  }

  /** Tokens never exceed the limit, and after any call the bucket is not full, whatever is stored or lost. */
  lemma {:induction false} TokensCapped(b: Bucket, limit: nat, calls: seq<Call>)
    requires b.tokens <= limit && limit >= 1
    ensures After(b, limit, calls).tokens <= limit
    ensures calls != [] ==> After(b, limit, calls).tokens < limit
    decreases |calls|
  {
    if calls != [] {
      TokensCapped(Take(b, limit, calls[0].time, calls[0].stored).0, limit, calls[1..]);
    }
  }

  /** One more call at the end of a run. */
  lemma {:induction false} OneMoreCall(b: Bucket, limit: nat, calls: seq<Call>, call: Call)
    ensures var (next, verdict) := Take(After(b, limit, calls), limit, call.time, call.stored);
            && After(b, limit, calls + [call]) == next
            && Grants(b, limit, calls + [call]) == Grants(b, limit, calls) + (if verdict.Granted? then 1 else 0)
            && Lost(b, limit, calls + [call]) <= Lost(b, limit, calls) + (if call.stored then 0 else 1)
    decreases |calls|
  {
    var all := calls + [call];
    if calls == [] {
      assert all[1..] == [];
    } else {
      assert all[0] == calls[0] && all[1..] == calls[1..] + [call];
      OneMoreCall(Take(b, limit, calls[0].time, calls[0].stored).0, limit, calls[1..], call);
    }
  }

  // ---------------------------------------------------------------- the bound

  lemma RefillAdds(limit: nat, a: nat, b: nat, c: nat)
    requires a <= b <= c
    ensures Refill(limit, a, b) + Refill(limit, b, c) <= Refill(limit, a, c)
  {
    assert (c - a) * limit == (b - a) * limit + (c - b) * limit;
  }

  lemma RefillGrows(limit: nat, a: nat, b: nat, c: nat)
    requires b <= c
    ensures Refill(limit, a, b) <= Refill(limit, a, c)
    ensures Refill(limit, c, a) <= Refill(limit, b, a)
  {
    Scale(Elapsed(a, b), Elapsed(a, c), limit);
    Scale(Elapsed(c, a), Elapsed(b, a), limit);
  }

  lemma Scale(x: nat, y: nat, k: nat)
    requires x <= y
    ensures x * k <= y * k
  {
    assert y * k == x * k + (y - x) * k;
  }

  /** What a run can be granted: what is there, what flows in up to its latest time, and a refill for each loss. */
  lemma {:induction false} GrantsFlow(b: Bucket, limit: nat, calls: seq<Call>, from: nat, to: nat)
    requires limit >= 1 && Within(calls, from, to)
    ensures Grants(b, limit, calls) <= b.tokens + Refill(limit, b.last, to) + limit * Lost(b, limit, calls)
    decreases |calls|
  {
    if calls != [] {
      var now, rest := calls[0].time, calls[1..];
      var next := Take(b, limit, now, calls[0].stored).0;
      GrantsFlow(next, limit, rest, from, to);
      if Refill(limit, b.last, now) > 0 {
        if calls[0].stored {
          RefillAdds(limit, b.last, now, to);
        } else {
          OneMoreLost(limit, Lost(next, limit, rest));
        }
      }
    }
  }

  lemma OneMoreLost(limit: nat, lost: nat)
    ensures limit * (1 + lost) == limit + limit * lost
  {}

  /** The bucket is full and holds an unspent fraction of a token on top. */
  predicate FullWithResidue(b: Bucket, limit: nat, from: nat) {
    b.tokens == limit && b.last < from && (from - b.last) * limit < 60000
  }

  lemma Distribute(x: nat, y: nat, k: nat)
    ensures (x + y) * k == x * k + y * k
  {}

  /** Less than one token's time before the window is worth at most one more token. */
  lemma ResidueWorthOne(limit: nat, last: nat, from: nat, to: nat)
    requires last <= from <= to && (from - last) * limit < MINUTE
    ensures Refill(limit, last, to) <= (to - from) * limit / MINUTE + 1
  {
    Distribute(to - from, from - last, limit);
    assert (to - from) + (from - last) == to - last;
    var p, r := (to - from) * limit, (from - last) * limit;
    assert (to - last) * limit == p + r && Elapsed(last, to) * limit == p + r;
  }

  /** The first call and the rest, when a refill was due. */
  lemma GrantsFirst(b: Bucket, limit: nat, calls: seq<Call>)
    requires limit >= 1 && calls != [] && b.tokens <= limit
    ensures var call := calls[0];
            var next := Take(b, limit, call.time, call.stored).0;
            && Grants(b, limit, calls) <= 1 + Grants(next, limit, calls[1..])
            && (Refill(limit, b.last, call.time) > 0 ==>
                  && next.tokens < limit && next.last == (if call.stored then call.time else b.last)
                  && Lost(b, limit, calls) == (if call.stored then 0 else 1) + Lost(next, limit, calls[1..]))
  {}

  /** The rate bound for any calls, with one refill more for each refill time that was lost. */
  lemma {:induction false} GrantsBounded(b: Bucket, limit: nat, calls: seq<Call>, from: nat, to: nat)
    requires limit >= 1 && b.tokens <= limit && from <= to && Within(calls, from, to)
    requires !FullWithResidue(b, limit, from)
    ensures Grants(b, limit, calls) <= limit + (to - from) * limit / 60000 + limit * Lost(b, limit, calls)
    decreases |calls|
  {
    if calls != [] {
      var now, rest := calls[0].time, calls[1..];
      var next := Take(b, limit, now, calls[0].stored).0;
      assert Within(rest, from, to);
      var bound := (to - from) * limit / MINUTE;
      assert Refill(limit, from, to) == bound;
      GrantsFirst(b, limit, calls);
      if Refill(limit, b.last, now) == 0 {
        NothingDue(b, limit, calls, from, to);
      } else if calls[0].stored {
        GrantsFlow(next, limit, rest, from, to);
        hide Grants, Lost;
        RefillGrows(limit, to, from, now);
      } else {
        GrantsBounded(next, limit, rest, from, to);
        hide Grants, Lost;
        OneMoreLost(limit, Lost(next, limit, rest));
      }
    }
  }

  /** If the first call finds no token due, less than one token's time has passed before the window. */
  lemma NothingDue(b: Bucket, limit: nat, calls: seq<Call>, from: nat, to: nat)
    requires limit >= 1 && b.tokens <= limit && from <= to && Within(calls, from, to)
    requires !FullWithResidue(b, limit, from) && calls != [] && Refill(limit, b.last, calls[0].time) == 0
    ensures Grants(b, limit, calls) <= limit + (to - from) * limit / MINUTE + limit * Lost(b, limit, calls)
  {
    GrantsFlow(b, limit, calls, from, to);
    hide Grants, Lost;
    if b.last >= from {
      RefillGrows(limit, to, from, b.last);
    } else {
      Scale(from - b.last, calls[0].time - b.last, limit);
      ResidueWorthOne(limit, b.last, from, to);
      assert (from - b.last) * limit < MINUTE;
    }
  }

  // ---------------------------------------------------------------- and where it fails

  function Repeat(n: nat, call: Call): seq<Call> {
    if n == 0 then [] else [call] + Repeat(n - 1, call)
  }

  /** While no refill is due, stored tokens are granted one by one and nothing is lost. */
  lemma {:induction false} Drain(tokens: nat, last: nat, limit: nat, call: Call, rest: seq<Call>)
    requires tokens <= limit && Refill(limit, last, call.time) == 0
    ensures Grants(Bucket(tokens, last), limit, Repeat(tokens, call) + rest)
            == tokens + Grants(Bucket(0, last), limit, rest)
    ensures Lost(Bucket(tokens, last), limit, Repeat(tokens, call) + rest) == Lost(Bucket(0, last), limit, rest)
    decreases tokens
  {
    var all := Repeat(tokens, call) + rest;
    if tokens == 0 {
      assert all == rest;
    } else {
      assert all[0] == call && all[1..] == Repeat(tokens - 1, call) + rest;
      Drain(tokens - 1, last, limit, call, rest);
    }
  }

  /** The first whole millisecond at which one token has flowed in. */
  function NextToken(limit: nat): nat
    requires limit >= 1
  {
    (MINUTE + limit - 1) / limit
  }

  lemma DivMulLe(a: nat, b: nat)
    requires b >= 1
    ensures a / b * b <= a < (a / b + 1) * b
  {
    assert a == b * (a / b) + a % b;
  }

  lemma NextTokenIsFirst(limit: nat, wait: nat)
    requires limit >= 1
    ensures wait * limit >= MINUTE <==> wait >= NextToken(limit)
  {
    var n := NextToken(limit);
    DivMulLe(MINUTE + limit - 1, limit);
    assert n * limit >= MINUTE && (n - 1) * limit < MINUTE by {
      assert (n + 1) * limit == n * limit + limit;
      assert (n - 1) * limit == n * limit - limit;
    }
    if wait >= n {
      Scale(n, wait, limit);
    } else {
      if n >= 1 {
        Scale(wait, n - 1, limit);
      }
    }
  }

  /** A full bucket with a residue grants limit + 1 calls before one token's time has passed, with nothing lost. */
  lemma ResidueBreaksTheBound(b: Bucket, limit: nat, from: nat)
    requires limit >= 1 && FullWithResidue(b, limit, from)
    ensures exists calls, to :: && from <= to && Within(calls, from, to) && Lost(b, limit, calls) == 0
                                && Grants(b, limit, calls) > limit + (to - from) * limit / 60000
  {
    var to := b.last + NextToken(limit);
    NextTokenIsFirst(limit, from - b.last);
    NextTokenIsFirst(limit, to - b.last);
    assert from < to;
    NextTokenIsFirst(limit, to - from);
    assert (to - from) * limit / MINUTE == 0;
    var last := [Call(to, true)];
    var calls := Repeat(limit, Call(from, true)) + last;
    Drain(limit, b.last, limit, Call(from, true), last);
    assert last[1..] == [];
    assert (to - b.last) * limit / MINUTE >= 1;
    assert Grants(Bucket(0, b.last), limit, last) == 1 && Lost(Bucket(0, b.last), limit, last) == 0;
    RepeatWithin(limit, Call(from, true), from, to);
    assert Within(calls, from, to);
  }

  lemma {:induction false} RepeatWithin(n: nat, call: Call, from: nat, to: nat)
    requires from <= call.time <= to
    ensures |Repeat(n, call)| == n && Within(Repeat(n, call), from, to)
    decreases n
  {
    if n > 0 {
      RepeatWithin(n - 1, call, from, to);
    }
  }

  /** What the calls of a window may be granted. */
  function Allowance(b: Bucket, limit: nat, calls: seq<Call>, from: nat, to: nat): nat
    requires from <= to
  {
    limit + (to - from) * limit / 60000 + limit * Lost(b, limit, calls)
  }

  /**
   The rate bound, exactly: from a bucket within its limit, every run of calls
   at times between `from` and any `to`, in any order, is granted at most
   limit + (to - from) * limit / 60000 requests and one refill more for each
   refill time that was lost, unless the bucket is full and already holds part
   of the next token.
   */
  lemma RateBoundIsExact(b: Bucket, limit: nat, from: nat)
    requires limit >= 1 && b.tokens <= limit
    ensures !FullWithResidue(b, limit, from)
            <==> forall calls, to :: from <= to && Within(calls, from, to)
                                     ==> Grants(b, limit, calls) <= Allowance(b, limit, calls, from, to)
  {
    if FullWithResidue(b, limit, from) {
      ResidueBreaksTheBound(b, limit, from);
      var calls, to :| && from <= to && Within(calls, from, to) && Lost(b, limit, calls) == 0
                       && Grants(b, limit, calls) > limit + (to - from) * limit / 60000;
      assert Grants(b, limit, calls) > Allowance(b, limit, calls, from, to);
    } else {
      forall calls, to | from <= to && Within(calls, from, to)
        ensures Grants(b, limit, calls) <= Allowance(b, limit, calls, from, to)
      {
        GrantsBounded(b, limit, calls, from, to);
      }
    }
  }

  /** So every window that opens after some earlier call on the bucket obeys the bound. */
  lemma RateBoundAfterFirstCall(limit: nat, created: nat, before: seq<Call>, calls: seq<Call>, from: nat, to: nat)
    requires limit >= 1 && from <= to && Within(calls, from, to)
    requires before != [] || from <= created || (from - created) * limit >= 60000
    ensures var b := After(Bucket(limit, created), limit, before);
            Grants(b, limit, calls) <= Allowance(b, limit, calls, from, to)
  {
    TokensCapped(Bucket(limit, created), limit, before);
    GrantsBounded(After(Bucket(limit, created), limit, before), limit, calls, from, to);
  }

  // ---------------------------------------------------------------- the ignored exchange

  /** Every loss counts: if the refill time is lost each time, one token's wait pays for any number of calls. */
  lemma {:induction false} LostRefillIsUnbounded(b: Bucket, limit: nat, now: nat, n: nat)
    requires limit >= 1 && Refill(limit, b.last, now) >= 1
    ensures var calls := Repeat(n, Call(now, false));
            Grants(b, limit, calls) == n && Lost(b, limit, calls) == n
    decreases n
  {
    if n > 0 {
      var calls := Repeat(n, Call(now, false));
      assert calls[1..] == Repeat(n - 1, Call(now, false));
      LostRefillIsUnbounded(Take(b, limit, now, false).0, limit, now, n - 1);
    }
  }

  // ---------------------------------------------------------------- retry_after

  /**
   After a refusal the announced wait is tight: an attempt is refused before
   now + retryAfter, granted from one millisecond after it on, and granted at
   that very instant exactly when the limit divides a minute.
   */
  lemma RetryAfterIsTight(b: Bucket, limit: nat, now: nat, attempt: nat)
    requires limit >= 1 && Take(b, limit, now, true).1.Refused?
    ensures var wait := Take(b, limit, now, true).1.retryAfter;
            Take(b, limit, attempt, true).1.Granted?
            <==> attempt >= now + wait + (if 60000 % limit == 0 then 0 else 1)
  {
    assert b.tokens == 0 && Refill(limit, b.last, now) == 0;
    NextTokenIsFirst(limit, Elapsed(b.last, now));
    NextTokenIsFirst(limit, Elapsed(b.last, attempt));
    NextTokenNear(limit);
    assert Take(b, limit, attempt, true).1.Granted? <==> Elapsed(b.last, attempt) >= NextToken(limit);
  }

  lemma NextTokenNear(limit: nat)
    requires limit >= 1
    ensures NextToken(limit) == MINUTE / limit + (if MINUTE % limit == 0 then 0 else 1)
    ensures NextToken(limit) >= 1
  {
    var q, r := MINUTE / limit, MINUTE % limit;
    assert MINUTE == limit * q + r;
    DivMulLe(MINUTE + limit - 1, limit);
    var n := NextToken(limit);
    if r == 0 {
      assert MINUTE + limit - 1 == limit * q + (limit - 1);
      DivIs(MINUTE + limit - 1, limit, q, limit - 1);
    } else {
      assert MINUTE + limit - 1 == limit * (q + 1) + (r - 1);
      DivIs(MINUTE + limit - 1, limit, q + 1, r - 1);
    }
  }

  lemma DivIs(a: nat, b: nat, q: nat, r: nat)
    requires b >= 1 && a == b * q + r && r < b
    ensures a / b == q
  {
    DivMulLe(a, b);
    var d := a / b;
    if d < q {
      Scale(d + 1, q, b);
    } else if d > q {
      Scale(q + 1, d, b);
    }
  }
}
