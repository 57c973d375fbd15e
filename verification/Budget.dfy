/** Token budgets: reservations over usage counters (src/budget/mod.rs). */
module Budget {
  import opened Common
  import Calendar
  import Rpm

  /** Whose budget it is: a key's own or its team's. */
  datatype Owner = Owner(isKey: bool, id: int)

  /** One counter: an owner's total or its use of one model, in one period. */
  datatype UsageKey =
    | Total(owner: Owner, period: int)
    | PerModel(owner: Owner, period: int, model: string)

  type Usage = map<UsageKey, nat>

  datatype Plan = Plan(period: string, maxTokens: nat, perModel: map<string, nat>)

  datatype ApiKey = ApiKey(id: int, teamId: int, budget: Option<Plan>, rpmLimit: Option<nat>)

  datatype Claim = Claim(key: UsageKey, limit: nat)

  datatype Reserved = Reserved(key: UsageKey, amount: nat)

  datatype BudgetError = Exceeded(remaining: nat) | RateLimited(retryAfter: nat)

  function Used(usage: Usage, k: UsageKey): nat {
    if k in usage then usage[k] else 0
  }

  function Remaining(limit: nat, current: nat): nat {
    if limit > current then limit - current else 0
  }

  function Saturating(v: nat, amount: nat): nat {
    if v > amount then v - amount else 0
  }

  /** Counters that were never touched are the same as counters at zero. */
  ghost predicate SameUsage(a: Usage, b: Usage) {
    forall k :: Used(a, k) == Used(b, k)
  }

  // ---------------------------------------------------------------- which counters a request claims

  function EffectivePlan(key: ApiKey, teams: map<int, Plan>): Option<(Owner, Plan)> {
    if key.budget.Some? then Some((Owner(true, key.id), key.budget.value))
    else if key.teamId in teams then Some((Owner(false, key.teamId), teams[key.teamId]))
    else None
  }

  function Claims(key: ApiKey, teams: map<int, Plan>, model: string, now: int): seq<Claim> {
    var effective := EffectivePlan(key, teams);
    if effective.None? then []
    else
      var (owner, plan) := effective.value;
      var period := Calendar.PeriodStart(plan.period, now);
      [Claim(Total(owner, period), plan.maxTokens)]
      + (if model in plan.perModel then [Claim(PerModel(owner, period, model), plan.perModel[model])] else [])
  }

  /** The estimate fits what remains of a claim. */
  predicate Fits(claim: Claim, usage: Usage, estimate: nat) {
    estimate <= Remaining(claim.limit, Used(usage, claim.key))
  }

  predicate FirstUnfit(claims: seq<Claim>, usage: Usage, estimate: nat, i: nat) {
    && i < |claims| && !Fits(claims[i], usage, estimate)
    && forall j :: 0 <= j < i ==> Fits(claims[j], usage, estimate)
  }

  /** Zero stands for no limit, as a limit of zero does. */
  function RpmLimit(key: ApiKey): nat {
    if key.rpmLimit.Some? then key.rpmLimit.value else 0
  }

  /** A key's bucket, or the full one its first request makes. */
  function BucketOf(rpm: map<int, Rpm.Bucket>, id: int, limit: nat, created: nat): Rpm.Bucket {
    if id in rpm then rpm[id] else Rpm.Bucket(limit, created)
  }

  /** Which counters are claimed and up to where: a key's own budget hides its team's. */
  lemma ClaimsMeaning(key: ApiKey, teams: map<int, Plan>, model: string, now: int)
    ensures var claims := Claims(key, teams, model, now);
            && (key.budget.Some? ==> ClaimedBy(claims, Owner(true, key.id), key.budget.value, model, now))
            && (key.budget.None? && key.teamId in teams ==>
                  ClaimedBy(claims, Owner(false, key.teamId), teams[key.teamId], model, now))
            && (key.budget.None? && key.teamId !in teams ==> claims == [])
  {
    hide Calendar.PeriodStart;
  }

  /** The owner's total up to its cap and, only if the plan caps this model, the model up to that cap. */
  predicate ClaimedBy(claims: seq<Claim>, owner: Owner, plan: Plan, model: string, now: int) {
    var period := Calendar.PeriodStart(plan.period, now);
    && |claims| == (if model in plan.perModel then 2 else 1)
    && claims[0].key == Total(owner, period) && claims[0].limit == plan.maxTokens
    && (model in plan.perModel ==> claims[1].key == PerModel(owner, period, model) && claims[1].limit == plan.perModel[model])
  }

  /** Nothing, or one owner's total, or that total and then one model of the same owner and period. */
  predicate Shaped(keys: seq<UsageKey>) {
    && |keys| <= 2
    && (|keys| > 0 ==> keys[0].Total?)
    && (|keys| > 1 ==> keys[1].PerModel? && keys[1].owner == keys[0].owner && keys[1].period == keys[0].period)
  }

  function ClaimKeys(claims: seq<Claim>): seq<UsageKey> {
    seq(|claims|, i requires 0 <= i < |claims| => claims[i].key)
  }

  function HeldKeys(held: seq<Reserved>): seq<UsageKey> {
    seq(|held|, i requires 0 <= i < |held| => held[i].key)
  }

  lemma ClaimsAreShaped(key: ApiKey, teams: map<int, Plan>, model: string, now: int)
    ensures Shaped(ClaimKeys(Claims(key, teams, model, now)))
  {
    hide Calendar.PeriodStart;
  }

  // ---------------------------------------------------------------- counter arithmetic

  /** Tokens a list of reservations holds on one counter. */
  function Held(held: seq<Reserved>, k: UsageKey): nat {
    if held == [] then 0
    else Held(held[1..], k) + (if held[0].key == k then held[0].amount else 0)
  }

  function Count(held: seq<Reserved>, k: UsageKey): nat {
    if held == [] then 0 else Count(held[1..], k) + (if held[0].key == k then 1 else 0)
  }

  function Add(usage: Usage, k: UsageKey, amount: nat): Usage {
    if amount == 0 || k !in usage then usage else usage[k := usage[k] + amount]
  }

  function Sub(usage: Usage, k: UsageKey, amount: nat): Usage {
    if amount == 0 || k !in usage then usage else usage[k := Saturating(usage[k], amount)]
  }

  /** Adjust one reservation from its estimate to the actual amount. */
  function CommitOne(usage: Usage, s: Reserved, actual: nat): Usage {
    if actual >= s.amount then Add(usage, s.key, actual - s.amount) else Sub(usage, s.key, s.amount - actual)
  }

  function CommitAll(usage: Usage, held: seq<Reserved>, actual: nat): Usage
    decreases |held|
  {
    if held == [] then usage else CommitAll(CommitOne(usage, held[0], actual), held[1..], actual)
  }

  function RollbackAll(usage: Usage, held: seq<Reserved>): Usage
    decreases |held|
  {
    if held == [] then usage else RollbackAll(Sub(usage, held[0].key, held[0].amount), held[1..])
  }

  lemma {:induction false} HeldAppend(held: seq<Reserved>, s: Reserved, k: UsageKey)
    ensures Held(held + [s], k) == Held(held, k) + (if s.key == k then s.amount else 0)
    decreases |held|
  {
    if held == [] {
      assert (held + [s])[1..] == [];
    } else {
      HeldAppend(held[1..], s, k);
      assert (held + [s])[1..] == held[1..] + [s];
    }
  }

  lemma {:induction false} HeldElsewhere(held: seq<Reserved>, k: UsageKey)
    requires forall i :: 0 <= i < |held| ==> held[i].key != k
    ensures Held(held, k) == 0 && Count(held, k) == 0
    decreases |held|
  {
    if held != [] {
      HeldElsewhere(held[1..], k);
    }
  }

  /** A shaped list touches each counter at most once. */
  lemma {:induction false} ShapedOnce(held: seq<Reserved>, k: UsageKey)
    requires Shaped(HeldKeys(held))
    ensures Count(held, k) == if k in HeldKeys(held) then 1 else 0
  {
    var keys := HeldKeys(held);
    assert forall i :: 0 <= i < |held| ==> held[i].key == keys[i];
    if |held| == 2 {
      assert held[1..][0] == held[1] && held[1..][1..] == [];
      assert Count(held[1..], k) == if held[1].key == k then 1 else 0;
      assert keys[0] != keys[1];
    } else if |held| == 1 {
      assert held[1..] == [];
    }
  }

  /** Every counter holds at least what the reservations put on it. */
  ghost predicate Covers(usage: Usage, held: seq<Reserved>) {
    && (forall i :: 0 <= i < |held| ==> held[i].key in usage)
    && (forall k :: Used(usage, k) >= Held(held, k))
  }

  /** Undoing covered reservations takes off exactly what they held. */
  lemma {:induction false} RollbackIsExact(usage: Usage, held: seq<Reserved>, k: UsageKey)
    requires Covers(usage, held)
    ensures Used(RollbackAll(usage, held), k) == Used(usage, k) - Held(held, k)
    decreases |held|
  {
    if held != [] {
      var s, rest := held[0], held[1..];
      var next := Sub(usage, s.key, s.amount);
      assert Used(usage, s.key) >= Held(held, s.key);
      assert forall j :: Used(next, j) == Used(usage, j) - (if s.key == j then s.amount else 0);
      assert forall j :: Used(usage, j) >= Held(held, j);
      assert forall j :: Held(held, j) == Held(rest, j) + (if s.key == j then s.amount else 0);
      assert Covers(next, rest);
      RollbackIsExact(next, rest, k);
    }
  }

  /** Committing covered reservations replaces each estimate by the actual amount. */
  lemma {:induction false} CommitIsExact(usage: Usage, held: seq<Reserved>, actual: nat, k: UsageKey)
    requires Covers(usage, held)
    ensures Used(CommitAll(usage, held, actual), k) == Used(usage, k) - Held(held, k) + actual * Count(held, k)
    decreases |held|
  {
    if held != [] {
      var s, rest := held[0], held[1..];
      var next := CommitOne(usage, s, actual);
      assert Used(usage, s.key) >= Held(held, s.key);
      assert forall j :: Used(next, j) == Used(usage, j) - (if s.key == j then s.amount else 0) + (if s.key == j then actual else 0);
      assert forall j :: Used(usage, j) >= Held(held, j);
      assert forall j :: Held(held, j) == Held(rest, j) + (if s.key == j then s.amount else 0);
      assert Covers(next, rest);
      CommitIsExact(next, rest, actual, k);
      assert actual * (Count(rest, k) + 1) == actual * Count(rest, k) + actual;
    }
  }

  // ---------------------------------------------------------------- the store

  class RamBudgetStore {
    var usage: Usage
    var rpm: map<int, Rpm.Bucket>
    var teamBudgets: map<int, Plan>

    constructor ()
      ensures usage == map[] && rpm == map[] && teamBudgets == map[]
    {
      usage, rpm, teamBudgets := map[], map[], map[];
    }

    /** Load a counter from the ledger at boot. */
    method SeedUsage(k: UsageKey, usedTokens: nat)
      modifies this`usage
      ensures usage == old(usage)[k := usedTokens]
    {
      usage := usage[k := usedTokens];
    }

    /** The exchange loop; `spurious` is how often the weak exchange fails for no reason. */
    method ReserveScope(claim: Claim, amount: nat, held: seq<Reserved>, spurious: nat)
      returns (r: Result<seq<Reserved>, nat>)
      modifies this`usage
      ensures claim.key in usage
      ensures forall k :: k in old(usage) ==> k in usage
      ensures r.Failure? <==> amount > Remaining(claim.limit, Used(old(usage), claim.key))
      ensures r.Failure? ==> r.error == Remaining(claim.limit, Used(old(usage), claim.key)) && SameUsage(usage, old(usage))
      ensures r.Success? ==> r.value == held + [Reserved(claim.key, amount)]
      ensures r.Success? ==> forall k :: Used(usage, k) == Used(old(usage), k) + (if k == claim.key then amount else 0)
    {
      if claim.key !in usage {
        usage := usage[claim.key := 0];
      }
      var current, failures := usage[claim.key], spurious;
      while true
        invariant claim.key in usage && current == usage[claim.key] && SameUsage(usage, old(usage))
        invariant forall k :: k in old(usage) ==> k in usage
        decreases failures
      {
        var remaining := Remaining(claim.limit, current);
        if amount > remaining {
          return Failure(remaining);
        }
        if failures == 0 {
          usage := usage[claim.key := current + amount];
          return Success(held + [Reserved(claim.key, amount)]);
        }
        failures := failures - 1;
        current := usage[claim.key];
      }
    }

    method RollbackScopes(held: seq<Reserved>)
      modifies this`usage
      ensures usage == RollbackAll(old(usage), held)
    {
      for i := 0 to |held|
        invariant RollbackAll(old(usage), held) == RollbackAll(usage, held[i..])
      {
        assert held[i..][0] == held[i] && held[i..][1..] == held[i + 1..];
        usage := Sub(usage, held[i].key, held[i].amount);
      }
    }

    method CommitScopes(held: seq<Reserved>, actual: nat)
      modifies this`usage
      ensures usage == CommitAll(old(usage), held, actual)
    {
      for i := 0 to |held|
        invariant CommitAll(old(usage), held, actual) == CommitAll(usage, held[i..], actual)
      {
        assert held[i..][0] == held[i] && held[i..][1..] == held[i + 1..];
        usage := CommitOne(usage, held[i], actual);
      }
    }

    /** A key's bucket is created on first use; `created` and `now` are the two clock reads. */
    method TakeRpm(id: int, limit: nat, created: nat, now: nat, stored: bool) returns (r: Rpm.Verdict)
      modifies this`rpm
      ensures var before := if id in old(rpm) then old(rpm)[id] else Rpm.Bucket(limit, created);
              var (after, verdict) := Rpm.Take(before, limit, now, stored);
              r == verdict && rpm == old(rpm)[id := after]
    {
      var before := if id in rpm then rpm[id] else Rpm.Bucket(limit, created);
      var (after, verdict) := Rpm.Take(before, limit, now, stored);
      rpm := rpm[id := after];
      return verdict;
    }

    /** Give back everything this reservation has put on the counters so far. */
    method Undo(ghost start: Usage, held: seq<Reserved>)
      requires Covers(usage, held) && forall k :: Used(usage, k) == Used(start, k) + Held(held, k)
      modifies this`usage
      ensures SameUsage(usage, start)
    {
      hide Held, Used;
      RollbackScopes(held);
      forall k ensures Used(usage, k) == Used(start, k) {
        RollbackIsExact(old(usage), held, k);
      }
    }

    /** The token half of a reservation: every claimed counter in turn, or none. */
    method ReserveAll(claims: seq<Claim>, estimate: nat, spurious: nat) returns (r: Result<seq<Reserved>, BudgetError>)
      requires Shaped(ClaimKeys(claims))
      modifies this`usage
      ensures r.Failure? ==> SameUsage(usage, old(usage)) && r.error.Exceeded?
      ensures r.Success? ==>
                && |r.value| == |claims|
                && (forall i :: 0 <= i < |r.value| ==> r.value[i] == Reserved(claims[i].key, estimate))
                && (forall k :: Used(usage, k) == Used(old(usage), k) + Held(r.value, k))
                && Covers(usage, r.value)
      ensures r.Success? <==> forall i :: 0 <= i < |claims| ==> Fits(claims[i], old(usage), estimate)
      ensures r.Failure? ==> exists i: nat :: FirstUnfit(claims, old(usage), estimate, i)
                                         && r.error.remaining == Remaining(claims[i].limit, Used(old(usage), claims[i].key))
    {
      assert forall k :: Held([], k) == 0;
      hide Held, Sub;
      var held: seq<Reserved> := [];
      for i := 0 to |claims|
        invariant |held| == i
        invariant forall j :: 0 <= j < i ==> held[j] == Reserved(claims[j].key, estimate)
        invariant forall k :: Used(usage, k) == Used(old(usage), k) + Held(held, k)
        invariant Covers(usage, held)
        invariant forall j :: 0 <= j < i ==> Fits(claims[j], old(usage), estimate)
      {
        ghost var keys := ClaimKeys(claims);
        assert keys[i] == claims[i].key && forall j :: 0 <= j < i ==> held[j].key == keys[j] && keys[j] != keys[i];
        HeldElsewhere(held, claims[i].key);
        var one := ReserveScope(claims[i], estimate, held, spurious);
        if one.Failure? {
          assert FirstUnfit(claims, old(usage), estimate, i);
          Undo(old(usage), held);
          return Failure(Exceeded(one.error));
        }
        forall k ensures Held(one.value, k) == Held(held, k) + (if k == claims[i].key then estimate else 0) {
          HeldAppend(held, Reserved(claims[i].key, estimate), k);
        }
        held := one.value;
      }
      return Success(held);
    }

    /**
     Reserve an estimate on every claimed counter and take one request token.
     All or nothing: a refusal leaves every counter and every bucket as it was.
     The counters decide first; then the key's bucket, if it has a limit, and no other.
     */
    method Reserve(key: ApiKey, model: string, estimate: nat, now: int, created: nat, nowMs: nat, spurious: nat, stored: bool)
      returns (r: Result<seq<Reserved>, BudgetError>)
      modifies this`usage, this`rpm
      ensures r.Failure? ==> SameUsage(usage, old(usage))
      ensures r.Failure? ==> rpm == old(rpm)
      ensures r.Success? ==>
                && HeldKeys(r.value) == ClaimKeys(Claims(key, old(teamBudgets), model, now))
                && (forall i :: 0 <= i < |r.value| ==> r.value[i].amount == estimate)
                && (forall k :: Used(usage, k) == Used(old(usage), k) + Held(r.value, k))
                && Covers(usage, r.value)
      ensures var claims := Claims(key, old(teamBudgets), model, now);
              var fits := forall i :: 0 <= i < |claims| ==> Fits(claims[i], old(usage), estimate);
              var limit := RpmLimit(key);
              var bucket := BucketOf(old(rpm), key.id, limit, created);
              var available := Rpm.Available(bucket, limit, nowMs);
              && (!fits ==> r.Failure? && r.error.Exceeded?
                            && exists i: nat :: FirstUnfit(claims, old(usage), estimate, i)
                                           && r.error.remaining == Remaining(claims[i].limit, Used(old(usage), claims[i].key)))
              && (fits && limit == 0 ==> r.Success? && rpm == old(rpm))
              && (fits && limit > 0 && available == 0 ==> r == Failure(RateLimited(Rpm.RetryAfter(bucket, limit, nowMs))))
              && (fits && limit > 0 && available > 0 ==>
                    && r.Success?
                    && rpm == old(rpm)[key.id := Rpm.Bucket(available - 1,
                                         if stored && Rpm.Refill(limit, bucket.last, nowMs) > 0 then nowMs else bucket.last)])
    {
      ClaimsAreShaped(key, teamBudgets, model, now);
      hide Claims, Held, Remaining;
      var claims := Claims(key, teamBudgets, model, now);
      r := ReserveAll(claims, estimate, spurious);
      if r.Failure? {
        return;
      }
      var held := r.value;
      if key.rpmLimit.Some? && key.rpmLimit.value > 0 {
        var verdict := TakeRpm(key.id, key.rpmLimit.value, created, nowMs, stored);
        if verdict.Refused? {
          RefusalKeepsBucket(old(rpm), key.id, key.rpmLimit.value, created, nowMs, stored);
          Undo(old(usage), held);
          return Failure(RateLimited(verdict.retryAfter));
        }
      }
      return Success(held);
    }
  }

  /** Only a bucket that already exists can refuse, and refusing changes nothing. */
  lemma RefusalKeepsBucket(rpm: map<int, Rpm.Bucket>, id: int, limit: nat, created: nat, now: nat, stored: bool)
    requires limit > 0
    requires Rpm.Take(if id in rpm then rpm[id] else Rpm.Bucket(limit, created), limit, now, stored).1.Refused?
    ensures id in rpm && rpm[id := Rpm.Take(rpm[id], limit, now, stored).0] == rpm
  {}

  /** A reservation that settles itself: dropping it without commit or rollback rolls it back. */
  class BudgetReservation {
    const store: RamBudgetStore
    var scopes: seq<Reserved>
    var consumed: bool

    constructor (store: RamBudgetStore, scopes: seq<Reserved>)
      ensures this.store == store && this.scopes == scopes && !consumed
    {
      this.store, this.scopes, this.consumed := store, scopes, false;
    }

    method Commit(actual: nat)
      modifies this, store`usage
      ensures store.usage == CommitAll(old(store.usage), old(scopes), actual) && consumed && scopes == []
    {
      store.CommitScopes(scopes, actual);
      scopes, consumed := [], true;
    }

    method Rollback()
      modifies this, store`usage
      ensures store.usage == RollbackAll(old(store.usage), old(scopes)) && consumed && scopes == []
    {
      store.RollbackScopes(scopes);
      scopes, consumed := [], true;
    }

    /** What the language runs when the value goes out of scope. */
    method Drop()
      modifies this, store`usage
      ensures store.usage == if old(consumed) then old(store.usage) else RollbackAll(old(store.usage), old(scopes))
    {
      if !consumed {
        store.RollbackScopes(scopes);
        scopes := [];
      }
    }
  }

  /** Reserve then commit adds exactly the actual amount to each claimed counter, whatever the estimate was. */
  method ReserveThenCommit(store: RamBudgetStore, key: ApiKey, model: string, estimate: nat, actual: nat,
                           now: int, created: nat, nowMs: nat)
    returns (ok: bool)
    modifies store`usage, store`rpm
    ensures !ok ==> SameUsage(store.usage, old(store.usage))
    ensures ok ==> forall k :: Used(store.usage, k) == Used(old(store.usage), k)
                     + (if k in ClaimKeys(Claims(key, old(store.teamBudgets), model, now)) then actual else 0)
  {
    ClaimsAreShaped(key, store.teamBudgets, model, now);
    var r := store.Reserve(key, model, estimate, now, created, nowMs, 0, true);
    ok := r.Success?;
    if ok {
      hide Claims;
      ghost var before := store.usage;
      var reservation := new BudgetReservation(store, r.value);
      reservation.Commit(actual);
      forall k ensures Used(store.usage, k) == Used(old(store.usage), k) + (if k in HeldKeys(r.value) then actual else 0) {
        CommitIsExact(before, r.value, actual, k);
        ShapedOnce(r.value, k);
      }
      reservation.Drop();
    }
  }

  /** Reserve then give back, by rollback or by drop, leaves no trace; drop after that does nothing. */
  method ReserveThenDrop(store: RamBudgetStore, key: ApiKey, model: string, estimate: nat, now: int, created: nat, nowMs: nat)
    modifies store`usage, store`rpm
    ensures SameUsage(store.usage, old(store.usage))
  {
    var r := store.Reserve(key, model, estimate, now, created, nowMs, 0, true);
    if r.Success? {
      ghost var before := store.usage;
      var reservation := new BudgetReservation(store, r.value);
      reservation.Drop();
      forall k ensures Used(store.usage, k) == Used(old(store.usage), k) {
        RollbackIsExact(before, r.value, k);
      }
    }
  }

  // ---------------------------------------------------------------- runs of requests

  datatype Request = Request(model: string, estimate: nat, now: int, created: nat, nowMs: nat, spurious: nat, stored: bool)

  /** How many requests lost their write of the refill time, had they refilled. */
  function Losses(requests: seq<Request>): nat {
    if requests == [] then 0
    else Losses(requests[..|requests| - 1]) + (if requests[|requests| - 1].stored then 0 else 1)
  }

  /** The calls that have reached a key's bucket, and the bucket they found. */
  datatype Run = Run(start: Rpm.Bucket, calls: seq<Rpm.Call>)

  /** The bucket, if there is one yet, is what these calls, all in the window, have made of it. */
  ghost predicate Tracks(rpm: map<int, Rpm.Bucket>, id: int, limit: nat, run: Run, from: nat, to: nat) {
    && run.start.tokens <= limit && !Rpm.FullWithResidue(run.start, limit, from) && Rpm.Within(run.calls, from, to)
    && (id in rpm ==> rpm[id] == Rpm.After(run.start, limit, run.calls))
    && (id !in rpm ==> run.calls == [])
  }

  ghost predicate SameElsewhere(a: map<int, Rpm.Bucket>, b: map<int, Rpm.Bucket>, id: int) {
    forall k :: k != id ==> (k in a <==> k in b) && (k in a ==> a[k] == b[k])
  }

  method ReserveOne(store: RamBudgetStore, key: ApiKey, q: Request, ghost run: Run, from: nat, to: nat)
    returns (ok: bool, ghost next: Run)
    requires RpmLimit(key) >= 1 && from <= q.nowMs <= to && from <= q.created
    requires Tracks(store.rpm, key.id, RpmLimit(key), run, from, to)
    modifies store`usage, store`rpm
    ensures Tracks(store.rpm, key.id, RpmLimit(key), next, from, to) && SameElsewhere(store.rpm, old(store.rpm), key.id)
    ensures Rpm.Grants(next.start, RpmLimit(key), next.calls)
         == Rpm.Grants(run.start, RpmLimit(key), run.calls) + (if ok then 1 else 0)
    ensures Rpm.Lost(next.start, RpmLimit(key), next.calls)
         <= Rpm.Lost(run.start, RpmLimit(key), run.calls) + (if q.stored then 0 else 1)
  {
    ghost var limit, call, before := RpmLimit(key), Rpm.Call(q.nowMs, q.stored), store.rpm;
    hide Claims, Tracks, Rpm.After, Rpm.Grants, Rpm.Lost, Fits;
    var r := store.Reserve(key, q.model, q.estimate, q.now, q.created, q.nowMs, q.spurious, q.stored);
    ok := r.Success?;
    next := run;
    if r.Success? || r.error.RateLimited? {
      ghost var bucket := BucketOf(before, key.id, limit, q.created);
      TakenOnce(bucket, limit, q.nowMs, q.stored);
      if !ok {
        RefusalKeepsBucket(before, key.id, limit, q.created, q.nowMs, q.stored);
      }
      hide Rpm.Take, Rpm.Available;
      next := TracksNext(before, store.rpm, key.id, limit, run, q.created, call, from, to);
    }
  }

  lemma TracksNext(before: map<int, Rpm.Bucket>, after: map<int, Rpm.Bucket>, id: int, limit: nat, run: Run,
                   created: nat, call: Rpm.Call, from: nat, to: nat) returns (next: Run)
    requires Tracks(before, id, limit, run, from, to) && from <= call.time <= to && from <= created
    requires after == before[id := Rpm.Take(BucketOf(before, id, limit, created), limit, call.time, call.stored).0]
    ensures Tracks(after, id, limit, next, from, to)
    ensures var granted := Rpm.Take(BucketOf(before, id, limit, created), limit, call.time, call.stored).1.Granted?;
            && Rpm.Grants(next.start, limit, next.calls) == Rpm.Grants(run.start, limit, run.calls) + (if granted then 1 else 0)
            && Rpm.Lost(next.start, limit, next.calls) <= Rpm.Lost(run.start, limit, run.calls) + (if call.stored then 0 else 1)
  {
    var start := if id in before then run.start else Rpm.Bucket(limit, created);
    assert Rpm.After(start, limit, []) == start && Rpm.Grants(start, limit, []) == 0 && Rpm.Lost(start, limit, []) == 0;
    assert Rpm.Grants(run.start, limit, []) == 0;
    hide Rpm.After, Rpm.Grants, Rpm.Lost, Rpm.Take;
    Rpm.OneMoreCall(start, limit, run.calls, call);
    next := Run(start, run.calls + [call]);
  }

  /**
   Any requests of one key, whatever they claim and whether or not they fit its budget: those that
   succeed in a window of time are within the rate bound of the key's bucket.
   */
  method ReserveMany(store: RamBudgetStore, key: ApiKey, requests: seq<Request>, from: nat, to: nat) returns (granted: nat)
    requires RpmLimit(key) >= 1 && from <= to
    requires forall i :: 0 <= i < |requests| ==> from <= requests[i].nowMs <= to && from <= requests[i].created
    requires key.id in store.rpm ==>
               store.rpm[key.id].tokens <= RpmLimit(key) && !Rpm.FullWithResidue(store.rpm[key.id], RpmLimit(key), from)
    modifies store`usage, store`rpm
    ensures granted <= RpmLimit(key) + (to - from) * RpmLimit(key) / 60000 + RpmLimit(key) * Losses(requests)
    ensures SameElsewhere(store.rpm, old(store.rpm), key.id)
  {
    granted := 0;
    ghost var limit := RpmLimit(key);
    ghost var run := Run(BucketOf(store.rpm, key.id, limit, from), []);
    for i := 0 to |requests|
      invariant Tracks(store.rpm, key.id, limit, run, from, to) && SameElsewhere(store.rpm, old(store.rpm), key.id)
      invariant granted == Rpm.Grants(run.start, limit, run.calls)
      invariant Rpm.Lost(run.start, limit, run.calls) <= Losses(requests[..i])
    {
      assert requests[..i + 1][..i] == requests[..i];
      hide Tracks, Rpm.Grants, Rpm.Lost;
      var ok;
      ok, run := ReserveOne(store, key, requests[i], run, from, to);
      if ok {
        granted := granted + 1;
      }
    }
    assert requests[..|requests|] == requests;
    Rpm.GrantsBounded(run.start, limit, run.calls, from, to);
    LossesCount(limit, Rpm.Lost(run.start, limit, run.calls), Losses(requests));
  }

  lemma LossesCount(limit: nat, a: nat, b: nat)
    requires a <= b
    ensures limit * a <= limit * b
  {
    assert limit * b == limit * a + limit * (b - a);
  }

  lemma TakenOnce(b: Rpm.Bucket, limit: nat, now: nat, stored: bool)
    ensures var available := Rpm.Available(b, limit, now);
            Rpm.Take(b, limit, now, stored)
            == if available == 0 then (b, Rpm.Refused(Rpm.RetryAfter(b, limit, now)))
               else (Rpm.Bucket(available - 1, if stored && Rpm.Refill(limit, b.last, now) > 0 then now else b.last), Rpm.Granted)
  {}
}
