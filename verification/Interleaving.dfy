/**
 The budget store under concurrency: any number of threads, one atomic
 operation per step, exchanges that may fail for no reason.
 */
module Interleaving {
  import opened Common
  import opened Budget

  /** Where a thread is in reserve, commit or rollback. */
  datatype Thread =
    | Idle
    | Reserving(claims: seq<Claim>, amount: nat, observed: Option<nat>, held: seq<Reserved>)
    | Holding(held: seq<Reserved>)
    | Committing(todo: seq<Reserved>, actual: nat)
    | RollingBack(todo: seq<Reserved>)

  /** A reservation that was committed on one counter. */
  datatype Settled = Settled(key: UsageKey, estimate: nat, actual: nat)

  datatype World = World(usage: Usage, threads: seq<Thread>, settled: seq<Settled>)

  datatype Action =
    | Begin(claims: seq<Claim>, amount: nat)
    | Insert
    | Load
    | Refuse
    | Exchange
    | ExchangeFails
    | TakeRpm
    | RpmRefuses
    | Commit(actual: nat)
    | GiveBack
    | CommitScope
    | RollbackScope
    | End

  function SetThread(w: World, i: nat, t: Thread): World
    requires i < |w.threads|
  {
    w.(threads := w.threads[i := t])
  }

  /** Whether thread `i` can perform the action now. */
  predicate Enabled(w: World, i: nat, a: Action) {
    i < |w.threads|
    && var t := w.threads[i];
       var claiming := t.Reserving? && t.claims != [];
       match a
       case Begin(claims, _) => t.Idle? && Shaped(ClaimKeys(claims))
       case Insert => claiming && t.observed.None? && t.claims[0].key !in w.usage
       case Load => claiming && t.observed.None? && t.claims[0].key in w.usage
       case Refuse => claiming && t.observed.Some? && t.amount > Remaining(t.claims[0].limit, t.observed.value)
       case Exchange =>
         && claiming && t.observed.Some? && t.amount <= Remaining(t.claims[0].limit, t.observed.value)
         && Used(w.usage, t.claims[0].key) == t.observed.value
       case ExchangeFails => claiming && t.observed.Some? && t.amount <= Remaining(t.claims[0].limit, t.observed.value)
       case TakeRpm => t.Reserving? && t.claims == []
       case RpmRefuses => t.Reserving? && t.claims == []
       case Commit(_) => t.Holding?
       case GiveBack => t.Holding?
       case CommitScope => t.Committing? && t.todo != []
       case RollbackScope => t.RollingBack? && t.todo != []
       case End => (t.Committing? || t.RollingBack?) && t.todo == []
  }

  function Step(w: World, i: nat, a: Action): World
    requires Enabled(w, i, a)
  {
    var t := w.threads[i];
    match a
    case Begin(claims, amount) => SetThread(w, i, Reserving(claims, amount, None, []))
    case Insert => w.(usage := w.usage[t.claims[0].key := 0])
    case Load => SetThread(w, i, t.(observed := Some(Used(w.usage, t.claims[0].key))))
    case Refuse => SetThread(w, i, RollingBack(t.held))
    case Exchange =>
      var key := t.claims[0].key;
      SetThread(w.(usage := w.usage[key := t.observed.value + t.amount]), i,
                Reserving(t.claims[1..], t.amount, None, t.held + [Reserved(key, t.amount)]))
    case ExchangeFails => SetThread(w, i, t.(observed := Some(Used(w.usage, t.claims[0].key))))
    case TakeRpm => SetThread(w, i, Holding(t.held))
    case RpmRefuses => SetThread(w, i, RollingBack(t.held))
    case Commit(actual) => SetThread(w, i, Committing(t.held, actual))
    case GiveBack => SetThread(w, i, RollingBack(t.held))
    case CommitScope =>
      var s := t.todo[0];
      SetThread(w.(usage := CommitOne(w.usage, s, t.actual), settled := w.settled + [Settled(s.key, s.amount, t.actual)]),
                i, Committing(t.todo[1..], t.actual))
    case RollbackScope =>
      SetThread(w.(usage := Sub(w.usage, t.todo[0].key, t.todo[0].amount)), i, RollingBack(t.todo[1..]))
    case End => SetThread(w, i, Idle)
  }

  /** Seeded counters, everybody idle. */
  predicate Boot(w: World, seed: Usage) {
    w.usage == seed && w.settled == [] && forall i :: 0 <= i < |w.threads| ==> w.threads[i].Idle?
  }

  // ---------------------------------------------------------------- sums

  /** What a thread still holds: reserved and not yet settled. */
  function Live(t: Thread): seq<Reserved> {
    match t
    case Idle => []
    case Reserving(_, _, _, held) => held
    case Holding(held) => held
    case Committing(todo, _) => todo
    case RollingBack(todo) => todo
  }

  function Outstanding(threads: seq<Thread>, k: UsageKey): nat {
    if threads == [] then 0
    else Outstanding(threads[..|threads| - 1], k) + Held(Live(threads[|threads| - 1]), k)
  }

  function Spent(settled: seq<Settled>, k: UsageKey): nat {
    if settled == [] then 0
    else Spent(settled[..|settled| - 1], k)
         + (if settled[|settled| - 1].key == k then settled[|settled| - 1].actual else 0)
  }

  lemma {:induction false} OutstandingUpdate(threads: seq<Thread>, i: nat, t: Thread, k: UsageKey)
    requires i < |threads|
    ensures Outstanding(threads[i := t], k) + Held(Live(threads[i]), k) == Outstanding(threads, k) + Held(Live(t), k)
    decreases |threads|
  {
    var n := |threads| - 1;
    if i < n {
      OutstandingUpdate(threads[..n], i, t, k);
      assert threads[i := t][..n] == threads[..n][i := t];
    } else {
      assert threads[i := t][..n] == threads[..n];
    }
  }

  lemma SpentAppend(settled: seq<Settled>, s: Settled, k: UsageKey)
    ensures Spent(settled + [s], k) == Spent(settled, k) + (if s.key == k then s.actual else 0)
  {
    assert (settled + [s])[..|settled|] == settled;
  }

  lemma {:induction false} OutstandingIncludes(threads: seq<Thread>, i: nat, k: UsageKey)
    requires i < |threads|
    ensures Outstanding(threads, k) >= Held(Live(threads[i]), k)
    decreases |threads|
  {
    var n := |threads| - 1;
    if i < n {
      OutstandingIncludes(threads[..n], i, k);
    }
  }

  lemma {:induction false} NothingOutstanding(threads: seq<Thread>, k: UsageKey)
    requires forall i :: 0 <= i < |threads| ==> threads[i].Idle?
    ensures Outstanding(threads, k) == 0
    decreases |threads|
  {
    if threads != [] {
      NothingOutstanding(threads[..|threads| - 1], k);
    }
  }

  // ---------------------------------------------------------------- conservation

  /** A counter is its seed, plus what is reserved on it, plus what was committed on it. */
  predicate Balanced(w: World, seed: Usage, k: UsageKey) {
    Used(w.usage, k) == Used(seed, k) + Outstanding(w.threads, k) + Spent(w.settled, k)
  }

  /** Counters in use exist, and stay. */
  ghost predicate Present(w: World) {
    && (forall i, j :: 0 <= i < |w.threads| && 0 <= j < |Live(w.threads[i])| ==> Live(w.threads[i])[j].key in w.usage)
    && (forall i :: 0 <= i < |w.threads| && w.threads[i].Reserving? && w.threads[i].observed.Some? && w.threads[i].claims != []
                    ==> w.threads[i].claims[0].key in w.usage)
  }

  lemma StepKeepsPresent(w: World, i: nat, a: Action)
    requires Enabled(w, i, a) && Present(w)
    ensures Present(Step(w, i, a))
  {
    var next := Step(w, i, a);
    assert forall k :: k in w.usage ==> k in next.usage;
    forall n, j | 0 <= n < |next.threads| && 0 <= j < |Live(next.threads[n])|
      ensures Live(next.threads[n])[j].key in next.usage
    {
      if n == i {
        var old_ := Live(w.threads[i]);
        if a.CommitScope? || a.RollbackScope? {
          assert Live(next.threads[i])[j] == old_[j + 1];
        } else if j < |old_| {
          assert Live(next.threads[i])[j] == old_[j];
        }
      } else {
        assert next.threads[n] == w.threads[n];
      }
    }
  }

  lemma HeldFirst(todo: seq<Reserved>, k: UsageKey)
    requires todo != []
    ensures Held(todo, k) == Held(todo[1..], k) + (if todo[0].key == k then todo[0].amount else 0)
  {}

  /** No subtraction ever saturates: a counter covers every reservation still to be settled on it. */
  lemma NeverSaturates(w: World, seed: Usage, i: nat)
    requires i < |w.threads| && Live(w.threads[i]) != []
    requires Balanced(w, seed, Live(w.threads[i])[0].key)
    ensures var s := Live(w.threads[i])[0]; Used(w.usage, s.key) >= s.amount
  {
    var s := Live(w.threads[i])[0];
    HeldFirst(Live(w.threads[i]), s.key);
    OutstandingIncludes(w.threads, i, s.key);
  }

  /** Moving one thread moves only what that thread holds. */
  lemma SetThreadHeld(w: World, i: nat, t: Thread, k: UsageKey)
    requires i < |w.threads|
    ensures Outstanding(SetThread(w, i, t).threads, k) + Held(Live(w.threads[i]), k)
         == Outstanding(w.threads, k) + Held(Live(t), k)
  {
    hide Outstanding, Held;
    OutstandingUpdate(w.threads, i, t, k);
  }

  /** The world after a commit has settled its first scope, written out. */
  lemma CommitWorld(w: World, i: nat) returns (s: Reserved, rest: seq<Reserved>)
    requires Enabled(w, i, CommitScope) && Present(w)
    ensures i < |w.threads| && w.threads[i].Committing?
    ensures w.threads[i].todo == [s] + rest && s.key in w.usage
    ensures Live(w.threads[i]) == [s] + rest
    ensures var actual := w.threads[i].actual;
            Step(w, i, CommitScope)
            == World(CommitOne(w.usage, s, actual), w.threads[i := Committing(rest, actual)],
                     w.settled + [Settled(s.key, s.amount, actual)])
  {
    var t := w.threads[i];
    s, rest := t.todo[0], t.todo[1..];
    assert s == Live(t)[0];
    hide CommitOne;
  }

  lemma CommitBalances(w: World, seed: Usage, i: nat, s: Reserved, rest: seq<Reserved>, actual: nat, k: UsageKey)
    requires i < |w.threads| && Live(w.threads[i]) == [s] + rest && s.key in w.usage
    requires Balanced(w, seed, k) && (s.key == k ==> Used(w.usage, k) >= s.amount)
    ensures Balanced(World(CommitOne(w.usage, s, actual), w.threads[i := Committing(rest, actual)],
                           w.settled + [Settled(s.key, s.amount, actual)]), seed, k)
  {
    assert Live(Committing(rest, actual)) == rest;
    hide Outstanding, Held, Spent, CommitOne, Used, Live;
    OutstandingUpdate(w.threads, i, Committing(rest, actual), k);
    HeldPrepend(s, rest, k);
    SpentAppend(w.settled, Settled(s.key, s.amount, actual), k);
    CommitUsed(w.usage, s, actual, k);
  }

  lemma HeldPrepend(s: Reserved, rest: seq<Reserved>, k: UsageKey)
    ensures Held([s] + rest, k) == Held(rest, k) + (if s.key == k then s.amount else 0)
  {
    assert ([s] + rest)[1..] == rest;
  }

  lemma CommitConserves(w: World, seed: Usage, i: nat, k: UsageKey)
    requires Enabled(w, i, CommitScope) && Present(w) && Balanced(w, seed, k)
    ensures Balanced(Step(w, i, CommitScope), seed, k)
  {
    hide *;
    var s, rest := CommitWorld(w, i);
    if s.key == k {
      NeverSaturates(w, seed, i);
    }
    CommitBalances(w, seed, i, s, rest, w.threads[i].actual, k);
  }

  lemma CommitUsed(usage: Usage, s: Reserved, actual: nat, k: UsageKey)
    requires s.key in usage && (s.key == k ==> Used(usage, k) >= s.amount)
    ensures Used(CommitOne(usage, s, actual), k)
         == if s.key == k then Used(usage, k) - s.amount + actual else Used(usage, k)
  {}

  lemma RollbackWorld(w: World, i: nat) returns (s: Reserved, rest: seq<Reserved>)
    requires Enabled(w, i, RollbackScope) && Present(w)
    ensures i < |w.threads| && w.threads[i].RollingBack?
    ensures w.threads[i].todo == [s] + rest && s.key in w.usage
    ensures Live(w.threads[i]) == [s] + rest
    ensures Step(w, i, RollbackScope)
            == World(Sub(w.usage, s.key, s.amount), w.threads[i := RollingBack(rest)], w.settled)
  {
    var t := w.threads[i];
    s, rest := t.todo[0], t.todo[1..];
    assert s == Live(t)[0];
    hide Sub;
  }

  lemma RollbackBalances(w: World, seed: Usage, i: nat, s: Reserved, rest: seq<Reserved>, k: UsageKey)
    requires i < |w.threads| && Live(w.threads[i]) == [s] + rest && s.key in w.usage
    requires Balanced(w, seed, k) && (s.key == k ==> Used(w.usage, k) >= s.amount)
    ensures Balanced(World(Sub(w.usage, s.key, s.amount), w.threads[i := RollingBack(rest)], w.settled), seed, k)
  {
    assert Live(RollingBack(rest)) == rest;
    hide Outstanding, Held, Spent, Sub, Used, Live;
    OutstandingUpdate(w.threads, i, RollingBack(rest), k);
    HeldPrepend(s, rest, k);
    SubUsed(w.usage, s, k);
  }

  lemma SubUsed(usage: Usage, s: Reserved, k: UsageKey)
    requires s.key in usage && (s.key == k ==> Used(usage, k) >= s.amount)
    ensures Used(Sub(usage, s.key, s.amount), k) == if s.key == k then Used(usage, k) - s.amount else Used(usage, k)
  {}

  lemma RollbackConserves(w: World, seed: Usage, i: nat, k: UsageKey)
    requires Enabled(w, i, RollbackScope) && Present(w) && Balanced(w, seed, k)
    ensures Balanced(Step(w, i, RollbackScope), seed, k)
  {
    hide *;
    var s, rest := RollbackWorld(w, i);
    if s.key == k {
      NeverSaturates(w, seed, i);
    }
    RollbackBalances(w, seed, i, s, rest, k);
  }

  lemma ExchangeConserves(w: World, seed: Usage, i: nat, k: UsageKey)
    requires Enabled(w, i, Exchange) && Balanced(w, seed, k)
    ensures Balanced(Step(w, i, Exchange), seed, k)
  {
    var t := w.threads[i];
    hide Outstanding, Held, Spent;
    SetThreadHeld(w, i, Step(w, i, Exchange).threads[i], k);
    HeldAppend(t.held, Reserved(t.claims[0].key, t.amount), k);
  }

  lemma StepConserves(w: World, seed: Usage, i: nat, a: Action, k: UsageKey)
    requires Enabled(w, i, a) && Present(w) && Balanced(w, seed, k)
    ensures Balanced(Step(w, i, a), seed, k)
  {
    if a.CommitScope? {
      CommitConserves(w, seed, i, k);
    } else if a.RollbackScope? {
      RollbackConserves(w, seed, i, k);
    } else if a.Exchange? {
      ExchangeConserves(w, seed, i, k);
    } else if !a.Insert? {
      var next := Step(w, i, a);
      assert Live(next.threads[i]) == Live(w.threads[i]);
      hide Outstanding, Held, Spent, Present;
      SetThreadHeld(w, i, next.threads[i], k);
    }
  }

  // ---------------------------------------------------------------- runs

  /** A schedule: which thread does what, in order. */
  datatype Move = Move(thread: nat, action: Action)

  ghost predicate Runs(w: World, moves: seq<Move>)
    decreases |moves|
  {
    moves == []
    || (Enabled(w, moves[0].thread, moves[0].action)
        && Runs(Step(w, moves[0].thread, moves[0].action), moves[1..]))
  }

  ghost function Outcome(w: World, moves: seq<Move>): World
    requires Runs(w, moves)
    decreases |moves|
  {
    if moves == [] then w else Outcome(Step(w, moves[0].thread, moves[0].action), moves[1..])
  }

  lemma {:induction false} RunConserves(w: World, seed: Usage, moves: seq<Move>, k: UsageKey)
    requires Runs(w, moves) && Present(w) && Balanced(w, seed, k)
    ensures var end := Outcome(w, moves); Present(end) && Balanced(end, seed, k)
    decreases |moves|
  {
    if moves != [] {
      hide Enabled, Step, Present, Balanced;
      var i, a := moves[0].thread, moves[0].action;
      StepKeepsPresent(w, i, a);
      StepConserves(w, seed, i, a, k);
      RunConserves(Step(w, i, a), seed, moves[1..], k);
    }
  }

  /**
   Token conservation: under every schedule of any number of threads, each
   counter equals its seed plus all uncommitted reservations plus all committed
   actual amounts, and covers every reservation still to be settled.
   */
  lemma TokensAreConserved(w: World, seed: Usage, moves: seq<Move>)
    requires Boot(w, seed) && Runs(w, moves)
    ensures var end := Outcome(w, moves);
            && (forall k :: Balanced(end, seed, k))
            && (forall i :: 0 <= i < |end.threads| && Live(end.threads[i]) != []
                            ==> Live(end.threads[i])[0].key in end.usage
                                && Used(end.usage, Live(end.threads[i])[0].key) >= Live(end.threads[i])[0].amount)
  {
    var end := Outcome(w, moves);
    assert Present(w);
    forall k ensures Present(end) && Balanced(end, seed, k) {
      NothingOutstanding(w.threads, k);
      RunConserves(w, seed, moves, k);
    }
    assert Present(end) by {
      var any := Total(Owner(true, 0), 0);
      NothingOutstanding(w.threads, any);
      RunConserves(w, seed, moves, any);
    }
    forall i | 0 <= i < |end.threads| && Live(end.threads[i]) != []
      ensures Live(end.threads[i])[0].key in end.usage
              && Used(end.usage, Live(end.threads[i])[0].key) >= Live(end.threads[i])[0].amount
    {
      NeverSaturates(end, seed, i);
    }
  }

  // ---------------------------------------------------------------- the cap

  /** What commits took beyond their estimates. */
  function Overrun(settled: seq<Settled>, k: UsageKey): nat {
    if settled == [] then 0
    else
      var s := settled[|settled| - 1];
      Overrun(settled[..|settled| - 1], k) + (if s.key == k && s.actual > s.estimate then s.actual - s.estimate else 0)
  }

  lemma OverrunAppend(settled: seq<Settled>, s: Settled, k: UsageKey)
    ensures Overrun(settled + [s], k)
            == Overrun(settled, k) + (if s.key == k && s.actual > s.estimate then s.actual - s.estimate else 0)
  {
    assert (settled + [s])[..|settled|] == settled;
  }

  function Max(a: nat, b: nat): nat {
    if a > b then a else b
  }

  /** All claims, begun or being processed, use the same limit for a counter. */
  predicate FixedLimits(limits: UsageKey -> nat, claims: seq<Claim>) {
    forall j :: 0 <= j < |claims| ==> claims[j].limit == limits(claims[j].key)
  }

  ghost predicate FixedBudget(w: World, limits: UsageKey -> nat) {
    forall i :: 0 <= i < |w.threads| && w.threads[i].Reserving? ==> FixedLimits(limits, w.threads[i].claims)
  }

  ghost predicate Capped(w: World, seed: Usage, limits: UsageKey -> nat, k: UsageKey) {
    Used(w.usage, k) <= Max(Used(seed, k), limits(k)) + Overrun(w.settled, k)
  }

  lemma StepKeepsCap(w: World, seed: Usage, limits: UsageKey -> nat, i: nat, a: Action, k: UsageKey)
    requires Enabled(w, i, a) && FixedBudget(w, limits) && Capped(w, seed, limits, k)
    requires a.Begin? ==> FixedLimits(limits, a.claims)
    ensures FixedBudget(Step(w, i, a), limits) && Capped(Step(w, i, a), seed, limits, k)
  {
    var t, next := w.threads[i], Step(w, i, a);
    if a.CommitScope? {
      OverrunAppend(w.settled, Settled(t.todo[0].key, t.todo[0].amount, t.actual), k);
    }
    if t.Reserving? {
      assert FixedLimits(limits, t.claims);
    }
    forall n | 0 <= n < |next.threads| && next.threads[n].Reserving?
      ensures FixedLimits(limits, next.threads[n].claims)
    {
      if n == i {
        if a.Exchange? {
          assert forall j :: 0 <= j < |t.claims[1..]| ==> t.claims[1..][j] == t.claims[j + 1];
        }
      } else {
        assert next.threads[n] == w.threads[n];
      }
    }
  }

  /** The budget a schedule works under never changes. */
  predicate UnderLimits(limits: UsageKey -> nat, moves: seq<Move>) {
    forall j :: 0 <= j < |moves| && moves[j].action.Begin? ==> FixedLimits(limits, moves[j].action.claims)
  }

  lemma {:induction false} RunKeepsCap(w: World, seed: Usage, limits: UsageKey -> nat, moves: seq<Move>, k: UsageKey)
    requires Runs(w, moves) && UnderLimits(limits, moves) && FixedBudget(w, limits) && Capped(w, seed, limits, k)
    ensures Capped(Outcome(w, moves), seed, limits, k)
    decreases |moves|
  {
    if moves != [] {
      assert UnderLimits(limits, moves[1..]) by {
        assert forall j :: 0 <= j < |moves[1..]| ==> moves[1..][j] == moves[j + 1];
      }
      hide Enabled, Step, Capped, FixedBudget;
      StepKeepsCap(w, seed, limits, moves[0].thread, moves[0].action, k);
      RunKeepsCap(Step(w, moves[0].thread, moves[0].action), seed, limits, moves[1..], k);
    }
  }

  /**
   Budget cap with exact slack: under a fixed budget no schedule takes a counter
   above its limit or its seed, whichever is larger, by more than what commits
   overran their estimates.
   */
  lemma BudgetCapHolds(w: World, seed: Usage, limits: UsageKey -> nat, moves: seq<Move>, k: UsageKey)
    requires Boot(w, seed) && Runs(w, moves) && UnderLimits(limits, moves)
    ensures Used(Outcome(w, moves).usage, k) <= Max(Used(seed, k), limits(k)) + Overrun(Outcome(w, moves).settled, k)
  {
    RunKeepsCap(w, seed, limits, moves, k);
  }
}
