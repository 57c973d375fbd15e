/** Per-model counters never outgrow the total they are part of. */
module ModelShare {
  import opened Common
  import opened Budget
  import opened Interleaving

  // ---------------------------------------------------------------- sums over counters

  ghost function SumOver(usage: Usage, ks: set<UsageKey>): nat
    requires ks <= usage.Keys
  {
    if ks == {} then 0
    else
      var k :| k in ks;
      usage[k] + SumOver(usage, ks - {k})
  }

  /** The sum does not depend on the order the counters are visited in. */
  lemma {:induction false} SumOut(usage: Usage, ks: set<UsageKey>, k: UsageKey)
    requires ks <= usage.Keys && k in ks
    ensures SumOver(usage, ks) == usage[k] + SumOver(usage, ks - {k})
    decreases |ks|
  {
    var first :| first in ks && SumOver(usage, ks) == usage[first] + SumOver(usage, ks - {first});
    if first != k {
      SumOut(usage, ks - {first}, k);
      SumOut(usage, ks - {k}, first);
      assert ks - {first} - {k} == ks - {k} - {first};
    }
  }

  lemma {:induction false} SumSame(a: Usage, b: Usage, ks: set<UsageKey>)
    requires ks <= a.Keys && ks <= b.Keys && forall k :: k in ks ==> a[k] == b[k]
    ensures SumOver(a, ks) == SumOver(b, ks)
    decreases |ks|
  {
    if ks != {} {
      var k :| k in ks;
      SumOut(a, ks, k);
      SumOut(b, ks, k);
      SumSame(a, b, ks - {k});
    }
  }

  ghost function ModelKeys(usage: Usage, owner: Owner, period: int): set<UsageKey> {
    set k | k in usage && k.PerModel? && k.owner == owner && k.period == period
  }

  /** Everything an owner's models used in a period. */
  ghost function ModelSum(usage: Usage, owner: Owner, period: int): nat {
    SumOver(usage, ModelKeys(usage, owner, period))
  }

  predicate IsModelOf(k: UsageKey, owner: Owner, period: int) {
    k.PerModel? && k.owner == owner && k.period == period
  }

  lemma ModelSumUpdate(usage: Usage, k: UsageKey, v: nat, owner: Owner, period: int)
    ensures ModelSum(usage[k := v], owner, period) + (if IsModelOf(k, owner, period) then Used(usage, k) else 0)
            == ModelSum(usage, owner, period) + (if IsModelOf(k, owner, period) then v else 0)
  {
    var next := usage[k := v];
    var before, after := ModelKeys(usage, owner, period), ModelKeys(next, owner, period);
    if IsModelOf(k, owner, period) {
      assert after == before + {k} && after - {k} == before - {k};
      SumOut(next, after, k);
      SumSame(usage, next, before - {k});
      if k in usage {
        SumOut(usage, before, k);
      } else {
        assert before - {k} == before;
      }
    } else {
      assert after == before;
      SumSame(usage, next, before);
    }
  }

  // ---------------------------------------------------------------- shapes

  /** The counters a thread holds and still wants are one owner's total and at most one of its models. */
  predicate ThreadShaped(t: Thread) {
    match t
    case Idle => true
    case Reserving(claims, amount, _, held) =>
      Shaped(HeldKeys(held) + ClaimKeys(claims)) && forall j :: 0 <= j < |held| ==> held[j].amount == amount
    case Holding(held) => Shaped(HeldKeys(held)) && OneAmount(held)
    case Committing(todo, _) => Settling(todo)
    case RollingBack(todo) => Settling(todo)
  }

  predicate OneAmount(held: seq<Reserved>) {
    |held| == 2 ==> held[0].amount == held[1].amount
  }

  /** A shaped list, or what is left of one when its total has been settled. */
  predicate Settling(todo: seq<Reserved>) {
    (Shaped(HeldKeys(todo)) && OneAmount(todo)) || (|todo| == 1 && todo[0].key.PerModel?)
  }

  ghost predicate AllShaped(w: World) {
    forall i :: 0 <= i < |w.threads| ==> ThreadShaped(w.threads[i])
  }

  lemma ShapedParts(held: seq<Reserved>, amount: nat)
    requires Shaped(HeldKeys(held)) && forall j :: 0 <= j < |held| ==> held[j].amount == amount
    ensures Settling(held) && OneAmount(held)
  {}

  lemma StepKeepsShape(w: World, i: nat, a: Action)
    requires Enabled(w, i, a) && AllShaped(w)
    ensures AllShaped(Step(w, i, a))
  {
    var t, next := w.threads[i], Step(w, i, a);
    assert ThreadShaped(t);
    assert ThreadShaped(next.threads[i]) by {
      ThreadKeepsShape(w, i, a);
    }
    forall n | 0 <= n < |next.threads|
      ensures ThreadShaped(next.threads[n])
    {
      if n != i {
        assert next.threads[n] == w.threads[n];
      }
    }
  }

  lemma ThreadKeepsShape(w: World, i: nat, a: Action)
    requires Enabled(w, i, a) && ThreadShaped(w.threads[i])
    ensures ThreadShaped(Step(w, i, a).threads[i])
  {
    var t, u := w.threads[i], Step(w, i, a).threads[i];
    if a.Begin? {
      assert HeldKeys([]) + ClaimKeys(a.claims) == ClaimKeys(a.claims);
    } else if a.Exchange? {
      assert HeldKeys(u.held) + ClaimKeys(u.claims) == HeldKeys(t.held) + ClaimKeys(t.claims);
    } else if a.TakeRpm? || a.RpmRefuses? || a.Refuse? {
      var keys := HeldKeys(t.held) + ClaimKeys(t.claims);
      assert forall j :: 0 <= j < |t.held| ==> keys[j] == HeldKeys(t.held)[j];
      assert Shaped(HeldKeys(t.held));
      ShapedParts(t.held, t.amount);
    } else if a.CommitScope? || a.RollbackScope? {
      assert HeldKeys(t.todo)[0] == t.todo[0].key;
      if |t.todo| == 2 {
        assert HeldKeys(t.todo)[1] == t.todo[1].key && u.todo == [t.todo[1]];
      } else {
        assert u.todo == [];
      }
    }
  }

  // ---------------------------------------------------------------- the balance between models and total

  function Weight(s: Reserved, owner: Owner, period: int): int {
    var amount: int := s.amount;
    if IsModelOf(s.key, owner, period) then amount
    else if s.key == Total(owner, period) then -amount
    else 0
  }

  /** What a list of reservations holds on an owner's models, less what it holds on the total. */
  function Lead(held: seq<Reserved>, owner: Owner, period: int): int {
    if held == [] then 0
    else
      Lead(held[1..], owner, period)
      + Weight(held[0], owner, period)
  }

  /**
   What must be added to the total so that the models stay below it whatever
   the thread does next. A commit whose total is settled still owes the model
   its actual amount.
   */
  function Credit(t: Thread, owner: Owner, period: int): int {
    Lead(Live(t), owner, period)
    - (if t.Committing? && |t.todo| == 1 && IsModelOf(t.todo[0].key, owner, period) then t.actual else 0)
  }

  function Credits(threads: seq<Thread>, owner: Owner, period: int): int {
    if threads == [] then 0
    else Credits(threads[..|threads| - 1], owner, period) + Credit(threads[|threads| - 1], owner, period)
  }

  lemma {:induction false} CreditsUpdate(threads: seq<Thread>, i: nat, t: Thread, owner: Owner, period: int)
    requires i < |threads|
    ensures Credits(threads[i := t], owner, period)
            == Credits(threads, owner, period) - Credit(threads[i], owner, period) + Credit(t, owner, period)
    decreases |threads|
  {
    var n := |threads| - 1;
    if i < n {
      CreditsUpdate(threads[..n], i, t, owner, period);
      assert threads[i := t][..n] == threads[..n][i := t];
    } else {
      assert threads[i := t][..n] == threads[..n];
    }
  }

  ghost predicate Ordered(w: World, owner: Owner, period: int) {
    ModelSum(w.usage, owner, period) <= Used(w.usage, Total(owner, period)) + Credits(w.threads, owner, period)
  }

  lemma {:induction false} LeadAppend(held: seq<Reserved>, s: Reserved, owner: Owner, period: int)
    ensures Lead(held + [s], owner, period)
            == Lead(held, owner, period) + Weight(s, owner, period)
    decreases |held|
  {
    if held == [] {
      assert (held + [s])[1..] == [];
    } else {
      LeadAppend(held[1..], s, owner, period);
      assert (held + [s])[1..] == held[1..] + [s];
    }
  }

  lemma ExchangeKeepsOrder(w: World, i: nat, owner: Owner, period: int)
    requires Enabled(w, i, Exchange) && Ordered(w, owner, period)
    ensures Ordered(Step(w, i, Exchange), owner, period)
  {
    hide ModelSum, Credits, Lead, Shaped;
    var t, next := w.threads[i], Step(w, i, Exchange);
    var key := t.claims[0].key;
    assert Credit(next.threads[i], owner, period) == Lead(next.threads[i].held, owner, period);
    LeadAppend(t.held, Reserved(key, t.amount), owner, period);
    CreditsUpdate(w.threads, i, next.threads[i], owner, period);
    ModelSumUpdate(w.usage, key, t.observed.value + t.amount, owner, period);
  }

  /** Settling one scope: the counter moves by exactly the difference. */
  lemma SettleMoves(usage: Usage, s: Reserved, actual: nat)
    requires s.key in usage && usage[s.key] >= s.amount
    ensures CommitOne(usage, s, actual) == usage[s.key := usage[s.key] - s.amount + actual]
    ensures Sub(usage, s.key, s.amount) == usage[s.key := usage[s.key] - s.amount]
  {
    assert usage[s.key := usage[s.key]] == usage;
  }

  lemma SettleKeepsOrder(w: World, i: nat, a: Action, owner: Owner, period: int)
    requires Enabled(w, i, a) && (a.CommitScope? || a.RollbackScope?)
    requires ThreadShaped(w.threads[i]) && Ordered(w, owner, period)
    requires var s := w.threads[i].todo[0]; s.key in w.usage && w.usage[s.key] >= s.amount
    ensures Ordered(Step(w, i, a), owner, period)
  {
    hide ModelSum, Credits, Credit;
    var t, next := w.threads[i], Step(w, i, a);
    var s := t.todo[0];
    CreditsUpdate(w.threads, i, next.threads[i], owner, period);
    var actual := if a.CommitScope? then t.actual else 0;
    SettleMoves(w.usage, s, actual);
    ModelSumUpdate(w.usage, s.key, w.usage[s.key] - s.amount + actual, owner, period);
    CreditOfRest(t, owner, period);
  }

  /** How a thread's credit changes when its first scope is settled. */
  lemma CreditOfRest(t: Thread, owner: Owner, period: int)
    requires (t.Committing? || t.RollingBack?) && ThreadShaped(t) && t.todo != []
    ensures var s := t.todo[0];
            var u := if t.Committing? then Committing(t.todo[1..], t.actual) else RollingBack(t.todo[1..]);
            var gained: int := (if t.Committing? then t.actual else 0) - s.amount;
            if IsModelOf(s.key, owner, period) then Credit(u, owner, period) == Credit(t, owner, period) + gained
            else if s.key == Total(owner, period) then Credit(u, owner, period) >= Credit(t, owner, period) - gained
            else Credit(u, owner, period) == Credit(t, owner, period)
  {
    var rest := t.todo[1..];
    assert HeldKeys(t.todo)[0] == t.todo[0].key;
    if |t.todo| == 2 {
      assert HeldKeys(t.todo)[1] == t.todo[1].key;
      assert rest == [t.todo[1]] && rest[1..] == [];
    } else {
      assert rest == [];
    }
  }

  lemma StepKeepsOrder(w: World, seed: Usage, i: nat, a: Action, owner: Owner, period: int)
    requires Enabled(w, i, a) && Present(w) && AllShaped(w) && (forall k :: Balanced(w, seed, k))
    requires Ordered(w, owner, period)
    ensures Ordered(Step(w, i, a), owner, period)
  {
    if a.Exchange? {
      ExchangeKeepsOrder(w, i, owner, period);
    } else if a.CommitScope? || a.RollbackScope? {
      var t := w.threads[i];
      assert Live(t)[0] == t.todo[0] && t.todo[0].key in w.usage;
      NeverSaturates(w, seed, i);
      SettleKeepsOrder(w, i, a, owner, period);
    } else if a.Insert? {
      ModelSumUpdate(w.usage, w.threads[i].claims[0].key, 0, owner, period);
    } else {
      var t, next := w.threads[i], Step(w, i, a);
      CreditsUpdate(w.threads, i, next.threads[i], owner, period);
      CommitStartsLevel(w, i, a, owner, period);
    }
  }

  /** Steps that touch no counter leave the thread's credit as it was. */
  lemma CommitStartsLevel(w: World, i: nat, a: Action, owner: Owner, period: int)
    requires Enabled(w, i, a) && ThreadShaped(w.threads[i])
    requires !a.Exchange? && !a.CommitScope? && !a.RollbackScope? && !a.Insert?
    ensures Credit(Step(w, i, a).threads[i], owner, period) == Credit(w.threads[i], owner, period)
  {
    var t := w.threads[i];
    if a.Commit? && |t.held| == 1 {
      assert HeldKeys(t.held)[0] == t.held[0].key;
    }
  }

  lemma {:induction false} RunKeepsOrder(w: World, seed: Usage, moves: seq<Move>, owner: Owner, period: int)
    requires Runs(w, moves) && Present(w) && AllShaped(w) && (forall k :: Balanced(w, seed, k))
    requires Ordered(w, owner, period)
    ensures AllShaped(Outcome(w, moves)) && Ordered(Outcome(w, moves), owner, period)
    decreases |moves|
  {
    if moves != [] {
      hide Enabled, Step, Present, Balanced, AllShaped, Ordered;
      var i, a := moves[0].thread, moves[0].action;
      StepKeepsPresent(w, i, a);
      StepKeepsShape(w, i, a);
      forall k ensures Balanced(Step(w, i, a), seed, k) {
        StepConserves(w, seed, i, a, k);
      }
      StepKeepsOrder(w, seed, i, a, owner, period);
      RunKeepsOrder(Step(w, i, a), seed, moves[1..], owner, period);
    }
  }

  // ---------------------------------------------------------------- exactly when

  /** A settlement that has taken its share off the total and has yet to take it off the model. */
  predicate Behind(t: Thread, owner: Owner, period: int) {
    (t.RollingBack? || t.Committing?)
    && |t.todo| == 1 && IsModelOf(t.todo[0].key, owner, period)
    && t.todo[0].amount > (if t.Committing? then t.actual else 0)
  }

  ghost predicate Within(usage: Usage, owner: Owner, period: int) {
    ModelSum(usage, owner, period) <= Used(usage, Total(owner, period))
  }

  lemma ShapedLead(held: seq<Reserved>, owner: Owner, period: int)
    requires Shaped(HeldKeys(held)) && OneAmount(held)
    ensures Lead(held, owner, period) <= 0
  {
    assert |held| > 0 ==> HeldKeys(held)[0] == held[0].key;
    assert |held| > 1 ==> HeldKeys(held)[1] == held[1].key;
    if |held| == 2 {
      assert held[1..] == [held[1]] && held[1..][1..] == [];
      assert Lead(held[1..], owner, period) == if IsModelOf(held[1].key, owner, period) then held[1].amount else 0;
    } else if |held| == 1 {
      assert held[1..] == [];
    }
  }

  /** Only a thread that is behind can be owed anything. */
  lemma NoCredit(t: Thread, owner: Owner, period: int)
    requires ThreadShaped(t) && !Behind(t, owner, period)
    ensures Credit(t, owner, period) <= 0
  {
    var live := Live(t);
    if t.Reserving? {
      var keys := HeldKeys(live) + ClaimKeys(t.claims);
      assert forall j :: 0 <= j < |live| ==> keys[j] == HeldKeys(live)[j];
      ShapedLead(live, owner, period);
    } else if Shaped(HeldKeys(live)) && OneAmount(live) {
      ShapedLead(live, owner, period);
    } else {
      assert live[1..] == [];
    }
  }

  lemma {:induction false} NoCredits(threads: seq<Thread>, owner: Owner, period: int)
    requires forall i :: 0 <= i < |threads| ==> ThreadShaped(threads[i]) && !Behind(threads[i], owner, period)
    ensures Credits(threads, owner, period) <= 0
    decreases |threads|
  {
    if threads != [] {
      NoCredits(threads[..|threads| - 1], owner, period);
      NoCredit(threads[|threads| - 1], owner, period);
    }
  }

  lemma {:induction false} IdleCredits(threads: seq<Thread>, owner: Owner, period: int)
    requires forall i :: 0 <= i < |threads| ==> threads[i].Idle?
    ensures Credits(threads, owner, period) == 0
    decreases |threads|
  {
    if threads != [] {
      IdleCredits(threads[..|threads| - 1], owner, period);
    }
  }

  /**
   In every reachable state, with any number of threads in any stage of a reservation or a
   settlement, the models of an owner and period add up to no more than its total if the seeds did
   and no thread is behind; budgets and periods may change between a reservation and its settlement.
   */
  lemma ModelsWithinTotal(w: World, seed: Usage, moves: seq<Move>, owner: Owner, period: int)
    requires Boot(w, seed) && Runs(w, moves) && Within(seed, owner, period)
    requires var end := Outcome(w, moves); forall i :: 0 <= i < |end.threads| ==> !Behind(end.threads[i], owner, period)
    ensures Within(Outcome(w, moves).usage, owner, period)
  {
    forall k ensures Balanced(w, seed, k) {
      NothingOutstanding(w.threads, k);
    }
    IdleCredits(w.threads, owner, period);
    RunKeepsOrder(w, seed, moves, owner, period);
    NoCredits(Outcome(w, moves).threads, owner, period);
  }

  // ---------------------------------------------------------------- every way of being behind is reached

  lemma RunFirst(w: World, m: Move, next: World, rest: seq<Move>)
    requires Enabled(w, m.thread, m.action) && Step(w, m.thread, m.action) == next && Runs(next, rest)
    ensures Runs(w, [m] + rest) && Outcome(w, [m] + rest) == Outcome(next, rest)
  {
    hide Enabled, Step;
    assert ([m] + rest)[1..] == rest;
  }

  /** The two counters one request claims. */
  function Counters(key: UsageKey, total: nat, model: nat): Usage
    requires key.PerModel?
  {
    map[Total(key.owner, key.period) := total, key := model]
  }

  function Both(key: UsageKey, n: nat): seq<Reserved>
    requires key.PerModel?
  {
    [Reserved(Total(key.owner, key.period), n), Reserved(key, n)]
  }

  lemma CounterSum(key: UsageKey, total: nat, model: nat)
    requires key.PerModel?
    ensures ModelSum(Counters(key, total, model), key.owner, key.period) == model
    ensures Used(Counters(key, total, model), Total(key.owner, key.period)) == total
  {
    var usage := Counters(key, total, model);
    assert ModelKeys(usage, key.owner, key.period) == {key};
    SumOut(usage, {key}, key);
  }

  /** From a held reservation of `n` to the thread that is behind: one more decision and one step. */
  lemma FallBehind(t: Thread, owner: Owner, period: int) returns (moves: seq<Move>, end: World)
    requires Behind(t, owner, period)
    ensures var key, n := t.todo[0].key, t.todo[0].amount;
            var w := World(Counters(key, n, n), [Holding(Both(key, n))], []);
            && Runs(w, moves) && Outcome(w, moves) == end && end.threads == [t]
            && end.usage == Counters(key, if t.Committing? then t.actual else 0, n)
  {
    var key, n := t.todo[0].key, t.todo[0].amount;
    var both := Both(key, n);
    var w0 := World(Counters(key, n, n), [Holding(both)], []);
    var decide := if t.Committing? then Commit(t.actual) else GiveBack;
    var settle := if t.Committing? then CommitScope else RollbackScope;
    var w1 := World(Counters(key, n, n), [if t.Committing? then Committing(both, t.actual) else RollingBack(both)], []);
    assert Step(w0, 0, decide) == w1;
    end := Step(w1, 0, settle);
    assert both[1..] == t.todo;
    assert end.usage == Counters(key, if t.Committing? then t.actual else 0, n);
    hide Step, Counters;
    RunFirst(w1, Move(0, settle), end, []);
    RunFirst(w0, Move(0, decide), w1, [Move(0, settle)] + []);
    moves := [Move(0, decide)] + ([Move(0, settle)] + []);
  }

  /** One claim reserved with no interference. */
  lemma ReserveRun(w: World, key: UsageKey, n: nat, more: seq<Claim>, held: seq<Reserved>, rest: seq<Move>, next: World)
    requires w.threads == [Reserving([Claim(key, n)] + more, n, None, held)] && key in w.usage && w.usage[key] == 0
    requires next == World(w.usage[key := n], [Reserving(more, n, None, held + [Reserved(key, n)])], w.settled)
    requires Runs(next, rest)
    ensures var moves := [Move(0, Load)] + ([Move(0, Exchange)] + rest);
            Runs(w, moves) && Outcome(w, moves) == Outcome(next, rest)
  {
    var t := w.threads[0];
    var loaded := Step(w, 0, Load);
    assert loaded.threads == [t.(observed := Some(0))];
    assert t.claims[1..] == more;
    assert Enabled(loaded, 0, Exchange) && Step(loaded, 0, Exchange) == next;
    hide Step, Enabled;
    RunFirst(loaded, Move(0, Exchange), next, rest);
    RunFirst(w, Move(0, Load), loaded, [Move(0, Exchange)] + rest);
  }

  /** Both counters of one request, from idle to a held reservation. */
  lemma WholeReserveRun(key: UsageKey, n: nat, rest: seq<Move>) returns (moves: seq<Move>)
    requires key.PerModel? && Runs(World(Counters(key, n, n), [Holding(Both(key, n))], []), rest)
    ensures var w := World(Counters(key, 0, 0), [Idle], []);
            var held := World(Counters(key, n, n), [Holding(Both(key, n))], []);
            Runs(w, moves) && Outcome(w, moves) == Outcome(held, rest)
  {
    var total := Total(key.owner, key.period);
    var claims, first, both := [Claim(total, n), Claim(key, n)], [Reserved(total, n)], Both(key, n);
    var w0 := World(Counters(key, 0, 0), [Idle], []);
    var w1 := World(Counters(key, 0, 0), [Reserving(claims, n, None, [])], []);
    var w2 := World(Counters(key, n, 0), [Reserving([Claim(key, n)], n, None, first)], []);
    var w3 := World(Counters(key, n, n), [Reserving([], n, None, both)], []);
    var w4 := World(Counters(key, n, n), [Holding(both)], []);
    assert Enabled(w3, 0, TakeRpm) && Step(w3, 0, TakeRpm) == w4;
    assert Enabled(w0, 0, Begin(claims, n)) && Step(w0, 0, Begin(claims, n)) == w1;
    assert w2.usage[key := n] == Counters(key, n, n) && w2.usage[key] == 0;
    assert w1.usage[total := n] == Counters(key, n, 0) && w1.usage[total] == 0;
    assert [Claim(key, n)] + [] == [Claim(key, n)] && first + [Reserved(key, n)] == both;
    assert [Claim(total, n)] + [Claim(key, n)] == claims && [] + [Reserved(total, n)] == first;
    hide Enabled, Step, Runs, Outcome, Counters, Both;
    RunFirst(w3, Move(0, TakeRpm), w4, rest);
    moves := [Move(0, TakeRpm)] + rest;
    ReserveRun(w2, key, n, [], first, moves, w3);
    moves := [Move(0, Load)] + ([Move(0, Exchange)] + moves);
    ReserveRun(w1, total, n, [Claim(key, n)], [], moves, w2);
    moves := [Move(0, Load)] + ([Move(0, Exchange)] + moves);
    RunFirst(w0, Move(0, Begin(claims, n)), w1, moves);
    moves := [Move(0, Begin(claims, n))] + moves;
  }

  /**
   Whoever it is that is behind, with whatever amounts, one thread alone gets there from level
   seeds, and a reader then sees the model ahead of the total by exactly what is yet to be taken off.
   */
  lemma BehindExceeds(t: Thread, owner: Owner, period: int)
    returns (w: World, seed: Usage, moves: seq<Move>)
    requires Behind(t, owner, period)
    ensures Boot(w, seed) && Runs(w, moves) && Outcome(w, moves).threads == [t] && Within(seed, owner, period)
    ensures var end := Outcome(w, moves).usage;
            (ModelSum(end, owner, period)
             == Used(end, Total(owner, period)) + t.todo[0].amount - (if t.Committing? then t.actual else 0))
  {
    var key, n := t.todo[0].key, t.todo[0].amount;
    var settling, end := FallBehind(t, owner, period);
    CounterSum(key, 0, 0);
    CounterSum(key, if t.Committing? then t.actual else 0, n);
    hide Step, Enabled, Runs, Outcome, ModelSum, Used, Counters, Both;
    moves := WholeReserveRun(key, n, settling);
    w, seed := World(Counters(key, 0, 0), [Idle], []), Counters(key, 0, 0);
  }

  /**
   Exactly when the models stay within the total. Take any condition on the stages threads may be
   in. In every reachable state whose threads all meet it the models stay within the total, if and
   only if the condition admits no thread that is behind.
   */
  lemma ModelsWithinTotalIsExact(allowed: Thread -> bool, owner: Owner, period: int)
    ensures (forall w: World, seed: Usage, moves: seq<Move> ::
               Boot(w, seed) && Runs(w, moves) && Within(seed, owner, period)
               && (forall t :: t in Outcome(w, moves).threads ==> allowed(t))
               ==> Within(Outcome(w, moves).usage, owner, period))
            <==> (forall t :: allowed(t) ==> !Behind(t, owner, period))
  {
    if t: Thread :| allowed(t) && Behind(t, owner, period) {
      var w, seed, moves := BehindExceeds(t, owner, period);
      assert !Within(Outcome(w, moves).usage, owner, period);
    } else {
      hide Boot, Runs, Outcome, Within, Behind;
      forall w: World, seed: Usage, moves: seq<Move> |
        Boot(w, seed) && Runs(w, moves) && Within(seed, owner, period)
        && (forall t :: t in Outcome(w, moves).threads ==> allowed(t))
        ensures Within(Outcome(w, moves).usage, owner, period)
      {
        ModelsWithinTotal(w, seed, moves, owner, period);
      }
    }
  }
}
