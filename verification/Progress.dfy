/**
 A thread that is not disturbed does what the sequential store does, and from wherever it stands it
 can finish (src/budget/mod.rs).
 */
module Progress {
  import opened Common
  import opened Budget
  import opened Interleaving

  /** Only thread `i` moves, and each move is of the given kind. */
  ghost predicate Alone(moves: seq<Move>, i: nat, kind: Action -> bool) {
    forall j :: 0 <= j < |moves| ==> moves[j].thread == i && kind(moves[j].action)
  }

  /** Nobody else has moved. */
  ghost predicate OthersRest(start: World, w: World, i: nat) {
    && |w.threads| == |start.threads| && i < |w.threads|
    && forall j :: 0 <= j < |w.threads| && j != i ==> w.threads[j] == start.threads[j]
  }

  // ---------------------------------------------------------------- reserving

  /** The moves of one call of reserve whose request bucket does not refuse. */
  predicate Reserves(a: Action) {
    !(a.Begin? || a.Commit? || a.GiveBack? || a.RpmRefuses?)
  }

  /** The counters are as at the start, plus what is held. */
  ghost predicate Moved(start: Usage, usage: Usage, held: seq<Reserved>) {
    && (forall k :: Used(usage, k) == Used(start, k) + Held(held, k))
    && (forall j :: 0 <= j < |held| ==> held[j].key in usage)
  }

  /** The first claims are reserved, and each of them fitted when the call began. */
  ghost predicate Took(start: Usage, usage: Usage, claims: seq<Claim>, amount: nat, held: seq<Reserved>) {
    && |held| <= |claims| && Moved(start, usage, held)
    && (forall j :: 0 <= j < |held| ==> held[j] == Reserved(claims[j].key, amount) && Fits(claims[j], start, amount))
  }

  ghost predicate SomeUnfit(start: Usage, claims: seq<Claim>, amount: nat) {
    exists n: nat :: FirstUnfit(claims, start, amount, n)
  }

  /** Where a call of reserve that began in `start` may stand. */
  ghost predicate Stands(start: World, w: World, i: nat, claims: seq<Claim>, amount: nat) {
    OthersRest(start, w, i) && w.settled == start.settled && StandsAt(start.usage, w.usage, w.threads[i], claims, amount)
  }

  ghost predicate StandsAt(start: Usage, usage: Usage, t: Thread, claims: seq<Claim>, amount: nat) {
    match t
    case Reserving(rest, m, observed, held) =>
      && m == amount && Took(start, usage, claims, amount, held) && rest == claims[|held|..]
      && (observed.Some? ==> rest != [] && rest[0].key in usage && observed.value == Used(usage, rest[0].key))
    case Holding(held) => Took(start, usage, claims, amount, held) && |held| == |claims|
    case RollingBack(todo) => SomeUnfit(start, claims, amount) && Moved(start, usage, todo)
    case Idle => SomeUnfit(start, claims, amount) && SameUsage(start, usage)
    case Committing(_, _) => false
  }

  lemma NextIsUntouched(start: Usage, usage: Usage, claims: seq<Claim>, amount: nat, held: seq<Reserved>)
    requires Shaped(ClaimKeys(claims)) && Took(start, usage, claims, amount, held) && |held| < |claims|
    ensures Used(usage, claims[|held|].key) == Used(start, claims[|held|].key)
  {
    var keys := ClaimKeys(claims);
    assert forall j :: 0 <= j <= |held| ==> keys[j] == claims[j].key;
    HeldElsewhere(held, claims[|held|].key);
  }

  lemma TakesOneMore(start: Usage, usage: Usage, claims: seq<Claim>, amount: nat, held: seq<Reserved>)
    requires Took(start, usage, claims, amount, held) && |held| < |claims| && Fits(claims[|held|], start, amount)
    ensures var k := claims[|held|].key;
            Took(start, usage[k := Used(usage, k) + amount], claims, amount, held + [Reserved(k, amount)])
  {
    var s := Reserved(claims[|held|].key, amount);
    var next := usage[s.key := Used(usage, s.key) + amount];
    forall k ensures Used(next, k) == Used(start, k) + Held(held + [s], k) {
      HeldAppend(held, s, k);
    }
    hide Held, Fits;
  }

  lemma InsertsNothing(start: Usage, usage: Usage, held: seq<Reserved>, k: UsageKey)
    requires Moved(start, usage, held) && k !in usage
    ensures Moved(start, usage[k := 0], held)
  {
    hide Held;
  }

  lemma GivesOneBack(start: Usage, usage: Usage, todo: seq<Reserved>)
    requires todo != [] && Moved(start, usage, todo)
    ensures Moved(start, Sub(usage, todo[0].key, todo[0].amount), todo[1..])
  {
    HeldFirstAll(todo);
    hide Held;
  }

  lemma AllGivenBack(start: Usage, usage: Usage)
    requires Moved(start, usage, [])
    ensures SameUsage(start, usage)
  {}

  lemma DoesNotFit(start: Usage, usage: Usage, claims: seq<Claim>, amount: nat, held: seq<Reserved>)
    requires Shaped(ClaimKeys(claims)) && Took(start, usage, claims, amount, held) && |held| < |claims|
    requires !Fits(claims[|held|], usage, amount)
    ensures SomeUnfit(start, claims, amount)
  {
    NextIsUntouched(start, usage, claims, amount, held);
    hide Moved, Shaped;
    assert FirstUnfit(claims, start, amount, |held|);
  }

  lemma StillFits(start: Usage, usage: Usage, claims: seq<Claim>, amount: nat, held: seq<Reserved>)
    requires Shaped(ClaimKeys(claims)) && Took(start, usage, claims, amount, held) && |held| < |claims|
    requires Fits(claims[|held|], usage, amount)
    ensures Fits(claims[|held|], start, amount)
  {
    NextIsUntouched(start, usage, claims, amount, held);
  }

  lemma MovesAt(start: World, w: World, i: nat, claims: seq<Claim>, amount: nat, a: Action)
    requires Shaped(ClaimKeys(claims)) && Stands(start, w, i, claims, amount) && Reserves(a) && Enabled(w, i, a)
    ensures var next := Step(w, i, a); StandsAt(start.usage, next.usage, next.threads[i], claims, amount)
  {
    hide Shaped, Moved, SomeUnfit, SameUsage, Sub, OthersRest;
    var t, next := w.threads[i], Step(w, i, a);
    match a
    case Insert => InsertsNothing(start.usage, w.usage, t.held, t.claims[0].key);
    case Refuse => DoesNotFit(start.usage, w.usage, claims, amount, t.held);
    case Exchange =>
      StillFits(start.usage, w.usage, claims, amount, t.held);
      TakesOneMore(start.usage, w.usage, claims, amount, t.held);
    case RollbackScope => GivesOneBack(start.usage, w.usage, t.todo);
    case End => AllGivenBack(start.usage, w.usage);
    case _ =>
  }

  lemma OthersStill(w: World, i: nat, a: Action)
    requires Enabled(w, i, a)
    ensures OthersRest(w, Step(w, i, a), i) && (!a.CommitScope? ==> Step(w, i, a).settled == w.settled)
  {}

  lemma ReserveMoves(start: World, w: World, i: nat, claims: seq<Claim>, amount: nat, a: Action)
    requires Shaped(ClaimKeys(claims)) && Stands(start, w, i, claims, amount) && Reserves(a) && Enabled(w, i, a)
    ensures Stands(start, Step(w, i, a), i, claims, amount)
  {
    assert !a.CommitScope?;
    OthersStill(w, i, a);
    MovesAt(start, w, i, claims, amount, a);
    hide Step, Enabled, StandsAt, Shaped;
  }

  lemma HeldFirstAll(todo: seq<Reserved>)
    requires todo != []
    ensures forall k :: Held(todo, k) == Held(todo[1..], k) + (if todo[0].key == k then todo[0].amount else 0)
  {}

  lemma {:induction false} ReserveRuns(start: World, w: World, i: nat, claims: seq<Claim>, amount: nat, moves: seq<Move>)
    requires Shaped(ClaimKeys(claims)) && Stands(start, w, i, claims, amount) && Runs(w, moves) && Alone(moves, i, Reserves)
    ensures Stands(start, Outcome(w, moves), i, claims, amount)
    decreases |moves|
  {
    if moves != [] {
      hide Stands, Step, Enabled, Shaped;
      ReserveMoves(start, w, i, claims, amount, moves[0].action);
      ReserveRuns(start, Step(w, i, moves[0].action), i, claims, amount, moves[1..]);
    }
  }

  /**
   A call of reserve whose thread runs alone, with exchanges failing for no reason as they like: if it
   comes to hold its reservations, every claim fitted and exactly the claimed counters have moved by
   the amount; if it comes to rest without, some claim did not fit and every counter is as it was.
   */
  lemma ReserveAlone(w: World, i: nat, claims: seq<Claim>, amount: nat, moves: seq<Move>)
    requires Enabled(w, i, Begin(claims, amount)) && Runs(Step(w, i, Begin(claims, amount)), moves) && Alone(moves, i, Reserves)
    ensures var end := Outcome(Step(w, i, Begin(claims, amount)), moves);
            && OthersRest(w, end, i) && end.settled == w.settled
            && (end.threads[i].Holding? ==>
                  && end.threads[i].held == seq(|claims|, j requires 0 <= j < |claims| => Reserved(claims[j].key, amount))
                  && (forall j :: 0 <= j < |claims| ==> Fits(claims[j], w.usage, amount))
                  && (forall k :: Used(end.usage, k) == Used(w.usage, k) + Held(end.threads[i].held, k)))
            && (end.threads[i].Idle? ==> SomeUnfit(w.usage, claims, amount) && SameUsage(w.usage, end.usage))
  {
    var begun := Step(w, i, Begin(claims, amount));
    assert Stands(w, begun, i, claims, amount) by {
      assert Moved(w.usage, begun.usage, []);
    }
    ReserveRuns(w, begun, i, claims, amount, moves);
    hide Runs, Held, Used, FirstUnfit, Fits, Shaped;
  }

  // ---------------------------------------------------------------- settling

  predicate Settles(a: Action) {
    a.CommitScope? || a.RollbackScope? || a.End?
  }

  /** What committing leaves in the books. */
  function Booked(held: seq<Reserved>, actual: nat): seq<Settled> {
    if held == [] then [] else [Settled(held[0].key, held[0].amount, actual)] + Booked(held[1..], actual)
  }

  /** Done, or on the way with the rest to come: what has been and what will be done is the sequential commit. */
  ghost predicate CommitsLike(w: World, end: World, i: nat, todo: seq<Reserved>, actual: nat) {
    && OthersRest(w, end, i)
    && var t := end.threads[i];
       var rest := if t.Committing? then t.todo else [];
       && (t.Idle? || (t.Committing? && t.actual == actual))
       && CommitAll(end.usage, rest, actual) == CommitAll(w.usage, todo, actual)
       && end.settled + Booked(rest, actual) == w.settled + Booked(todo, actual)
  }

  ghost predicate GivesBackLike(w: World, end: World, i: nat, todo: seq<Reserved>) {
    && OthersRest(w, end, i) && end.settled == w.settled
    && var t := end.threads[i];
       && (t.Idle? || t.RollingBack?)
       && RollbackAll(end.usage, if t.RollingBack? then t.todo else []) == RollbackAll(w.usage, todo)
  }

  lemma {:induction false} CommitRuns(w: World, i: nat, moves: seq<Move>)
    requires i < |w.threads| && w.threads[i].Committing? && Runs(w, moves) && Alone(moves, i, Settles)
    ensures CommitsLike(w, Outcome(w, moves), i, w.threads[i].todo, w.threads[i].actual)
    decreases |moves|
  {
    if moves != [] {
      var next := Step(w, i, moves[0].action);
      if w.threads[i].todo == [] {
        IdleRests(next, i, moves[1..]);
      } else {
        CommitRuns(next, i, moves[1..]);
      }
    }
  }

  lemma IdleRests(w: World, i: nat, moves: seq<Move>)
    requires i < |w.threads| && w.threads[i].Idle? && Runs(w, moves) && Alone(moves, i, Settles)
    ensures moves == []
  {}

  lemma {:induction false} RollbackRuns(w: World, i: nat, moves: seq<Move>)
    requires i < |w.threads| && w.threads[i].RollingBack? && Runs(w, moves) && Alone(moves, i, Settles)
    ensures GivesBackLike(w, Outcome(w, moves), i, w.threads[i].todo)
    decreases |moves|
  {
    if moves != [] {
      var next := Step(w, i, moves[0].action);
      if w.threads[i].todo == [] {
        IdleRests(next, i, moves[1..]);
      } else {
        RollbackRuns(next, i, moves[1..]);
      }
    }
  }

  /** A commit whose thread runs alone does to the counters what the sequential commit does, and books every scope. */
  lemma CommitAlone(w: World, i: nat, actual: nat, moves: seq<Move>)
    requires Enabled(w, i, Commit(actual)) && Runs(Step(w, i, Commit(actual)), moves) && Alone(moves, i, Settles)
    ensures CommitsLike(w, Outcome(Step(w, i, Commit(actual)), moves), i, w.threads[i].held, actual)
  {
    CommitRuns(Step(w, i, Commit(actual)), i, moves);
    hide Runs, CommitAll, Booked, Outcome;
  }

  /** Giving back, when dropped or when the request bucket refused, is the sequential rollback. */
  lemma GiveBackAlone(w: World, i: nat, a: Action, moves: seq<Move>)
    requires (a.GiveBack? || a.RpmRefuses?) && Enabled(w, i, a) && Runs(Step(w, i, a), moves) && Alone(moves, i, Settles)
    ensures GivesBackLike(w, Outcome(Step(w, i, a), moves), i, w.threads[i].held)
  {
    RollbackRuns(Step(w, i, a), i, moves);
    hide Runs, RollbackAll, Outcome;
  }

  // ---------------------------------------------------------------- finishing

  predicate Resting(t: Thread) {
    t.Idle? || t.Holding?
  }

  /** The next move of a thread that is under way: an exchange fails only if the counter has changed. */
  function NextAction(w: World, i: nat): (a: Action)
    requires i < |w.threads| && !Resting(w.threads[i])
    ensures Enabled(w, i, a) && (Reserves(a) || Settles(a))
  {
    var t := w.threads[i];
    match t
    case Reserving(claims, amount, observed, _) =>
      if claims == [] then TakeRpm
      else if observed.None? then (if claims[0].key in w.usage then Load else Insert)
      else if amount > Remaining(claims[0].limit, observed.value) then Refuse
      else if Used(w.usage, claims[0].key) == observed.value then Exchange
      else ExchangeFails
    case Committing(todo, _) => if todo == [] then End else CommitScope
    case RollingBack(todo) => if todo == [] then End else RollbackScope
  }

  /** How far a thread is from resting: its phase, what is left of it, and how fresh its reading is. */
  function Left(w: World, i: nat): (nat, nat, nat)
    requires i < |w.threads|
  {
    match w.threads[i]
    case Reserving(claims, _, observed, _) =>
      (2, |claims|,
       if claims == [] then 0
       else if observed.None? then (if claims[0].key in w.usage then 2 else 3)
       else if Used(w.usage, claims[0].key) == observed.value then 0 else 1)
    case Committing(todo, _) => (1, |todo|, 0)
    case RollingBack(todo) => (1, |todo|, 0)
    case _ => (0, 0, 0)
  }

  /**
   From every state, whatever the others have done and wherever they stopped, a thread that is under
   way can go on alone until it holds its reservations or is idle: nobody waits for anybody.
   */
  lemma {:induction false} FinishesAlone(w: World, i: nat) returns (moves: seq<Move>)
    requires i < |w.threads|
    ensures Runs(w, moves) && (forall j :: 0 <= j < |moves| ==> moves[j].thread == i)
    ensures var end := Outcome(w, moves); OthersRest(w, end, i) && Resting(end.threads[i])
    decreases Left(w, i).0, Left(w, i).1, Left(w, i).2
  {
    moves := [];
    if !Resting(w.threads[i]) {
      var a := NextAction(w, i);
      var rest := FinishesAlone(Step(w, i, a), i);
      moves := [Move(i, a)] + rest;
      assert moves[1..] == rest;
    }
  }
}
