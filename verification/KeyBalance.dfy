/** How the shipped policies spread load over a route's keys. */
module KeyBalance {
  import opened Arithmetic
  import opened KeyAccounting
  import opened RotationPolicies
  import opened StoreSpec

  // ----- any policy at all -----

  /** The candidates are exactly the admissible keys. */
  lemma CandidatesExact(b: Budget, keys: seq<Key>, now: Time)
    ensures Candidates(b, keys, now, |keys|) == [] <==> forall i :: 0 <= i < |keys| ==> !Admissible(keys[i], b, now)
  {
    hide Admissible, ViewOf;
    CandidatesSound(b, keys, now, |keys|);
    forall i | 0 <= i < |keys| && Admissible(keys[i], b, now)
      ensures Candidates(b, keys, now, |keys|) != []
    {
      CandidatesComplete(b, keys, now, |keys|, i);
    }
    var views := Candidates(b, keys, now, |keys|);
    if views != [] {
      assert Admissible(keys[views[0].index], b, now);
    }
  }

  /** Whatever a policy answers, only an admissible key is leased, and one is leased whenever there is one. */
  lemma LeasesExactlyTheAdmissible(cfg: Config, s: State, op: Op)
    requires op.Reserve? && op.route in s.routes
    ensures var (rt, out) := (Advance(cfg, s.routes[op.route], op.now), Step(cfg, s, op).1);
      && (out.Leased? <==> exists i :: 0 <= i < |rt.keys| && Admissible(rt.keys[i], cfg.budget, op.now))
      && (out.Leased? ==> out.idx < |rt.keys| && Admissible(rt.keys[out.idx], cfg.budget, op.now))
  {
    hide Admissible, ViewOf, Answer, AdvanceKey, RolledStart;
    var rt := Advance(cfg, s.routes[op.route], op.now);
    CandidatesExact(cfg.budget, rt.keys, op.now);
    CandidatesSound(cfg.budget, rt.keys, op.now, |rt.keys|);
  }

  predicate AllAdmissible(b: Budget, keys: seq<Key>, now: Time) {
    forall i :: 0 <= i < |keys| ==> Admissible(keys[i], b, now)
  }

  /** When every key is admissible a policy sees all of them, in order. */
  lemma {:induction false} CandidatesAll(b: Budget, keys: seq<Key>, now: Time, n: nat)
    requires n <= |keys| && AllAdmissible(b, keys, now)
    ensures |Candidates(b, keys, now, n)| == n
    ensures forall i :: 0 <= i < n ==> Candidates(b, keys, now, n)[i] == ViewOf(keys[i], i, now)
  {
    hide Admissible, ViewOf;
    if n > 0 {
      CandidatesAll(b, keys, now, n - 1);
    }
  }

  // ----- least used -----

  /** Work already accepted by a key, settled or not. */
  function Load(k: Key): int {
    k.requests + |k.leases|
  }

  predicate Balanced(keys: seq<Key>) {
    forall i, j :: 0 <= i < |keys| && 0 <= j < |keys| ==> Load(keys[i]) <= Load(keys[j]) + 1
  }

  /** A call within one window that reclaims nothing and fails nothing, and finds every key admissible. */
  predicate Calm(cfg: Config, rt: Route, op: Op) {
    && !WindowExpired(cfg.budget.window, rt.windowStart, op.now)
    && (forall i :: 0 <= i < |rt.keys| ==> ReclaimStale(rt.keys[i], cfg.leaseTimeout, op.now) == rt.keys[i])
    && (op.Reserve? ==> AllAdmissible(cfg.budget, rt.keys, op.now))
    && (op.Settle? && 0 <= op.idx < |rt.keys| ==>
          op.sample.outcome.Completed? && rt.keys[op.idx].orphaned == 0 && rt.keys[op.idx].leases != [])
  }

  lemma CalmAdvance(cfg: Config, rt: Route, op: Op)
    requires Calm(cfg, rt, op)
    ensures Advance(cfg, rt, op.now) == rt
  {
    hide StaleRun, ReclaimStale, Rolled;
    assert Advance(cfg, rt, op.now).keys == rt.keys;
  }

  /** Least-used grants go to a key of least load. */
  lemma LeastUsedPicksLeast(cfg: Config, s: State, op: Op)
    requires op.Reserve? && cfg.kind == LeastUsed && op.route in s.routes && Calm(cfg, s.routes[op.route], op)
    ensures var (keys, out) := (s.routes[op.route].keys, Step(cfg, s, op).1);
      out.Leased? ==> out.idx < |keys| && forall i :: 0 <= i < |keys| ==> Load(keys[out.idx]) <= Load(keys[i])
  {
    hide Admissible, AdvanceKey, RolledStart, Advance, Calm;
    CalmAdvance(cfg, s.routes[op.route], op);
    var keys := s.routes[op.route].keys;
    var views := Candidates(cfg.budget, keys, op.now, |keys|);
    assert AllAdmissible(cfg.budget, keys, op.now) by { CalmAdmissible(cfg, s.routes[op.route], op); }
    CandidatesAll(cfg.budget, keys, op.now, |keys|);
    if views != [] {
      var pos := Answer(cfg.kind, s.cursor, views, op.custom);
      forall i | 0 <= i < |keys|
        ensures Load(keys[pos]) <= Load(keys[i])
      {
        assert Score(ByLoad, views[pos]) <= Score(ByLoad, views[i]);
      }
    }
  }

  lemma CalmAdmissible(cfg: Config, rt: Route, op: Op)
    requires Calm(cfg, rt, op) && op.Reserve?
    ensures AllAdmissible(cfg.budget, rt.keys, op.now)
  {
  }

  /** Of the events of a calm call, only a grant changes a key's load, by one. */
  lemma CalmLoad(cfg: Config, k: Key, start: Time, now: Time, e: KeyEvent)
    requires !WindowExpired(cfg.budget.window, start, now) && ReclaimStale(k, cfg.leaseTimeout, now) == k
    requires e.Close? ==> e.sample.outcome.Completed? && k.orphaned == 0 && k.leases != []
    ensures Load(KeyAfter(cfg, k, start, now, e).0) == Load(k) + if e.Grant? then 1 else 0
  {
    hide StaleRun, ReclaimStale, SettleKey, RetireKey, WindowExpired;
    match e
    case Close(sample) =>
      SettleLeases(k, cfg.budget, sample);
      SettleCounters(k, cfg.budget, sample);
    case Park(until, reason) => RetireFrame(k, now, until, reason);
    case _ =>
  }

  lemma CalmStepLoad(cfg: Config, s: State, op: Op, route: string, i: nat)
    requires route in s.routes && i < |s.routes[route].keys| && (op.route == route ==> Calm(cfg, s.routes[route], op))
    ensures var (s', out) := Step(cfg, s, op);
      && route in s'.routes && |s'.routes[route].keys| == |s.routes[route].keys|
      && Load(s'.routes[route].keys[i]) == Load(s.routes[route].keys[i])
           + if op.route == route && op.Reserve? && out == Leased(i) then 1 else 0
  {
    hide Step, KeyAfter, EventAllowed, StartAfter, Load, WindowExpired, ReclaimStale;
    StepOnKey(cfg, s, op, route, i);
    var e := EventOf(cfg, s, op, route, i);
    if op.route == route {
      CalmLoad(cfg, s.routes[route].keys[i], s.routes[route].windowStart, op.now, e);
    } else {
      IdleLoad(cfg, s.routes[route].keys[i], s.routes[route].windowStart, op.now);
    }
  }

  lemma IdleLoad(cfg: Config, k: Key, start: Time, now: Time)
    ensures Load(KeyAfter(cfg, k, start, now, Idle).0) == Load(k)
  {
  }

  predicate CalmRun(cfg: Config, s: State, ops: seq<Op>, route: string) {
    ops == []
    || (var (past, op) := (ops[..|ops| - 1], ops[|ops| - 1]);
        && CalmRun(cfg, s, past, route)
        && route in Run(cfg, s, past).routes
        && (op.route == route ==> Calm(cfg, Run(cfg, s, past).routes[route], op)))
  }

  /** Under least_used, within one window and without failures or reclaims while all keys stay admissible,
      loads that start within one of each other stay so, however grants and settlements interleave. */
  lemma {:induction false} LeastUsedBalances(cfg: Config, s: State, ops: seq<Op>, route: string)
    requires cfg.kind == LeastUsed && route in s.routes && Balanced(s.routes[route].keys) && CalmRun(cfg, s, ops, route)
    ensures route in Run(cfg, s, ops).routes && Balanced(Run(cfg, s, ops).routes[route].keys)
  {
    hide Step, Calm, Load, Balanced;
    if ops != [] {
      var (past, op) := (ops[..|ops| - 1], ops[|ops| - 1]);
      LeastUsedBalances(cfg, s, past, route);
      StepBalances(cfg, Run(cfg, s, past), op, route);
    }
  }

  lemma StepBalances(cfg: Config, s: State, op: Op, route: string)
    requires cfg.kind == LeastUsed && route in s.routes && Balanced(s.routes[route].keys)
    requires op.route == route ==> Calm(cfg, s.routes[route], op)
    ensures var s' := Step(cfg, s, op).0;
      route in s'.routes && Balanced(s'.routes[route].keys)
  {
    hide Step, Calm, Load;
    var keys := s.routes[route].keys;
    var (s', out) := Step(cfg, s, op);
    if op.route == route && op.Reserve? {
      LeastUsedPicksLeast(cfg, s, op);
    }
    if keys == [] {
      EmptyStays(cfg, s, op, route);
    } else {
      CalmStepLoad(cfg, s, op, route, 0);
      forall i, j | 0 <= i < |keys| && 0 <= j < |keys|
        ensures Load(s'.routes[route].keys[i]) <= Load(s'.routes[route].keys[j]) + 1
      {
        CalmStepLoad(cfg, s, op, route, i);
        CalmStepLoad(cfg, s, op, route, j);
        assert Load(keys[i]) <= Load(keys[j]) + 1;
      }
    }
  }

  lemma EmptyStays(cfg: Config, s: State, op: Op, route: string)
    requires route in s.routes && s.routes[route].keys == []
    ensures route in Step(cfg, s, op).0.routes && Step(cfg, s, op).0.routes[route].keys == []
  {
  }

  // ----- round robin -----

  function Reservations(ops: seq<Op>): nat {
    if ops == [] then 0
    else Reservations(ops[..|ops| - 1]) + if ops[|ops| - 1].Reserve? then 1 else 0
  }

  /** Every reservation of the run is on this route and finds all n of its keys admissible. */
  predicate AllOffered(cfg: Config, s: State, ops: seq<Op>, route: string, n: nat) {
    ops == []
    || (var (past, op) := (ops[..|ops| - 1], ops[|ops| - 1]);
        && AllOffered(cfg, s, past, route, n)
        && (op.Reserve? ==>
              && op.route == route && route in Run(cfg, s, past).routes
              && var rt := Advance(cfg, Run(cfg, s, past).routes[route], op.now);
                 |rt.keys| == n > 0 && AllAdmissible(cfg.budget, rt.keys, op.now)))
  }

  lemma RoundRobinStep(cfg: Config, s: State, op: Op)
    requires op.Reserve? && cfg.kind == RoundRobin && op.route in s.routes
    requires var rt := Advance(cfg, s.routes[op.route], op.now);
      rt.keys != [] && AllAdmissible(cfg.budget, rt.keys, op.now)
    ensures Step(cfg, s, op).1 == Leased(s.cursor % |s.routes[op.route].keys|)
    ensures Step(cfg, s, op).0.cursor == s.cursor + 1
  {
    hide Admissible, AdvanceKey, RolledStart;
    var rt := Advance(cfg, s.routes[op.route], op.now);
    CandidatesAll(cfg.budget, rt.keys, op.now, |rt.keys|);
  }

  lemma OnlyReservationsMoveTheCursor(cfg: Config, s: State, op: Op)
    requires !op.Reserve?
    ensures Step(cfg, s, op).0.cursor == s.cursor
  {
    hide AdvanceKey, SettleKey, RetireKey, RolledStart;
  }

  lemma {:induction false} CursorCounts(cfg: Config, s: State, ops: seq<Op>, route: string, n: nat)
    requires cfg.kind == RoundRobin && AllOffered(cfg, s, ops, route, n)
    ensures Run(cfg, s, ops).cursor == s.cursor + Reservations(ops)
  {
    hide Step, Advance;
    if ops != [] {
      var (past, op) := (ops[..|ops| - 1], ops[|ops| - 1]);
      CursorCounts(cfg, s, past, route, n);
      if op.Reserve? {
        RoundRobinStep(cfg, Run(cfg, s, past), op);
      } else {
        OnlyReservationsMoveTheCursor(cfg, Run(cfg, s, past), op);
      }
    }
  }

  /** Round robin hands out n admissible keys in turn: of any n consecutive reservations of a run, exactly one
      leases key i - the one whose turn it is - whatever else is called in between. */
  lemma RoundRobinTakesTurns(cfg: Config, s: State, ops: seq<Op>, route: string, n: nat, i: nat, first: nat)
    requires cfg.kind == RoundRobin && ops != [] && ops[|ops| - 1].Reserve?
    requires AllOffered(cfg, s, ops, route, n) && i < n
    requires first < Reservations(ops) <= first + n
    ensures Step(cfg, Run(cfg, s, ops[..|ops| - 1]), ops[|ops| - 1]).1 == Leased(i)
            <==> Reservations(ops) - 1 - first == Turn(s.cursor + first, n, i)
  {
    hide Step, AdvanceKey, RolledStart, Admissible;
    var past := ops[..|ops| - 1];
    CursorCounts(cfg, s, past, route, n);
    RoundRobinStep(cfg, Run(cfg, s, past), ops[|ops| - 1]);
    RoundRobinTurns(s.cursor + first, n, i, Reservations(past) - first);
  }
}
