/** What a window's budget really bounds: request caps are exact, token caps bound the overshoot.

    `Spent` recounts a window's charges from the history of calls, independently of the key's own counters. */
module BudgetCaps {
  import opened Arithmetic
  import opened KeyAccounting
  import opened StoreSpec
  import opened LeaseLedger

  // ----- recounting a window's charges -----

  datatype Spend = Spend(requests: int, tokens: int)

  function Added(a: Spend, b: Spend): Spend {
    Spend(a.requests + b.requests, a.tokens + b.tokens)
  }

  /** What one event charges to its key. */
  function Charged(b: Budget, e: KeyEvent): Spend {
    if e.Close? && e.sample.outcome.Completed? then Spend(1, Charge(e.sample, b)) else Spend(0, 0)
  }

  /** What the calls charged to key i of the route while its window was the one starting at w. */
  function Spent(cfg: Config, t: Tracked, calls: seq<Call>, route: string, i: nat, w: Time): Spend {
    if calls == [] then Spend(0, 0)
    else
      var past, op := calls[..|calls| - 1], calls[|calls| - 1].op;
      var before, spent := TrackedRun(cfg, t, past), Spent(cfg, t, past, route, i, w);
      if !Known(before, route, i) then spent
      else
        var e := EventOf(cfg, before.state, op, route, i);
        if StartAfter(cfg, before.state.routes[route].windowStart, op.now, e) == w
        then Added(spent, Charged(cfg.budget, e)) else spent
  }

  /** The key's counters are the recount of its current window, and no later window has been charged. */
  ghost predicate Reconciled(cfg: Config, t: Tracked, calls: seq<Call>, route: string, i: nat) {
    var end := TrackedRun(cfg, t, calls);
    && Known(end, route, i)
    && var rt := end.state.routes[route];
       && Spend(rt.keys[i].requests, rt.keys[i].tokens) == Spent(cfg, t, calls, route, i, rt.windowStart)
       && forall w: Time :: w > rt.windowStart ==> Spent(cfg, t, calls, route, i, w) == Spend(0, 0)
  }

  /** An event changes the counters by exactly what it charges, after a reset when the window rolled. */
  lemma EventCharges(cfg: Config, k: Key, start: Time, now: Time, e: KeyEvent)
    ensures var k' := KeyAfter(cfg, k, start, now, e).0;
      Spend(k'.requests, k'.tokens)
        == Added(if Rolls(cfg, start, now, e) then Spend(0, 0) else Spend(k.requests, k.tokens),
                 Charged(cfg.budget, e))
  {
    hide AdvanceKey, SettleKey, RetireKey, WindowExpired;
    var a := Current(cfg, k, start, now);
    AdvanceCounters(k, cfg.leaseTimeout, cfg.budget.window, start, now);
    match e
    case Close(sample) => SettleCounters(a, cfg.budget, sample);
    case Park(until, reason) => RetireFrame(a, now, until, reason);
    case _ =>
  }

  lemma {:induction false} CountersReconcile(cfg: Config, t: Tracked, calls: seq<Call>, route: string, i: nat)
    requires Unused(t) && Known(t, route, i)
    ensures Reconciled(cfg, t, calls, route, i)
  {
    if calls != [] {
      var past, c := calls[..|calls| - 1], calls[|calls| - 1];
      CountersReconcile(cfg, t, past, route, i);
      CountersReconcileStep(cfg, t, calls, route, i);
    }
  }

  /** The last call adds what it charged to the window it was charged in. */
  lemma SpentLast(cfg: Config, t: Tracked, calls: seq<Call>, route: string, i: nat, w: Time)
    requires calls != [] && Known(TrackedRun(cfg, t, calls[..|calls| - 1]), route, i)
    ensures var (past, op) := (calls[..|calls| - 1], calls[|calls| - 1].op);
      var before := TrackedRun(cfg, t, past).state;
      var e := EventOf(cfg, before, op, route, i);
      Spent(cfg, t, calls, route, i, w)
        == if StartAfter(cfg, before.routes[route].windowStart, op.now, e) == w
           then Added(Spent(cfg, t, past, route, i, w), Charged(cfg.budget, e)) else Spent(cfg, t, past, route, i, w)
    ensures TrackedRun(cfg, t, calls).state
        == Step(cfg, TrackedRun(cfg, t, calls[..|calls| - 1]).state, calls[|calls| - 1].op).0
  {
    hide EventOf, StartAfter, Charged, Step, LedgersAfter;
  }

  lemma CountersReconcileStep(cfg: Config, t: Tracked, calls: seq<Call>, route: string, i: nat)
    requires calls != [] && Reconciled(cfg, t, calls[..|calls| - 1], route, i)
    ensures Reconciled(cfg, t, calls, route, i)
  {
    hide KeyAfter, StartAfter, EventOf, EventAllowed, Step, Charged, Rolls, AdvanceKey, Spent, TrackedRun;
    var past, op := calls[..|calls| - 1], calls[|calls| - 1].op;
    var before, end := TrackedRun(cfg, t, past).state, TrackedRun(cfg, t, calls).state;
    var rt, e := before.routes[route], EventOf(cfg, before, op, route, i);
    var start' := StartAfter(cfg, rt.windowStart, op.now, e);
    SpentLast(cfg, t, calls, route, i, start');
    StepOnKey(cfg, before, op, route, i);
    EventCharges(cfg, rt.keys[i], rt.windowStart, op.now, e);
    RollsForward(cfg, rt.windowStart, op.now, e);
    forall w: Time | w > start'
      ensures Spent(cfg, t, calls, route, i, w) == Spend(0, 0)
    {
      SpentLast(cfg, t, calls, route, i, w);
    }
  }

  // ----- request caps -----

  /** Settled requests, live leases and orphans together fit the cap, give or take what was reclaimed. */
  predicate WithinRequestCap(cap: int, k: Key) {
    && 0 <= k.requests && 0 <= k.orphaned <= k.reclaimed
    && k.requests + |k.leases| + k.orphaned <= cap + k.reclaimed
  }

  /** The only settlement the cap argument excludes is one nobody reserved for. */
  predicate Outstanding(k: Key) {
    |k.leases| + k.orphaned > 0
  }

  lemma EventKeepsRequestCap(cfg: Config, k: Key, start: Time, now: Time, e: KeyEvent)
    requires cfg.budget.window > 0 && cfg.budget.requests > 0
    requires WithinRequestCap(cfg.budget.requests, k) && (e.Close? ==> Outstanding(k))
    requires EventAllowed(cfg, k, start, now, e)
    ensures WithinRequestCap(cfg.budget.requests, KeyAfter(cfg, k, start, now, e).0)
  {
    hide AdvanceKey, SettleKey, RetireKey, ReclaimStale, Release, Admissible, Capped;
    var a := Current(cfg, k, start, now);
    AdvanceLeases(k, cfg.leaseTimeout, cfg.budget.window, start, now);
    AdvanceCounters(k, cfg.leaseTimeout, cfg.budget.window, start, now);
    ReclaimCounts(k, cfg.leaseTimeout, now);
    match e
    case Grant => AdmissibleHeadroom(a, cfg.budget, now);
    case Close(sample) =>
      ReleaseCounts(a);
      SettleLeases(a, cfg.budget, sample);
      SettleCounters(a, cfg.budget, sample);
    case Park(until, reason) => RetireFrame(a, now, until, reason);
    case _ =>
  }

  /** Request caps are exact over whole runs: across any number of rollovers that carry live leases, a key's
      settled and outstanding requests exceed the cap by at most the reservations ever reclaimed on it. */
  lemma {:induction false} RequestCapHolds(cfg: Config, t: Tracked, calls: seq<Call>, from: Time, route: string, i: nat)
    requires cfg.leaseTimeout > 0 && cfg.budget.window > 0 && cfg.budget.requests > 0
    requires Unused(t) && LegalRun(cfg, t, calls, from) && Known(t, route, i)
    ensures Known(TrackedRun(cfg, t, calls), route, i)
    ensures WithinRequestCap(cfg.budget.requests, TrackedRun(cfg, t, calls).state.routes[route].keys[i])
  {
    hide Step, EventOf, KeyAfter, LedgersAfter, EventAllowed, StartAfter;
    if calls != [] {
      var past, c := calls[..|calls| - 1], calls[|calls| - 1];
      RequestCapHolds(cfg, t, past, from, route, i);
      ReclamationSound(cfg, t, past, from);
      var before := TrackedRun(cfg, t, past);
      var rt := before.state.routes[route];
      StepOnKey(cfg, before.state, c.op, route, i);
      ClosesAreOutstanding(cfg, before, c, Now(past, from), route, i);
      EventKeepsRequestCap(cfg, rt.keys[i], rt.windowStart, c.op.now, EventOf(cfg, before.state, c.op, route, i));
    }
  }

  lemma ClosesAreOutstanding(cfg: Config, t: Tracked, c: Call, from: Time, route: string, i: nat)
    requires AllAccounted(cfg, t, from) && Legal(t, c) && Known(t, route, i)
    ensures EventOf(cfg, t.state, c.op, route, i).Close? ==>
      c.lease in t.ledgers[route][i].unsettled && Outstanding(t.state.routes[route].keys[i])
  {
    hide Step;
    if EventOf(cfg, t.state, c.op, route, i).Close? {
      var unsettled := t.ledgers[route][i].unsettled;
      assert c.lease in unsettled && |unsettled| > 0;
    }
  }

  /** The lifetime count of reclaimed reservations never falls. */
  lemma ReclaimedGrows(cfg: Config, k: Key, start: Time, now: Time, e: KeyEvent)
    ensures k.reclaimed <= KeyAfter(cfg, k, start, now, e).0.reclaimed
  {
    hide AtRatio;
    EventReclaims(cfg, k, start, now, e);
  }

  /** In every window of the run, past or current, the requests charged to a key exceed the cap by at most
      the reservations reclaimed on it. */
  lemma {:induction false} WindowRequestsWithinCap(cfg: Config, t: Tracked, calls: seq<Call>, from: Time,
                                                   route: string, i: nat, w: Time)
    requires cfg.leaseTimeout > 0 && cfg.budget.window > 0 && cfg.budget.requests > 0
    requires Unused(t) && LegalRun(cfg, t, calls, from) && Known(t, route, i)
    ensures Known(TrackedRun(cfg, t, calls), route, i)
    ensures Spent(cfg, t, calls, route, i, w).requests
         <= cfg.budget.requests + TrackedRun(cfg, t, calls).state.routes[route].keys[i].reclaimed
  {
    hide Step, EventOf, KeyAfter, LedgersAfter, EventAllowed, StartAfter, Charged;
    RequestCapHolds(cfg, t, calls, from, route, i);
    CountersReconcile(cfg, t, calls, route, i);
    if calls != [] {
      var past, c := calls[..|calls| - 1], calls[|calls| - 1];
      WindowRequestsWithinCap(cfg, t, past, from, route, i, w);
      var before := TrackedRun(cfg, t, past);
      var rt := before.state.routes[route];
      StepOnKey(cfg, before.state, c.op, route, i);
      ReclaimedGrows(cfg, rt.keys[i], rt.windowStart, c.op.now, EventOf(cfg, before.state, c.op, route, i));
    }
  }

  /** When every lease settles in time the cap is exact: no window of the run charges more requests than it. */
  lemma InTimeRequestsExact(cfg: Config, t: Tracked, calls: seq<Call>, from: Time, route: string, i: nat, w: Time)
    requires cfg.leaseTimeout > 0 && cfg.budget.window > 0 && cfg.budget.requests > 0
    requires Unused(t) && LegalRun(cfg, t, calls, from) && SettledInTime(cfg, t, calls) && Known(t, route, i)
    ensures Spent(cfg, t, calls, route, i, w).requests <= cfg.budget.requests
  {
    hide *;
    InTimeNeverReclaims(cfg, t, calls, from, route, i);
    WindowRequestsWithinCap(cfg, t, calls, from, route, i, w);
  }

  // ----- token caps -----

  /** How many leases a token cap admits at one instant, as the budget advisory computes it. */
  function ConcurrentLeases(tokens: int, estimate: int): (n: int)
    ensures estimate > 0 ==> (n - 1) * estimate < tokens <= n * estimate
  {
    if estimate <= 0 then 0
    else
      var x := tokens + estimate - 1;
      assert x == x / estimate * estimate + x % estimate;
      assert (x / estimate - 1) * estimate == x / estimate * estimate - estimate;
      x / estimate
  }

  /** The most a key can be charged in one window when no response charges more than m. */
  function Overshoot(b: Budget, m: int): int {
    b.tokens - 1 + m + (ConcurrentLeases(b.tokens, b.estimateTokens) - 1) * (m - b.estimateTokens)
  }

  predicate TokenCapped(b: Budget) {
    b.window > 0 && b.tokens > 0 && b.estimateTokens > 0
  }

  predicate Concurrency(b: Budget, k: Key) {
    0 <= k.tokens && |k.leases| <= ConcurrentLeases(b.tokens, b.estimateTokens)
  }

  /** Even if every live lease charged m, the window's total would stay within the overshoot bound. */
  predicate WithinOvershoot(b: Budget, m: int, k: Key) {
    k.orphaned == 0 && k.tokens + |k.leases| * m <= Overshoot(b, m)
  }

  lemma AdmissionArithmetic(b: Budget, m: int, used: int, live: nat)
    requires TokenCapped(b) && 0 <= used && used + live * b.estimateTokens < b.tokens
    ensures live + 1 <= ConcurrentLeases(b.tokens, b.estimateTokens)
    ensures b.estimateTokens <= m ==> used + (live + 1) * m <= Overshoot(b, m)
  {
    var c, e := ConcurrentLeases(b.tokens, b.estimateTokens), b.estimateTokens;
    if live >= c {
      MulMonotone(c, live, e);
    }
    if e <= m {
      MulMonotone(live, c - 1, m - e);
      assert (live + 1) * m == live * e + live * (m - e) + m;
    }
  }

  lemma EventKeepsConcurrency(cfg: Config, k: Key, start: Time, now: Time, e: KeyEvent)
    requires TokenCapped(cfg.budget) && Concurrency(cfg.budget, k) && EventAllowed(cfg, k, start, now, e)
    requires e.Close? ==> 0 <= Charge(e.sample, cfg.budget)
    ensures Concurrency(cfg.budget, KeyAfter(cfg, k, start, now, e).0)
  {
    hide AdvanceKey, SettleKey, RetireKey, ReclaimStale, Release, Admissible, Capped, ConcurrentLeases, Charge;
    var a := Current(cfg, k, start, now);
    AdvanceLeases(k, cfg.leaseTimeout, cfg.budget.window, start, now);
    AdvanceCounters(k, cfg.leaseTimeout, cfg.budget.window, start, now);
    ReclaimCounts(k, cfg.leaseTimeout, now);
    match e
    case Grant =>
      AdmissibleHeadroom(a, cfg.budget, now);
      AdmissionArithmetic(cfg.budget, 0, a.tokens, |a.leases|);
    case Close(sample) =>
      ReleaseCounts(a);
      SettleLeases(a, cfg.budget, sample);
      SettleCounters(a, cfg.budget, sample);
    case Park(until, reason) => RetireFrame(a, now, until, reason);
    case _ =>
  }

  lemma EventKeepsOvershoot(cfg: Config, k: Key, start: Time, now: Time, e: KeyEvent, m: int)
    requires TokenCapped(cfg.budget) && cfg.budget.estimateTokens <= m
    requires 0 <= k.tokens && WithinOvershoot(cfg.budget, m, k) && EventAllowed(cfg, k, start, now, e)
    requires e.Close? ==> Outstanding(k) && Charge(e.sample, cfg.budget) <= m
    requires KeyAfter(cfg, k, start, now, e).0.reclaimed == k.reclaimed
    ensures WithinOvershoot(cfg.budget, m, KeyAfter(cfg, k, start, now, e).0)
  {
    hide AdvanceKey, SettleKey, RetireKey, ReclaimStale, Release, Admissible, Capped,
         Overshoot, ConcurrentLeases, Charge;
    var a := Current(cfg, k, start, now);
    AdvanceLeases(k, cfg.leaseTimeout, cfg.budget.window, start, now);
    AdvanceCounters(k, cfg.leaseTimeout, cfg.budget.window, start, now);
    ReclaimCounts(k, cfg.leaseTimeout, now);
    match e
    case Grant =>
      AdmissibleHeadroom(a, cfg.budget, now);
      AdmissionArithmetic(cfg.budget, m, a.tokens, |a.leases|);
    case Close(sample) =>
      ReleaseCounts(a);
      SettleLeases(a, cfg.budget, sample);
      SettleCounters(a, cfg.budget, sample);
      assert (|a.leases| - 1) * m == |a.leases| * m - m;
    case Park(until, reason) => RetireFrame(a, now, until, reason);
    case _ =>
  }

  /** No settlement of the run charges more than m. */
  predicate ChargesAtMost(b: Budget, calls: seq<Call>, m: int) {
    forall j :: 0 <= j < |calls| && calls[j].op.Settle? ==> Charge(Normalised(calls[j].op.sample), b) <= m
  }

  lemma ClosedCharge(cfg: Config, t: Tracked, c: Call, route: string, i: nat)
    requires cfg.budget.estimateTokens >= 0 && Known(t, route, i)
    ensures var e := EventOf(cfg, t.state, c.op, route, i);
      e.Close? ==> 0 <= Charge(e.sample, cfg.budget) && c.op.Settle? && e.sample == Normalised(c.op.sample)
  {
    hide Step;
  }

  /** A token cap never has more than ceil(tokens / estimate) leases in flight on one key. */
  lemma {:induction false} InFlightBounded(cfg: Config, t: Tracked, calls: seq<Call>, route: string, i: nat)
    requires TokenCapped(cfg.budget) && Unused(t) && Known(t, route, i)
    ensures Known(TrackedRun(cfg, t, calls), route, i)
    ensures Concurrency(cfg.budget, TrackedRun(cfg, t, calls).state.routes[route].keys[i])
  {
    hide Step, EventOf, KeyAfter, LedgersAfter, EventAllowed, StartAfter, Charge, Normalised;
    if calls != [] {
      var past, c := calls[..|calls| - 1], calls[|calls| - 1];
      InFlightBounded(cfg, t, past, route, i);
      var before := TrackedRun(cfg, t, past);
      var rt := before.state.routes[route];
      StepOnKey(cfg, before.state, c.op, route, i);
      ClosedCharge(cfg, before, c, route, i);
      EventKeepsConcurrency(cfg, rt.keys[i], rt.windowStart, c.op.now, EventOf(cfg, before.state, c.op, route, i));
    }
  }

  lemma {:induction false} OvershootHolds(cfg: Config, t: Tracked, calls: seq<Call>, from: Time, route: string,
                                          i: nat, m: int)
    requires cfg.leaseTimeout > 0 && TokenCapped(cfg.budget) && cfg.budget.estimateTokens <= m
    requires Unused(t) && LegalRun(cfg, t, calls, from) && ChargesAtMost(cfg.budget, calls, m) && Known(t, route, i)
    requires Known(TrackedRun(cfg, t, calls), route, i)
    requires TrackedRun(cfg, t, calls).state.routes[route].keys[i].reclaimed == 0
    ensures WithinOvershoot(cfg.budget, m, TrackedRun(cfg, t, calls).state.routes[route].keys[i])
  {
    hide Step, EventOf, KeyAfter, LedgersAfter, EventAllowed, StartAfter, Charge, Normalised, Overshoot;
    if calls == [] {
      EmptyWithinOvershoot(cfg.budget, m);
    } else {
      var past, c := calls[..|calls| - 1], calls[|calls| - 1];
      InFlightBounded(cfg, t, past, route, i);
      ReclamationSound(cfg, t, past, from);
      var before := TrackedRun(cfg, t, past);
      var rt := before.state.routes[route];
      var e := EventOf(cfg, before.state, c.op, route, i);
      StepOnKey(cfg, before.state, c.op, route, i);
      ReclaimedGrows(cfg, rt.keys[i], rt.windowStart, c.op.now, e);
      assert Accounted(rt.keys[i], before.ledgers[route][i], cfg.leaseTimeout, Now(past, from));
      OvershootHolds(cfg, t, past, from, route, i, m);
      ClosedCharge(cfg, before, c, route, i);
      ClosesAreOutstanding(cfg, before, c, Now(past, from), route, i);
      EventKeepsOvershoot(cfg, rt.keys[i], rt.windowStart, c.op.now, e, m);
    }
  }

  lemma EmptyWithinOvershoot(b: Budget, m: int)
    requires TokenCapped(b) && b.estimateTokens <= m
    ensures 0 <= Overshoot(b, m)
  {
    AdmissionArithmetic(b, m, 0, 0);
  }

  /** In every window of a run that reclaims nothing on the key, the tokens charged to it stay within
      T-1 + M + (C-1)(M-E), for cap T, estimate E, largest charge M and C = ceil(T/E). */
  lemma {:induction false} WindowTokensWithinOvershoot(
    cfg: Config, t: Tracked, calls: seq<Call>, from: Time, route: string, i: nat, m: int, w: Time)
    requires cfg.leaseTimeout > 0 && TokenCapped(cfg.budget) && cfg.budget.estimateTokens <= m
    requires Unused(t) && LegalRun(cfg, t, calls, from) && ChargesAtMost(cfg.budget, calls, m) && Known(t, route, i)
    requires Known(TrackedRun(cfg, t, calls), route, i)
    requires TrackedRun(cfg, t, calls).state.routes[route].keys[i].reclaimed == 0
    ensures Spent(cfg, t, calls, route, i, w).tokens <= Overshoot(cfg.budget, m)
  {
    hide Step, EventOf, KeyAfter, LedgersAfter, EventAllowed, StartAfter, Charge, Charged, Normalised, Overshoot;
    OvershootHolds(cfg, t, calls, from, route, i, m);
    CountersReconcile(cfg, t, calls, route, i);
    EmptyWithinOvershoot(cfg.budget, m);
    MulNonNegative(|TrackedRun(cfg, t, calls).state.routes[route].keys[i].leases|, m);
    if calls != [] {
      var past, c := calls[..|calls| - 1], calls[|calls| - 1];
      InFlightBounded(cfg, t, past, route, i);
      ReclamationSound(cfg, t, past, from);
      var before := TrackedRun(cfg, t, past);
      var rt := before.state.routes[route];
      StepOnKey(cfg, before.state, c.op, route, i);
      ReclaimedGrows(cfg, rt.keys[i], rt.windowStart, c.op.now, EventOf(cfg, before.state, c.op, route, i));
      assert Accounted(rt.keys[i], before.ledgers[route][i], cfg.leaseTimeout, Now(past, from));
      WindowTokensWithinOvershoot(cfg, t, past, from, route, i, m, w);
    }
  }
}
