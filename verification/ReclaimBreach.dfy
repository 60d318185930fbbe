/** The one way past an exact request cap, shown as a run of the store: a lease reclaimed while its request is in fact
    still running is granted again, and both settle in one window. */
module ReclaimBreach {
  import opened Arithmetic
  import opened KeyAccounting
  import opened StoreSpec
  import opened LeaseLedger
  import opened BudgetCaps
  import opened KeyBalance

  // ----- on one key -----

  /** A lease that outlives the timeout is reclaimed by the next call, which may then grant its slot again. */
  lemma ReclaimReadmits(cfg: Config, timeout: Duration)
    requires 0 < timeout == cfg.leaseTimeout && cfg.budget == Budget(2 * timeout, 0, 1, 1.0, 0)
    ensures var k1 := KeyAfter(cfg, FRESH_KEY, 0, 0, Grant).0;
      && EventAllowed(cfg, FRESH_KEY, 0, 0, Grant)
      && EventAllowed(cfg, k1, 0, timeout, Grant)
      && KeyAfter(cfg, k1, 0, timeout, Grant).0 == FRESH_KEY.(leases := [timeout], orphaned := 1, reclaimed := 1)
  {
    var k1 := FRESH_KEY.(leases := [0]);
    AdvanceFresh(cfg, timeout);
    assert EventAllowed(cfg, k1, 0, timeout, Grant);
  }

  lemma AdvanceFresh(cfg: Config, timeout: Duration)
    requires 0 < timeout == cfg.leaseTimeout && cfg.budget.window == 2 * timeout
    ensures Current(cfg, FRESH_KEY, 0, 0) == FRESH_KEY
    ensures Current(cfg, FRESH_KEY.(leases := [0]), 0, timeout) == FRESH_KEY.(orphaned := 1, reclaimed := 1)
  {
    assert StaleRun([0], 0) == 1 by { assert [0][1..] == []; }
  }

  /** If the reclaimed request was in fact still running the cap is breached: with a cap of one, both leases
      settle in one window. */
  lemma ReclaimCostsExactness(cfg: Config, timeout: Duration, s: Sample)
    requires 0 < timeout == cfg.leaseTimeout && cfg.budget == Budget(2 * timeout, 0, 1, 1.0, 0)
    requires s.outcome == Completed
    ensures var k2 := KeyAfter(cfg, KeyAfter(cfg, FRESH_KEY, 0, 0, Grant).0, 0, timeout, Grant).0;
      var k3 := KeyAfter(cfg, k2, 0, timeout, Close(s)).0;
      var k4 := KeyAfter(cfg, k3, 0, timeout, Close(s)).0;
      k4.requests == 2 > cfg.budget.requests
  {
    hide SettleKey, AdvanceKey;
    ReclaimReadmits(cfg, timeout);
    var k2 := FRESH_KEY.(leases := [timeout], orphaned := 1, reclaimed := 1);
    AdvanceCounters(k2, timeout, 2 * timeout, 0, timeout);
    SettleCounters(Current(cfg, k2, 0, timeout), cfg.budget, s);
    var k3 := KeyAfter(cfg, k2, 0, timeout, Close(s)).0;
    AdvanceCounters(k3, timeout, 2 * timeout, 0, timeout);
    SettleCounters(Current(cfg, k3, 0, timeout), cfg.budget, s);
  }

  // ----- on the store -----

  /** The route has one key, in this condition. */
  predicate OneKey(t: Tracked, route: string, start: Time, k: Key, l: Ledger) {
    && Aligned(t) && route in t.state.routes && t.state.routes[route] == Route([k], start)
    && t.ledgers[route] == [l]
  }

  lemma Reserves(cfg: Config, t: Tracked, route: string, start: Time, k: Key, l: Ledger, now: Time, custom: int)
    requires OneKey(t, route, start, k, l) && EventAllowed(cfg, k, start, now, Grant)
    ensures OneKey(TrackedStep(cfg, t, Call(Op.Reserve(route, now, custom), 0)), route,
                   StartAfter(cfg, start, now, Grant),
                   KeyAfter(cfg, k, start, now, Grant).0, Reserved(l, now))
  {
    hide Step, KeyAfter, StartAfter, Admissible, AdvanceKey, RolledStart;
    var c := Call(Op.Reserve(route, now, custom), 0);
    LeasesExactlyTheAdmissible(cfg, t.state, c.op);
    assert Advance(cfg, t.state.routes[route], now).keys[0] == Current(cfg, k, start, now);
    StepOnKey(cfg, t.state, c.op, route, 0);
    StepShape(cfg, t.state, c.op);
    OneLedger(cfg, t, c, route);
  }

  lemma Settles(cfg: Config, t: Tracked, route: string, start: Time, k: Key, l: Ledger, now: Time, s: Sample,
                lease: nat)
    requires OneKey(t, route, start, k, l) && Normalised(s) == s
    ensures OneKey(TrackedStep(cfg, t, Call(Op.Settle(route, now, 0, s), lease)), route,
                   StartAfter(cfg, start, now, Close(s)),
                   KeyAfter(cfg, k, start, now, Close(s)).0, Closed(l, lease))
  {
    hide Step, KeyAfter, StartAfter, EventAllowed;
    var c := Call(Op.Settle(route, now, 0, s), lease);
    StepOnKey(cfg, t.state, c.op, route, 0);
    StepShape(cfg, t.state, c.op);
    OneLedger(cfg, t, c, route);
  }

  lemma OneLedger(cfg: Config, t: Tracked, c: Call, route: string)
    requires Aligned(t) && route in t.state.routes && |t.state.routes[route].keys| == 1
    ensures var t' := TrackedStep(cfg, t, c);
      && Aligned(t')
      && t'.ledgers[route]
         == [LedgerAfter(t.ledgers[route][0], c.op.now, EventOf(cfg, t.state, c.op, route, 0), c.lease)]
  {
    hide Step, EventOf, LedgerAfter;
    StepShape(cfg, t.state, c.op);
  }

  lemma Extends(cfg: Config, t: Tracked, calls: seq<Call>, c: Call, from: Time)
    ensures TrackedRun(cfg, t, calls + [c]) == TrackedStep(cfg, TrackedRun(cfg, t, calls), c)
    ensures LegalRun(cfg, t, calls + [c], from)
            <==> LegalRun(cfg, t, calls, from) && Now(calls, from) <= c.op.now && Legal(TrackedRun(cfg, t, calls), c)
  {
    hide TrackedStep, Legal;
    assert (calls + [c])[..|calls|] == calls;
  }

  /** From a new store with a cap of one: reserve, wait out the timeout, reserve again, and let both requests end. The
      run is legal, and its one window is charged two requests. */
  lemma CapExceeded(cfg: Config, t: Tracked, route: string, timeout: Duration, s: Sample, custom: int)
    returns (calls: seq<Call>)
    requires 0 < timeout == cfg.leaseTimeout && cfg.budget == Budget(2 * timeout, 0, 1, 1.0, 0)
    requires Unused(t) && OneKey(t, route, 0, FRESH_KEY, Ledger([], {}))
    requires s.outcome == Completed && Normalised(s) == s
    ensures LegalRun(cfg, t, calls, 0) && Spent(cfg, t, calls, route, 0, 0).requests == 2 > cfg.budget.requests
  {
    hide TrackedStep, TrackedRun, LegalRun, KeyAfter, Spent, Legal, StartAfter, EventAllowed, Unused;
    ReclaimReadmits(cfg, timeout);
    ReclaimCostsExactness(cfg, timeout, s);
    SameWindow(cfg, timeout, s);
    var c1, c2 := Call(Op.Reserve(route, 0, custom), 0), Call(Op.Reserve(route, timeout, custom), 0);
    var c3, c4 := Call(Op.Settle(route, timeout, 0, s), 0), Call(Op.Settle(route, timeout, 0, s), 1);
    var k1 := KeyAfter(cfg, FRESH_KEY, 0, 0, Grant).0;
    var k2 := KeyAfter(cfg, k1, 0, timeout, Grant).0;
    var k3 := KeyAfter(cfg, k2, 0, timeout, Close(s)).0;
    var l2 := Reserved(Reserved(Ledger([], {}), 0), timeout);
    assert TrackedRun(cfg, t, []) == t && LegalRun(cfg, t, [], 0) by { Starts(cfg, t); }
    Reserves(cfg, t, route, 0, FRESH_KEY, Ledger([], {}), 0, custom);
    Extends(cfg, t, [], c1, 0);
    ReservationsLegal(t, c1);
    var t1 := TrackedRun(cfg, t, [] + [c1]);
    Reserves(cfg, t1, route, 0, k1, Reserved(Ledger([], {}), 0), timeout, custom);
    Extends(cfg, t, [] + [c1], c2, 0);
    ReservationsLegal(t1, c2);
    var t2 := TrackedRun(cfg, t, [] + [c1] + [c2]);
    Settles(cfg, t2, route, 0, k2, l2, timeout, s, 0);
    Extends(cfg, t, [] + [c1] + [c2], c3, 0);
    SettlementLegal(t2, c3, k2, l2, 0);
    var t3 := TrackedRun(cfg, t, [] + [c1] + [c2] + [c3]);
    Settles(cfg, t3, route, 0, k3, Closed(l2, 0), timeout, s, 1);
    Extends(cfg, t, [] + [c1] + [c2] + [c3], c4, 0);
    SettlementLegal(t3, c4, k3, Closed(l2, 0), 0);
    calls := [] + [c1] + [c2] + [c3] + [c4];
    CountersReconcile(cfg, t, calls, route, 0);
  }

  lemma Starts(cfg: Config, t: Tracked)
    ensures TrackedRun(cfg, t, []) == t && LegalRun(cfg, t, [], 0)
  {
  }

  lemma ReservationsLegal(t: Tracked, c: Call)
    requires c.op.Reserve?
    ensures Legal(t, c)
  {
  }

  lemma SettlementLegal(t: Tracked, c: Call, k: Key, l: Ledger, start: Time)
    requires c.op.Settle? && OneKey(t, c.op.route, start, k, l) && c.op.idx == 0 && c.lease in l.unsettled
    ensures Legal(t, c)
  {
  }

  /** None of the four calls leaves the first window. */
  lemma SameWindow(cfg: Config, timeout: Duration, s: Sample)
    requires 0 < timeout == cfg.leaseTimeout && cfg.budget.window == 2 * timeout
    ensures StartAfter(cfg, 0, 0, Grant) == StartAfter(cfg, 0, timeout, Grant)
            == StartAfter(cfg, 0, timeout, Close(s)) == 0
  {
  }
}
