/** When a key is soft-retired and when it is drained, told from the history of charges alone. */
module CapFlags {
  import opened KeyAccounting
  import opened StoreSpec
  import opened LeaseLedger
  import opened BudgetCaps
  import opened Retirement

  // ----- the thresholds -----

  /** The charges have reached a positive limit in full; without a window nothing is limited. */
  predicate Exhausted(b: Budget, s: Spend) {
    b.window > 0 && ((b.requests > 0 && s.requests >= b.requests) || (b.tokens > 0 && s.tokens >= b.tokens))
  }

  /** The charges have reached the soft share of a positive limit. */
  predicate NearlyExhausted(b: Budget, s: Spend) {
    && b.window > 0
    && (|| (b.requests > 0 && s.requests as real >= b.softRatio * b.requests as real)
        || (b.tokens > 0 && s.tokens as real >= b.softRatio * b.tokens as real))
  }

  /** What every store runs with and configuration loading checks: a soft share of at most all, and a token limit only
      beside an estimate that is not negative. */
  predicate Checked(b: Budget) {
    0.0 < b.softRatio <= 1.0 && (b.tokens > 0 ==> b.estimateTokens >= 0)
  }

  /** The charge is one the token limit, if there is one, can be compared with. */
  predicate Chargeable(b: Budget, charge: int) {
    b.tokens > 0 ==> 0 <= charge
  }

  lemma ScaledLimit(ratio: real, limit: int)
    requires 0.0 < ratio <= 1.0 && limit > 0
    ensures 0.0 < ratio * limit as real <= limit as real
  {
    var x := limit as real;
    assert x * (1.0 - ratio) >= 0.0;
  }

  lemma ExhaustedIsNearly(b: Budget, s: Spend)
    requires Checked(b)
    ensures Exhausted(b, s) ==> NearlyExhausted(b, s)
    ensures !NearlyExhausted(b, Spend(0, 0))
  {
    if b.requests > 0 {
      ScaledLimit(b.softRatio, b.requests);
    }
    if b.tokens > 0 {
      ScaledLimit(b.softRatio, b.tokens);
    }
  }

  lemma StaysReached(b: Budget, s: Spend, s': Spend)
    requires s.requests <= s'.requests && (b.tokens > 0 ==> s.tokens <= s'.tokens)
    ensures Exhausted(b, s) ==> Exhausted(b, s')
    ensures NearlyExhausted(b, s) ==> NearlyExhausted(b, s')
  {
  }

  // ----- one event -----

  function Counted(k: Key): Spend {
    Spend(k.requests, k.tokens)
  }

  predicate FlagsExact(b: Budget, k: Key) {
    (k.softRetired <==> NearlyExhausted(b, Counted(k))) && (k.drained <==> Exhausted(b, Counted(k)))
  }

  lemma AdvanceFlags(k: Key, timeout: Duration, b: Budget, start: Time, now: Time)
    requires Checked(b) && FlagsExact(b, k)
    ensures FlagsExact(b, AdvanceKey(k, timeout, b.window, start, now))
  {
    hide StaleRun, NearlyExhausted, Exhausted;
    ExhaustedIsNearly(b, Spend(0, 0));
    assert AdvanceKey(k, timeout, b.window, start, now).requests == k.requests || WindowExpired(b.window, start, now);
  }

  /** Charges only grow within a window, so a threshold once reached stays reached. */
  lemma SettleFlags(k: Key, b: Budget, s: Sample)
    requires Checked(b) && FlagsExact(b, k) && Chargeable(b, Charge(s, b))
    ensures FlagsExact(b, SettleKey(k, b, s).0)
  {
    hide SettleKey, NearlyExhausted, Exhausted;
    var k' := SettleKey(k, b, s).0;
    SettleCounters(k, b, s);
    SettleRaises(k, b, s);
    ExhaustedIsNearly(b, Counted(k'));
    StaysReached(b, Counted(k), Counted(k'));
  }

  lemma SettleRaises(k: Key, b: Budget, s: Sample)
    requires Checked(b)
    ensures var k' := SettleKey(k, b, s).0;
      if s.outcome.Failed? then k'.softRetired == k.softRetired && k'.drained == k.drained
      else && k'.softRetired == (k.softRetired || Exhausted(b, Counted(k')) || NearlyExhausted(b, Counted(k')))
           && k'.drained == (k.drained || Exhausted(b, Counted(k')))
  {
    hide Charge;
  }

  lemma EventKeepsFlags(cfg: Config, k: Key, start: Time, now: Time, e: KeyEvent)
    requires Checked(cfg.budget) && FlagsExact(cfg.budget, k)
    requires e.Close? ==> Chargeable(cfg.budget, Charge(e.sample, cfg.budget))
    ensures FlagsExact(cfg.budget, KeyAfter(cfg, k, start, now, e).0)
  {
    hide AdvanceKey, SettleKey, RetireKey, Charge, NearlyExhausted, Exhausted;
    var a := Current(cfg, k, start, now);
    AdvanceFlags(k, cfg.leaseTimeout, cfg.budget, start, now);
    match e
    case Close(sample) => SettleFlags(a, cfg.budget, sample);
    case Park(until, reason) => RetireFrame(a, now, until, reason);
    case _ =>
  }

  // ----- every run -----

  lemma {:induction false} FlagsFollowCounters(cfg: Config, t: Tracked, calls: seq<Call>, route: string, i: nat)
    requires Checked(cfg.budget) && Unused(t) && Known(t, route, i)
    ensures Known(TrackedRun(cfg, t, calls), route, i)
    ensures FlagsExact(cfg.budget, TrackedRun(cfg, t, calls).state.routes[route].keys[i])
  {
    hide Step, EventOf, KeyAfter, LedgersAfter, EventAllowed, StartAfter, Charge, Normalised, NearlyExhausted;
    if calls == [] {
      ExhaustedIsNearly(cfg.budget, Spend(0, 0));
    } else {
      var past, c := calls[..|calls| - 1], calls[|calls| - 1];
      FlagsFollowCounters(cfg, t, past, route, i);
      var before := TrackedRun(cfg, t, past);
      var rt := before.state.routes[route];
      StepOnKey(cfg, before.state, c.op, route, i);
      if cfg.budget.tokens > 0 {
        ClosedCharge(cfg, before, c, route, i);
      }
      EventKeepsFlags(cfg, rt.keys[i], rt.windowStart, c.op.now, EventOf(cfg, before.state, c.op, route, i));
    }
  }

  /** After every run from an unused store, a key is soft-retired exactly if what its current window was charged has
      reached the soft share of a positive limit, and drained exactly if it has reached one in full. */
  lemma CapsAreExact(cfg: Config, t: Tracked, calls: seq<Call>, route: string, i: nat)
    requires Checked(cfg.budget) && Unused(t) && Known(t, route, i)
    ensures Known(TrackedRun(cfg, t, calls), route, i)
    ensures var rt := TrackedRun(cfg, t, calls).state.routes[route];
      var spent := Spent(cfg, t, calls, route, i, rt.windowStart);
      && (rt.keys[i].softRetired <==> NearlyExhausted(cfg.budget, spent))
      && (rt.keys[i].drained <==> Exhausted(cfg.budget, spent))
  {
    hide NearlyExhausted, Exhausted, Spent, TrackedRun;
    FlagsFollowCounters(cfg, t, calls, route, i);
    CountersReconcile(cfg, t, calls, route, i);
  }

  /** The settlement that carries a window's charges over the soft share emits one cap event, and no other does. */
  lemma CapEventExact(cfg: Config, t: Tracked, calls: seq<Call>, route: string, i: nat)
    requires Checked(cfg.budget) && Unused(t) && Known(t, route, i) && calls != []
    requires calls[|calls| - 1].op.Settle? && calls[|calls| - 1].op.route == route && calls[|calls| - 1].op.idx == i
    ensures Known(TrackedRun(cfg, t, calls), route, i)
    ensures var (past, op) := (calls[..|calls| - 1], calls[|calls| - 1].op);
      var w := TrackedRun(cfg, t, calls).state.routes[route].windowStart;
      Step(cfg, TrackedRun(cfg, t, past).state, op).1
        == Emitted(if && NearlyExhausted(cfg.budget, Spent(cfg, t, calls, route, i, w))
                      && !NearlyExhausted(cfg.budget, Spent(cfg, t, past, route, i, w)) then [Cap] else [])
  {
    hide NearlyExhausted, Exhausted, Spent, TrackedRun, Step, KeyAfter, EventAllowed, Charge, Normalised, StartAfter,
         Rolls;
    var past, op := calls[..|calls| - 1], calls[|calls| - 1].op;
    CapsAreExact(cfg, t, calls, route, i);
    CapsAreExact(cfg, t, past, route, i);
    CountersReconcile(cfg, t, past, route, i);
    var before := TrackedRun(cfg, t, past).state;
    var rt, e := before.routes[route], EventOf(cfg, before, op, route, i);
    SpentLast(cfg, t, calls, route, i, rt.windowStart);
    StepOnKey(cfg, before, op, route, i);
    EventEmitsCap(cfg, rt.keys[i], rt.windowStart, op.now, e);
    RollsForward(cfg, rt.windowStart, op.now, e);
    ExhaustedIsNearly(cfg.budget, Spent(cfg, t, calls, route, i, StartAfter(cfg, rt.windowStart, op.now, e)));
    ExhaustedIsNearly(cfg.budget, Spent(cfg, t, past, route, i, rt.windowStart));
  }
}
