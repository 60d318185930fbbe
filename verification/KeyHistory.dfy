/** A key's whole standing told from the history of calls: charges, failures, retirements and unsettled leases decide
    every reservation and every snapshot, and nothing else does. */
module KeyHistory {
  import opened Options
  import opened Arithmetic
  import opened KeyAccounting
  import opened RotationPolicies
  import opened StoreSpec
  import opened LeaseLedger
  import opened BudgetCaps
  import opened CapFlags
  import opened StoreAnswers

  // ----- deadlines -----

  const FIVE_MINUTES: Duration := 300_000_000_000

  /** The instant a call asks the key to be left alone until: the one it names or, for a quota signal, the end of the
      window, or five minutes on where there is none. `end` is the route after the call. */
  function Demand(cfg: Config, op: Op, end: Route, route: string, i: nat): Option<Time> {
    if op.route != route then None
    else
      match op
      case Retire(_, _, idx, until, _) => if idx == i then Some(until) else None
      case RetireForWindow(_, now, idx, _) =>
        if idx != i then None
        else Some(if cfg.budget.window > 0 then end.windowStart + cfg.budget.window else now + FIVE_MINUTES)
      case _ => None
  }

  /** Some call of the run asked for the key to be left alone until after `at`. */
  predicate Demanded(cfg: Config, t: Tracked, calls: seq<Call>, route: string, i: nat, at: Time) {
    calls != [] &&
    var (past, end) := (calls[..|calls| - 1], TrackedRun(cfg, t, calls).state);
    || Demanded(cfg, t, past, route, i, at)
    || (&& route in end.routes
        && var d := Demand(cfg, calls[|calls| - 1].op, end.routes[route], route, i);
           d.Some? && at < d.value)
  }

  predicate Ahead(k: Key, at: Time) {
    k.retiredUntil.Some? && at < k.retiredUntil.value
  }

  /** An event leaves ahead what was ahead, and what it demands; it emits its reason exactly if the key was not out. */
  lemma EventDeadline(cfg: Config, k: Key, start: Time, now: Time, e: KeyEvent, at: Time)
    requires now <= at
    ensures var (k', events) := KeyAfter(cfg, k, start, now, e);
      && (Ahead(k', at) <==> Ahead(k, at) || (e.Park? && at < e.until))
      && (e.Park? ==> events == if now < e.until && !Ahead(k, now) then [e.reason] else [])
  {
    hide SettleKey, StaleRun, RolledStart;
    if e.Close? {
      SettleLeases(Current(cfg, k, start, now), cfg.budget, e.sample);
    }
  }

  lemma DemandIsPark(cfg: Config, s: State, op: Op, route: string, i: nat)
    requires route in s.routes && i < |s.routes[route].keys|
    ensures route in Step(cfg, s, op).0.routes
    ensures var e := EventOf(cfg, s, op, route, i);
      Demand(cfg, op, Step(cfg, s, op).0.routes[route], route, i) == if e.Park? then Some(e.until) else None
  {
    hide KeyAfter, EventAllowed, Step;
    StepOnKey(cfg, s, op, route, i);
  }

  /** A key is out on a deadline at `at` exactly if some call of the run asked for a later instant: retirements only
      extend, nothing but time lifts them, and nothing else sets them. */
  lemma {:induction false} DeadlinesFromHistory(cfg: Config, t: Tracked, calls: seq<Call>, from: Time, route: string,
                                                i: nat, at: Time)
    requires Unused(t) && LegalRun(cfg, t, calls, from) && Known(t, route, i) && Now(calls, from) <= at
    ensures Known(TrackedRun(cfg, t, calls), route, i)
    ensures Ahead(TrackedRun(cfg, t, calls).state.routes[route].keys[i], at)
            <==> Demanded(cfg, t, calls, route, i, at)
  {
    hide Step, EventOf, KeyAfter, LedgersAfter, EventAllowed, StartAfter, Ahead, Demand;
    if calls == [] {
      assert !Ahead(FRESH_KEY, at) by { FreshIsFree(at); }
    } else {
      var past, c := calls[..|calls| - 1], calls[|calls| - 1];
      DeadlinesFromHistory(cfg, t, past, from, route, i, at);
      var before := TrackedRun(cfg, t, past).state;
      var rt := before.routes[route];
      StepOnKey(cfg, before, c.op, route, i);
      DemandIsPark(cfg, before, c.op, route, i);
      EventDeadline(cfg, rt.keys[i], rt.windowStart, c.op.now, EventOf(cfg, before, c.op, route, i), at);
    }
  }

  /** After a quota signal no instant before the end of the window finds the key without a deadline ahead. */
  lemma QuotaParks(cfg: Config, t: Tracked, past: seq<Call>, from: Time, c: Call, route: string, i: nat, at: Time)
    requires Unused(t) && LegalRun(cfg, t, past, from) && Known(t, route, i) && cfg.budget.window > 0
    requires c.op == Op.RetireForWindow(route, c.op.now, i, Quota) && Now(past, from) <= c.op.now <= at
    ensures var end := TrackedStep(cfg, TrackedRun(cfg, t, past), c);
      && Known(end, route, i)
      && (at < end.state.routes[route].windowStart + cfg.budget.window ==> Ahead(end.state.routes[route].keys[i], at))
  {
    hide TrackedStep, Ahead, Demanded, LegalRun, TrackedRun, Unused;
    var calls := past + [c];
    OneMoreCall(cfg, t, past, from, c);
    DeadlinesFromHistory(cfg, t, calls, from, route, i, at);
    if at < TrackedRun(cfg, t, calls).state.routes[route].windowStart + cfg.budget.window {
      LastDemand(cfg, t, past, c, route, i, at);
    }
  }

  lemma OneMoreCall(cfg: Config, t: Tracked, past: seq<Call>, from: Time, c: Call)
    requires LegalRun(cfg, t, past, from) && Now(past, from) <= c.op.now && !c.op.Settle?
    ensures LegalRun(cfg, t, past + [c], from) && Now(past + [c], from) == c.op.now
    ensures TrackedRun(cfg, t, past + [c]) == TrackedStep(cfg, TrackedRun(cfg, t, past), c)
  {
    hide TrackedStep;
    assert (past + [c])[..|past|] == past;
  }

  lemma LastDemand(cfg: Config, t: Tracked, past: seq<Call>, c: Call, route: string, i: nat, at: Time)
    requires c.op == Op.RetireForWindow(route, c.op.now, i, Quota) && cfg.budget.window > 0
    requires var end := TrackedRun(cfg, t, past + [c]).state;
      route in end.routes && at < end.routes[route].windowStart + cfg.budget.window
    ensures Demanded(cfg, t, past + [c], route, i, at)
  {
    hide TrackedRun;
    assert (past + [c])[|past|] == c;
  }

  lemma FreshIsFree(at: Time)
    ensures !Ahead(FRESH_KEY, at)
  {
  }

  /** A retirement event is emitted exactly by a call that asks for a later instant while no earlier one did. */
  lemma RetireEventExact(cfg: Config, t: Tracked, calls: seq<Call>, from: Time, route: string, i: nat)
    requires Unused(t) && LegalRun(cfg, t, calls, from) && Known(t, route, i) && calls != []
    requires var op := calls[|calls| - 1].op; (op.Retire? || op.RetireForWindow?) && op.route == route && op.idx == i
    ensures var (past, op) := (calls[..|calls| - 1], calls[|calls| - 1].op);
      Step(cfg, TrackedRun(cfg, t, past).state, op).1
        == Emitted(if && Demanded(cfg, t, calls, route, i, op.now) && !Demanded(cfg, t, past, route, i, op.now)
                   then [if op.reason == NoReason then Quota else op.reason] else [])
  {
    hide Step, KeyAfter, LedgersAfter, EventAllowed, StartAfter, Ahead, Demand;
    var past, c := calls[..|calls| - 1], calls[|calls| - 1];
    var before := TrackedRun(cfg, t, past).state;
    DeadlinesFromHistory(cfg, t, past, from, route, i, c.op.now);
    var rt := before.routes[route];
    StepOnKey(cfg, before, c.op, route, i);
    DemandIsPark(cfg, before, c.op, route, i);
    EventDeadline(cfg, rt.keys[i], rt.windowStart, c.op.now, EventOf(cfg, before, c.op, route, i), c.op.now);
  }

  // ----- one key, brought up to date -----

  /** The window of the route that contains `now`. */
  function WindowAt(cfg: Config, t: Tracked, calls: seq<Call>, route: string, now: Time): Time
    requires route in TrackedRun(cfg, t, calls).state.routes
  {
    RolledStart(cfg.budget.window, TrackedRun(cfg, t, calls).state.routes[route].windowStart, now)
  }

  /** The slots of the key still taken at `now`: every unsettled lease but those given up for lost. */
  function Live(cfg: Config, t: Tracked, calls: seq<Call>, route: string, i: nat, now: Time): nat {
    var end := TrackedRun(cfg, t, calls);
    if !Known(end, route, i) then 0
    else |Current(cfg, end.state.routes[route].keys[i], end.state.routes[route].windowStart, now).leases|
  }

  /** How many leases of the key nobody has settled. */
  function Unsettled(cfg: Config, t: Tracked, calls: seq<Call>, route: string, i: nat): nat {
    var ledgers := TrackedRun(cfg, t, calls).ledgers;
    if route in ledgers && i < |ledgers[route]| then |ledgers[route][i].unsettled| else 0
  }

  /** What the history alone says: the key may be leased at `now`. */
  predicate MayLease(cfg: Config, t: Tracked, calls: seq<Call>, route: string, i: nat, now: Time)
    requires route in TrackedRun(cfg, t, calls).state.routes
  {
    var (b, live) := (cfg.budget, Live(cfg, t, calls, route, i, now));
    var spent := Spent(cfg, t, calls, route, i, WindowAt(cfg, t, calls, route, now));
    && !Demanded(cfg, t, calls, route, i, now)
    && !NearlyExhausted(b, spent)
    && (b.window > 0 && b.requests > 0 ==> spent.requests + live < b.requests)
    && (b.window > 0 && b.tokens > 0 ==> spent.tokens + live * b.estimateTokens < b.tokens)
  }

  lemma CurrentCounters(cfg: Config, t: Tracked, calls: seq<Call>, route: string, i: nat, now: Time)
    requires Checked(cfg.budget) && Unused(t) && Known(t, route, i)
    ensures Known(TrackedRun(cfg, t, calls), route, i)
    ensures var rt := TrackedRun(cfg, t, calls).state.routes[route];
      var (k, w) := (Current(cfg, rt.keys[i], rt.windowStart, now), WindowAt(cfg, t, calls, route, now));
      && Counted(k) == Spent(cfg, t, calls, route, i, w)
      && (k.softRetired <==> NearlyExhausted(cfg.budget, Spent(cfg, t, calls, route, i, w)))
      && (k.drained <==> Exhausted(cfg.budget, Spent(cfg, t, calls, route, i, w)))
  {
    hide NearlyExhausted, Exhausted, Spent, TrackedRun, AdvanceKey, WindowExpired, RolledStart;
    CountersReconcile(cfg, t, calls, route, i);
    FlagsFollowCounters(cfg, t, calls, route, i);
    var rt := TrackedRun(cfg, t, calls).state.routes[route];
    AdvanceFlags(rt.keys[i], cfg.leaseTimeout, cfg.budget, rt.windowStart, now);
    AdvanceCounters(rt.keys[i], cfg.leaseTimeout, cfg.budget.window, rt.windowStart, now);
    WindowContains(cfg.budget.window, rt.windowStart, now);
    RollsForward(cfg, rt.windowStart, now, Tick);
  }

  /** How many of the key's unsettled leases have outlived the timeout. */
  function Late(cfg: Config, t: Tracked, calls: seq<Call>, route: string, i: nat, now: Time): nat {
    var ledgers := TrackedRun(cfg, t, calls).ledgers;
    if route in ledgers && i < |ledgers[route]| then |Overdue(ledgers[route][i], cfg.leaseTimeout, now)| else 0
  }

  /** Live slots are the unsettled leases, short of at most those that are late. */
  lemma LiveLeases(cfg: Config, t: Tracked, calls: seq<Call>, from: Time, route: string, i: nat, now: Time)
    requires cfg.leaseTimeout > 0 && Unused(t) && LegalRun(cfg, t, calls, from) && Now(calls, from) <= now
    requires Known(TrackedRun(cfg, t, calls), route, i)
    ensures var (live, unsettled) := (Live(cfg, t, calls, route, i, now), Unsettled(cfg, t, calls, route, i));
      unsettled - Late(cfg, t, calls, route, i, now) <= live <= unsettled
  {
    hide TrackedRun, AdvanceKey, RolledStart;
    ReclamationSound(cfg, t, calls, from);
    var end := TrackedRun(cfg, t, calls);
    var rt := end.state.routes[route];
    AdvanceKeeps(rt.keys[i], end.ledgers[route][i], cfg.leaseTimeout, cfg.budget.window, rt.windowStart,
                 Now(calls, from), now);
  }

  lemma CurrentAhead(cfg: Config, k: Key, start: Time, now: Time)
    ensures Ahead(Current(cfg, k, start, now), now) <==> Ahead(k, now)
  {
    hide StaleRun, RolledStart;
  }

  lemma FreeMeans(k: Key, now: Time)
    ensures Free(k, now) <==> !k.drained && !k.softRetired && !Ahead(k, now)
  {
  }

  lemma LeasableFromHistory(cfg: Config, t: Tracked, calls: seq<Call>, from: Time, route: string, i: nat, now: Time)
    requires Checked(cfg.budget) && Unused(t) && Known(t, route, i)
    requires LegalRun(cfg, t, calls, from) && Now(calls, from) <= now
    ensures Known(TrackedRun(cfg, t, calls), route, i)
    ensures var rt := TrackedRun(cfg, t, calls).state.routes[route];
      Leasable(Current(cfg, rt.keys[i], rt.windowStart, now), cfg.budget, now)
      <==> MayLease(cfg, t, calls, route, i, now)
  {
    hide NearlyExhausted, Exhausted, Spent, TrackedRun, AdvanceKey, RolledStart, Demanded, Ahead, Free;
    DeadlinesFromHistory(cfg, t, calls, from, route, i, now);
    CurrentCounters(cfg, t, calls, route, i, now);
    var rt := TrackedRun(cfg, t, calls).state.routes[route];
    var k := Current(cfg, rt.keys[i], rt.windowStart, now);
    assert Live(cfg, t, calls, route, i, now) == |k.leases|;
    CurrentAhead(cfg, rt.keys[i], rt.windowStart, now);
    FreeMeans(k, now);
    ExhaustedIsNearly(cfg.budget, Counted(k));
  }

  // ----- every reservation -----

  /** After any legal run of an unused store, a reservation is granted exactly if some key satisfies `MayLease`: no
      retirement asked for a later instant, what the current window was charged is below the soft share of every limit,
      and with the live leases it leaves room for one more. `LiveLeases` says how many those are. */
  lemma AdmissionFromHistory(cfg: Config, t: Tracked, calls: seq<Call>, from: Time, op: Op)
    requires Checked(cfg.budget) && Unused(t) && LegalRun(cfg, t, calls, from)
    requires op.Reserve? && op.route in t.state.routes && Now(calls, from) <= op.now
    ensures op.route in TrackedRun(cfg, t, calls).state.routes
    ensures var (out, n) := (Step(cfg, TrackedRun(cfg, t, calls).state, op).1, |t.state.routes[op.route].keys|);
      && (out.Leased? <==> exists i: nat :: i < n && MayLease(cfg, t, calls, op.route, i, op.now))
      && (out.Leased? ==> out.idx < n && MayLease(cfg, t, calls, op.route, out.idx, op.now))
  {
    hide TrackedRun, Leasable, MayLease, AdvanceKey, RolledStart, Demanded, Step, LegalRun, Unused;
    RunKeepsShape(cfg, t, calls);
    var end, n := TrackedRun(cfg, t, calls).state, |t.state.routes[op.route].keys|;
    var keys := Advance(cfg, end.routes[op.route], op.now).keys;
    forall i: nat | i < n
      ensures Leasable(keys[i], cfg.budget, op.now) <==> MayLease(cfg, t, calls, op.route, i, op.now)
    {
      LeasableFromHistory(cfg, t, calls, from, op.route, i, op.now);
    }
    LeasedMeans(cfg, end, op);
  }

  lemma LeasedMeans(cfg: Config, s: State, op: Op)
    requires op.Reserve? && op.route in s.routes
    ensures var (keys, out) := (Advance(cfg, s.routes[op.route], op.now).keys, Step(cfg, s, op).1);
      && (out.Leased? <==> exists i: nat :: i < |keys| && Leasable(keys[i], cfg.budget, op.now))
      && (out.Leased? ==> out.idx < |keys| && Leasable(keys[out.idx], cfg.budget, op.now))
  {
    hide Step, Free, Roomy, AdvanceKey, RolledStart;
    ReserveExact(cfg, s, op);
    var keys := Advance(cfg, s.routes[op.route], op.now).keys;
    if i :| 0 <= i < |keys| && Free(keys[i], op.now) && Roomy(keys[i], cfg.budget) {
      assert Leasable(keys[i], cfg.budget, op.now);
    }
  }

  lemma {:induction false} RunKeepsShape(cfg: Config, t: Tracked, calls: seq<Call>)
    ensures var (s, s') := (t.state, TrackedRun(cfg, t, calls).state);
      s'.routes.Keys == s.routes.Keys && forall r :: r in s.routes ==> |s'.routes[r].keys| == |s.routes[r].keys|
  {
    hide Step, LedgersAfter;
    if calls != [] {
      RunKeepsShape(cfg, t, calls[..|calls| - 1]);
      StepShape(cfg, TrackedRun(cfg, t, calls[..|calls| - 1]).state, calls[|calls| - 1].op);
    }
  }

  // ----- failures and guesses -----

  datatype Marks = Marks(errors: nat, estimated: bool)

  /** What one call adds to a key's marks: a failed settlement is an error, a completed one without a token count is an
      estimate. */
  function Marked(op: Op, route: string, i: nat, m: Marks): Marks {
    if !(op.Settle? && op.route == route && op.idx == i) then m
    else if op.sample.outcome.Failed? then Marks(m.errors + 1, m.estimated)
    else Marks(m.errors, m.estimated || op.sample.tokens < 0)
  }

  /** The marks the calls left on key i of the route while its window was the one starting at w. */
  function MarksIn(cfg: Config, t: Tracked, calls: seq<Call>, route: string, i: nat, w: Time): Marks {
    if calls == [] then Marks(0, false)
    else
      var (past, end) := (calls[..|calls| - 1], TrackedRun(cfg, t, calls).state);
      var m := MarksIn(cfg, t, past, route, i, w);
      if route !in end.routes || end.routes[route].windowStart != w then m
      else Marked(calls[|calls| - 1].op, route, i, m)
  }

  ghost predicate MarksReconciled(cfg: Config, t: Tracked, calls: seq<Call>, route: string, i: nat) {
    var end := TrackedRun(cfg, t, calls);
    && Known(end, route, i)
    && var rt := end.state.routes[route];
       && (rt.keys[i].errors, rt.keys[i].estimated) == MarksPair(MarksIn(cfg, t, calls, route, i, rt.windowStart))
       && forall w: Time :: w > rt.windowStart ==> MarksIn(cfg, t, calls, route, i, w) == Marks(0, false)
  }

  function MarksPair(m: Marks): (int, bool) {
    (m.errors, m.estimated)
  }

  /** What an event does to a key's marks, after a reset when the window rolled. */
  lemma EventMarks(cfg: Config, k: Key, start: Time, now: Time, e: KeyEvent)
    ensures var (k', rolls) := (KeyAfter(cfg, k, start, now, e).0, Rolls(cfg, start, now, e));
      var (errors, estimated) := (if rolls then 0 else k.errors, !rolls && k.estimated);
      && k'.errors == errors + (if e.Close? && e.sample.outcome.Failed? then 1 else 0)
      && k'.estimated == (estimated || (e.Close? && e.sample.outcome.Completed? && e.sample.tokens == TOKENS_UNKNOWN))
  {
    hide AdvanceKey, SettleKey, RetireKey, WindowExpired;
    var a := Current(cfg, k, start, now);
    AdvanceMarks(k, cfg.leaseTimeout, cfg.budget.window, start, now);
    match e
    case Close(sample) => SettleMarks(a, cfg.budget, sample);
    case Park(until, reason) => RetireFrame(a, now, until, reason);
    case _ =>
  }

  lemma AdvanceMarks(k: Key, timeout: Duration, window: Duration, start: Time, now: Time)
    ensures var (a, over) := (AdvanceKey(k, timeout, window, start, now), WindowExpired(window, start, now));
      a.errors == (if over then 0 else k.errors) && a.estimated == (!over && k.estimated)
  {
    hide StaleRun, InForce;
  }

  lemma SettleMarks(k: Key, b: Budget, s: Sample)
    ensures var k' := SettleKey(k, b, s).0;
      && k'.errors == k.errors + (if s.outcome.Failed? then 1 else 0)
      && k'.estimated == (k.estimated || (s.outcome.Completed? && s.tokens == TOKENS_UNKNOWN))
  {
    hide AtHardCap, AtSoftCap, Charge;
  }

  /** An event marks its key as the call that caused it does. */
  lemma MarkedByClose(cfg: Config, s: State, op: Op, route: string, i: nat, m: Marks)
    requires route in s.routes && i < |s.routes[route].keys|
    ensures var (e, m') := (EventOf(cfg, s, op, route, i), Marked(op, route, i, m));
      && m'.errors == m.errors + (if e.Close? && e.sample.outcome.Failed? then 1 else 0)
      && m'.estimated
         == (m.estimated || (e.Close? && e.sample.outcome.Completed? && e.sample.tokens == TOKENS_UNKNOWN))
  {
    hide Step;
  }

  /** A key's error count and its estimated mark are the recount of its current window. */
  lemma {:induction false} MarksReconcile(cfg: Config, t: Tracked, calls: seq<Call>, route: string, i: nat)
    requires Unused(t) && Known(t, route, i)
    ensures MarksReconciled(cfg, t, calls, route, i)
  {
    if calls != [] {
      MarksReconcile(cfg, t, calls[..|calls| - 1], route, i);
      MarksReconcileStep(cfg, t, calls, route, i);
    }
  }

  lemma MarksReconcileStep(cfg: Config, t: Tracked, calls: seq<Call>, route: string, i: nat)
    requires calls != [] && MarksReconciled(cfg, t, calls[..|calls| - 1], route, i)
    ensures MarksReconciled(cfg, t, calls, route, i)
  {
    hide Step, EventOf, KeyAfter, LedgersAfter, EventAllowed, StartAfter, Marked, Rolls, TrackedRun, MarksIn;
    var past, op := calls[..|calls| - 1], calls[|calls| - 1].op;
    var before, end := TrackedRun(cfg, t, past).state, TrackedRun(cfg, t, calls).state;
    var rt, e := before.routes[route], EventOf(cfg, before, op, route, i);
    StepOnKey(cfg, before, op, route, i);
    MarksLast(cfg, t, calls, route, i, StartAfter(cfg, rt.windowStart, op.now, e));
    var start' := end.routes[route].windowStart;
    RollsForward(cfg, rt.windowStart, op.now, e);
    EventMarks(cfg, rt.keys[i], rt.windowStart, op.now, e);
    MarkedByClose(cfg, before, op, route, i, MarksIn(cfg, t, past, route, i, start'));
    forall w: Time | w > start'
      ensures MarksIn(cfg, t, calls, route, i, w) == Marks(0, false)
    {
      MarksLast(cfg, t, calls, route, i, w);
    }
  }

  lemma MarksLast(cfg: Config, t: Tracked, calls: seq<Call>, route: string, i: nat, w: Time)
    requires calls != []
    ensures var (past, op, end) := (calls[..|calls| - 1], calls[|calls| - 1].op, TrackedRun(cfg, t, calls).state);
      var m := MarksIn(cfg, t, past, route, i, w);
      MarksIn(cfg, t, calls, route, i, w)
        == if route in end.routes && end.routes[route].windowStart == w then Marked(op, route, i, m) else m
    ensures TrackedRun(cfg, t, calls).state
        == Step(cfg, TrackedRun(cfg, t, calls[..|calls| - 1]).state, calls[|calls| - 1].op).0
  {
    hide Step, LedgersAfter, Marked;
  }

  // ----- every snapshot -----

  /** A snapshot reports, for every key in order, what the history says of it. */
  lemma SnapshotFromHistory(cfg: Config, t: Tracked, calls: seq<Call>, from: Time, route: string, now: Time, i: nat)
    requires Checked(cfg.budget) && Unused(t) && LegalRun(cfg, t, calls, from) && Known(t, route, i)
    requires Now(calls, from) <= now
    ensures Known(TrackedRun(cfg, t, calls), route, i)
    ensures var out := Step(cfg, TrackedRun(cfg, t, calls).state, Op.Snapshot(route, now)).1;
      var w := WindowAt(cfg, t, calls, route, now);
      var (spent, marks) := (Spent(cfg, t, calls, route, i, w), MarksIn(cfg, t, calls, route, i, w));
      && out.Views? && |out.views| == |t.state.routes[route].keys|
      && var v := out.views[i];
         && v.index == i && Spend(v.requests, v.tokens) == spent && (v.errors, v.estimated) == MarksPair(marks)
         && (v.softRetired <==> NearlyExhausted(cfg.budget, spent))
         && (v.drained <==> Exhausted(cfg.budget, spent))
         && (v.selectable <==> !NearlyExhausted(cfg.budget, spent) && !Demanded(cfg, t, calls, route, i, now))
         && (v.reason == NoReason <==> v.selectable) && (v.reason == Cap <== NearlyExhausted(cfg.budget, spent))
         && v.inFlight == Live(cfg, t, calls, route, i, now)
  {
    hide NearlyExhausted, Exhausted, Spent, MarksIn, TrackedRun, AdvanceKey, RolledStart, Demanded, Ahead, Free;
    RunKeepsShape(cfg, t, calls);
    DeadlinesFromHistory(cfg, t, calls, from, route, i, now);
    CurrentCounters(cfg, t, calls, route, i, now);
    CurrentMarks(cfg, t, calls, route, i, now);
    var rt := TrackedRun(cfg, t, calls).state.routes[route];
    var k := Current(cfg, rt.keys[i], rt.windowStart, now);
    CurrentAhead(cfg, rt.keys[i], rt.windowStart, now);
    FreeMeans(k, now);
    LeasableIsAdmissible(k, cfg.budget, now);
    ReasonMeans(k, now);
    ExhaustedIsNearly(cfg.budget, Counted(k));
  }

  lemma CurrentMarks(cfg: Config, t: Tracked, calls: seq<Call>, route: string, i: nat, now: Time)
    requires Unused(t) && Known(t, route, i)
    ensures Known(TrackedRun(cfg, t, calls), route, i)
    ensures var rt := TrackedRun(cfg, t, calls).state.routes[route];
      var (k, w) := (Current(cfg, rt.keys[i], rt.windowStart, now), WindowAt(cfg, t, calls, route, now));
      (k.errors, k.estimated) == MarksPair(MarksIn(cfg, t, calls, route, i, w))
  {
    hide MarksIn, TrackedRun, StaleRun, RolledStart;
    MarksReconcile(cfg, t, calls, route, i);
    var rt := TrackedRun(cfg, t, calls).state.routes[route];
    RollsForward(cfg, rt.windowStart, now, Tick);
  }

  /** A retirement that outlasts every earlier one gives an uncapped key its reason, until its deadline. */
  lemma LatestReasonShows(cfg: Config, k: Key, start: Time, now: Time, until: Time, reason: Reason, at: Time)
    requires now <= at < until && !Ahead(k, until - 1) && reason != NoReason
    ensures var k' := KeyAfter(cfg, k, start, now, Park(until, reason)).0;
      ReasonAt(k', at) == if k'.drained || k'.softRetired then Cap else reason
  {
    hide StaleRun, RolledStart;
  }

  lemma ReasonMeans(k: Key, now: Time)
    ensures ReasonAt(k, now) == NoReason <==> Free(k, now)
    ensures k.drained || k.softRetired ==> ReasonAt(k, now) == Cap
  {
  }

  // ----- charges, windows and stamps -----

  /** A call charges a key only by completing a lease on it: one request, and the reported tokens, or the estimate
      where none were reported. */
  lemma ChargesPlainly(cfg: Config, s: State, op: Op, route: string, i: nat)
    requires route in s.routes && i < |s.routes[route].keys|
    ensures Charged(cfg.budget, EventOf(cfg, s, op, route, i))
        == if op.Settle? && op.route == route && op.idx == i && op.sample.outcome.Completed?
           then Spend(1, if op.sample.tokens < 0 then cfg.budget.estimateTokens else op.sample.tokens)
           else Spend(0, 0)
  {
    hide Step;
  }

  lemma MultiplesAdd(a: int, b: int, w: int)
    requires w > 0 && a % w == 0 && b % w == 0
    ensures (a + b) % w == 0
  {
    assert a + b == (a / w + b / w) * w;
    DivModUnique(a + b, w, a / w + b / w, 0);
  }

  lemma RolledAligned(window: Duration, start: Time, now: Time)
    requires window > 0
    ensures (RolledStart(window, start, now) - start) % window == 0
  {
    if WindowExpired(window, start, now) {
      var q := (now - start) / window;
      DivModUnique(q * window, window, q, 0);
    }
  }

  lemma AlignedOn(window: Duration, first: Time, start: Time, now: Time)
    requires window > 0 && (start - first) % window == 0
    ensures (RolledStart(window, start, now) - first) % window == 0
  {
    hide RolledStart;
    RolledAligned(window, start, now);
    MultiplesAdd(start - first, RolledStart(window, start, now) - start, window);
    assert RolledStart(window, start, now) - first == (start - first) + (RolledStart(window, start, now) - start);
  }

  lemma {:induction false} StartsTile(cfg: Config, t: Tracked, calls: seq<Call>, route: string)
    requires cfg.budget.window > 0 && route in t.state.routes
    ensures route in TrackedRun(cfg, t, calls).state.routes
    ensures var (first, rt) := (t.state.routes[route].windowStart, TrackedRun(cfg, t, calls).state.routes[route]);
      (rt.windowStart - first) % cfg.budget.window == 0
  {
    hide Step, LedgersAfter, RolledStart;
    if calls != [] {
      var past, op := calls[..|calls| - 1], calls[|calls| - 1].op;
      StartsTile(cfg, t, past, route);
      var before := TrackedRun(cfg, t, past).state;
      StepStart(cfg, before, op, route);
      AlignedOn(cfg.budget.window, t.state.routes[route].windowStart, before.routes[route].windowStart, op.now);
    }
  }

  /** Windows tile time: each begins a whole number of windows after the first and the latest contains the clock. */
  lemma WindowsTile(cfg: Config, t: Tracked, calls: seq<Call>, route: string, now: Time)
    requires cfg.budget.window > 0 && route in t.state.routes
    ensures route in TrackedRun(cfg, t, calls).state.routes
    ensures var w := WindowAt(cfg, t, calls, route, now);
      && (w - t.state.routes[route].windowStart) % cfg.budget.window == 0
      && now < w + cfg.budget.window
      && (TrackedRun(cfg, t, calls).state.routes[route].windowStart <= now ==> w <= now)
  {
    hide TrackedRun, RolledStart;
    StartsTile(cfg, t, calls, route);
    var rt := TrackedRun(cfg, t, calls).state.routes[route];
    AlignedOn(cfg.budget.window, t.state.routes[route].windowStart, rt.windowStart, now);
    WindowContains(cfg.budget.window, rt.windowStart, now);
  }

  lemma StepStart(cfg: Config, s: State, op: Op, route: string)
    requires route in s.routes
    ensures route in Step(cfg, s, op).0.routes
    ensures var (a, b) := (s.routes[route].windowStart, Step(cfg, s, op).0.routes[route].windowStart);
      b == a || b == RolledStart(cfg.budget.window, a, op.now)
  {
    hide RolledStart, AdvanceKey, SettleKey, RetireKey, LeastWait, Clamp, AnySelectable, Answer, ViewOf;
  }

  /** Once a route is brought up to date no live stamp on it has outlived the timeout. */
  lemma NothingStaleStays(cfg: Config, t: Tracked, calls: seq<Call>, from: Time, route: string, i: nat, now: Time)
    requires cfg.leaseTimeout > 0 && Unused(t) && LegalRun(cfg, t, calls, from) && Now(calls, from) <= now
    requires Known(TrackedRun(cfg, t, calls), route, i)
    ensures var rt := TrackedRun(cfg, t, calls).state.routes[route];
      forall s :: s in Current(cfg, rt.keys[i], rt.windowStart, now).leases ==> now < s + cfg.leaseTimeout
  {
    hide TrackedRun, RolledStart, LegalRun, Rolled;
    ReclamationSound(cfg, t, calls, from);
    var end := TrackedRun(cfg, t, calls);
    var k, l := end.state.routes[route].keys[i], end.ledgers[route][i];
    assert Accounted(k, l, cfg.leaseTimeout, Now(calls, from));
    AdvanceLeases(k, cfg.leaseTimeout, cfg.budget.window, end.state.routes[route].windowStart, now);
    var n := StaleRun(k.leases, now - cfg.leaseTimeout);
    forall j | n <= j < |k.leases|
      ensures now < k.leases[j] + cfg.leaseTimeout
    {
      var at := |l.stamps| - |k.leases|;
      assert l.stamps[at + n] == k.leases[n] && l.stamps[at + j] == k.leases[j];
    }
  }
}
