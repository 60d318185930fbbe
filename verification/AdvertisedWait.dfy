/** The advertised wait is the truth: no key comes back before it and one has come back at its end. */
module AdvertisedWait {
  import opened KeyAccounting
  import opened RotationPolicies
  import opened StoreSpec
  import opened LazyRollover

  // ----- one key -----

  /** The instant at which a record that gets no further events can be selected. */
  function ReadyAt(cfg: Config, k: Key, start: Time, now: Time): Time {
    now + WaitFor(k, cfg.budget.window, cfg.maxRetryAfter, start, now)
  }

  /** A record as any locked path leaves it: inside its window, and capped only where there is a window. */
  predicate UpToDate(cfg: Config, k: Key, start: Time, now: Time) {
    if cfg.budget.window > 0 then now < start + cfg.budget.window else !Capped(k)
  }

  lemma KeyWaitExact(cfg: Config, k: Key, start: Time, now: Time, t: Time)
    requires now <= t && !Selectable(k, now) && UpToDate(cfg, k, start, now)
    ensures Selectable(AdvanceKey(k, cfg.leaseTimeout, cfg.budget.window, start, t), t)
            <==> ReadyAt(cfg, k, start, now) <= t
  {
    hide StaleRun;
  }

  // ----- one route -----

  function WaitOf(cfg: Config, rt: Route, now: Time, i: nat): Duration
    requires i < |rt.keys|
  {
    WaitFor(rt.keys[i], cfg.budget.window, cfg.maxRetryAfter, rt.windowStart, now)
  }

  /** The unclamped wait is the least over the route's keys, and some key attains it. */
  lemma {:induction false} LeastWaitBounds(cfg: Config, rt: Route, now: Time, n: nat)
    requires 0 < n <= |rt.keys|
    ensures forall i :: 0 <= i < n ==> LeastWait(cfg, rt, now, n) <= WaitOf(cfg, rt, now, i)
    ensures exists i :: 0 <= i < n && LeastWait(cfg, rt, now, n) == WaitOf(cfg, rt, now, i)
  {
    hide WaitFor;
    assert WaitOf(cfg, rt, now, n - 1)
        == WaitFor(rt.keys[n - 1], cfg.budget.window, cfg.maxRetryAfter, rt.windowStart, now);
    if n > 1 {
      LeastWaitBounds(cfg, rt, now, n - 1);
    }
  }

  predicate UpToDateRoute(cfg: Config, rt: Route, now: Time) {
    forall i :: 0 <= i < |rt.keys| ==> UpToDate(cfg, rt.keys[i], rt.windowStart, now)
  }

  /** With no settlement or retirement in between, the route is selectable exactly from the end of the wait on. */
  lemma RouteWaitExact(cfg: Config, rt: Route, now: Time, t: Time)
    requires now <= t && rt.keys != [] && !AnySelectable(rt.keys, now) && UpToDateRoute(cfg, rt, now)
    ensures AnySelectable(Advance(cfg, rt, t).keys, t) <==> now + LeastWait(cfg, rt, now, |rt.keys|) <= t
  {
    hide AdvanceKey, Selectable, UpToDate, WaitFor;
    LeastWaitBounds(cfg, rt, now, |rt.keys|);
    forall i | 0 <= i < |rt.keys|
      ensures Selectable(Advance(cfg, rt, t).keys[i], t) <==> now + WaitOf(cfg, rt, now, i) <= t
    {
      KeyWaitExact(cfg, rt.keys[i], rt.windowStart, now, t);
    }
    if now + LeastWait(cfg, rt, now, |rt.keys|) <= t {
      var i :| 0 <= i < |rt.keys| && LeastWait(cfg, rt, now, |rt.keys|) == WaitOf(cfg, rt, now, i);
      assert Selectable(Advance(cfg, rt, t).keys[i], t);
    }
  }

  // ----- refusals and waits agree -----

  /** At one instant, a reservation is refused as drained exactly when a wait is advertised - or when the
      route is unknown or has no keys, for which no wait is ever reported. */
  lemma RefusalMeansWait(cfg: Config, s: State, route: string, now: Time, custom: int)
    ensures Step(cfg, s, Op.Reserve(route, now, custom)).1 == Refused(Drained)
            <==> Step(cfg, s, Op.RetryAfter(route, now)).1.Wait? || route !in s.routes || s.routes[route].keys == []
  {
    hide Selectable, AdvanceKey, ViewOf, Answer, LeastWait, Clamp, Admissible, Candidates;
    if route in s.routes {
      var rt := Advance(cfg, s.routes[route], now);
      CandidatesSelectable(cfg, rt.keys, now);
    }
  }

  lemma CandidatesSelectable(cfg: Config, keys: seq<Key>, now: Time)
    ensures Candidates(cfg.budget, keys, now, |keys|) != [] ==> AnySelectable(keys, now)
  {
    hide Selectable, ViewOf, Candidates;
    var views := Candidates(cfg.budget, keys, now, |keys|);
    CandidatesSound(cfg.budget, keys, now, |keys|);
    if views != [] {
      assert Admissible(keys[views[0].index], cfg.budget, now);
      assert Selectable(keys[views[0].index], now);
    }
  }

  // ----- whole quiet periods -----

  /** Calls that neither settle nor retire. */
  predicate Quiet(ops: seq<Op>) {
    forall i :: 0 <= i < |ops| ==> ops[i].Reserve? || ops[i].RetryAfter? || ops[i].Snapshot?
  }

  predicate DrainedAt(cfg: Config, s: State, route: string, now: Time) {
    && route in s.routes && s.routes[route].keys != []
    && var rt := Advance(cfg, s.routes[route], now);
       !AnySelectable(rt.keys, now) && UpToDateRoute(cfg, rt, now)
  }

  /** The wait before clamping. */
  function TrueWait(cfg: Config, s: State, route: string, now: Time): Duration
    requires DrainedAt(cfg, s, route, now)
  {
    var rt := Advance(cfg, s.routes[route], now);
    LeastWait(cfg, rt, now, |rt.keys|)
  }

  lemma StillDrained(cfg: Config, s: State, route: string, now: Time, t: Time)
    requires DrainedAt(cfg, s, route, now) && now <= t
    ensures AnySelectable(Advance(cfg, s.routes[route], t).keys, t) <==> now + TrueWait(cfg, s, route, now) <= t
  {
    hide AdvanceKey, Selectable, UpToDate, WaitFor, Similar, RolledStart, LeastWait;
    var rt := s.routes[route];
    var mid := Advance(cfg, rt, now);
    RouteWaitExact(cfg, mid, now, t);
    AdvancedAgrees(cfg, rt, now, t);
    SelectableAlike(Advance(cfg, mid, t).keys, Advance(cfg, rt, t).keys, t);
  }

  lemma AdvancedAgrees(cfg: Config, rt: Route, now: Time, t: Time)
    requires now <= t
    ensures Agree(cfg, Advance(cfg, rt, now), rt, t)
  {
    hide Agree;
    RouteAgreesWithItself(cfg, rt, now);
    AgreeAdvanced(cfg, rt, rt, now);
    AgreeLater(cfg, Advance(cfg, rt, now), rt, now, t);
  }

  /** Through a quiet period that ends before the wait does, the drained route's record stays what it was,
      brought up to date. */
  lemma {:induction false} QuietChangesNothing(cfg: Config, s: State, ops: seq<Op>, route: string, now: Time)
    requires DrainedAt(cfg, s, route, now) && Quiet(ops) && Monotone(ops, now)
    requires Clock(ops, now) < now + TrueWait(cfg, s, route, now)
    ensures route in Run(cfg, s, ops).routes
    ensures Agree(cfg, Run(cfg, s, ops).routes[route], s.routes[route], Clock(ops, now)) && now <= Clock(ops, now)
  {
    hide Step, DrainedAt, TrueWait, Agree;
    if ops == [] {
      assert route in s.routes by { DrainedKnown(cfg, s, route, now); }
      RouteAgreesWithItself(cfg, s.routes[route], now);
    } else {
      var (past, op) := (ops[..|ops| - 1], ops[|ops| - 1]);
      QuietChangesNothing(cfg, s, past, route, now);
      DrainedKnown(cfg, s, route, now);
      AgreeLater(cfg, Run(cfg, s, past).routes[route], s.routes[route], Clock(past, now), op.now);
      StillDrained(cfg, s, route, now, op.now);
      QuietStep(cfg, Run(cfg, s, past), s.routes[route], op, route);
    }
  }

  lemma DrainedKnown(cfg: Config, s: State, route: string, now: Time)
    requires DrainedAt(cfg, s, route, now)
    ensures route in s.routes
  {
  }

  lemma QuietStep(cfg: Config, s: State, rt: Route, op: Op, route: string)
    requires op.Reserve? || op.RetryAfter? || op.Snapshot?
    requires route in s.routes && Agree(cfg, s.routes[route], rt, op.now)
    requires !AnySelectable(Advance(cfg, rt, op.now).keys, op.now)
    ensures route in Step(cfg, s, op).0.routes
    ensures Agree(cfg, Step(cfg, s, op).0.routes[route], rt, op.now)
  {
    hide Selectable, AdvanceKey, Answer, LeastWait, Clamp, ViewOf, Similar, RolledStart;
    if op.route == route {
      var a := Advance(cfg, s.routes[route], op.now);
      AgreeMeans(cfg, s.routes[route], rt, op.now);
      SelectableAlike(a.keys, Advance(cfg, rt, op.now).keys, op.now);
      CandidatesSound(cfg.budget, a.keys, op.now, |a.keys|);
      AgreeAdvanced(cfg, s.routes[route], rt, op.now);
    }
  }

  // ----- once a key is back it stays back -----

  /** Brought up to date, the key can be selected. */
  predicate Ready(cfg: Config, k: Key, start: Time, now: Time) {
    Selectable(Current(cfg, k, start, now), now)
  }

  /** Time only lifts what keeps a key out. */
  lemma ReadyLater(cfg: Config, k: Key, start: Time, now: Time, t: Time)
    requires now <= t && Ready(cfg, k, start, now)
    ensures Ready(cfg, k, start, t)
  {
    hide StaleRun;
  }

  /** Neither the passing of time nor a grant takes a key out. */
  lemma ReadyAfter(cfg: Config, k: Key, start: Time, now: Time, e: KeyEvent)
    requires Ready(cfg, k, start, now) && (e.Idle? || e.Tick? || e.Grant?)
    ensures Ready(cfg, KeyAfter(cfg, k, start, now, e).0, StartAfter(cfg, start, now, e), now)
  {
    hide StaleRun, RolledStart;
    WindowContains(cfg.budget.window, start, now);
  }

  predicate ReadyKey(cfg: Config, s: State, route: string, i: nat, now: Time) {
    && route in s.routes && i < |s.routes[route].keys|
    && Ready(cfg, s.routes[route].keys[i], s.routes[route].windowStart, now)
  }

  lemma QuietKeepsReady(cfg: Config, s: State, op: Op, route: string, i: nat, now: Time)
    requires op.Reserve? || op.RetryAfter? || op.Snapshot?
    requires ReadyKey(cfg, s, route, i, now) && now <= op.now
    ensures ReadyKey(cfg, Step(cfg, s, op).0, route, i, op.now)
  {
    hide Ready, KeyAfter, StartAfter, EventAllowed, Step;
    var rt := s.routes[route];
    ReadyLater(cfg, rt.keys[i], rt.windowStart, now, op.now);
    StepOnKey(cfg, s, op, route, i);
    ReadyAfter(cfg, rt.keys[i], rt.windowStart, op.now, EventOf(cfg, s, op, route, i));
  }

  lemma ReadyMeansSelectable(cfg: Config, s: State, route: string, now: Time)
    requires route in s.routes
    ensures AnySelectable(Advance(cfg, s.routes[route], now).keys, now)
            <==> exists i: nat :: ReadyKey(cfg, s, route, i, now)
  {
    hide Selectable, AdvanceKey, RolledStart;
    var rt := s.routes[route];
    var keys := Advance(cfg, rt, now).keys;
    if AnySelectable(keys, now) {
      var i: nat :| i < |keys| && Selectable(keys[i], now);
      assert ReadyKey(cfg, s, route, i, now);
    }
    if i: nat :| ReadyKey(cfg, s, route, i, now) {
      assert Selectable(keys[i], now);
    }
  }

  lemma BackAtTheEnd(cfg: Config, s: State, ops: seq<Op>, route: string, now: Time, t: Time)
    requires DrainedAt(cfg, s, route, now) && Quiet(ops) && Monotone(ops, now) && Clock(ops, now) <= t
    requires Clock(ops, now) < now + TrueWait(cfg, s, route, now)
    ensures route in Run(cfg, s, ops).routes
    ensures AnySelectable(Advance(cfg, Run(cfg, s, ops).routes[route], t).keys, t)
            <==> now + TrueWait(cfg, s, route, now) <= t
  {
    hide Step, DrainedAt, TrueWait, Agree;
    DrainedKnown(cfg, s, route, now);
    QuietChangesNothing(cfg, s, ops, route, now);
    var u := Run(cfg, s, ops);
    AgreeLater(cfg, u.routes[route], s.routes[route], Clock(ops, now), t);
    StillDrained(cfg, s, route, now, t);
    AgreeMeans(cfg, u.routes[route], s.routes[route], t);
    SelectableAlike(Advance(cfg, u.routes[route], t).keys, Advance(cfg, s.routes[route], t).keys, t);
  }

  /** Quiet calls that go on past the end of the wait find a key that is back, and it stays back. */
  lemma {:induction false} BackForGood(cfg: Config, s: State, ops: seq<Op>, route: string, now: Time) returns (i: nat)
    requires DrainedAt(cfg, s, route, now) && Quiet(ops) && Monotone(ops, now) && ops != []
    requires now + TrueWait(cfg, s, route, now) <= Clock(ops, now)
    ensures ReadyKey(cfg, Run(cfg, s, ops), route, i, Clock(ops, now))
  {
    hide Step, DrainedAt, TrueWait, ReadyKey, AnySelectable;
    var (past, op) := (ops[..|ops| - 1], ops[|ops| - 1]);
    var u := Run(cfg, s, past);
    WaitIsPositive(cfg, s, route, now);
    if now + TrueWait(cfg, s, route, now) <= Clock(past, now) {
      i := BackForGood(cfg, s, past, route, now);
      QuietKeepsReady(cfg, u, op, route, i, Clock(past, now));
    } else {
      BackAtTheEnd(cfg, s, past, route, now, op.now);
      ReadyMeansSelectable(cfg, u, route, op.now);
      i :| ReadyKey(cfg, u, route, i, op.now);
      QuietKeepsReady(cfg, u, op, route, i, op.now);
    }
  }

  lemma WaitIsPositive(cfg: Config, s: State, route: string, now: Time)
    requires DrainedAt(cfg, s, route, now)
    ensures TrueWait(cfg, s, route, now) > 0
  {
    hide TrueWait, UpToDateRoute, AnySelectable;
    StillDrained(cfg, s, route, now, now);
  }

  /** After a refusal as drained, and until something is settled or retired: whatever else is called meanwhile, every
      reservation before the (unclamped) wait ends is refused as drained, and none from its end on is. */
  lemma WaitIsExact(cfg: Config, s: State, ops: seq<Op>, route: string, now: Time, t: Time, custom: int)
    requires DrainedAt(cfg, s, route, now) && Quiet(ops) && Monotone(ops, now) && Clock(ops, now) <= t
    ensures Step(cfg, Run(cfg, s, ops), Op.Reserve(route, t, custom)).1 == Refused(Drained)
            <==> t < now + TrueWait(cfg, s, route, now)
  {
    hide Step, DrainedAt, TrueWait, AnySelectable, Ready;
    var u := Run(cfg, s, ops);
    if Clock(ops, now) < now + TrueWait(cfg, s, route, now) {
      BackAtTheEnd(cfg, s, ops, route, now, t);
    } else {
      WaitIsPositive(cfg, s, route, now);
      var i := BackForGood(cfg, s, ops, route, now);
      var rt := u.routes[route];
      ReadyLater(cfg, rt.keys[i], rt.windowStart, Clock(ops, now), t);
      assert ReadyKey(cfg, u, route, i, t);
      ReadyMeansSelectable(cfg, u, route, t);
    }
    DrainedIffUnselectable(cfg, u, route, t, custom);
  }

  lemma DrainedIffUnselectable(cfg: Config, s: State, route: string, t: Time, custom: int)
    requires route in s.routes
    ensures Step(cfg, s, Op.Reserve(route, t, custom)).1 == Refused(Drained)
            <==> !AnySelectable(Advance(cfg, s.routes[route], t).keys, t)
  {
    RefusalMeansWait(cfg, s, route, t, custom);
  }

  // ----- the header -----

  const SECOND: Duration := 1_000_000_000

  /** Go's integer division, which truncates toward zero. */
  function TruncDiv(a: int, b: int): int
    requires b > 0
  {
    if a >= 0 then a / b else -((-a) / b)
  }

  /** The Retry-After value in seconds: the least positive whole number that covers the wait. */
  function HeaderSeconds(wait: Duration): (secs: int)
    ensures secs >= 1 && secs * SECOND >= wait
    ensures secs > 1 ==> (secs - 1) * SECOND < wait
  {
    var q := TruncDiv(wait, SECOND);
    var secs := if wait - q * SECOND != 0 then q + 1 else q;
    if secs < 1 then 1 else secs
  }

  /** A client that obeys the header of an unclamped answer is not refused as drained again, whoever else reserves
      meanwhile, if nothing was settled or retired. */
  lemma HeaderIsTruthful(cfg: Config, s: State, ops: seq<Op>, route: string, now: Time, custom: int)
    requires DrainedAt(cfg, s, route, now) && Quiet(ops) && Monotone(ops, now)
    requires TrueWait(cfg, s, route, now) <= cfg.maxRetryAfter
    ensures Step(cfg, s, Op.RetryAfter(route, now)).1.Wait?
    ensures var back := now + HeaderSeconds(Step(cfg, s, Op.RetryAfter(route, now)).1.wait) * SECOND;
      Clock(ops, now) <= back ==> Step(cfg, Run(cfg, s, ops), Op.Reserve(route, back, custom)).1 != Refused(Drained)
  {
    hide AdvanceKey, Selectable, LeastWait, RolledStart;
    var wait := Step(cfg, s, Op.RetryAfter(route, now)).1.wait;
    assert wait >= TrueWait(cfg, s, route, now);
    var back := now + HeaderSeconds(wait) * SECOND;
    if Clock(ops, now) <= back {
      WaitIsExact(cfg, s, ops, route, now, back, custom);
    }
  }

  // ----- the premise holds in every reachable state -----

  predicate CapsNeedWindow(cfg: Config, s: State) {
    forall route :: route in s.routes ==> forall i :: 0 <= i < |s.routes[route].keys| ==>
      cfg.budget.window > 0 || !Capped(s.routes[route].keys[i])
  }

  lemma EventCapsNeedWindow(cfg: Config, k: Key, start: Time, now: Time, e: KeyEvent)
    requires cfg.budget.window > 0 || !Capped(k)
    ensures cfg.budget.window > 0 || !Capped(KeyAfter(cfg, k, start, now, e).0)
  {
    hide StaleRun, AtRatio;
  }

  lemma {:induction false} ReachableCapsNeedWindow(cfg: Config, s: State, ops: seq<Op>)
    requires CapsNeedWindow(cfg, s)
    ensures CapsNeedWindow(cfg, Run(cfg, s, ops)) && Run(cfg, s, ops).routes.Keys == s.routes.Keys
  {
    hide Step, EventOf, KeyAfter, StartAfter, EventAllowed, Capped;
    if ops != [] {
      var (past, op) := (ops[..|ops| - 1], ops[|ops| - 1]);
      ReachableCapsNeedWindow(cfg, s, past);
      var u := Run(cfg, s, past);
      StepShape(cfg, u, op);
      forall route, i | route in Step(cfg, u, op).0.routes && 0 <= i < |Step(cfg, u, op).0.routes[route].keys|
        ensures cfg.budget.window > 0 || !Capped(Step(cfg, u, op).0.routes[route].keys[i])
      {
        StepOnKey(cfg, u, op, route, i);
        var rt := u.routes[route];
        EventCapsNeedWindow(cfg, rt.keys[i], rt.windowStart, op.now, EventOf(cfg, u, op, route, i));
      }
    }
  }

  /** In every reachable state, a route whose keys are all unselectable meets the premises above. */
  lemma ReachableDrained(cfg: Config, s: State, ops: seq<Op>, route: string, now: Time)
    requires CapsNeedWindow(cfg, s) && route in s.routes
    requires route in Run(cfg, s, ops).routes && Run(cfg, s, ops).routes[route].keys != []
    requires !AnySelectable(Advance(cfg, Run(cfg, s, ops).routes[route], now).keys, now)
    ensures DrainedAt(cfg, Run(cfg, s, ops), route, now)
  {
    hide Step, StaleRun, RolledStart, AtRatio;
    ReachableCapsNeedWindow(cfg, s, ops);
    var rt := Run(cfg, s, ops).routes[route];
    WindowContains(cfg.budget.window, rt.windowStart, now);
  }

  // ----- the answer itself -----

  /** What the advertised wait w says about every reservation at t through the quiet period that follows. */
  predicate Answers(cfg: Config, u: State, route: string, now: Time, w: Duration, t: Time, custom: int) {
    var refused := Step(cfg, u, Op.Reserve(route, t, custom)).1 == Refused(Drained);
    && (SECOND < w < cfg.maxRetryAfter ==> (refused <==> t < now + w))
    && (SECOND < w == cfg.maxRetryAfter ==> t < now + w ==> refused)
    && (w == SECOND < cfg.maxRetryAfter ==> now + w <= t ==> !refused)
  }

  /** The answer, read without its computation, in every reachable state: strictly between one second and the maximum
      it is the exact instant at which reservations stop being refused as drained; at the maximum it is no later than
      that instant; at the one-second floor it is no earlier. It never leaves those bounds, and the header is the least
      whole number of seconds that covers it. */
  lemma AnswerIsExact(cfg: Config, s: State, before: seq<Op>, ops: seq<Op>, route: string, now: Time, w: Duration,
                      t: Time, custom: int)
    requires CapsNeedWindow(cfg, s) && Step(cfg, Run(cfg, s, before), Op.RetryAfter(route, now)).1 == Wait(w)
    requires Quiet(ops) && Monotone(ops, now) && Clock(ops, now) <= t
    ensures Answers(cfg, Run(cfg, Run(cfg, s, before), ops), route, now, w, t, custom)
    ensures SECOND <= w && (w <= cfg.maxRetryAfter || w == SECOND)
    ensures (HeaderSeconds(w) - 1) * SECOND < w <= HeaderSeconds(w) * SECOND
  {
    hide AdvanceKey, Selectable, LeastWait, RolledStart, Run, UpToDateRoute;
    var u := Run(cfg, s, before);
    ReachableCapsNeedWindow(cfg, s, before);
    ReachableDrained(cfg, s, before, route, now);
    WaitIsExact(cfg, u, ops, route, now, t, custom);
  }
}
