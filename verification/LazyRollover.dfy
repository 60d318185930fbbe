/** Windows roll and stale leases are reclaimed only when somebody calls, and nobody can tell.

    Two stores are compared that saw the same calls except for some observers (`Snapshot`, `RetryAfter`):
    every other answer agrees, because advancing twice amounts to advancing once. The one trace an observer
    leaves is a retirement deadline that has already expired. */
module LazyRollover {
  import opened Arithmetic
  import opened Options
  import opened KeyAccounting
  import opened RotationPolicies
  import opened StoreSpec

  // ----- records that agree up to an expired deadline -----

  function Bare(k: Key): Key {
    k.(retiredUntil := None, retireReason := NoReason)
  }

  predicate Similar(k: Key, j: Key, now: Time) {
    Bare(k) == Bare(j) && (InForce(k, now) || InForce(j, now) ==> k == j)
  }

  predicate SimilarKeys(ks: seq<Key>, js: seq<Key>, now: Time) {
    |ks| == |js| && forall i :: 0 <= i < |ks| ==> Similar(ks[i], js[i], now)
  }

  predicate SimilarRoutes(a: Route, b: Route, now: Time) {
    a.windowStart == b.windowStart && SimilarKeys(a.keys, b.keys, now)
  }

  // ----- advancing twice is advancing once -----

  lemma {:induction false} StaleRunSplits(stamps: seq<Time>, c1: Time, c2: Time)
    requires c1 <= c2
    ensures StaleRun(stamps, c2) == StaleRun(stamps, c1) + StaleRun(stamps[StaleRun(stamps, c1)..], c2)
  {
    if stamps != [] && stamps[0] <= c1 {
      StaleRunSplits(stamps[1..], c1, c2);
      var n := StaleRun(stamps[1..], c1);
      assert stamps[1..][n..] == stamps[n + 1..];
    } else {
      assert stamps[0..] == stamps;
    }
  }

  /** The oldest n stamps given up for lost. */
  function Orphaned(k: Key, n: nat): Key
    requires n <= |k.leases|
  {
    k.(leases := k.leases[n..], orphaned := k.orphaned + n, reclaimed := k.reclaimed + n)
  }

  lemma OrphanedTwice(k: Key, n: nat, m: nat)
    requires n + m <= |k.leases|
    ensures Orphaned(Orphaned(k, n), m) == Orphaned(k, n + m)
  {
    assert k.leases[n..][m..] == k.leases[n + m..];
  }

  lemma ReclaimOrphans(k: Key, timeout: Duration, now: Time)
    requires timeout > 0
    ensures ReclaimStale(k, timeout, now) == Orphaned(k, StaleRun(k.leases, now - timeout))
  {
  }

  lemma ReclaimTwice(k: Key, timeout: Duration, t1: Time, t2: Time)
    requires t1 <= t2
    ensures ReclaimStale(ReclaimStale(k, timeout, t1), timeout, t2) == ReclaimStale(k, timeout, t2)
  {
    hide StaleRun;
    if timeout > 0 {
      hide ReclaimStale;
      var n := StaleRun(k.leases, t1 - timeout);
      var k1 := Orphaned(k, n);
      StaleRunSplits(k.leases, t1 - timeout, t2 - timeout);
      ReclaimOrphans(k, timeout, t1);
      ReclaimOrphans(k, timeout, t2);
      ReclaimOrphans(k1, timeout, t2);
      OrphanedTwice(k, n, StaleRun(k1.leases, t2 - timeout));
    }
  }

  /** Rolling the window in two stages lands on the same boundary. */
  lemma RolledStartTwice(window: Duration, start: Time, t1: Time, t2: Time)
    requires t1 <= t2
    ensures RolledStart(window, RolledStart(window, start, t1), t2) == RolledStart(window, start, t2)
    ensures WindowExpired(window, start, t1) || WindowExpired(window, RolledStart(window, start, t1), t2)
            <==> WindowExpired(window, start, t2)
  {
    if WindowExpired(window, start, t1) {
      var q, mid := (t1 - start) / window, RolledStart(window, start, t1);
      var d := t2 - mid;
      assert t2 - start == q * window + d;
      if d >= window {
        assert d == d / window * window + d % window;
        assert (q + d / window) * window == q * window + d / window * window;
        DivModUnique(t2 - start, window, q + d / window, d % window);
      } else {
        DivModUnique(t2 - start, window, q, d);
      }
    }
  }

  /** Reclamation and rollover act on different fields, so they commute. */
  lemma RollCommutes(k: Key, timeout: Duration, t1: Time, t2: Time)
    ensures ReclaimStale(Rolled(k, t1), timeout, t2) == Rolled(ReclaimStale(k, timeout, t2), t1)
  {
    hide StaleRun;
  }

  lemma RollTwice(k: Key, t1: Time, t2: Time)
    requires t1 <= t2
    ensures Similar(Rolled(k, t1), Rolled(k, t2), t2) && Rolled(Rolled(k, t1), t2) == Rolled(k, t2)
  {
  }

  lemma AdvanceTwice(k: Key, timeout: Duration, window: Duration, start: Time, t1: Time, t2: Time)
    requires t1 <= t2
    ensures Similar(AdvanceKey(AdvanceKey(k, timeout, window, start, t1), timeout, window,
                               RolledStart(window, start, t1), t2),
                    AdvanceKey(k, timeout, window, start, t2), t2)
  {
    hide StaleRun, ReclaimStale, Rolled, Similar, WindowExpired, RolledStart;
    var r1, r2 := ReclaimStale(k, timeout, t1), ReclaimStale(k, timeout, t2);
    ReclaimTwice(k, timeout, t1, t2);
    RolledStartTwice(window, start, t1, t2);
    RollCommutes(r1, timeout, t1, t2);
    RollTwice(r2, t1, t2);
    SimilarItself(r2, t2);
    SimilarItself(Rolled(r2, t2), t2);
  }

  lemma SimilarItself(k: Key, now: Time)
    ensures Similar(k, k, now)
  {
  }

  lemma AdvanceRespects(k: Key, j: Key, timeout: Duration, window: Duration, start: Time, t1: Time, t2: Time)
    requires t1 <= t2 && Similar(k, j, t1)
    ensures Similar(AdvanceKey(k, timeout, window, start, t2), AdvanceKey(j, timeout, window, start, t2), t2)
  {
    hide ReclaimStale, WindowExpired;
    ReclaimRespects(k, j, timeout, t1, t2);
  }

  lemma ReclaimRespects(k: Key, j: Key, timeout: Duration, t1: Time, t2: Time)
    requires t1 <= t2 && Similar(k, j, t1)
    ensures Similar(ReclaimStale(k, timeout, t2), ReclaimStale(j, timeout, t2), t2)
  {
    hide StaleRun;
    assert k.leases == j.leases && k.orphaned == j.orphaned && k.reclaimed == j.reclaimed;
  }

  // ----- the relation every operation keeps -----

  /** Brought up to date, the two records agree. */
  predicate Agree(cfg: Config, a: Route, b: Route, now: Time) {
    SimilarRoutes(Advance(cfg, a, now), Advance(cfg, b, now), now)
  }

  lemma AgreeLater(cfg: Config, a: Route, b: Route, t1: Time, t2: Time)
    requires t1 <= t2 && Agree(cfg, a, b, t1)
    ensures Agree(cfg, a, b, t2)
  {
    hide AdvanceKey, RolledStart, Similar;
    var (timeout, window) := (cfg.leaseTimeout, cfg.budget.window);
    RolledStartTwice(window, a.windowStart, t1, t2);
    RolledStartTwice(window, b.windowStart, t1, t2);
    var mid := RolledStart(window, a.windowStart, t1);
    assert |a.keys| == |Advance(cfg, a, t1).keys| == |b.keys|;
    forall i | 0 <= i < |a.keys|
      ensures Similar(Advance(cfg, a, t2).keys[i], Advance(cfg, b, t2).keys[i], t2)
    {
      var (ka, kb) := (Advance(cfg, a, t1).keys[i], Advance(cfg, b, t1).keys[i]);
      assert Similar(ka, kb, t1);
      AdvanceTwice(a.keys[i], timeout, window, a.windowStart, t1, t2);
      AdvanceTwice(b.keys[i], timeout, window, b.windowStart, t1, t2);
      AdvanceRespects(ka, kb, timeout, window, mid, t1, t2);
      SimilarChain(Advance(cfg, a, t2).keys[i], AdvanceKey(ka, timeout, window, mid, t2),
                   AdvanceKey(kb, timeout, window, mid, t2), Advance(cfg, b, t2).keys[i], t2);
    }
  }

  lemma SimilarChain(a: Key, b: Key, c: Key, d: Key, now: Time)
    requires Similar(b, a, now) && Similar(b, c, now) && Similar(c, d, now)
    ensures Similar(a, d, now)
  {
  }

  /** An observer advances the record; that keeps agreement. */
  lemma AgreeAdvanced(cfg: Config, a: Route, b: Route, now: Time)
    requires Agree(cfg, a, b, now)
    ensures Agree(cfg, Advance(cfg, a, now), b, now)
  {
    hide AdvanceKey, RolledStart, Similar;
    var (timeout, window) := (cfg.leaseTimeout, cfg.budget.window);
    RolledStartTwice(window, a.windowStart, now, now);
    forall i | 0 <= i < |a.keys|
      ensures Similar(Advance(cfg, Advance(cfg, a, now), now).keys[i], Advance(cfg, b, now).keys[i], now)
    {
      AdvanceTwice(a.keys[i], timeout, window, a.windowStart, now, now);
      assert Similar(Advance(cfg, a, now).keys[i], Advance(cfg, b, now).keys[i], now);
      var (ka, kb) := (Advance(cfg, a, now).keys[i], Advance(cfg, b, now).keys[i]);
      SimilarItself(ka, now);
      SimilarChain(AdvanceKey(ka, timeout, window, RolledStart(window, a.windowStart, now), now), ka, ka, kb, now)
        by { SimilarFlip(AdvanceKey(ka, timeout, window, RolledStart(window, a.windowStart, now), now), ka, now); }
    }
  }

  lemma SimilarFlip(a: Key, b: Key, now: Time)
    requires Similar(a, b, now)
    ensures Similar(b, a, now)
  {
  }

  lemma SimilarAgree(cfg: Config, a: Route, b: Route, now: Time)
    requires SimilarRoutes(a, b, now)
    ensures Agree(cfg, a, b, now)
  {
    hide AdvanceKey, RolledStart, Similar;
    forall i | 0 <= i < |a.keys|
      ensures Similar(Advance(cfg, a, now).keys[i], Advance(cfg, b, now).keys[i], now)
    {
      AdvanceRespects(a.keys[i], b.keys[i], cfg.leaseTimeout, cfg.budget.window, a.windowStart, now, now);
    }
  }

  // ----- similar records answer alike -----

  predicate Ahead(until: Option<Time>, now: Time) {
    until.Some? && now < until.value
  }

  /** A view up to a deadline that is no longer in force. */
  predicate SimilarView(v: View, u: View, now: Time) {
    && v.(retiredUntil := None) == u.(retiredUntil := None)
    && (Ahead(v.retiredUntil, now) || Ahead(u.retiredUntil, now) ==> v == u)
  }

  predicate SimilarViews(vs: seq<View>, us: seq<View>, now: Time) {
    |vs| == |us| && forall i :: 0 <= i < |vs| ==> SimilarView(vs[i], us[i], now)
  }

  lemma KeysAnswerAlike(k: Key, j: Key, i: nat, b: Budget, max: Duration, start: Time, now: Time)
    requires Similar(k, j, now)
    ensures Selectable(k, now) == Selectable(j, now)
    ensures Admissible(k, b, now) == Admissible(j, b, now)
    ensures WaitFor(k, b.window, max, start, now) == WaitFor(j, b.window, max, start, now)
    ensures SimilarView(ViewOf(k, i, now), ViewOf(j, i, now), now)
  {
    assert k.leases == j.leases && k.requests == j.requests && k.tokens == j.tokens;
    assert k.drained == j.drained && k.softRetired == j.softRetired && k.estimated == j.estimated;
    assert k.errors == j.errors && k.reclaimed == j.reclaimed;
  }

  lemma GrantRespects(k: Key, j: Key, now: Time)
    requires Similar(k, j, now)
    ensures Similar(Granted(k, now), Granted(j, now), now)
  {
    assert k.leases == j.leases;
  }

  lemma RetireRespects(k: Key, j: Key, now: Time, until: Time, reason: Reason)
    requires Similar(k, j, now)
    ensures Similar(RetireKey(k, now, until, reason).0, RetireKey(j, now, until, reason).0, now)
    ensures RetireKey(k, now, until, reason).1 == RetireKey(j, now, until, reason).1
  {
  }

  /** Settlement neither reads nor writes the deadline. */
  lemma SettleIgnoresDeadline(k: Key, b: Budget, s: Sample)
    ensures SettleKey(Bare(k), b, s) == (Bare(SettleKey(k, b, s).0), SettleKey(k, b, s).1)
    ensures SettleKey(k, b, s).0.retiredUntil == k.retiredUntil && SettleKey(k, b, s).0.retireReason == k.retireReason
  {
    hide ApplyCaps, Charge;
    var r := Release(k);
    assert Release(Bare(k)) == Bare(r);
    var settled := r.(requests := r.requests + 1, tokens := r.tokens + Charge(s, b),
                      estimated := r.estimated || s.tokens == TOKENS_UNKNOWN);
    CapsIgnoreDeadline(settled, b);
  }

  lemma CapsIgnoreDeadline(k: Key, b: Budget)
    ensures ApplyCaps(Bare(k), b) == (Bare(ApplyCaps(k, b).0), ApplyCaps(k, b).1)
    ensures ApplyCaps(k, b).0.retiredUntil == k.retiredUntil && ApplyCaps(k, b).0.retireReason == k.retireReason
  {
    hide AtRatio;
    assert AtHardCap(Bare(k), b) == AtHardCap(k, b) && AtSoftCap(Bare(k), b) == AtSoftCap(k, b);
  }

  lemma SettleRespects(k: Key, j: Key, b: Budget, s: Sample, now: Time)
    requires Similar(k, j, now)
    ensures Similar(SettleKey(k, b, s).0, SettleKey(j, b, s).0, now)
    ensures SettleKey(k, b, s).1 == SettleKey(j, b, s).1
  {
    hide SettleKey;
    SettleIgnoresDeadline(k, b, s);
    SettleIgnoresDeadline(j, b, s);
  }

  lemma {:induction false} CandidatesAlike(b: Budget, ks: seq<Key>, js: seq<Key>, now: Time, n: nat)
    requires SimilarKeys(ks, js, now) && n <= |ks|
    ensures SimilarViews(Candidates(b, ks, now, n), Candidates(b, js, now, n), now)
  {
    hide Admissible, Similar, SimilarView, ViewOf;
    if n > 0 {
      CandidatesAlike(b, ks, js, now, n - 1);
      KeysAnswerAlike(ks[n - 1], js[n - 1], n - 1, b, 0, 0, now);
    }
  }

  lemma {:induction false} ScoresAlike(m: Metric, vs: seq<View>, us: seq<View>, now: Time, best: int, n: nat)
    requires SimilarViews(vs, us, now) && n <= |vs|
    ensures Scoring(m, vs, best, n) == Scoring(m, us, best, n)
    ensures n > 0 ==> Least(m, vs, n) == Least(m, us, n)
  {
    if n > 0 {
      ScoresAlike(m, vs, us, now, best, n - 1);
      ViewsScoreAlike(m, vs[n - 1], us[n - 1], now);
    }
  }

  lemma ViewsScoreAlike(m: Metric, v: View, u: View, now: Time)
    requires SimilarView(v, u, now)
    ensures Score(m, v) == Score(m, u) && v.estimated == u.estimated && v.index == u.index
  {
  }

  /** The shipped policies never look at a deadline. */
  lemma AnswersAlike(kind: PolicyKind, cursor: nat, vs: seq<View>, us: seq<View>, now: Time, custom: int)
    requires kind != Custom && SimilarViews(vs, us, now)
    ensures Answer(kind, cursor, vs, custom) == Answer(kind, cursor, us, custom)
  {
    hide SimilarView, Score;
    if vs != [] {
      ScoresAlike(ByLoad, vs, us, now, Least(ByLoad, vs, |vs|), |vs|);
      ScoresAlike(ByTokens, vs, us, now, Least(ByTokens, vs, |vs|), |vs|);
    }
    forall i | 0 <= i < |vs|
      ensures vs[i].estimated == us[i].estimated
    {
      ViewsScoreAlike(ByLoad, vs[i], us[i], now);
    }
  }

  lemma {:induction false} WaitsAlike(cfg: Config, a: Route, b: Route, now: Time, n: nat)
    requires SimilarRoutes(a, b, now) && 0 < n <= |a.keys|
    ensures LeastWait(cfg, a, now, n) == LeastWait(cfg, b, now, n)
  {
    hide WaitFor, Similar;
    KeysAnswerAlike(a.keys[n - 1], b.keys[n - 1], 0, cfg.budget, cfg.maxRetryAfter, a.windowStart, now);
    if n > 1 {
      WaitsAlike(cfg, a, b, now, n - 1);
    }
  }

  lemma SelectableAlike(ks: seq<Key>, js: seq<Key>, now: Time)
    requires SimilarKeys(ks, js, now)
    ensures AnySelectable(ks, now) == AnySelectable(js, now)
  {
    hide Similar, Selectable;
    forall i | 0 <= i < |ks|
      ensures Selectable(ks[i], now) == Selectable(js[i], now)
    {
      KeysAnswerAlike(ks[i], js[i], 0, Budget(0, 0, 0, 1.0, 0), 0, 0, now);
    }
  }

  // ----- steps and runs -----

  predicate Observes(op: Op) {
    op.Snapshot? || op.RetryAfter?
  }

  /** Answers agree; snapshots may differ in deadlines that have already expired. */
  predicate SameOut(o: Out, p: Out, now: Time) {
    o == p || (o.Views? && p.Views? && SimilarViews(o.views, p.views, now))
  }

  predicate AgreeOn(cfg: Config, s: State, u: State, now: Time) {
    && s.routes.Keys == u.routes.Keys && s.cursor == u.cursor && s.fallback == u.fallback
    && forall route :: route in s.routes ==> Agree(cfg, s.routes[route], u.routes[route], now)
  }

  lemma AgreeOnLater(cfg: Config, s: State, u: State, t1: Time, t2: Time)
    requires t1 <= t2 && AgreeOn(cfg, s, u, t1)
    ensures AgreeOn(cfg, s, u, t2)
  {
    hide Agree;
    forall route | route in s.routes
      ensures Agree(cfg, s.routes[route], u.routes[route], t2)
    {
      AgreeLater(cfg, s.routes[route], u.routes[route], t1, t2);
    }
  }

  /** Replacing one route by similar records keeps agreement everywhere. */
  lemma UpdateAgrees(cfg: Config, s: State, u: State, route: string, a: Route, b: Route, now: Time)
    requires AgreeOn(cfg, s, u, now) && route in s.routes && SimilarRoutes(a, b, now)
    ensures AgreeOn(cfg, s.(routes := s.routes[route := a]), u.(routes := u.routes[route := b]), now)
  {
    hide Agree;
    SimilarAgree(cfg, a, b, now);
  }

  lemma SimilarUpdate(a: Route, b: Route, i: nat, k: Key, j: Key, now: Time)
    requires SimilarRoutes(a, b, now) && i < |a.keys| && Similar(k, j, now)
    ensures SimilarRoutes(a.(keys := a.keys[i := k]), b.(keys := b.keys[i := j]), now)
  {
    hide Similar;
  }

  lemma ReservesAgree(cfg: Config, s: State, u: State, op: Op)
    requires op.Reserve? && cfg.kind != Custom && AgreeOn(cfg, s, u, op.now) && op.route in s.routes
    ensures Step(cfg, s, op).1 == Step(cfg, u, op).1
    ensures AgreeOn(cfg, Step(cfg, s, op).0, Step(cfg, u, op).0, op.now)
  {
    hide Similar, Agree, Admissible, Answer, Advance, SimilarView, Granted;
    var (a, b) := (Advance(cfg, s.routes[op.route], op.now), Advance(cfg, u.routes[op.route], op.now));
    assert SimilarRoutes(a, b, op.now) by { AgreeMeans(cfg, s.routes[op.route], u.routes[op.route], op.now); }
    CandidatesAlike(cfg.budget, a.keys, b.keys, op.now, |a.keys|);
    SelectableAlike(a.keys, b.keys, op.now);
    var (vs, us) := (Candidates(cfg.budget, a.keys, op.now, |a.keys|),
                     Candidates(cfg.budget, b.keys, op.now, |b.keys|));
    if vs == [] {
      UpdateAgrees(cfg, s, u, op.route, a, b, op.now);
    } else {
      CandidatesSound(cfg.budget, a.keys, op.now, |a.keys|);
      AnswersAlike(cfg.kind, s.cursor, vs, us, op.now, op.custom);
      var pos := Answer(cfg.kind, s.cursor, vs, op.custom);
      ViewsScoreAlike(ByLoad, vs[pos], us[pos], op.now);
      var i := vs[pos].index;
      GrantRespects(a.keys[i], b.keys[i], op.now);
      var (ka, kb) := (Granted(a.keys[i], op.now), Granted(b.keys[i], op.now));
      SimilarUpdate(a, b, i, ka, kb, op.now);
      UpdateAgrees(cfg, s, u, op.route, a.(keys := a.keys[i := ka]), b.(keys := b.keys[i := kb]), op.now);
    }
  }

  lemma AgreeMeans(cfg: Config, a: Route, b: Route, now: Time)
    requires Agree(cfg, a, b, now)
    ensures SimilarRoutes(Advance(cfg, a, now), Advance(cfg, b, now), now) && |a.keys| == |b.keys|
  {
    assert |a.keys| == |Advance(cfg, a, now).keys|;
  }

  lemma KeyUpdatesAgree(cfg: Config, s: State, u: State, op: Op)
    requires op.Settle? || op.Retire? || op.RetireForWindow?
    requires AgreeOn(cfg, s, u, op.now) && op.route in s.routes
    ensures Step(cfg, s, op).1 == Step(cfg, u, op).1
    ensures AgreeOn(cfg, Step(cfg, s, op).0, Step(cfg, u, op).0, op.now)
  {
    hide Similar, Agree, Advance, SettleKey, RetireKey, AdvanceKey;
    var (a, b) := (Advance(cfg, s.routes[op.route], op.now), Advance(cfg, u.routes[op.route], op.now));
    AgreeMeans(cfg, s.routes[op.route], u.routes[op.route], op.now);
    if 0 <= op.idx < |a.keys| {
      var (ka, kb) := (a.keys[op.idx], b.keys[op.idx]);
      var (ra, rb) := match op
        case Settle(_, _, _, sample) =>
          (SettleKey(ka, cfg.budget, Normalised(sample)), SettleKey(kb, cfg.budget, Normalised(sample)))
        case Retire(_, now, _, until, reason) =>
          (RetireKey(ka, now, until, Effective(reason)), RetireKey(kb, now, until, Effective(reason)))
        case RetireForWindow(_, now, _, reason) =>
          (RetireKey(ka, now, WindowDeadline(cfg, a, now), Effective(reason)),
           RetireKey(kb, now, WindowDeadline(cfg, b, now), Effective(reason)))
        case _ => ((ka, []), (kb, []));
      match op {
        case Settle(_, _, _, sample) => SettleRespects(ka, kb, cfg.budget, Normalised(sample), op.now);
        case Retire(_, now, _, until, reason) => RetireRespects(ka, kb, now, until, Effective(reason));
        case RetireForWindow(_, now, _, reason) =>
          RetireRespects(ka, kb, now, WindowDeadline(cfg, a, now), Effective(reason));
        case _ =>
      }
      SimilarUpdate(a, b, op.idx, ra.0, rb.0, op.now);
      UpdateAgrees(cfg, s, u, op.route, a.(keys := a.keys[op.idx := ra.0]), b.(keys := b.keys[op.idx := rb.0]), op.now);
    }
  }

  lemma ObserversAgree(cfg: Config, s: State, u: State, op: Op)
    requires Observes(op) && AgreeOn(cfg, s, u, op.now) && op.route in s.routes
    ensures SameOut(Step(cfg, s, op).1, Step(cfg, u, op).1, op.now)
    ensures AgreeOn(cfg, Step(cfg, s, op).0, Step(cfg, u, op).0, op.now)
  {
    hide Similar, Agree, Advance, SimilarView, ViewOf, Clamp;
    var (a, b) := (Advance(cfg, s.routes[op.route], op.now), Advance(cfg, u.routes[op.route], op.now));
    AgreeMeans(cfg, s.routes[op.route], u.routes[op.route], op.now);
    UpdateAgrees(cfg, s, u, op.route, a, b, op.now);
    SelectableAlike(a.keys, b.keys, op.now);
    if op.RetryAfter? {
      if |a.keys| > 0 {
        WaitsAlike(cfg, a, b, op.now, |a.keys|);
      }
    } else {
      forall i | 0 <= i < |a.keys|
        ensures SimilarView(ViewOf(a.keys[i], i, op.now), ViewOf(b.keys[i], i, op.now), op.now)
      {
        KeysAnswerAlike(a.keys[i], b.keys[i], i, cfg.budget, 0, 0, op.now);
      }
    }
  }

  /** The same call on two agreeing stores gets the same answer and leaves them agreeing. */
  lemma StepsAgree(cfg: Config, s: State, u: State, op: Op)
    requires cfg.kind != Custom && AgreeOn(cfg, s, u, op.now)
    ensures SameOut(Step(cfg, s, op).1, Step(cfg, u, op).1, op.now)
    ensures AgreeOn(cfg, Step(cfg, s, op).0, Step(cfg, u, op).0, op.now)
  {
    if op.route in s.routes {
      hide Step, AgreeOn;
      if op.Reserve? {
        ReservesAgree(cfg, s, u, op);
      } else if Observes(op) {
        ObserversAgree(cfg, s, u, op);
      } else {
        KeyUpdatesAgree(cfg, s, u, op);
      }
    }
  }

  /** An extra observer on one side goes unnoticed. */
  lemma ObserverUnseen(cfg: Config, s: State, u: State, op: Op)
    requires Observes(op) && AgreeOn(cfg, s, u, op.now)
    ensures AgreeOn(cfg, Step(cfg, s, op).0, u, op.now)
  {
    if op.route in s.routes {
      hide Agree, Advance;
      AgreeAdvanced(cfg, s.routes[op.route], u.routes[op.route], op.now);
    }
  }

  /** The calls that remain when those not kept are dropped. */
  function Kept(ops: seq<Op>, keep: seq<bool>): seq<Op>
    requires |keep| == |ops|
  {
    if ops == [] then []
    else Kept(ops[..|ops| - 1], keep[..|ops| - 1]) + (if keep[|ops| - 1] then [ops[|ops| - 1]] else [])
  }

  predicate DropsOnlyObservers(ops: seq<Op>, keep: seq<bool>) {
    |keep| == |ops| && forall i :: 0 <= i < |ops| && !keep[i] ==> Observes(ops[i])
  }

  /** Dropping any set of observers from a run leaves an agreeing store. */
  lemma {:induction false} ObserversInvisible(cfg: Config, s: State, ops: seq<Op>, keep: seq<bool>, from: Time)
    requires cfg.kind != Custom && Monotone(ops, from) && DropsOnlyObservers(ops, keep)
    ensures AgreeOn(cfg, Run(cfg, s, ops), Run(cfg, s, Kept(ops, keep)), Clock(ops, from))
  {
    hide Step, AgreeOn;
    if ops == [] {
      AgreesWithItself(cfg, s, from);
    } else {
      var n := |ops| - 1;
      ObserversInvisible(cfg, s, ops[..n], keep[..n], from);
      var (a, b) := (Run(cfg, s, ops[..n]), Run(cfg, s, Kept(ops[..n], keep[..n])));
      AgreeOnLater(cfg, a, b, Clock(ops[..n], from), ops[n].now);
      if keep[n] {
        StepsAgree(cfg, a, b, ops[n]);
        assert Kept(ops, keep)[..|Kept(ops, keep)| - 1] == Kept(ops[..n], keep[..n]);
      } else {
        ObserverUnseen(cfg, a, b, ops[n]);
        assert Kept(ops, keep) == Kept(ops[..n], keep[..n]);
      }
    }
  }

  lemma RouteAgreesWithItself(cfg: Config, rt: Route, now: Time)
    ensures Agree(cfg, rt, rt, now)
  {
  }

  lemma AgreesWithItself(cfg: Config, s: State, now: Time)
    ensures AgreeOn(cfg, s, s, now)
  {
    hide Agree;
    forall route | route in s.routes
      ensures Agree(cfg, s.routes[route], s.routes[route], now)
    {
      RouteAgreesWithItself(cfg, s.routes[route], now);
    }
  }

  /** Under the shipped policies, whatever is called after any number of extra observers - lease, settlement,
      retirement, wait or snapshot - is answered as if they had never been called. */
  lemma LaterAnswersUnchanged(cfg: Config, s: State, ops: seq<Op>, keep: seq<bool>, from: Time, op: Op)
    requires cfg.kind != Custom && Monotone(ops, from) && DropsOnlyObservers(ops, keep) && Clock(ops, from) <= op.now
    ensures SameOut(Step(cfg, Run(cfg, s, ops), op).1, Step(cfg, Run(cfg, s, Kept(ops, keep)), op).1, op.now)
  {
    hide Step, AgreeOn, SameOut;
    var (a, b) := (Run(cfg, s, ops), Run(cfg, s, Kept(ops, keep)));
    ObserversInvisible(cfg, s, ops, keep, from);
    AgreeOnLater(cfg, a, b, Clock(ops, from), op.now);
    StepsAgree(cfg, a, b, op);
  }
}
