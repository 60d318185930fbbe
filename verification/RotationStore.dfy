/** The rotation store itself: per-route records updated in place under one lock.

    Each method is one critical section, proved equal to a step of the state machine in `StoreSpec`, so every
    theorem about runs of that machine is a theorem about this object. The clock reading is a parameter. */
module RotationStore {
  import opened KeyAccounting
  import opened RotationPolicies
  import opened StoreSpec
  import opened LeaseLedger

  const DEFAULT_SOFT_RATIO: real := 0.8
  const DEFAULT_MAX_RETRY_AFTER: Duration := 3_600_000_000_000
  const DEFAULT_LEASE_TIMEOUT: Duration := 1_800_000_000_000

  /** The configuration a store really runs with: out-of-range settings take their defaults. */
  function Effectively(cfg: Config): (r: Config)
    ensures r.leaseTimeout > 0 && r.maxRetryAfter > 0 && 0.0 < r.budget.softRatio <= 1.0
  {
    cfg.(maxRetryAfter := if cfg.maxRetryAfter <= 0 then DEFAULT_MAX_RETRY_AFTER else cfg.maxRetryAfter,
         leaseTimeout := if cfg.leaseTimeout <= 0 then DEFAULT_LEASE_TIMEOUT else cfg.leaseTimeout,
         budget := cfg.budget.(softRatio :=
           if cfg.budget.softRatio <= 0.0 || cfg.budget.softRatio > 1.0 then DEFAULT_SOFT_RATIO
           else cfg.budget.softRatio))
  }

  /** The state of a new store: a fresh record for each key of each route that has any. */
  function Initial(keys: map<string, int>, now: Time): State {
    State(map name | name in keys && keys[name] > 0 :: Route(seq(keys[name], _ => FRESH_KEY), now), 0, 0)
  }

  /** The ledgers of a new store: nothing was ever reserved. */
  function Blank(s: State): map<string, seq<Ledger>> {
    map route | route in s.routes :: seq(|s.routes[route].keys|, _ => Ledger([], {}))
  }

  lemma InitialUnused(keys: map<string, int>, now: Time)
    ensures Unused(Tracked(Initial(keys, now), Blank(Initial(keys, now))))
  {
  }

  method CountStale(stamps: seq<Time>, cutoff: Time) returns (n: nat)
    ensures n == StaleRun(stamps, cutoff)
  {
    n := 0;
    while n < |stamps| && stamps[n] <= cutoff
      invariant n <= |stamps|
      invariant StaleRun(stamps, cutoff) == n + StaleRun(stamps[n..], cutoff)
    {
      assert stamps[n..][1..] == stamps[n + 1..];
      n := n + 1;
    }
  }

  lemma NothingStale(cutoff: Time)
    ensures StaleRun([], cutoff) == 0
  {
  }

  class Store {
    const cfg: Config
    const policy: Policy
    const fallback: Policy
    var routes: map<string, Route>

    ghost predicate Valid()
      reads this
    {
      && policy.kind == cfg.kind && fallback.kind == PolicyKind.RoundRobin && policy != fallback
      && cfg.leaseTimeout > 0 && cfg.maxRetryAfter > 0
    }

    ghost function Abstract(): State
      reads this, policy, fallback
    {
      State(routes, policy.cursor, fallback.cursor)
    }

    constructor (keys: map<string, int>, cfg: Config, now: Time)
      ensures Valid() && fresh(policy) && fresh(fallback)
      ensures this.cfg == Effectively(cfg) && Abstract() == Initial(keys, now)
    {
      this.cfg := Effectively(cfg);
      this.policy := new Policy(cfg.kind);
      this.fallback := new Policy(PolicyKind.RoundRobin);
      this.routes := map name | name in keys && keys[name] > 0 :: Route(seq(keys[name], _ => FRESH_KEY), now);
    }

    /** Moves the leading run of stale stamps to the orphans. */
    method ReclaimStaleLeases(k: Key, now: Time) returns (r: Key)
      requires Valid()
      ensures r == ReclaimStale(k, cfg.leaseTimeout, now)
    {
      hide StaleRun;
      if |k.leases| == 0 {
        NothingStale(now - cfg.leaseTimeout);
        return k;
      }
      var n := CountStale(k.leases, now - cfg.leaseTimeout);
      r := k.(leases := k.leases[n..], orphaned := k.orphaned + n, reclaimed := k.reclaimed + n);
    }

    /** Brings every record of a route up to date: reclaim first, then roll an expired window. */
    method AdvanceRoute(rt: Route, now: Time) returns (r: Route)
      requires Valid()
      ensures r == Advance(cfg, rt, now)
    {
      var keys := rt.keys;
      for i := 0 to |keys|
        invariant |keys| == |rt.keys|
        invariant forall j :: 0 <= j < i ==> keys[j] == ReclaimStale(rt.keys[j], cfg.leaseTimeout, now)
        invariant forall j :: i <= j < |keys| ==> keys[j] == rt.keys[j]
      {
        var k := ReclaimStaleLeases(keys[i], now);
        keys := keys[i := k];
      }
      var start := RollWindow(rt.windowStart, now);
      if cfg.budget.window > 0 && now - rt.windowStart >= cfg.budget.window {
        for i := 0 to |keys|
          invariant |keys| == |rt.keys|
          invariant forall j :: 0 <= j < i ==> keys[j] == Rolled(ReclaimStale(rt.keys[j], cfg.leaseTimeout, now), now)
          invariant forall j :: i <= j < |keys| ==> keys[j] == ReclaimStale(rt.keys[j], cfg.leaseTimeout, now)
        {
          keys := keys[i := Rolled(keys[i], now)];
        }
      }
      r := Route(keys, start);
      assert r.keys == Advance(cfg, rt, now).keys;
    }

    method RollWindow(start: Time, now: Time) returns (start': Time)
      ensures start' == RolledStart(cfg.budget.window, start, now)
    {
      var elapsed := now - start;
      start' := start;
      if cfg.budget.window > 0 && elapsed >= cfg.budget.window {
        start' := start + elapsed / cfg.budget.window * cfg.budget.window;
      }
    }

    /** Collects the views a policy may choose from, and whether any key was selectable at all. */
    method Eligible(rt: Route, now: Time) returns (selectable: nat, views: seq<View>)
      ensures selectable > 0 <==> AnySelectable(rt.keys, now)
      ensures views == Candidates(cfg.budget, rt.keys, now, |rt.keys|)
    {
      selectable, views := 0, [];
      for i := 0 to |rt.keys|
        invariant selectable > 0 <==> exists j :: 0 <= j < i && Selectable(rt.keys[j], now)
        invariant views == Candidates(cfg.budget, rt.keys, now, i)
      {
        if Selectable(rt.keys[i], now) {
          selectable := selectable + 1;
          if Admissible(rt.keys[i], cfg.budget, now) {
            views := views + [ViewOf(rt.keys[i], i, now)];
          }
        }
      }
    }

    /** Filters, selects and reserves in one critical section. `custom` is what a foreign policy answered. */
    method Reserve(route: string, now: Time, custom: int) returns (out: Out)
      requires Valid()
      modifies this`routes, policy, fallback
      ensures Valid()
      ensures (Abstract(), out) == Step(cfg, old(Abstract()), Op.Reserve(route, now, custom))
    {
      hide AdvanceKey, Admissible, Selectable, Answer, RolledStart, ViewOf;
      if route !in routes {
        return Refused(Drained);
      }
      var rt := AdvanceRoute(routes[route], now);
      routes := routes[route := rt];
      var selectable, views := Eligible(rt, now);
      if |views| == 0 {
        return Refused(if selectable > 0 then AdmissionLimited else Drained);
      }
      var pos := Choose(views, custom);
      CandidatesSound(cfg.budget, rt.keys, now, |rt.keys|);
      var idx := views[pos].index;
      routes := routes[route := rt.(keys := rt.keys[idx := Granted(rt.keys[idx], now)])];
      out := Leased(idx);
      assert routes == old(routes)[route := routes[route]];
    }

    /** Asks the policy and contains an out-of-range answer with a round robin of the store's own. */
    method Choose(views: seq<View>, custom: int) returns (pos: nat)
      requires Valid() && views != []
      modifies policy, fallback
      ensures var answer := Answer(cfg.kind, old(policy.cursor), views, custom);
        var inRange := 0 <= answer < |views|;
        && pos == (if inRange then answer else old(fallback.cursor) % |views|)
        && policy.cursor == (if cfg.kind == Custom then old(policy.cursor) else old(policy.cursor) + 1)
        && fallback.cursor == (if inRange then old(fallback.cursor) else old(fallback.cursor) + 1)
    {
      var answer := policy.Select(views, custom);
      if answer < 0 || answer >= |views| {
        answer := fallback.Select(views, custom);
      }
      if answer < 0 || answer >= |views| {
        answer := 0;
      }
      pos := answer;
    }

    /** Settles one reservation on a key, returning the retirements to emit after the lock is released. */
    method RecordSample(route: string, now: Time, idx: int, sample: Sample) returns (out: Out)
      requires Valid()
      modifies this`routes
      ensures Valid()
      ensures (Abstract(), out) == Step(cfg, old(Abstract()), Op.Settle(route, now, idx, sample))
    {
      out := Emitted([]);
      if route in routes && 0 <= idx < |routes[route].keys| {
        var rt := AdvanceRoute(routes[route], now);
        var (k, events) := SettleKey(rt.keys[idx], cfg.budget, Normalised(sample));
        routes := routes[route := rt.(keys := rt.keys[idx := k])];
        out := Emitted(events);
      }
    }

    method RetireWithReason(route: string, now: Time, idx: int, until: Time, reason: Reason) returns (out: Out)
      requires Valid()
      modifies this`routes
      ensures Valid()
      ensures (Abstract(), out) == Step(cfg, old(Abstract()), Op.Retire(route, now, idx, until, reason))
    {
      out := Emitted([]);
      if route in routes && 0 <= idx < |routes[route].keys| {
        var rt := AdvanceRoute(routes[route], now);
        var (k, events) := RetireKey(rt.keys[idx], now, until, Effective(reason));
        routes := routes[route := rt.(keys := rt.keys[idx := k])];
        out := Emitted(events);
      }
    }

    /** Derives the deadline and applies it under one lock, so no rollover can fall in between. */
    method RetireForWindow(route: string, now: Time, idx: int, reason: Reason) returns (out: Out)
      requires Valid()
      modifies this`routes
      ensures Valid()
      ensures (Abstract(), out) == Step(cfg, old(Abstract()), Op.RetireForWindow(route, now, idx, reason))
    {
      out := Emitted([]);
      if route in routes && 0 <= idx < |routes[route].keys| {
        var rt := AdvanceRoute(routes[route], now);
        var until := now + DEFAULT_QUOTA_COOLDOWN;
        if cfg.budget.window > 0 {
          until := rt.windowStart + cfg.budget.window;
        }
        var (k, events) := RetireKey(rt.keys[idx], now, until, Effective(reason));
        routes := routes[route := rt.(keys := rt.keys[idx := k])];
        out := Emitted(events);
      }
    }

    /** The least wait over the keys, or none as soon as one is selectable. */
    method ShortestWait(rt: Route, now: Time) returns (found: bool, best: Duration)
      requires rt.keys != []
      ensures found <==> !AnySelectable(rt.keys, now)
      ensures found ==> best == LeastWait(cfg, rt, now, |rt.keys|)
    {
      best := 0;
      for i := 0 to |rt.keys|
        invariant forall j :: 0 <= j < i ==> !Selectable(rt.keys[j], now)
        invariant i > 0 ==> best == LeastWait(cfg, rt, now, i)
      {
        if Selectable(rt.keys[i], now) {
          return false, 0;
        }
        var w := WaitFor(rt.keys[i], cfg.budget.window, cfg.maxRetryAfter, rt.windowStart, now);
        if i == 0 || w < best {
          best := w;
        }
      }
      found := true;
    }

    method RetryAfter(route: string, now: Time) returns (out: Out)
      requires Valid()
      modifies this`routes
      ensures Valid()
      ensures (Abstract(), out) == Step(cfg, old(Abstract()), Op.RetryAfter(route, now))
    {
      if route !in routes || |routes[route].keys| == 0 {
        return NoWait;
      }
      var rt := AdvanceRoute(routes[route], now);
      routes := routes[route := rt];
      var found, best := ShortestWait(rt, now);
      if !found {
        return NoWait;
      }
      if best > cfg.maxRetryAfter {
        best := cfg.maxRetryAfter;
      }
      if best < MIN_RETRY_AFTER {
        best := MIN_RETRY_AFTER;
      }
      out := Wait(best);
    }

    method Snapshot(route: string, now: Time) returns (out: Out)
      requires Valid()
      modifies this`routes
      ensures Valid()
      ensures (Abstract(), out) == Step(cfg, old(Abstract()), Op.Snapshot(route, now))
    {
      hide AdvanceKey, RolledStart, ViewOf;
      if route !in routes {
        return Views([]);
      }
      var rt := AdvanceRoute(routes[route], now);
      routes := routes[route := rt];
      var views := AllViews(rt, now);
      out := Views(views);
      assert Step(cfg, old(Abstract()), Op.Snapshot(route, now)).1.views == views;
    }

    method AllViews(rt: Route, now: Time) returns (views: seq<View>)
      ensures |views| == |rt.keys| && forall i :: 0 <= i < |rt.keys| ==> views[i] == ViewOf(rt.keys[i], i, now)
    {
      views := [];
      for i := 0 to |rt.keys|
        invariant |views| == i
        invariant forall j :: 0 <= j < i ==> views[j] == ViewOf(rt.keys[j], j, now)
      {
        views := views + [ViewOf(rt.keys[i], i, now)];
      }
    }
  }

  /** One reserved use of one key. Settling is guarded so that it happens once. */
  class KeyLease {
    const route: string
    const index: nat
    const store: Store
    var settled: bool

    constructor (store: Store, route: string, index: nat)
      ensures this.store == store && this.route == route && this.index == index && !settled
    {
      this.store, this.route, this.index, this.settled := store, route, index, false;
    }

    /** The first call settles; every later one changes nothing and emits nothing. */
    method Settle(now: Time, sample: Sample) returns (out: Out)
      requires store.Valid()
      modifies `settled, store`routes
      ensures settled && store.Valid()
      ensures (store.Abstract(), out) == if old(settled) then (old(store.Abstract()), Emitted([]))
                                         else Step(store.cfg, old(store.Abstract()),
                                             Op.Settle(route, now, index, sample))
    {
      out := Emitted([]);
      if !settled {
        settled := true;
        out := store.RecordSample(route, now, index, sample);
      }
    }
  }
}
