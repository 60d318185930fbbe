/** Retirement only extends: what takes a key out of rotation holds until its own deadline, whatever is called. */
module Retirement {
  import opened KeyAccounting
  import opened StoreSpec

  // ----- positions in a run -----

  predicate HasKey(s: State, route: string, i: nat) {
    route in s.routes && i < |s.routes[route].keys|
  }

  /** The store after the first j calls. */
  function After(cfg: Config, s: State, ops: seq<Op>, j: nat): State
    requires j <= |ops|
    ensures j > 0 ==> Run(cfg, s, ops[..j]) == Step(cfg, Run(cfg, s, ops[..j - 1]), ops[j - 1]).0
  {
    assert j > 0 ==> ops[..j][..j - 1] == ops[..j - 1];
    Run(cfg, s, ops[..j])
  }

  lemma {:induction false} RunShape(cfg: Config, s: State, ops: seq<Op>, j: nat, route: string, i: nat)
    requires j <= |ops| && HasKey(s, route, i)
    ensures HasKey(After(cfg, s, ops, j), route, i)
  {
    hide Step, EventOf, KeyAfter, EventAllowed, StartAfter;
    if j > 0 {
      RunShape(cfg, s, ops, j - 1, route, i);
      StepOnKey(cfg, After(cfg, s, ops, j - 1), ops[j - 1], route, i);
    }
  }

  /** The event that call j means to the key. */
  function EventAt(cfg: Config, s: State, ops: seq<Op>, j: nat, route: string, i: nat): KeyEvent
    requires j < |ops|
  {
    var u := After(cfg, s, ops, j);
    if HasKey(u, route, i) then EventOf(cfg, u, ops[j], route, i) else Idle
  }

  /** What call j's event made the key emit. */
  function EmittedAt(cfg: Config, s: State, ops: seq<Op>, j: nat, route: string, i: nat): seq<Reason>
    requires j < |ops|
  {
    var u := After(cfg, s, ops, j);
    if HasKey(u, route, i) then
      KeyAfter(cfg, u.routes[route].keys[i], u.routes[route].windowStart, ops[j].now,
               EventOf(cfg, u, ops[j], route, i)).1
    else []
  }

  // ----- explicit deadlines -----

  /** Until its deadline passes, the key carries one at least as late. */
  predicate Parked(k: Key, until: Time, clock: Time) {
    clock < until ==> k.retiredUntil.Some? && until <= k.retiredUntil.value
  }

  /** The record's deadline after the route was brought up to date. */
  lemma AdvanceParked(k: Key, timeout: Duration, window: Duration, start: Time, until: Time, clock: Time, now: Time)
    requires clock <= now && Parked(k, until, clock)
    ensures Parked(AdvanceKey(k, timeout, window, start, now), until, now)
  {
    hide StaleRun;
  }

  lemma EventKeepsParked(cfg: Config, k: Key, start: Time, now: Time, e: KeyEvent, until: Time, clock: Time)
    requires clock <= now && Parked(k, until, clock) && EventAllowed(cfg, k, start, now, e)
    ensures Parked(KeyAfter(cfg, k, start, now, e).0, until, now)
    ensures e.Grant? ==> until <= now
    ensures e.Park? && KeyAfter(cfg, k, start, now, e).1 != [] ==> until <= now
  {
    hide AdvanceKey, SettleKey;
    AdvanceParked(k, cfg.leaseTimeout, cfg.budget.window, start, until, clock, now);
    var a := Current(cfg, k, start, now);
    if e.Close? {
      SettleLeases(a, cfg.budget, e.sample);
    }
  }

  lemma ParkSets(cfg: Config, k: Key, start: Time, now: Time, until: Time, reason: Reason)
    ensures Parked(KeyAfter(cfg, k, start, now, Park(until, reason)).0, until, now)
  {
    hide AdvanceKey;
  }

  lemma {:induction false} StaysParked(cfg: Config, s: State, ops: seq<Op>, from: Time, a: nat, b: nat,
                                       route: string, i: nat)
    requires a < b <= |ops| && Monotone(ops, from) && HasKey(s, route, i) && EventAt(cfg, s, ops, a, route, i).Park?
    ensures HasKey(After(cfg, s, ops, b), route, i)
    ensures Parked(After(cfg, s, ops, b).routes[route].keys[i], EventAt(cfg, s, ops, a, route, i).until, ops[b - 1].now)
    decreases b
  {
    hide Step, EventOf, KeyAfter, EventAllowed, StartAfter, Parked;
    var u := After(cfg, s, ops, b - 1);
    RunShape(cfg, s, ops, b - 1, route, i);
    RunShape(cfg, s, ops, b, route, i);
    var rt := u.routes[route];
    StepOnKey(cfg, u, ops[b - 1], route, i);
    var e := EventAt(cfg, s, ops, a, route, i);
    if b - 1 == a {
      ParkSets(cfg, rt.keys[i], rt.windowStart, ops[a].now, e.until, e.reason);
    } else {
      StaysParked(cfg, s, ops, from, a, b - 1, route, i);
      EventKeepsParked(cfg, rt.keys[i], rt.windowStart, ops[b - 1].now, EventOf(cfg, u, ops[b - 1], route, i),
                       e.until, ops[b - 2].now);
    }
  }

  /** In any interleaving, once a retirement has named a deadline no lease is granted on that key before it,
      and no further retirement event is emitted for it before it. */
  lemma DeadlineRespected(cfg: Config, s: State, ops: seq<Op>, from: Time, a: nat, b: nat, route: string, i: nat)
    requires a < b < |ops| && Monotone(ops, from) && HasKey(s, route, i) && EventAt(cfg, s, ops, a, route, i).Park?
    ensures EventAt(cfg, s, ops, b, route, i).Grant? ==> EventAt(cfg, s, ops, a, route, i).until <= ops[b].now
    ensures EventAt(cfg, s, ops, b, route, i).Park? && EmittedAt(cfg, s, ops, b, route, i) != [] ==>
      EventAt(cfg, s, ops, a, route, i).until <= ops[b].now
  {
    hide Step, EventOf, KeyAfter, EventAllowed, StartAfter, Parked;
    StaysParked(cfg, s, ops, from, a, b, route, i);
    var u := After(cfg, s, ops, b);
    var rt := u.routes[route];
    StepOnKey(cfg, u, ops[b], route, i);
    EventKeepsParked(cfg, rt.keys[i], rt.windowStart, ops[b].now, EventOf(cfg, u, ops[b], route, i),
                     EventAt(cfg, s, ops, a, route, i).until, ops[b - 1].now);
  }

  // ----- caps -----

  /** Capped in the window that began at `start`, or that window is over. */
  predicate HeldOut(cfg: Config, k: Key, current: Time, start: Time, clock: Time) {
    (current == start && Capped(k)) || start + cfg.budget.window <= clock
  }

  lemma EventKeepsHeldOut(cfg: Config, k: Key, current: Time, now: Time, e: KeyEvent, start: Time, clock: Time)
    requires cfg.budget.window > 0 && clock <= now && HeldOut(cfg, k, current, start, clock)
    requires EventAllowed(cfg, k, current, now, e)
    ensures HeldOut(cfg, KeyAfter(cfg, k, current, now, e).0, StartAfter(cfg, current, now, e), start, now)
    ensures e.Grant? ==> start + cfg.budget.window <= now
  {
    hide SettleKey, RetireKey, StaleRun;
    var a := Current(cfg, k, current, now);
    match e
    case Close(sample) => SettleCounters(a, cfg.budget, sample);
    case Park(until, reason) => RetireFrame(a, now, until, reason);
    case _ =>
  }

  lemma {:induction false} StaysHeldOut(cfg: Config, s: State, ops: seq<Op>, from: Time, a: nat, b: nat,
                                        route: string, i: nat)
    requires 0 < a <= b <= |ops| && Monotone(ops, from) && HasKey(s, route, i) && cfg.budget.window > 0
    requires HasKey(After(cfg, s, ops, a), route, i) && Capped(After(cfg, s, ops, a).routes[route].keys[i])
    ensures HasKey(After(cfg, s, ops, b), route, i)
    ensures var (rt, rt') := (After(cfg, s, ops, a).routes[route], After(cfg, s, ops, b).routes[route]);
      HeldOut(cfg, rt'.keys[i], rt'.windowStart, rt.windowStart, ops[b - 1].now)
    decreases b
  {
    hide Step, EventOf, KeyAfter, EventAllowed, StartAfter;
    if a < b {
      StaysHeldOut(cfg, s, ops, from, a, b - 1, route, i);
      var u := After(cfg, s, ops, b - 1);
      var rt := u.routes[route];
      StepOnKey(cfg, u, ops[b - 1], route, i);
      EventKeepsHeldOut(cfg, rt.keys[i], rt.windowStart, ops[b - 1].now, EventOf(cfg, u, ops[b - 1], route, i),
                        After(cfg, s, ops, a).routes[route].windowStart, ops[b - 2].now);
    }
  }

  /** A key soft- or hard-capped at some point of a run gets no lease before that window ends. */
  lemma CapHoldsForWindow(cfg: Config, s: State, ops: seq<Op>, from: Time, a: nat, b: nat, route: string, i: nat)
    requires 0 < a <= b < |ops| && Monotone(ops, from) && HasKey(s, route, i) && cfg.budget.window > 0
    requires HasKey(After(cfg, s, ops, a), route, i) && Capped(After(cfg, s, ops, a).routes[route].keys[i])
    ensures EventAt(cfg, s, ops, b, route, i).Grant? ==>
      After(cfg, s, ops, a).routes[route].windowStart + cfg.budget.window <= ops[b].now
  {
    hide Step, EventOf, KeyAfter, EventAllowed, StartAfter;
    StaysHeldOut(cfg, s, ops, from, a, b, route, i);
    var u := After(cfg, s, ops, b);
    var rt := u.routes[route];
    StepOnKey(cfg, u, ops[b], route, i);
    EventKeepsHeldOut(cfg, rt.keys[i], rt.windowStart, ops[b].now, EventOf(cfg, u, ops[b], route, i),
                      After(cfg, s, ops, a).routes[route].windowStart, ops[b - 1].now);
  }

  // ----- cap events -----

  /** How many cap events the first n calls emitted for the key while its window started at w. */
  function CapEvents(cfg: Config, s: State, ops: seq<Op>, n: nat, route: string, i: nat, w: Time): nat
    requires n <= |ops|
  {
    if n == 0 then 0
    else
      var u := After(cfg, s, ops, n - 1);
      var e := EventAt(cfg, s, ops, n - 1, route, i);
      CapEvents(cfg, s, ops, n - 1, route, i, w)
      + if HasKey(u, route, i) && e.Close? && StartAfter(cfg, u.routes[route].windowStart, ops[n - 1].now, e) == w
        then |EmittedAt(cfg, s, ops, n - 1, route, i)| else 0
  }

  /** A settlement emits exactly when it takes the key from uncapped to capped. */
  lemma EventEmitsCap(cfg: Config, k: Key, start: Time, now: Time, e: KeyEvent)
    ensures var (k', events) := KeyAfter(cfg, k, start, now, e);
      var rolls := Rolls(cfg, start, now, e);
      && (e.Close? ==> events == if Capped(k') && (rolls || !Capped(k)) then [Cap] else [])
      && (rolls && !e.Close? ==> !Capped(k'))
      && (!rolls && !e.Close? ==> Capped(k') == Capped(k))
      && (!rolls && Capped(k) ==> Capped(k'))
  {
    hide SettleKey, AdvanceKey, RetireKey, Capped;
    var a := Current(cfg, k, start, now);
    AdvanceCaps(k, cfg.leaseTimeout, cfg.budget.window, start, now);
    match e
    case Close(sample) => SettleEmits(a, cfg.budget, sample);
    case Park(until, reason) =>
      RetireFrame(a, now, until, reason);
      SameCaps(a, RetireKey(a, now, until, reason).0);
    case Grant => SameCaps(a, Granted(a, now));
    case _ =>
  }

  lemma SameCaps(k: Key, j: Key)
    requires k.drained == j.drained && k.softRetired == j.softRetired
    ensures Capped(k) == Capped(j)
  {
  }

  lemma AdvanceCaps(k: Key, timeout: Duration, window: Duration, start: Time, now: Time)
    ensures Capped(AdvanceKey(k, timeout, window, start, now)) == (!WindowExpired(window, start, now) && Capped(k))
  {
    hide StaleRun, InForce;
  }

  lemma SettleEmits(k: Key, b: Budget, s: Sample)
    ensures var (k', events) := SettleKey(k, b, s);
      events == (if Capped(k') && !Capped(k) then [Cap] else []) && (Capped(k) ==> Capped(k'))
  {
    hide AtHardCap, AtSoftCap, Charge;
  }

  ghost predicate CapsCounted(cfg: Config, s: State, ops: seq<Op>, n: nat, route: string, i: nat)
    requires n <= |ops|
  {
    var u := After(cfg, s, ops, n);
    && HasKey(u, route, i)
    && var rt := u.routes[route];
       && CapEvents(cfg, s, ops, n, route, i, rt.windowStart) == (if Capped(rt.keys[i]) then 1 else 0)
       && forall w: Time :: CapEvents(cfg, s, ops, n, route, i, w) <= (if w > rt.windowStart then 0 else 1)
  }

  /** In every window a key emits one cap event if it ends up capped in it and none otherwise. */
  lemma {:induction false} OneCapEventPerWindow(cfg: Config, s: State, ops: seq<Op>, n: nat, route: string, i: nat)
    requires n <= |ops| && HasKey(s, route, i) && !Capped(s.routes[route].keys[i])
    ensures CapsCounted(cfg, s, ops, n, route, i)
  {
    hide Step, EventOf, KeyAfter, EventAllowed, StartAfter, Capped, Rolls;
    if n > 0 {
      OneCapEventPerWindow(cfg, s, ops, n - 1, route, i);
      var u := After(cfg, s, ops, n - 1);
      var rt, op := u.routes[route], ops[n - 1];
      var e := EventOf(cfg, u, op, route, i);
      StepOnKey(cfg, u, op, route, i);
      EventEmitsCap(cfg, rt.keys[i], rt.windowStart, op.now, e);
      RollsForward(cfg, rt.windowStart, op.now, e);
      var start' := After(cfg, s, ops, n).routes[route].windowStart;
      assert start' == StartAfter(cfg, rt.windowStart, op.now, e);
      assert EventAt(cfg, s, ops, n - 1, route, i) == e;
      assert CapEvents(cfg, s, ops, n - 1, route, i, start') <= (if start' > rt.windowStart then 0 else 1);
      assert CapEvents(cfg, s, ops, n, route, i, start')
          == (if Capped(After(cfg, s, ops, n).routes[route].keys[i]) then 1 else 0);
      forall w: Time
        ensures CapEvents(cfg, s, ops, n, route, i, w) <= (if w > start' then 0 else 1)
      {
        assert CapEvents(cfg, s, ops, n - 1, route, i, w) <= (if w > rt.windowStart then 0 else 1);
      }
    }
  }
}
