/** Which reservations are really outstanding, and why anonymous settlement still reclaims soundly.

    The store keeps bare stamps and settles without knowing which lease ended. The ledger is the ghost
    truth beside it: every reservation a key ever granted and the identities still unsettled. */
module LeaseLedger {
  import opened Arithmetic
  import opened KeyAccounting
  import opened StoreSpec

  /** A key's reservation history and the positions in it that no caller has settled yet. */
  datatype Ledger = Ledger(stamps: seq<Time>, unsettled: set<nat>)

  /** A store operation; `lease` is the reservation a settlement is really about. */
  datatype Call = Call(op: Op, lease: nat)

  datatype Tracked = Tracked(state: State, ledgers: map<string, seq<Ledger>>)

  // ----- the invariant of one key -----

  predicate Ordered(stamps: seq<Time>, now: Time) {
    && (forall i, j :: 0 <= i <= j < |stamps| ==> stamps[i] <= stamps[j])
    && (forall i :: 0 <= i < |stamps| ==> stamps[i] <= now)
  }

  predicate IsSuffix(leases: seq<Time>, stamps: seq<Time>) {
    |leases| <= |stamps| && leases == stamps[|stamps| - |leases|..]
  }

  /** The unsettled leases that have truly outlived the timeout. */
  function Overdue(l: Ledger, timeout: Duration, now: Time): set<nat> {
    set j | j in l.unsettled && j < |l.stamps| && l.stamps[j] + timeout <= now
  }

  predicate Accounted(k: Key, l: Ledger, timeout: Duration, now: Time) {
    && Ordered(l.stamps, now)
    && (forall j :: j in l.unsettled ==> j < |l.stamps|)
    && IsSuffix(k.leases, l.stamps)
    && |k.leases| + k.orphaned == |l.unsettled|
    && 0 <= k.orphaned <= |Overdue(l, timeout, now)|
    && k.orphaned <= k.reclaimed
  }

  // ----- counting -----

  lemma RangeSize(a: set<nat>, lo: nat, hi: nat)
    requires lo <= hi && forall j :: j in a ==> lo <= j < hi
    ensures |a| <= hi - lo
    decreases hi
  {
    if lo == hi {
      assert a == {};
    } else if hi - 1 in a {
      RangeSize(a - {hi - 1}, lo, hi - 1);
      assert a == (a - {hi - 1}) + {hi - 1};
    } else {
      RangeSize(a, lo, hi - 1);
    }
  }

  /** Unsettled leases older than position `at` number at least unsettled minus the later positions. */
  lemma OlderUnsettled(l: Ledger, at: nat)
    requires at <= |l.stamps| && forall j :: j in l.unsettled ==> j < |l.stamps|
    ensures |set j | j in l.unsettled && j < at| >= |l.unsettled| - (|l.stamps| - at)
  {
    var older := set j | j in l.unsettled && j < at;
    RangeSize(l.unsettled - older, at, |l.stamps|);
    assert l.unsettled == older + (l.unsettled - older);
  }

  // ----- every key transition keeps the invariant -----

  lemma WaitingKeeps(k: Key, l: Ledger, timeout: Duration, from: Time, now: Time)
    requires from <= now && Accounted(k, l, timeout, from)
    ensures Accounted(k, l, timeout, now)
  {
    SubsetSize(Overdue(l, timeout, from), Overdue(l, timeout, now));
  }

  lemma ReclaimKeeps(k: Key, l: Ledger, timeout: Duration, from: Time, now: Time)
    requires timeout > 0 && from <= now && Accounted(k, l, timeout, from)
    ensures Accounted(ReclaimStale(k, timeout, now), l, timeout, now)
  {
    var n := StaleRun(k.leases, now - timeout);
    WaitingKeeps(k, l, timeout, from, now);
    if n > 0 {
      var at := |l.stamps| - |k.leases| + n;
      assert l.stamps[at - 1] == k.leases[n - 1];
      OlderUnsettled(l, at);
      SubsetSize((set j | j in l.unsettled && j < at), Overdue(l, timeout, now));
    }
  }

  lemma AdvanceKeeps(k: Key, l: Ledger, timeout: Duration, window: Duration, start: Time, from: Time, now: Time)
    requires timeout > 0 && from <= now && Accounted(k, l, timeout, from)
    ensures Accounted(AdvanceKey(k, timeout, window, start, now), l, timeout, now)
  {
    ReclaimKeeps(k, l, timeout, from, now);
    AdvanceLeases(k, timeout, window, start, now);
  }

  function Reserved(l: Ledger, now: Time): Ledger {
    Ledger(l.stamps + [now], l.unsettled + {|l.stamps|})
  }

  lemma GrantKeeps(k: Key, l: Ledger, timeout: Duration, now: Time)
    requires timeout > 0 && Accounted(k, l, timeout, now)
    ensures Accounted(Granted(k, now), Reserved(l, now), timeout, now)
  {
    assert |l.stamps| !in l.unsettled;
    SubsetSize(Overdue(l, timeout, now), Overdue(Reserved(l, now), timeout, now));
  }

  function Closed(l: Ledger, lease: nat): Ledger {
    l.(unsettled := l.unsettled - {lease})
  }

  lemma ReleaseKeeps(k: Key, l: Ledger, lease: nat, timeout: Duration, now: Time)
    requires Accounted(k, l, timeout, now) && lease in l.unsettled
    ensures Accounted(Release(k), Closed(l, lease), timeout, now)
    ensures |Release(k).leases| + Release(k).orphaned == |k.leases| + k.orphaned - 1
  {
    assert l.unsettled == Closed(l, lease).unsettled + {lease};
    SubsetSize(Overdue(l, timeout, now), Overdue(Closed(l, lease), timeout, now) + {lease});
  }

  /** What a key's event does to its ledger. */
  function LedgerAfter(l: Ledger, now: Time, e: KeyEvent, lease: nat): Ledger {
    match e
    case Grant => Reserved(l, now)
    case Close(_) => Closed(l, lease)
    case _ => l
  }

  lemma EventKeeps(cfg: Config, k: Key, l: Ledger, start: Time, from: Time, now: Time, e: KeyEvent, lease: nat)
    requires cfg.leaseTimeout > 0 && from <= now && Accounted(k, l, cfg.leaseTimeout, from)
    requires e.Close? ==> lease in l.unsettled
    ensures Accounted(KeyAfter(cfg, k, start, now, e).0, LedgerAfter(l, now, e, lease), cfg.leaseTimeout, now)
  {
    WaitingKeeps(k, l, cfg.leaseTimeout, from, now);
    AdvanceKeeps(k, l, cfg.leaseTimeout, cfg.budget.window, start, from, now);
    var a := Current(cfg, k, start, now);
    match e
    case Grant => GrantKeeps(a, l, cfg.leaseTimeout, now);
    case Close(sample) =>
      ReleaseKeeps(a, l, lease, cfg.leaseTimeout, now);
      SettleLeases(a, cfg.budget, sample);
    case Park(until, reason) => RetireFrame(a, now, until, reason);
    case _ =>
  }

  // ----- runs of the whole store -----

  predicate Known(t: Tracked, route: string, i: int) {
    route in t.state.routes && 0 <= i < |t.state.routes[route].keys|
  }

  predicate Aligned(t: Tracked) {
    && t.ledgers.Keys == t.state.routes.Keys
    && forall route :: route in t.ledgers ==> |t.ledgers[route]| == |t.state.routes[route].keys|
  }

  ghost predicate AllAccounted(cfg: Config, t: Tracked, now: Time) {
    && Aligned(t)
    && forall route, i :: Known(t, route, i) ==>
         Accounted(t.state.routes[route].keys[i], t.ledgers[route][i], cfg.leaseTimeout, now)
  }

  /** A settlement must be the first one of a lease that was really granted (`KeyLease.Settle` fires once). */
  predicate Legal(t: Tracked, c: Call) {
    c.op.Settle? && Known(t, c.op.route, c.op.idx) && Aligned(t) ==>
      c.lease in t.ledgers[c.op.route][c.op.idx].unsettled
  }

  function LedgersAfter(cfg: Config, t: Tracked, c: Call): map<string, seq<Ledger>>
    requires Aligned(t)
  {
    map route | route in t.ledgers ::
      seq(|t.ledgers[route]|, i requires 0 <= i < |t.ledgers[route]| =>
        LedgerAfter(t.ledgers[route][i], c.op.now, EventOf(cfg, t.state, c.op, route, i), c.lease))
  }

  function TrackedStep(cfg: Config, t: Tracked, c: Call): Tracked {
    Tracked(Step(cfg, t.state, c.op).0, if Aligned(t) then LedgersAfter(cfg, t, c) else t.ledgers)
  }

  lemma StepKeepsAccounts(cfg: Config, t: Tracked, c: Call, from: Time)
    requires cfg.leaseTimeout > 0 && from <= c.op.now && AllAccounted(cfg, t, from) && Legal(t, c)
    ensures AllAccounted(cfg, TrackedStep(cfg, t, c), c.op.now)
  {
    hide Step, KeyAfter, StartAfter, Accounted, EventAllowed, LedgerAfter;
    var t' := TrackedStep(cfg, t, c);
    StepShape(cfg, t.state, c.op);
    forall route, i | Known(t', route, i)
      ensures Accounted(t'.state.routes[route].keys[i], t'.ledgers[route][i], cfg.leaseTimeout, c.op.now)
    {
      var rt := t.state.routes[route];
      assert Known(t, route, i);
      StepOnKey(cfg, t.state, c.op, route, i);
      EventKeeps(cfg, rt.keys[i], t.ledgers[route][i], rt.windowStart, from, c.op.now,
                 EventOf(cfg, t.state, c.op, route, i), c.lease);
    }
  }

  // ----- whole runs -----

  function Now(calls: seq<Call>, from: Time): Time {
    if calls == [] then from else calls[|calls| - 1].op.now
  }

  function TrackedRun(cfg: Config, t: Tracked, calls: seq<Call>): Tracked {
    if calls == [] then t else TrackedStep(cfg, TrackedRun(cfg, t, calls[..|calls| - 1]), calls[|calls| - 1])
  }

  /** The clock never steps back and every settlement is legal when it happens. */
  predicate LegalRun(cfg: Config, t: Tracked, calls: seq<Call>, from: Time) {
    calls == []
    || (var (past, c) := (calls[..|calls| - 1], calls[|calls| - 1]);
        LegalRun(cfg, t, past, from) && Now(past, from) <= c.op.now && Legal(TrackedRun(cfg, t, past), c))
  }

  /** A store as constructed: every key fresh, nothing reserved. */
  ghost predicate Unused(t: Tracked) {
    && Aligned(t)
    && forall route, i :: Known(t, route, i) ==>
         t.state.routes[route].keys[i] == FRESH_KEY && t.ledgers[route][i] == Ledger([], {})
  }

  /** In every reachable state the stored stamps are a suffix of the key's history, live and orphaned slots
      together are exactly the unsettled leases, and no more slots are orphaned than leases truly overdue. */
  lemma {:induction false} ReclamationSound(cfg: Config, t: Tracked, calls: seq<Call>, from: Time)
    requires cfg.leaseTimeout > 0 && Unused(t) && LegalRun(cfg, t, calls, from)
    ensures AllAccounted(cfg, TrackedRun(cfg, t, calls), Now(calls, from))
  {
    if calls != [] {
      var past := calls[..|calls| - 1];
      ReclamationSound(cfg, t, past, from);
      StepKeepsAccounts(cfg, TrackedRun(cfg, t, past), calls[|calls| - 1], Now(past, from));
    }
  }

  /** At no call of the run is any unsettled lease overdue. */
  ghost predicate SettledInTime(cfg: Config, t: Tracked, calls: seq<Call>) {
    calls == []
    || (var (past, c) := (calls[..|calls| - 1], calls[|calls| - 1]);
        var before := TrackedRun(cfg, t, past);
        && SettledInTime(cfg, t, past)
        && forall route, i :: Known(before, route, i) && Aligned(before) ==>
             Overdue(before.ledgers[route][i], cfg.leaseTimeout, c.op.now) == {})
  }

  /** A run whose leases all settle within the timeout never reclaims a slot. */
  lemma {:induction false} InTimeNeverReclaims(cfg: Config, t: Tracked, calls: seq<Call>, from: Time, route: string,
                                               i: nat)
    requires cfg.leaseTimeout > 0 && Unused(t) && LegalRun(cfg, t, calls, from) && SettledInTime(cfg, t, calls)
    requires Known(t, route, i)
    ensures var end := TrackedRun(cfg, t, calls);
      Known(end, route, i) && end.state.routes[route].keys[i].reclaimed == 0 == end.state.routes[route].keys[i].orphaned
  {
    if calls != [] {
      var past, c := calls[..|calls| - 1], calls[|calls| - 1];
      var before := TrackedRun(cfg, t, past);
      InTimeNeverReclaims(cfg, t, past, from, route, i);
      ReclamationSound(cfg, t, past, from);
      NothingReclaimed(cfg, before, c, Now(past, from), route, i);
    }
  }

  lemma NothingReclaimed(cfg: Config, t: Tracked, c: Call, from: Time, route: string, i: nat)
    requires cfg.leaseTimeout > 0 && from <= c.op.now && AllAccounted(cfg, t, from) && Known(t, route, i)
    requires Overdue(t.ledgers[route][i], cfg.leaseTimeout, c.op.now) == {}
    ensures var (rt, rt') := (t.state.routes[route], Step(cfg, t.state, c.op).0.routes[route]);
      && i < |rt'.keys|
      && rt'.keys[i].reclaimed == rt.keys[i].reclaimed
      && rt'.keys[i].orphaned == rt.keys[i].orphaned == 0
  {
    var rt, l := t.state.routes[route], t.ledgers[route][i];
    WaitingKeeps(rt.keys[i], l, cfg.leaseTimeout, from, c.op.now);
    ReclaimKeeps(rt.keys[i], l, cfg.leaseTimeout, from, c.op.now);
    StepOnKey(cfg, t.state, c.op, route, i);
    EventReclaims(cfg, rt.keys[i], rt.windowStart, c.op.now, EventOf(cfg, t.state, c.op, route, i));
  }

  /** Only the passing of time reclaims, and an event consumes at most one orphan. */
  lemma EventReclaims(cfg: Config, k: Key, start: Time, now: Time, e: KeyEvent)
    ensures var (r, k') := (ReclaimStale(k, cfg.leaseTimeout, now), KeyAfter(cfg, k, start, now, e).0);
      if e.Idle? then k' == k
      else k'.reclaimed == r.reclaimed
           && k'.orphaned == if e.Close? && r.orphaned > 0 then r.orphaned - 1 else r.orphaned
  {
    var a := Current(cfg, k, start, now);
    AdvanceLeases(k, cfg.leaseTimeout, cfg.budget.window, start, now);
    match e
    case Close(sample) => SettleLeases(a, cfg.budget, sample);
    case Park(until, reason) => RetireFrame(a, now, until, reason);
    case _ =>
  }
}
