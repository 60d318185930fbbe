/** The rotation store as a state machine: one step per critical section.

    The store's mutex makes every exported call atomic, so a concurrent execution is a sequence of
    operations, each carrying the clock reading taken inside its critical section. */
module StoreSpec {
  import opened Arithmetic
  import opened KeyAccounting
  import opened RotationPolicies

  datatype Route = Route(keys: seq<Key>, windowStart: Time)

  datatype Config = Config(kind: PolicyKind, budget: Budget, leaseTimeout: Duration, maxRetryAfter: Duration)

  datatype State = State(routes: map<string, Route>, cursor: nat, fallback: nat)

  const MIN_RETRY_AFTER: Duration := 1_000_000_000
  const DEFAULT_QUOTA_COOLDOWN: Duration := 300_000_000_000

  datatype Refusal = Drained | AdmissionLimited

  datatype Op =
    | Reserve(route: string, now: Time, custom: int)
    | Settle(route: string, now: Time, idx: int, sample: Sample)
    | Retire(route: string, now: Time, idx: int, until: Time, reason: Reason)
    | RetireForWindow(route: string, now: Time, idx: int, reason: Reason)
    | RetryAfter(route: string, now: Time)
    | Snapshot(route: string, now: Time)

  datatype Out =
    | Leased(idx: nat)
    | Refused(refusal: Refusal)
    | Emitted(events: seq<Reason>)
    | NoWait
    | Wait(wait: Duration)
    | Views(views: seq<View>)

  /** Every locked path first brings the whole route up to date with the clock. */
  function Advance(cfg: Config, rt: Route, now: Time): (r: Route)
    ensures |r.keys| == |rt.keys|
  {
    Route(
      seq(|rt.keys|, i requires 0 <= i < |rt.keys| =>
        AdvanceKey(rt.keys[i], cfg.leaseTimeout, cfg.budget.window, rt.windowStart, now)),
      RolledStart(cfg.budget.window, rt.windowStart, now))
  }

  /** The views of the admissible keys below n, in ascending index order. */
  function Candidates(b: Budget, keys: seq<Key>, now: Time, n: nat): seq<View>
    requires n <= |keys|
  {
    if n == 0 then []
    else Candidates(b, keys, now, n - 1)
         + (if Admissible(keys[n - 1], b, now) then [ViewOf(keys[n - 1], n - 1, now)] else [])
  }

  predicate AnySelectable(keys: seq<Key>, now: Time) {
    exists i :: 0 <= i < |keys| && Selectable(keys[i], now)
  }

  /** The least wait among the first n keys. */
  function LeastWait(cfg: Config, rt: Route, now: Time, n: nat): Duration
    requires 0 < n <= |rt.keys|
  {
    var w := WaitFor(rt.keys[n - 1], cfg.budget.window, cfg.maxRetryAfter, rt.windowStart, now);
    if n == 1 then w
    else
      var best := LeastWait(cfg, rt, now, n - 1);
      if w < best then w else best
  }

  function Clamp(w: Duration, max: Duration): Duration {
    var c := if w > max then max else w;
    if c < MIN_RETRY_AFTER then MIN_RETRY_AFTER else c
  }

  function Effective(reason: Reason): Reason {
    if reason == NoReason then Quota else reason
  }

  /** The answer to a call that names no known route. */
  function UnknownRoute(op: Op): Out {
    match op
    case Reserve(_, _, _) => Refused(Drained)
    case RetryAfter(_, _) => NoWait
    case Snapshot(_, _) => Views([])
    case _ => Emitted([])
  }

  function ReserveStep(cfg: Config, s: State, rt: Route, op: Op): (State, Out)
    requires op.Reserve?
  {
    var views := Candidates(cfg.budget, rt.keys, op.now, |rt.keys|);
    if views == [] then
      (s.(routes := s.routes[op.route := rt]),
       Refused(if AnySelectable(rt.keys, op.now) then AdmissionLimited else Drained))
    else
      CandidatesSound(cfg.budget, rt.keys, op.now, |rt.keys|);
      var answer := Answer(cfg.kind, s.cursor, views, op.custom);
      var inRange := 0 <= answer < |views|;
      var pos := if inRange then answer else s.fallback % |views|;
      var idx := views[pos].index;
      (State(s.routes[op.route := rt.(keys := rt.keys[idx := Granted(rt.keys[idx], op.now)])],
             if cfg.kind == Custom then s.cursor else s.cursor + 1,
             if inRange then s.fallback else s.fallback + 1),
       Leased(idx))
  }

  function WithKey(s: State, route: string, rt: Route, idx: nat, r: (Key, seq<Reason>)): (State, Out)
    requires idx < |rt.keys|
  {
    (s.(routes := s.routes[route := rt.(keys := rt.keys[idx := r.0])]), Emitted(r.1))
  }

  /** The instant a quota signal parks a key until. */
  function WindowDeadline(cfg: Config, rt: Route, now: Time): Time {
    if cfg.budget.window > 0 then rt.windowStart + cfg.budget.window else now + DEFAULT_QUOTA_COOLDOWN
  }

  function Step(cfg: Config, s: State, op: Op): (State, Out) {
    if op.route !in s.routes then (s, UnknownRoute(op))
    else
      var keys := s.routes[op.route].keys;
      var rt := Advance(cfg, s.routes[op.route], op.now);
      var advanced := s.(routes := s.routes[op.route := rt]);
      match op
      case Reserve(_, _, _) => ReserveStep(cfg, s, rt, op)
      case Settle(_, now, idx, sample) =>
        if 0 <= idx < |keys| then WithKey(s, op.route, rt, idx, SettleKey(rt.keys[idx], cfg.budget, Normalised(sample)))
        else (s, Emitted([]))
      case Retire(_, now, idx, until, reason) =>
        if 0 <= idx < |keys| then WithKey(s, op.route, rt, idx, RetireKey(rt.keys[idx], now, until, Effective(reason)))
        else (s, Emitted([]))
      case RetireForWindow(_, now, idx, reason) =>
        if 0 <= idx < |keys| then
          WithKey(s, op.route, rt, idx, RetireKey(rt.keys[idx], now, WindowDeadline(cfg, rt, now), Effective(reason)))
        else (s, Emitted([]))
      case RetryAfter(_, now) =>
        if |keys| == 0 then (s, NoWait)
        else if AnySelectable(rt.keys, now) then (advanced, NoWait)
        else (advanced, Wait(Clamp(LeastWait(cfg, rt, now, |keys|), cfg.maxRetryAfter)))
      case Snapshot(_, now) =>
        (advanced, Views(seq(|keys|, i requires 0 <= i < |keys| => ViewOf(rt.keys[i], i, now))))
  }

  /** Every candidate is the view of an admissible key, and candidates come in index order. */
  lemma CandidatesSound(b: Budget, keys: seq<Key>, now: Time, n: nat)
    requires n <= |keys|
    ensures forall j :: 0 <= j < |Candidates(b, keys, now, n)| ==>
      var v := Candidates(b, keys, now, n)[j];
      v.index < n && Admissible(keys[v.index], b, now) && v == ViewOf(keys[v.index], v.index, now)
    ensures forall i, j :: 0 <= i < j < |Candidates(b, keys, now, n)| ==>
      Candidates(b, keys, now, n)[i].index < Candidates(b, keys, now, n)[j].index
  {
  }

  /** No admissible key is missing from the candidates. */
  lemma CandidatesComplete(b: Budget, keys: seq<Key>, now: Time, n: nat, i: nat)
    requires i < n <= |keys| && Admissible(keys[i], b, now)
    ensures ViewOf(keys[i], i, now) in Candidates(b, keys, now, n)
  {
  }

  // ----- runs -----

  /** The clock reading of the last operation. */
  function Clock(ops: seq<Op>, from: Time): Time {
    if ops == [] then from else ops[|ops| - 1].now
  }

  /** The clock never steps backwards. */
  predicate Monotone(ops: seq<Op>, from: Time) {
    && (forall a :: 0 <= a < |ops| ==> from <= ops[a].now)
    && (forall a, b :: 0 <= a <= b < |ops| ==> ops[a].now <= ops[b].now)
  }

  function Run(cfg: Config, s: State, ops: seq<Op>): State {
    if ops == [] then s else Step(cfg, Run(cfg, s, ops[..|ops| - 1]), ops[|ops| - 1]).0
  }

  // ----- what a step does to one key -----

  /** The part of an operation one key sees: nothing, the passing of time, or time and then a change. */
  datatype KeyEvent = Idle | Tick | Grant | Close(sample: Sample) | Park(until: Time, reason: Reason)

  function EventOf(cfg: Config, s: State, op: Op, route: string, i: nat): KeyEvent
    requires route in s.routes
  {
    if op.route != route then Idle
    else
      match op
      case Reserve(_, _, _) => if Step(cfg, s, op).1 == Leased(i) then Grant else Tick
      case RetryAfter(_, _) => Tick
      case Snapshot(_, _) => Tick
      case Settle(_, _, idx, sample) =>
        if idx == i then Close(Normalised(sample)) else if 0 <= idx < |s.routes[route].keys| then Tick else Idle
      case Retire(_, _, idx, until, reason) =>
        if idx == i then Park(until, Effective(reason)) else if 0 <= idx < |s.routes[route].keys| then Tick else Idle
      case RetireForWindow(_, now, idx, reason) =>
        if idx == i then Park(WindowDeadline(cfg, Advance(cfg, s.routes[route], now), now), Effective(reason))
        else if 0 <= idx < |s.routes[route].keys| then Tick else Idle
  }

  function StartAfter(cfg: Config, start: Time, now: Time, e: KeyEvent): Time {
    if e.Idle? then start else RolledStart(cfg.budget.window, start, now)
  }

  function Current(cfg: Config, k: Key, start: Time, now: Time): Key {
    AdvanceKey(k, cfg.leaseTimeout, cfg.budget.window, start, now)
  }

  /** One key's record after an event, and the retirements it emitted. */
  function KeyAfter(cfg: Config, k: Key, start: Time, now: Time, e: KeyEvent): (Key, seq<Reason>) {
    match e
    case Idle => (k, [])
    case Tick => (Current(cfg, k, start, now), [])
    case Grant => (Granted(Current(cfg, k, start, now), now), [])
    case Close(sample) => SettleKey(Current(cfg, k, start, now), cfg.budget, sample)
    case Park(until, reason) => RetireKey(Current(cfg, k, start, now), now, until, reason)
  }

  /** A grant happens only on a key that admission control would admit at that instant. */
  predicate EventAllowed(cfg: Config, k: Key, start: Time, now: Time, e: KeyEvent) {
    e.Grant? ==> Admissible(Current(cfg, k, start, now), cfg.budget, now)
  }

  lemma ReserveOnKey(cfg: Config, s: State, op: Op, i: nat)
    requires op.Reserve? && op.route in s.routes && i < |s.routes[op.route].keys|
    ensures var (s', out) := Step(cfg, s, op);
      var (rt, rt') := (Advance(cfg, s.routes[op.route], op.now), s'.routes[op.route]);
      && rt'.windowStart == rt.windowStart
      && |rt'.keys| == |rt.keys|
      && (out == Leased(i) ==> Admissible(rt.keys[i], cfg.budget, op.now))
      && rt'.keys[i] == if out == Leased(i) then Granted(rt.keys[i], op.now) else rt.keys[i]
  {
    var rt := Advance(cfg, s.routes[op.route], op.now);
    CandidatesSound(cfg.budget, rt.keys, op.now, |rt.keys|);
  }

  /** Every step acts on every key by exactly the event it projects to, and adds or removes no route or key. */
  lemma StepOnKey(cfg: Config, s: State, op: Op, route: string, i: nat)
    requires route in s.routes && i < |s.routes[route].keys|
    ensures var (s', out) := Step(cfg, s, op);
      var (rt, rt', e) := (s.routes[route], s'.routes[route], EventOf(cfg, s, op, route, i));
      && s'.routes.Keys == s.routes.Keys
      && |rt'.keys| == |rt.keys|
      && rt'.windowStart == StartAfter(cfg, rt.windowStart, op.now, e)
      && rt'.keys[i] == KeyAfter(cfg, rt.keys[i], rt.windowStart, op.now, e).0
      && EventAllowed(cfg, rt.keys[i], rt.windowStart, op.now, e)
      && (e.Close? || e.Park? ==> out == Emitted(KeyAfter(cfg, rt.keys[i], rt.windowStart, op.now, e).1))
  {
    if op.route == route && op.Reserve? {
      ReserveOnKey(cfg, s, op, i);
    }
  }

  /** No operation adds or removes a route or a key. */
  lemma StepShape(cfg: Config, s: State, op: Op)
    ensures var s' := Step(cfg, s, op).0;
      s'.routes.Keys == s.routes.Keys && forall r :: r in s.routes ==> |s'.routes[r].keys| == |s.routes[r].keys|
  {
    forall r | r in s.routes
      ensures var s' := Step(cfg, s, op).0;
        s'.routes.Keys == s.routes.Keys && |s'.routes[r].keys| == |s.routes[r].keys|
    {
      if |s.routes[r].keys| > 0 {
        StepOnKey(cfg, s, op, r, 0);
      }
    }
  }

  // ----- the window a clock reading falls in -----

  lemma WindowContains(window: Duration, start: Time, now: Time)
    ensures start <= RolledStart(window, start, now)
    ensures window > 0 ==> now < RolledStart(window, start, now) + window
    ensures start <= now ==> RolledStart(window, start, now) <= now
    ensures WindowExpired(window, start, now) ==> start + window <= RolledStart(window, start, now)
  {
    if WindowExpired(window, start, now) {
      var d := now - start;
      assert d == d / window * window + d % window;
      if d / window < 1 {
        MulMonotone(d / window, 0, window);
      } else {
        MulMonotone(1, d / window, window);
      }
    }
  }

  /** The event finds the route's window over. */
  predicate Rolls(cfg: Config, start: Time, now: Time, e: KeyEvent) {
    !e.Idle? && WindowExpired(cfg.budget.window, start, now)
  }

  /** Windows only move forward. */
  lemma RollsForward(cfg: Config, start: Time, now: Time, e: KeyEvent)
    ensures if Rolls(cfg, start, now, e) then StartAfter(cfg, start, now, e) > start
            else StartAfter(cfg, start, now, e) == start
  {
    WindowContains(cfg.budget.window, start, now);
  }
}
