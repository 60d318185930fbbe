/** The proxy handlers that use the store: one settlement per lease, and an audit trail that adds up.

    Any number of handlers run at once; every step below is one store call or one audit line, and steps of
    different handlers interleave freely. A handler may die at any point after it was leased a key. */
module Gateway {
  import opened Options
  import opened KeyAccounting
  import opened StoreSpec
  import opened LeaseLedger
  import BudgetCaps
  import KeyHistory

  // ----- what a response is charged -----

  /** What an upstream status allows to be charged. */
  function ChargeableSample(status: int, sample: Sample): Sample {
    if status >= 500 then Sample(Failed, 0, false)
    else if status >= 300 && sample.tokens == TOKENS_UNKNOWN then Sample(Completed, 0, false)
    else sample
  }

  /** The figure an audit line reports for a settled sample. */
  function ChargedTokensFor(rotation: Option<Budget>, sample: Sample): int {
    if sample.outcome.Failed? then 0
    else if sample.tokens != TOKENS_UNKNOWN then sample.tokens
    else if rotation.None? then 0
    else rotation.value.estimateTokens
  }

  /** A route without a rotation block gets a store with the zero budget. */
  predicate BudgetOf(rotation: Option<Budget>, b: Budget) {
    b.estimateTokens == if rotation.None? then 0 else rotation.value.estimateTokens
  }

  /** The audit figure is the store's charge exactly when a completed sample's count is genuine, marked
      unknown, or happens to equal the estimate a malformed negative count is charged. */
  lemma AuditFigureExact(rotation: Option<Budget>, b: Budget, s: Sample)
    requires BudgetOf(rotation, b)
    ensures ChargedTokensFor(rotation, s) == Charge(Normalised(s), b)
            <==> s.outcome.Failed? || s.tokens >= TOKENS_UNKNOWN || s.tokens == b.estimateTokens
  {
  }

  datatype Signal = Signal(retires: bool, until: Time, reason: Reason)

  /** What a response means for the key that served it. */
  datatype Verdict = Keep | ParkWindow | ParkUntil(until: Time, reason: Reason)

  predicate IsQuotaStatus(status: int) {
    status == 429 || status == 402
  }

  /** A vendor's own code wins over the HTTP status; one that absolves the key suppresses retirement. */
  function VerdictFor(status: int, signal: Option<Signal>): Verdict {
    match signal
    case Some(sig) => if sig.retires then ParkUntil(sig.until, sig.reason) else Keep
    case None => if IsQuotaStatus(status) then ParkWindow else Keep
  }

  // ----- handlers -----

  datatype Handler =
    | Arriving
    | Refusing
    | Holding(idx: nat, lease: nat)
    | Answered(idx: nat, lease: nat, sample: Sample, verdict: Verdict)
    | Judged(idx: nat, lease: nat, sample: Sample)
    | Charged(sample: Sample)
    | Reported(pending: Option<(nat, nat)>)
    | Finished(leased: bool)

  /** The lease a handler has taken and not settled. */
  function Unsettled(h: Handler): Option<(nat, nat)> {
    match h
    case Holding(idx, lease) => Some((idx, lease))
    case Answered(idx, lease, _, _) => Some((idx, lease))
    case Judged(idx, lease, _) => Some((idx, lease))
    case Reported(pending) => pending
    case _ => None
  }

  /** The steps of a handler. A health probe is a handler that only takes a snapshot; one that is refused a key because
      the route is drained asks for the wait to advertise before it answers. */
  datatype Move =
    | Acquire(now: Time, custom: int)
    | Advise(now: Time)
    | Probe(now: Time)
    | ForwardFails
    | Answer(status: int, usage: Sample, signal: Option<Signal>)
    | Judge(now: Time)
    | Settle(now: Time)
    | Report
    | Leave(now: Time)
    | Die(now: Time)

  /** The gateway around one route's store: handlers, audit lines, the calls made so far, and what a dying
      handler had been charged but not reported. `settlements[h]` counts the settlements of handler h. */
  datatype World = World(
    tracked: Tracked,
    handlers: seq<Handler>,
    settlements: seq<nat>,
    audit: seq<int>,
    calls: seq<Call>,
    lost: int)

  datatype Setup = Setup(cfg: Config, rotation: Option<Budget>, route: string, start: Tracked)

  const FAILURE := Sample(Failed, 0, false)

  function Calling(g: Setup, w: World, c: Call): World {
    w.(tracked := TrackedStep(g.cfg, w.tracked, c), calls := w.calls + [c])
  }

  function SettleCall(g: Setup, now: Time, at: (nat, nat), sample: Sample): Call {
    Call(Op.Settle(g.route, now, at.0, sample), at.1)
  }

  function Become(w: World, h: nat, next: Handler): World
    requires h < |w.handlers|
  {
    w.(handlers := w.handlers[h := next])
  }

  /** Settling through the lease's guard: the handler settles only what it still holds. */
  function SettleOnce(g: Setup, w: World, h: nat, now: Time, sample: Sample, next: Handler): World
    requires h < |w.handlers| == |w.settlements|
  {
    match Unsettled(w.handlers[h])
    case None => Become(w, h, next)
    case Some(at) =>
      Become(Calling(g, w, SettleCall(g, now, at, sample)), h, next)
        .(settlements := w.settlements[h := w.settlements[h] + 1])
  }

  predicate Enabled(w: World, h: nat, st: Move) {
    && h < |w.handlers| == |w.settlements|
    && match st
       case Acquire(_, _) => w.handlers[h].Arriving?
       case Advise(_) => w.handlers[h].Refusing?
       case Probe(_) => w.handlers[h].Arriving?
       case ForwardFails => w.handlers[h].Holding?
       case Answer(_, _, _) => w.handlers[h].Holding?
       case Judge(_) => w.handlers[h].Answered?
       case Settle(_) => w.handlers[h].Judged?
       case Report => w.handlers[h].Charged?
       case Leave(_) => w.handlers[h].Reported?
       case Die(_) => !w.handlers[h].Arriving? && !w.handlers[h].Refusing? && !w.handlers[h].Finished?
  }

  /** The lease identity a grant on key idx creates. */
  function NextLease(g: Setup, w: World, idx: nat): nat {
    if g.route in w.tracked.ledgers && idx < |w.tracked.ledgers[g.route]|
    then |w.tracked.ledgers[g.route][idx].stamps| else 0
  }

  function Next(g: Setup, w: World, h: nat, st: Move): World
    requires Enabled(w, h, st)
  {
    match st
    case Acquire(now, custom) =>
      var op := Op.Reserve(g.route, now, custom);
      var out := Step(g.cfg, w.tracked.state, op).1;
      var w' := Calling(g, w, Call(op, 0));
      if out.Leased? then Become(w', h, Holding(out.idx, NextLease(g, w, out.idx)))
      else if out == Refused(Drained) then Become(w', h, Refusing)
      else Become(w', h, Finished(false)).(audit := w.audit + [0])
    case Advise(now) =>
      Become(Calling(g, w, Call(Op.RetryAfter(g.route, now), 0)), h, Finished(false)).(audit := w.audit + [0])
    case Probe(now) => Become(Calling(g, w, Call(Op.Snapshot(g.route, now), 0)), h, Finished(false))
    case ForwardFails =>
      Become(w, h, Reported(Unsettled(w.handlers[h]))).(audit := w.audit + [0])
    case Answer(status, usage, signal) =>
      var at := w.handlers[h];
      Become(w, h, Answered(at.idx, at.lease, ChargeableSample(status, usage), VerdictFor(status, signal)))
    case Judge(now) =>
      var at := w.handlers[h];
      var w' := match at.verdict
        case Keep => w
        case ParkWindow => Calling(g, w, Call(Op.RetireForWindow(g.route, now, at.idx, Quota), 0))
        case ParkUntil(until, reason) => Calling(g, w, Call(Op.Retire(g.route, now, at.idx, until, reason), 0));
      Become(w', h, Judged(at.idx, at.lease, at.sample))
    case Settle(now) =>
      SettleOnce(g, w, h, now, w.handlers[h].sample, Charged(w.handlers[h].sample))
    case Report =>
      Become(w, h, Reported(None)).(audit := w.audit + [ChargedTokensFor(g.rotation, w.handlers[h].sample)])
    case Leave(now) => SettleOnce(g, w, h, now, FAILURE, Finished(true))
    case Die(now) =>
      SettleOnce(g, w, h, now, FAILURE, Finished(true)).(lost := w.lost + Unreported(g.rotation, w.handlers[h]))
  }

  // ----- what the store charged -----

  /** The tokens an operation really added to a key's counter. */
  function TokensAdded(cfg: Config, s: State, op: Op): int {
    if op.Settle? && op.route in s.routes && 0 <= op.idx < |s.routes[op.route].keys| then
      Step(cfg, s, op).0.routes[op.route].keys[op.idx].tokens
      - Advance(cfg, s.routes[op.route], op.now).keys[op.idx].tokens
    else 0
  }

  function StoreTotal(cfg: Config, t: Tracked, calls: seq<Call>): int {
    if calls == [] then 0
    else StoreTotal(cfg, t, calls[..|calls| - 1])
         + TokensAdded(cfg, TrackedRun(cfg, t, calls[..|calls| - 1]).state, calls[|calls| - 1].op)
  }

  lemma TokensAddedExact(cfg: Config, s: State, op: Op)
    ensures TokensAdded(cfg, s, op)
         == if op.Settle? && op.route in s.routes && 0 <= op.idx < |s.routes[op.route].keys|
            then Charge(Normalised(op.sample), cfg.budget) else 0
  {
    if op.Settle? && op.route in s.routes && 0 <= op.idx < |s.routes[op.route].keys| {
      hide SettleKey, AdvanceKey, RolledStart;
      SettleCounters(Advance(cfg, s.routes[op.route], op.now).keys[op.idx], cfg.budget, Normalised(op.sample));
    }
  }

  // ----- sums over handlers and audit lines -----

  function Sum(xs: seq<int>): int {
    if xs == [] then 0 else Sum(xs[..|xs| - 1]) + xs[|xs| - 1]
  }

  /** What a handler has been charged and not yet reported. */
  function Unreported(rotation: Option<Budget>, h: Handler): int {
    if h.Charged? then ChargedTokensFor(rotation, h.sample) else 0
  }

  function Pending(rotation: Option<Budget>, hs: seq<Handler>): int {
    if hs == [] then 0 else Pending(rotation, hs[..|hs| - 1]) + Unreported(rotation, hs[|hs| - 1])
  }

  lemma {:induction false} PendingUpdate(rotation: Option<Budget>, hs: seq<Handler>, i: nat, h: Handler)
    requires i < |hs|
    ensures Pending(rotation, hs[i := h])
         == Pending(rotation, hs) - Unreported(rotation, hs[i]) + Unreported(rotation, h)
  {
    var n := |hs| - 1;
    if i == n {
      assert hs[i := h][..n] == hs[..n];
    } else {
      assert hs[i := h][..n] == hs[..n][i := h];
      PendingUpdate(rotation, hs[..n], i, h);
    }
  }

  // ----- one settlement per lease -----

  /** How many times a handler in this phase has settled. */
  function Settlements(h: Handler): nat {
    match h
    case Charged(_) => 1
    case Reported(pending) => if pending.None? then 1 else 0
    case Finished(leased) => if leased then 1 else 0
    case _ => 0
  }

  predicate SettledOnce(w: World) {
    && |w.settlements| == |w.handlers|
    && forall h :: 0 <= h < |w.handlers| ==> w.settlements[h] == Settlements(w.handlers[h])
  }

  lemma NextSettlesOnce(g: Setup, w: World, h: nat, st: Move)
    requires SettledOnce(w) && Enabled(w, h, st)
    ensures SettledOnce(Next(g, w, h, st))
  {
    hide Step, TrackedStep;
  }

  // ----- the store call a step makes -----

  function CallOf(g: Setup, w: World, h: nat, st: Move): Option<Call>
    requires Enabled(w, h, st)
  {
    match st
    case Acquire(now, custom) => Some(Call(Op.Reserve(g.route, now, custom), 0))
    case Advise(now) => Some(Call(Op.RetryAfter(g.route, now), 0))
    case Probe(now) => Some(Call(Op.Snapshot(g.route, now), 0))
    case Judge(now) =>
      (match w.handlers[h].verdict
       case Keep => None
       case ParkWindow => Some(Call(Op.RetireForWindow(g.route, now, w.handlers[h].idx, Quota), 0))
       case ParkUntil(until, reason) => Some(Call(Op.Retire(g.route, now, w.handlers[h].idx, until, reason), 0)))
    case Settle(now) => Some(SettleCall(g, now, (w.handlers[h].idx, w.handlers[h].lease), w.handlers[h].sample))
    case Leave(now) => ClosingCall(g, w.handlers[h], now)
    case Die(now) => ClosingCall(g, w.handlers[h], now)
    case _ => None
  }

  /** The deferred settlement: a failure, if the lease is still held. */
  function ClosingCall(g: Setup, h: Handler, now: Time): Option<Call> {
    match Unsettled(h)
    case None => None
    case Some(at) => Some(SettleCall(g, now, at, FAILURE))
  }

  lemma NextMakesCall(g: Setup, w: World, h: nat, st: Move)
    requires Enabled(w, h, st)
    ensures var (w', c) := (Next(g, w, h, st), CallOf(g, w, h, st));
      if c.None? then w'.tracked == w.tracked && w'.calls == w.calls
      else w'.tracked == TrackedStep(g.cfg, w.tracked, c.value) && w'.calls == w.calls + [c.value]
  {
    hide Step, TrackedStep;
  }

  // ----- every settlement is the first one of a real lease -----

  /** The handler's unsettled lease, if any, is one the store really granted and nobody has settled. */
  predicate Holds(w: World, route: string, h: nat)
    requires h < |w.handlers|
  {
    match Unsettled(w.handlers[h])
    case None => true
    case Some(at) =>
      route in w.tracked.ledgers && at.0 < |w.tracked.ledgers[route]|
      && at.1 in w.tracked.ledgers[route][at.0].unsettled
  }

  predicate Apart(w: World, a: nat, b: nat)
    requires a < |w.handlers| && b < |w.handlers|
  {
    Unsettled(w.handlers[a]).Some? ==> Unsettled(w.handlers[a]) != Unsettled(w.handlers[b])
  }

  predicate HeldApart(w: World, route: string) {
    && (forall h :: 0 <= h < |w.handlers| ==> Holds(w, route, h))
    && (forall a, b :: 0 <= a < |w.handlers| && 0 <= b < |w.handlers| && a != b ==> Apart(w, a, b))
  }

  lemma CallsAreLegal(g: Setup, w: World, h: nat, st: Move)
    requires Enabled(w, h, st) && HeldApart(w, g.route)
    ensures CallOf(g, w, h, st).Some? ==> Legal(w.tracked, CallOf(g, w, h, st).value)
  {
    assert Holds(w, g.route, h);
  }

  /** A call changes only the ledger entry it names. */
  lemma LedgerEffect(g: Setup, t: Tracked, c: Call, i: nat)
    requires Aligned(t) && c.op.route == g.route && Known(t, g.route, i)
    ensures var t' := TrackedStep(g.cfg, t, c);
      && g.route in t'.ledgers && |t'.ledgers[g.route]| == |t.ledgers[g.route]|
      && t'.ledgers[g.route][i] ==
           if c.op.Reserve? && Step(g.cfg, t.state, c.op).1 == Leased(i) then Reserved(t.ledgers[g.route][i], c.op.now)
           else if c.op.Settle? && c.op.idx == i then Closed(t.ledgers[g.route][i], c.lease)
           else t.ledgers[g.route][i]
  {
    hide Step;
  }

  lemma HandlersKept(g: Setup, w: World, h: nat, st: Move, a: nat)
    requires Enabled(w, h, st) && a < |w.handlers|
    ensures var w' := Next(g, w, h, st);
      && |w'.handlers| == |w.handlers|
      && (a != h ==> w'.handlers[a] == w.handlers[a])
      && match st
         case Acquire(now, custom) =>
           var out := Step(g.cfg, w.tracked.state, Op.Reserve(g.route, now, custom)).1;
           Unsettled(w'.handlers[h]) == if out.Leased? then Some((out.idx, NextLease(g, w, out.idx))) else None
         case Settle(_) => Unsettled(w'.handlers[h]) == None
         case Leave(_) => Unsettled(w'.handlers[h]) == None
         case Die(_) => Unsettled(w'.handlers[h]) == None
         case _ => Unsettled(w'.handlers[h]) == Unsettled(w.handlers[h])
  {
    hide Step, TrackedStep;
  }

  /** Everyone else's lease survives a step. */
  lemma OthersHold(g: Setup, w: World, h: nat, st: Move, a: nat)
    requires Enabled(w, h, st) && HeldApart(w, g.route) && Aligned(w.tracked) && a < |w.handlers| && a != h
    ensures a < |Next(g, w, h, st).handlers| && Holds(Next(g, w, h, st), g.route, a)
  {
    hide Step, TrackedStep, Next;
    HandlersKept(g, w, h, st, a);
    NextMakesCall(g, w, h, st);
    assert Holds(w, g.route, a) && Apart(w, a, h);
    var at := Unsettled(w.handlers[a]);
    if at.Some? && CallOf(g, w, h, st).Some? {
      LedgerEffect(g, w.tracked, CallOf(g, w, h, st).value, at.value.0);
    }
  }

  lemma SelfHolds(g: Setup, w: World, h: nat, st: Move)
    requires Enabled(w, h, st) && HeldApart(w, g.route) && Aligned(w.tracked)
    ensures h < |Next(g, w, h, st).handlers| && Holds(Next(g, w, h, st), g.route, h)
  {
    hide Step, TrackedStep, Next;
    HandlersKept(g, w, h, st, h);
    NextMakesCall(g, w, h, st);
    assert Holds(w, g.route, h);
    if st.Acquire? {
      var op := Op.Reserve(g.route, st.now, st.custom);
      var out := Step(g.cfg, w.tracked.state, op).1;
      if out.Leased? {
        LeasedKnown(g.cfg, w.tracked.state, op);
        LedgerEffect(g, w.tracked, Call(op, 0), out.idx);
      }
    } else if st.Judge? && CallOf(g, w, h, st).Some? {
      LedgerEffect(g, w.tracked, CallOf(g, w, h, st).value, w.handlers[h].idx);
    }
  }

  lemma LeasedKnown(cfg: Config, s: State, op: Op)
    requires op.Reserve? && Step(cfg, s, op).1.Leased?
    ensures op.route in s.routes && Step(cfg, s, op).1.idx < |s.routes[op.route].keys|
  {
    hide AdvanceKey, Admissible, RolledStart;
    if op.route in s.routes {
      var rt := Advance(cfg, s.routes[op.route], op.now);
      CandidatesSound(cfg.budget, rt.keys, op.now, |rt.keys|);
    }
  }

  lemma StayApart(g: Setup, w: World, h: nat, st: Move, a: nat, b: nat, now: Time)
    requires Enabled(w, h, st) && HeldApart(w, g.route) && AllAccounted(g.cfg, w.tracked, now)
    requires a < |w.handlers| && b < |w.handlers| && a != b
    ensures var w' := Next(g, w, h, st);
      |w'.handlers| == |w.handlers| && Apart(w', a, b)
  {
    hide Step, TrackedStep, Next;
    HandlersKept(g, w, h, st, a);
    HandlersKept(g, w, h, st, b);
    assert Apart(w, a, b) && Holds(w, g.route, a) && Holds(w, g.route, b);
    if st.Acquire? {
      var op := Op.Reserve(g.route, st.now, st.custom);
      var out := Step(g.cfg, w.tracked.state, op).1;
      if out.Leased? {
        LeasedKnown(g.cfg, w.tracked.state, op);
        assert Known(w.tracked, g.route, out.idx);
        var l := w.tracked.ledgers[g.route][out.idx];
        assert Accounted(w.tracked.state.routes[g.route].keys[out.idx], l, g.cfg.leaseTimeout, now);
        assert |l.stamps| !in l.unsettled;
      }
    }
  }

  lemma NextHeldApart(g: Setup, w: World, h: nat, st: Move, now: Time)
    requires Enabled(w, h, st) && HeldApart(w, g.route) && AllAccounted(g.cfg, w.tracked, now)
    ensures HeldApart(Next(g, w, h, st), g.route)
  {
    hide Step, TrackedStep, Next, Holds, Apart, AllAccounted;
    var w' := Next(g, w, h, st);
    assert Aligned(w.tracked) by { AccountedAligned(g.cfg, w.tracked, now); }
    HandlersKept(g, w, h, st, h);
    SelfHolds(g, w, h, st);
    forall a | 0 <= a < |w'.handlers|
      ensures Holds(w', g.route, a)
    {
      if a != h { OthersHold(g, w, h, st, a); }
    }
    forall a, b | 0 <= a < |w'.handlers| && 0 <= b < |w'.handlers| && a != b
      ensures Apart(w', a, b)
    {
      StayApart(g, w, h, st, a, b, now);
    }
  }

  lemma AccountedAligned(cfg: Config, t: Tracked, now: Time)
    requires AllAccounted(cfg, t, now)
    ensures Aligned(t)
  {
  }

  // ----- the books balance -----

  predicate Genuine(h: Handler) {
    h.Answered? || h.Judged? || h.Charged? ==> h.sample.tokens >= TOKENS_UNKNOWN
  }

  predicate AllGenuine(w: World) {
    forall h :: 0 <= h < |w.handlers| ==> Genuine(w.handlers[h])
  }

  /** An extractor reports a count that was really there, or none. */
  predicate HonestUsage(st: Move) {
    st.Answer? ==> st.usage.tokens >= TOKENS_UNKNOWN
  }

  lemma NextGenuine(g: Setup, w: World, h: nat, st: Move)
    requires Enabled(w, h, st) && AllGenuine(w) && HonestUsage(st)
    ensures AllGenuine(Next(g, w, h, st))
  {
    hide Step, TrackedStep;
    assert Genuine(w.handlers[h]);
  }

  predicate Balanced(g: Setup, w: World) {
    StoreTotal(g.cfg, g.start, w.calls) == Sum(w.audit) + Pending(g.rotation, w.handlers) + w.lost
  }

  /** What a step adds to the store's total. */
  function Added(g: Setup, w: World, h: nat, st: Move): int
    requires Enabled(w, h, st)
  {
    match CallOf(g, w, h, st)
    case None => 0
    case Some(c) => TokensAdded(g.cfg, w.tracked.state, c.op)
  }

  lemma StoreTotalGrows(g: Setup, w: World, h: nat, st: Move)
    requires Enabled(w, h, st) && w.tracked == TrackedRun(g.cfg, g.start, w.calls)
    ensures var w' := Next(g, w, h, st);
      && StoreTotal(g.cfg, g.start, w'.calls) == StoreTotal(g.cfg, g.start, w.calls) + Added(g, w, h, st)
      && w'.tracked == TrackedRun(g.cfg, g.start, w'.calls)
  {
    hide Step, TrackedStep, Next, TokensAdded;
    NextMakesCall(g, w, h, st);
    match CallOf(g, w, h, st)
    case None =>
    case Some(c) => assert (w.calls + [c])[..|w.calls|] == w.calls;
  }

  /** A settlement adds what the audit line will say; every other call adds nothing. */
  lemma AddedExact(g: Setup, w: World, h: nat, st: Move)
    requires Enabled(w, h, st) && HeldApart(w, g.route) && Aligned(w.tracked) && AllGenuine(w)
    requires BudgetOf(g.rotation, g.cfg.budget)
    ensures Added(g, w, h, st) == if st.Settle? then ChargedTokensFor(g.rotation, w.handlers[h].sample) else 0
  {
    hide Step, TokensAdded;
    assert Holds(w, g.route, h) && Genuine(w.handlers[h]);
    match CallOf(g, w, h, st)
    case None =>
    case Some(c) =>
      TokensAddedExact(g.cfg, w.tracked.state, c.op);
      if st.Settle? {
        AuditFigureExact(g.rotation, g.cfg.budget, w.handlers[h].sample);
      }
  }

  lemma SumAppend(xs: seq<int>, x: int)
    ensures Sum(xs + [x]) == Sum(xs) + x
  {
    assert (xs + [x])[..|xs|] == xs;
  }

  /** Only settling, reporting and dying move anything between the three places a charge can be. */
  lemma BooksMove(g: Setup, w: World, h: nat, st: Move)
    requires Enabled(w, h, st)
    ensures var w' := Next(g, w, h, st);
      Sum(w'.audit) + Pending(g.rotation, w'.handlers) + w'.lost
        == Sum(w.audit) + Pending(g.rotation, w.handlers) + w.lost
           + if st.Settle? then ChargedTokensFor(g.rotation, w.handlers[h].sample) else 0
  {
    hide Step, TrackedStep, Sum, Pending, ChargedTokensFor;
    var w' := Next(g, w, h, st);
    SumAppend(w.audit, 0);
    if st.Report? {
      SumAppend(w.audit, ChargedTokensFor(g.rotation, w.handlers[h].sample));
    }
    PendingUpdate(g.rotation, w.handlers, h, w'.handlers[h]);
    assert w'.handlers == w.handlers[h := w'.handlers[h]];
  }

  // ----- whole runs -----

  datatype Action = Action(h: nat, move: Move)

  /** The clock reading a move makes, or the last one if it makes none. */
  function At(st: Move, clock: Time): Time {
    match st
    case Acquire(now, _) => now
    case Advise(now) => now
    case Probe(now) => now
    case Judge(now) => now
    case Settle(now) => now
    case Leave(now) => now
    case Die(now) => now
    case _ => clock
  }

  ghost predicate Sound(g: Setup, w: World, from: Time, clock: Time) {
    && w.tracked == TrackedRun(g.cfg, g.start, w.calls)
    && LegalRun(g.cfg, g.start, w.calls, from) && Now(w.calls, from) <= clock
    && SettledOnce(w) && HeldApart(w, g.route) && AllGenuine(w) && Balanced(g, w)
  }

  lemma NextSound(g: Setup, w: World, h: nat, st: Move, from: Time, clock: Time)
    requires g.cfg.leaseTimeout > 0 && Unused(g.start) && BudgetOf(g.rotation, g.cfg.budget)
    requires Sound(g, w, from, clock) && Enabled(w, h, st) && HonestUsage(st) && clock <= At(st, clock)
    ensures Sound(g, Next(g, w, h, st), from, At(st, clock))
  {
    hide Step, TrackedStep, Next, SettledOnce, HeldApart, AllGenuine, StoreTotal, Sum,
         Pending, AllAccounted, Added, Unused, Legal;
    var w' := Next(g, w, h, st);
    ReclamationSound(g.cfg, g.start, w.calls, from);
    AccountedAligned(g.cfg, w.tracked, Now(w.calls, from));
    NextSettlesOnce(g, w, h, st);
    NextHeldApart(g, w, h, st, Now(w.calls, from));
    NextGenuine(g, w, h, st);
    StoreTotalGrows(g, w, h, st);
    AddedExact(g, w, h, st);
    BooksMove(g, w, h, st);
    NextMakesCall(g, w, h, st);
    CallsAreLegal(g, w, h, st);
    match CallOf(g, w, h, st)
    case None =>
    case Some(c) =>
      assert (w.calls + [c])[..|w.calls|] == w.calls;
      assert c.op.now == At(st, clock);
  }

  function Opening(g: Setup, n: nat): World {
    World(g.start, seq(n, _ => Arriving), seq(n, _ => 0), [], [], 0)
  }

  /** The world after the actions, skipping any that is not enabled when its turn comes. */
  function Play(g: Setup, n: nat, actions: seq<Action>): World {
    if actions == [] then Opening(g, n)
    else
      var w, a := Play(g, n, actions[..|actions| - 1]), actions[|actions| - 1];
      if Enabled(w, a.h, a.move) then Next(g, w, a.h, a.move) else w
  }

  function ClockAfter(g: Setup, n: nat, actions: seq<Action>, from: Time): Time {
    if actions == [] then from
    else
      var past, a := actions[..|actions| - 1], actions[|actions| - 1];
      var clock := ClockAfter(g, n, past, from);
      if Enabled(Play(g, n, past), a.h, a.move) then At(a.move, clock) else clock
  }

  /** Each action reads a clock that has not stepped back, and each usage count was really extracted. */
  predicate FairPlay(g: Setup, n: nat, actions: seq<Action>, from: Time) {
    forall i :: 0 <= i < |actions| ==>
      HonestUsage(actions[i].move)
      && ClockAfter(g, n, actions[..i], from) <= At(actions[i].move, ClockAfter(g, n, actions[..i], from))
  }

  lemma {:induction false} PlaySound(g: Setup, n: nat, actions: seq<Action>, from: Time)
    requires g.cfg.leaseTimeout > 0 && Unused(g.start) && BudgetOf(g.rotation, g.cfg.budget)
    requires FairPlay(g, n, actions, from)
    ensures Sound(g, Play(g, n, actions), from, ClockAfter(g, n, actions, from))
  {
    hide Step, TrackedStep, Next, Unused, Enabled;
    if actions == [] {
      OpeningSound(g, n, from);
    } else {
      hide Sound;
      var past, a := actions[..|actions| - 1], actions[|actions| - 1];
      forall i | 0 <= i < |past|
        ensures past[..i] == actions[..i]
      {
      }
      PlaySound(g, n, past, from);
      if Enabled(Play(g, n, past), a.h, a.move) {
        NextSound(g, Play(g, n, past), a.h, a.move, from, ClockAfter(g, n, past, from));
      }
    }
  }

  lemma OpeningSound(g: Setup, n: nat, from: Time)
    ensures Sound(g, Opening(g, n), from, from)
  {
    NothingPending(g.rotation, n);
  }

  lemma {:induction false} NothingPending(rotation: Option<Budget>, n: nat)
    ensures Pending(rotation, seq(n, _ => Arriving)) == 0
  {
    if n > 0 {
      var hs: seq<Handler> := seq(n, _ => Arriving);
      assert hs[..n - 1] == seq(n - 1, _ => Arriving);
      NothingPending(rotation, n - 1);
    }
  }

  predicate AllDone(w: World) {
    forall h :: 0 <= h < |w.handlers| ==> w.handlers[h].Finished?
  }

  lemma {:induction false} NonePendingWhenDone(rotation: Option<Budget>, hs: seq<Handler>)
    requires forall h :: 0 <= h < |hs| ==> hs[h].Finished?
    ensures Pending(rotation, hs) == 0
  {
    if hs != [] {
      NonePendingWhenDone(rotation, hs[..|hs| - 1]);
    }
  }

  /** However any number of handlers interleave: when all are done, every lease has been settled exactly once
      and the audit trail sums to what the store charged, short only of what handlers that died between
      settling and reporting had been charged. */
  lemma AuditReconciles(g: Setup, n: nat, actions: seq<Action>, from: Time)
    requires g.cfg.leaseTimeout > 0 && Unused(g.start) && BudgetOf(g.rotation, g.cfg.budget)
    requires FairPlay(g, n, actions, from) && AllDone(Play(g, n, actions))
    ensures var w := Play(g, n, actions);
      && StoreTotal(g.cfg, g.start, w.calls) == Sum(w.audit) + w.lost
      && |w.settlements| == |w.handlers|
      && forall h :: 0 <= h < |w.handlers| ==> w.settlements[h] == if w.handlers[h].leased then 1 else 0
  {
    hide Step, TrackedStep, Next, Unused, Enabled, Play, StoreTotal, LegalRun, TrackedRun;
    PlaySound(g, n, actions, from);
    NonePendingWhenDone(g.rotation, Play(g, n, actions).handlers);
  }

  /** The calls any gateway run makes are a legal run of the store, so everything proved of legal runs -
      sound reclamation, exact request caps, bounded token overshoot - holds of the gateway's store. */
  lemma GatewayRunsAreLegal(g: Setup, n: nat, actions: seq<Action>, from: Time)
    requires g.cfg.leaseTimeout > 0 && Unused(g.start) && BudgetOf(g.rotation, g.cfg.budget)
    requires FairPlay(g, n, actions, from)
    ensures var w := Play(g, n, actions);
      LegalRun(g.cfg, g.start, w.calls, from) && w.tracked == TrackedRun(g.cfg, g.start, w.calls)
  {
    hide Step, TrackedStep, Next, Unused, Enabled, Play, StoreTotal, LegalRun, TrackedRun;
    PlaySound(g, n, actions, from);
  }

  // ----- what is lost -----

  /** The figures of the handlers that died after settling and before reporting. */
  function Deaths(g: Setup, n: nat, actions: seq<Action>): seq<int> {
    if actions == [] then []
    else
      var past, a := actions[..|actions| - 1], actions[|actions| - 1];
      var w := Play(g, n, past);
      Deaths(g, n, past)
      + if a.move.Die? && Enabled(w, a.h, a.move) && w.handlers[a.h].Charged?
        then [ChargedTokensFor(g.rotation, w.handlers[a.h].sample)] else []
  }

  lemma NextLost(g: Setup, w: World, h: nat, st: Move)
    requires Enabled(w, h, st)
    ensures Next(g, w, h, st).lost
         == if st.Die? && w.handlers[h].Charged? then w.lost + ChargedTokensFor(g.rotation, w.handlers[h].sample)
            else w.lost
  {
    hide Step, TrackedStep, ChargedTokensFor;
  }

  lemma {:induction false} LostIsSum(g: Setup, n: nat, actions: seq<Action>)
    ensures Play(g, n, actions).lost == Sum(Deaths(g, n, actions))
  {
    hide Next, Enabled, ChargedTokensFor, Sum;
    if actions == [] {
      SumOfNone();
    } else {
      var past, a := actions[..|actions| - 1], actions[|actions| - 1];
      LostIsSum(g, n, past);
      var w := Play(g, n, past);
      if Enabled(w, a.h, a.move) {
        NextLost(g, w, a.h, a.move);
        assert a.h < |w.handlers| by { EnabledHandler(w, a.h, a.move); }
        if w.handlers[a.h].Charged? {
          SumAppend(Deaths(g, n, past), ChargedTokensFor(g.rotation, w.handlers[a.h].sample));
        }
      }
      assert Deaths(g, n, past) + [] == Deaths(g, n, past);
    }
  }

  lemma SumOfNone()
    ensures Sum([]) == 0
  {
  }

  lemma EnabledHandler(w: World, h: nat, st: Move)
    requires Enabled(w, h, st)
    ensures h < |w.handlers|
  {
  }

  predicate AllNonNegative(xs: seq<int>) {
    forall i :: 0 <= i < |xs| ==> xs[i] >= 0
  }

  lemma {:induction false} SumIsZero(xs: seq<int>)
    requires AllNonNegative(xs)
    ensures Sum(xs) >= 0 && (Sum(xs) == 0 <==> forall i :: 0 <= i < |xs| ==> xs[i] == 0)
  {
    if xs != [] {
      SumIsZero(xs[..|xs| - 1]);
      assert forall i :: 0 <= i < |xs| - 1 ==> xs[i] == xs[..|xs| - 1][i];
    }
  }

  /** A handler that was charged never had a negative figure. */
  lemma {:induction false} DeathsNonNegative(g: Setup, n: nat, actions: seq<Action>, from: Time)
    requires g.cfg.leaseTimeout > 0 && Unused(g.start) && BudgetOf(g.rotation, g.cfg.budget)
    requires FairPlay(g, n, actions, from) && g.cfg.budget.estimateTokens >= 0
    ensures AllNonNegative(Deaths(g, n, actions))
  {
    hide Step, TrackedStep, Next, Unused, Sound;
    if actions != [] {
      var past, a := actions[..|actions| - 1], actions[|actions| - 1];
      forall i | 0 <= i < |past|
        ensures past[..i] == actions[..i]
      {
      }
      DeathsNonNegative(g, n, past, from);
      PlaySound(g, n, past, from);
      var w := Play(g, n, past);
      assert AllGenuine(w) by { SoundGenuine(g, w, from, ClockAfter(g, n, past, from)); }
    }
  }

  lemma SoundGenuine(g: Setup, w: World, from: Time, clock: Time)
    requires Sound(g, w, from, clock)
    ensures AllGenuine(w)
  {
  }

  /** When all handlers are done, the audit trail is exact if and only if every handler that died after settling and
      before reporting had been charged nothing. */
  lemma AuditExact(g: Setup, n: nat, actions: seq<Action>, from: Time)
    requires g.cfg.leaseTimeout > 0 && Unused(g.start) && BudgetOf(g.rotation, g.cfg.budget)
    requires FairPlay(g, n, actions, from) && AllDone(Play(g, n, actions)) && g.cfg.budget.estimateTokens >= 0
    ensures StoreTotal(g.cfg, g.start, Play(g, n, actions).calls) == Sum(Play(g, n, actions).audit)
            <==> forall i :: 0 <= i < |Deaths(g, n, actions)| ==> Deaths(g, n, actions)[i] == 0
  {
    hide Step, TrackedStep, Next, Unused, Enabled, Play, StoreTotal, Deaths, FairPlay, Sum;
    AuditReconciles(g, n, actions, from);
    LostIsSum(g, n, actions);
    DeathsNonNegative(g, n, actions, from);
    SumIsZero(Deaths(g, n, actions));
  }

  lemma PlayNext(g: Setup, n: nat, actions: seq<Action>, a: Action)
    ensures var w := Play(g, n, actions);
      Play(g, n, actions + [a]) == if Enabled(w, a.h, a.move) then Next(g, w, a.h, a.move) else w
  {
    hide Next, Enabled;
    assert (actions + [a])[..|actions|] == actions;
  }

  /** The line can be lost: a single request that is leased a key, answered with any number of tokens and settled, whose
      handler then dies, leaves them charged in the store and in no audit line. */
  lemma ReportLost(g: Setup, tokens: nat, now: Time, custom: int) returns (actions: seq<Action>)
    requires g.cfg.leaseTimeout > 0 && Unused(g.start) && BudgetOf(g.rotation, g.cfg.budget)
    requires Step(g.cfg, g.start.state, Op.Reserve(g.route, now, custom)).1.Leased?
    ensures FairPlay(g, 1, actions, now) && AllDone(Play(g, 1, actions))
    ensures var w := Play(g, 1, actions);
      StoreTotal(g.cfg, g.start, w.calls) == tokens && Sum(w.audit) == 0 && w.lost == tokens
  {
    hide Step, TrackedStep, Unused, Play, StoreTotal, FairPlay;
    var moves := [Move.Acquire(now, custom), Move.Answer(200, Sample(Completed, tokens, false), None), Move.Judge(now),
                  Move.Settle(now), Move.Die(now)];
    actions := [];
    OpeningPlay(g, 1, now);
    for k := 0 to 5
      invariant |actions| == k && FairPlay(g, 1, actions, now) && ClockAfter(g, 1, actions, now) == now
      invariant var w := Play(g, 1, actions);
        && |w.handlers| == |w.settlements| == 1 && w.audit == [] && w.lost == (if k == 5 then tokens else 0)
        && (k == 0 ==> w.tracked == g.start) && Phase(w.handlers[0], k, tokens)
    {
      PlayNext(g, 1, actions, Action(0, moves[k]));
      FairNext(g, 1, actions, Action(0, moves[k]), now);
      actions := actions + [Action(0, moves[k])];
    }
    AuditReconciles(g, 1, actions, now);
  }

  /** Where that handler is after k of its five moves. */
  predicate Phase(h: Handler, k: nat, tokens: int) {
    match k
    case 0 => h.Arriving?
    case 1 => h.Holding?
    case 2 => h.Answered? && h.sample == Sample(Completed, tokens, false) && h.verdict == Keep
    case 3 => h.Judged? && h.sample == Sample(Completed, tokens, false)
    case 4 => h.Charged? && h.sample == Sample(Completed, tokens, false)
    case _ => h.Finished?
  }

  lemma OpeningPlay(g: Setup, n: nat, from: Time)
    ensures Play(g, n, []) == Opening(g, n) && FairPlay(g, n, [], from) && ClockAfter(g, n, [], from) == from
  {
  }

  lemma FairNext(g: Setup, n: nat, actions: seq<Action>, a: Action, from: Time)
    requires FairPlay(g, n, actions, from) && HonestUsage(a.move)
    requires ClockAfter(g, n, actions, from) <= At(a.move, ClockAfter(g, n, actions, from))
    ensures FairPlay(g, n, actions + [a], from)
    ensures ClockAfter(g, n, actions + [a], from)
         == if Enabled(Play(g, n, actions), a.h, a.move) then At(a.move, ClockAfter(g, n, actions, from))
            else ClockAfter(g, n, actions, from)
  {
    hide Play, Enabled;
    var more := actions + [a];
    assert more[..|actions|] == actions;
    assert forall i :: 0 <= i < |actions| ==> more[..i] == actions[..i] && more[i] == actions[i];
  }

  // ----- what a status means for the key -----

  /** The retirement a response asks of the store: a vendor code that retires the key does so until its own instant, one
      that does not absolves it, and without a code 429 and 402 park the key for its window. */
  function Retirements(g: Setup, now: Time, idx: nat, status: int, signal: Option<Signal>): seq<Call> {
    match signal
    case Some(sig) => if sig.retires then [Call(Op.Retire(g.route, now, idx, sig.until, sig.reason), 0)] else []
    case None => if status in {429, 402} then [Call(Op.RetireForWindow(g.route, now, idx, Quota), 0)] else []
  }

  /** Between its own steps a handler is left where it was, so w' below may be any later world. */
  lemma AnswerRetires(g: Setup, w: World, w': World, h: nat, a: Move, now: Time)
    requires a.Answer? && Enabled(w, h, a) && Enabled(w', h, Judge(now))
    requires w'.handlers[h] == Next(g, w, h, a).handlers[h]
    ensures Next(g, w', h, Judge(now)).calls
        == w'.calls + Retirements(g, now, w.handlers[h].idx, a.status, a.signal)
  {
    hide TrackedStep;
    assert w'.calls + [] == w'.calls;
  }

  /** A quota status really keeps the key out: whatever the calls before it, once judged no instant before the end of
      the window that contains `now` finds the key without a deadline ahead. */
  lemma QuotaParksKey(g: Setup, w: World, w': World, h: nat, a: Move, from: Time, now: Time, at: Time)
    requires a.Answer? && Enabled(w, h, a) && Enabled(w', h, Judge(now)) && a.status in {429, 402} && a.signal.None?
    requires w'.handlers[h] == Next(g, w, h, a).handlers[h] && Unused(g.start) && g.cfg.budget.window > 0
    requires Known(g.start, g.route, w.handlers[h].idx) && w'.tracked == TrackedRun(g.cfg, g.start, w'.calls)
    requires LegalRun(g.cfg, g.start, w'.calls, from) && Now(w'.calls, from) <= now <= at
    ensures var (end, idx) := (Next(g, w', h, Judge(now)).tracked, w.handlers[h].idx);
      && Known(end, g.route, idx)
      && (at < end.state.routes[g.route].windowStart + g.cfg.budget.window ==>
            KeyHistory.Ahead(end.state.routes[g.route].keys[idx], at))
  {
    hide TrackedStep, KeyHistory.Ahead, LegalRun, Unused, TrackedRun;
    var c := Call(Op.RetireForWindow(g.route, now, w.handlers[h].idx, Quota), 0);
    KeyHistory.QuotaParks(g.cfg, g.start, w'.calls, from, c, g.route, w.handlers[h].idx, at);
    assert Next(g, w', h, Judge(now)).tracked == TrackedStep(g.cfg, w'.tracked, c);
  }

  /** What a response's status and usage charge the key: nothing and no request for a server error, a request without
      tokens for another refusal that reports none, and otherwise the reported tokens, or the estimate. */
  lemma StatusCharges(g: Setup, w: World, w': World, h: nat, a: Move, now: Time)
    requires a.Answer? && Enabled(w, h, a) && Enabled(w', h, Move.Settle(now))
    requires Known(w'.tracked, g.route, w.handlers[h].idx)
    requires var seen := Next(g, w, h, a).handlers[h]; w'.handlers[h] == Judged(seen.idx, seen.lease, seen.sample)
    ensures var (calls, idx) := (Next(g, w', h, Move.Settle(now)).calls, w.handlers[h].idx);
      && |calls| == |w'.calls| + 1
      && BudgetCaps.Charged(g.cfg.budget, EventOf(g.cfg, w'.tracked.state, calls[|w'.calls|].op, g.route, idx))
         == if a.status >= 500 then BudgetCaps.Spend(0, 0)
            else if a.status >= 300 && a.usage.tokens == -1 then BudgetCaps.Spend(1, 0)
            else if a.usage.outcome.Failed? then BudgetCaps.Spend(0, 0)
            else BudgetCaps.Spend(1, if a.usage.tokens < 0 then g.cfg.budget.estimateTokens else a.usage.tokens)
  {
    hide TrackedStep, EventOf, BudgetCaps.Charged;
    var seen := Next(g, w, h, a).handlers[h];
    var op := Op.Settle(g.route, now, seen.idx, seen.sample);
    KeyHistory.ChargesPlainly(g.cfg, w'.tracked.state, op, g.route, seen.idx);
  }
}
