/** Admission to the router: a counted queue, then a semaphore, as concurrent handlers really take them.

    One step is one atomic action of one handler - a counter update, a semaphore operation, a load or a
    compare-and-swap - and steps of any number of handlers interleave freely. Limits are those of one
    configuration snapshot. */
module Admission {
  datatype Limits = Limits(maxQueueDepth: int, maxConcurrency: nat)

  /** Where a handler is. Each point is named for what has just happened. */
  datatype Point =
    | Arrived
    | Queued(seen: int)
    | Refused
    | Admitted
    | Peaking(n: int)
    | Comparing(n: int, peak: int)
    | Buffered
    | Aborting
    | Unbuffered
    | Waiting(tier: string)
    | Permitted(tier: string)
    | Dequeued(tier: string)
    | Cancelled(tier: string)
    | CancelDequeued(tier: string)
    | CancelTail
    | Serving
    | InFlight
    | Unwinding
    | ExitTail
    | Done

  datatype World = World(
    points: seq<Point>,
    queueDepth: int,
    buffering: int,
    peak: int,
    permits: int,
    inflight: int,
    tiers: map<string, int>,
    highest: int)

  /** The choices the environment makes: a body that will not read, a cancelled caller, a rejected user. */
  datatype Choice = Proceed(tier: string) | GiveUp

  // ----- what a handler holds -----

  datatype Resource = Slot | AdmittedSlot(max: int) | Buffer | QueuedBody | Permit | Flight | Tier(name: string) | Tail

  predicate Holds(p: Point, r: Resource) {
    match r
    case Slot => p.Queued? || p.Refused? || HoldsAdmitted(p)
    case AdmittedSlot(max) => (p.Queued? && p.seen <= max) || HoldsAdmitted(p)
    case Buffer =>
      || p.Peaking? || p.Comparing? || p.Buffered? || p.Aborting? || p.Waiting? || p.Cancelled? || HoldsPermit(p)
      || InTail(p)
    case QueuedBody => HoldsAdmitted(p) && !p.Admitted? && !p.Unbuffered? && !HoldsPermit(p)
    case Permit => HoldsPermit(p)
    case Flight => p.InFlight?
    case Tier(name) =>
      (p.Waiting? || p.Permitted? || p.Dequeued? || p.Cancelled? || p.CancelDequeued?) && p.tier == name
    case Tail => InTail(p)
  }

  predicate HoldsAdmitted(p: Point) {
    || p.Admitted? || p.Peaking? || p.Comparing? || p.Buffered? || p.Aborting? || p.Unbuffered?
    || p.Waiting? || p.Permitted? || p.Cancelled?
  }

  predicate HoldsPermit(p: Point) {
    p.Permitted? || p.Dequeued? || p.Serving? || p.InFlight? || p.Unwinding?
  }

  /** Still holding a body after giving back both the queue slot and the permit. */
  predicate InTail(p: Point) {
    p.CancelDequeued? || p.CancelTail? || p.ExitTail?
  }

  function Count(ps: seq<Point>, r: Resource): nat {
    if ps == [] then 0 else Count(ps[..|ps| - 1], r) + if Holds(ps[|ps| - 1], r) then 1 else 0
  }

  function One(b: bool): int { if b then 1 else 0 }

  lemma {:induction false} CountUpdate(ps: seq<Point>, i: nat, p: Point, r: Resource)
    requires i < |ps|
    ensures Count(ps[i := p], r) == Count(ps, r) - One(Holds(ps[i], r)) + One(Holds(p, r))
  {
    hide Holds;
    var n := |ps| - 1;
    if i == n {
      assert ps[i := p][..n] == ps[..n];
    } else {
      assert ps[i := p][..n] == ps[..n][i := p];
      CountUpdate(ps[..n], i, p, r);
    }
  }

  // ----- steps -----

  function TierDepth(w: World, t: string): int {
    if t in w.tiers then w.tiers[t] else 0
  }

  /** The per-tier gauge, which never shows a negative depth. */
  function AddTier(w: World, t: string, delta: int): World {
    var next := TierDepth(w, t) + delta;
    w.(tiers := w.tiers[t := if next < 0 then 0 else next])
  }

  function At(w: World, i: nat, p: Point): World
    requires i < |w.points|
  {
    w.(points := w.points[i := p])
  }

  /** A semaphore send blocks while the channel is full. */
  predicate Enabled(l: Limits, w: World, i: nat, c: Choice) {
    && i < |w.points| && !w.points[i].Done?
    && (w.points[i].Waiting? && c.Proceed? ==> w.permits < l.maxConcurrency)
  }

  function Next(l: Limits, w: World, i: nat, c: Choice): World
    requires Enabled(l, w, i, c)
  {
    match w.points[i]
    case Arrived => At(w.(queueDepth := w.queueDepth + 1), i, Queued(w.queueDepth + 1))
    case Queued(seen) => At(w, i, if seen > l.maxQueueDepth then Refused else Admitted)
    case Refused => At(w.(queueDepth := w.queueDepth - 1), i, Done)
    case Admitted =>
      var n := w.buffering + 1;
      At(w.(buffering := n, highest := if n > w.highest then n else w.highest), i, Peaking(n))
    case Peaking(n) => At(w, i, if n <= w.peak then Buffered else Comparing(n, w.peak))
    case Comparing(n, peak) => if w.peak == peak then At(w.(peak := n), i, Buffered) else At(w, i, Peaking(n))
    case Buffered => if c.GiveUp? then At(w, i, Aborting) else At(AddTier(w, c.tier, 1), i, Waiting(c.tier))
    case Aborting => At(w.(buffering := w.buffering - 1), i, Unbuffered)
    case Unbuffered => At(w.(queueDepth := w.queueDepth - 1), i, Done)
    case Waiting(t) => if c.GiveUp? then At(w, i, Cancelled(t)) else At(w.(permits := w.permits + 1), i, Permitted(t))
    case Permitted(t) => At(w.(queueDepth := w.queueDepth - 1), i, Dequeued(t))
    case Dequeued(t) => At(AddTier(w, t, -1), i, Serving)
    case Cancelled(t) => At(w.(queueDepth := w.queueDepth - 1), i, CancelDequeued(t))
    case CancelDequeued(t) => At(AddTier(w, t, -1), i, CancelTail)
    case CancelTail => At(w.(buffering := w.buffering - 1), i, Done)
    case Serving => if c.GiveUp? then At(w, i, Unwinding) else At(w.(inflight := w.inflight + 1), i, InFlight)
    case InFlight => At(w.(inflight := w.inflight - 1), i, Unwinding)
    case Unwinding => At(w.(permits := w.permits - 1), i, ExitTail)
    case ExitTail => At(w.(buffering := w.buffering - 1), i, Done)
  }

  // ----- the invariant -----

  /** Every counter is the number of handlers that hold what it counts. */
  predicate Counted(w: World) {
    && w.queueDepth == Count(w.points, Slot)
    && w.buffering == Count(w.points, Buffer)
    && w.permits == Count(w.points, Permit)
    && w.inflight == Count(w.points, Flight)
  }

  ghost predicate TiersCounted(w: World) {
    forall t :: TierDepth(w, t) == Count(w.points, Tier(t))
  }

  lemma NextCounted(l: Limits, w: World, i: nat, c: Choice)
    requires Enabled(l, w, i, c) && Counted(w)
    ensures Counted(Next(l, w, i, c))
  {
    hide Next, Count;
    NextQueueCounted(l, w, i, c);
    NextPermitsCounted(l, w, i, c);
  }

  lemma NextQueueCounted(l: Limits, w: World, i: nat, c: Choice)
    requires Enabled(l, w, i, c) && w.queueDepth == Count(w.points, Slot) && w.buffering == Count(w.points, Buffer)
    ensures var w' := Next(l, w, i, c);
      w'.queueDepth == Count(w'.points, Slot) && w'.buffering == Count(w'.points, Buffer)
  {
    hide Count, AddTier;
    AddTierFrame(w);
    var p := Next(l, w, i, c).points[i];
    CountUpdate(w.points, i, p, Slot);
    CountUpdate(w.points, i, p, Buffer);
  }

  lemma NextPermitsCounted(l: Limits, w: World, i: nat, c: Choice)
    requires Enabled(l, w, i, c) && w.permits == Count(w.points, Permit) && w.inflight == Count(w.points, Flight)
    ensures var w' := Next(l, w, i, c);
      w'.permits == Count(w'.points, Permit) && w'.inflight == Count(w'.points, Flight)
  {
    hide Count, AddTier;
    AddTierFrame(w);
    var p := Next(l, w, i, c).points[i];
    CountUpdate(w.points, i, p, Permit);
    CountUpdate(w.points, i, p, Flight);
  }

  /** The gauge touches nothing else. */
  lemma AddTierFrame(w: World)
    ensures forall t, d :: AddTier(w, t, d) == w.(tiers := AddTier(w, t, d).tiers)
  {
  }

  lemma {:induction false} CountPositive(ps: seq<Point>, i: nat, r: Resource)
    requires i < |ps| && Holds(ps[i], r)
    ensures Count(ps, r) > 0
  {
    hide Holds;
    if i < |ps| - 1 {
      CountPositive(ps[..|ps| - 1], i, r);
    }
  }

  /** A tier is left only by a handler that joined it, so the clamp at zero never acts. */
  lemma NextTiersCounted(l: Limits, w: World, i: nat, c: Choice)
    requires Enabled(l, w, i, c) && TiersCounted(w)
    ensures TiersCounted(Next(l, w, i, c))
  {
    hide Count;
    var w' := Next(l, w, i, c);
    forall t ensures TierDepth(w', t) == Count(w'.points, Tier(t)) {
      CountUpdate(w.points, i, w'.points[i], Tier(t));
      if Holds(w.points[i], Tier(t)) {
        CountPositive(w.points, i, Tier(t));
      }
      assert TierDepth(w, t) == Count(w.points, Tier(t));
    }
  }

  /** Admitted queue holders and permit holders stay within their limits. */
  predicate WithinLimits(l: Limits, w: World) {
    && Count(w.points, AdmittedSlot(l.maxQueueDepth)) <= (if l.maxQueueDepth < 0 then 0 else l.maxQueueDepth)
    && w.permits <= l.maxConcurrency
  }

  lemma {:induction false} AdmittedAmongSlots(ps: seq<Point>, max: int)
    ensures Count(ps, AdmittedSlot(max)) <= Count(ps, Slot)
  {
    if ps != [] {
      AdmittedAmongSlots(ps[..|ps| - 1], max);
    }
  }

  lemma NextWithinLimits(l: Limits, w: World, i: nat, c: Choice)
    requires Enabled(l, w, i, c) && Counted(w) && WithinLimits(l, w)
    ensures WithinLimits(l, Next(l, w, i, c))
  {
    hide Count;
    var r := AdmittedSlot(l.maxQueueDepth);
    var w' := Next(l, w, i, c);
    CountUpdate(w.points, i, w'.points[i], r);
    CountUpdate(w.points, i, w'.points[i], Slot);
    AdmittedAmongSlots(w'.points, l.maxQueueDepth);
  }

  // ----- the high-water mark -----

  /** The mark is right, or the handler that saw the true maximum is still in its loop. */
  ghost predicate PeakPending(w: World) {
    || w.peak == w.highest
    || exists i :: 0 <= i < |w.points| && (w.points[i].Peaking? || w.points[i].Comparing?) && w.points[i].n == w.highest
  }

  predicate PeakBounded(w: World) {
    && 0 <= w.peak <= w.highest && w.buffering <= w.highest
    && (forall i :: 0 <= i < |w.points| && w.points[i].Peaking? ==> w.points[i].n <= w.highest)
    && (forall i :: 0 <= i < |w.points| && w.points[i].Comparing? ==> w.points[i].peak < w.points[i].n <= w.highest)
  }

  lemma NextPeak(l: Limits, w: World, i: nat, c: Choice)
    requires Enabled(l, w, i, c) && PeakBounded(w) && PeakPending(w)
    ensures PeakBounded(Next(l, w, i, c)) && PeakPending(Next(l, w, i, c))
  {
    hide Next, PeakBounded, PeakPending;
    NextPeakBounded(l, w, i, c);
    NextPeakPending(l, w, i, c);
  }

  lemma NextPeakBounded(l: Limits, w: World, i: nat, c: Choice)
    requires Enabled(l, w, i, c) && PeakBounded(w)
    ensures PeakBounded(Next(l, w, i, c))
  {
    hide AddTier;
    AddTierFrame(w);
  }

  lemma NextPeakPending(l: Limits, w: World, i: nat, c: Choice)
    requires Enabled(l, w, i, c) && PeakBounded(w) && PeakPending(w)
    ensures PeakPending(Next(l, w, i, c))
  {
    hide AddTier, PeakPending;
    AddTierFrame(w);
    var w' := Next(l, w, i, c);
    if w'.peak == w'.highest {
      PendingNow(w', i);
    } else if w.points[i].Admitted? && w.buffering + 1 > w.highest {
      PendingNow(w', i);
    } else {
      StillPending(w, w', i);
    }
  }

  lemma PendingNow(w: World, i: nat)
    requires i < |w.points|
    requires w.peak == w.highest || (w.points[i].Peaking? && w.points[i].n == w.highest)
    ensures PeakPending(w)
  {
  }

  /** A pending handler stays pending while others move, and until the mark is right while it moves itself. */
  lemma StillPending(w: World, w': World, i: nat)
    requires |w'.points| == |w.points| && i < |w.points| && w'.highest == w.highest && w'.peak != w'.highest
    requires forall j :: 0 <= j < |w.points| && j != i ==> w'.points[j] == w.points[j]
    requires PeakPending(w) && (w.peak == w.highest ==> w'.peak == w.peak)
    requires (w.points[i].Peaking? || w.points[i].Comparing?) && w.points[i].n == w.highest ==>
      (w'.points[i].Peaking? || w'.points[i].Comparing?) && w'.points[i].n == w.highest
    ensures PeakPending(w')
  {
    var j :| 0 <= j < |w.points| && (w.points[j].Peaking? || w.points[j].Comparing?) && w.points[j].n == w.highest;
    assert (w'.points[j].Peaking? || w'.points[j].Comparing?) && w'.points[j].n == w'.highest;
  }

  // ----- whole runs -----

  datatype Action = Action(i: nat, choice: Choice)

  function Opening(n: nat): World {
    World(seq(n, _ => Arrived), 0, 0, 0, 0, 0, map[], 0)
  }

  /** The world after the actions, skipping any that is blocked or over when its turn comes. */
  function Play(l: Limits, n: nat, acts: seq<Action>): World {
    if acts == [] then Opening(n)
    else
      var w, a := Play(l, n, acts[..|acts| - 1]), acts[|acts| - 1];
      if Enabled(l, w, a.i, a.choice) then Next(l, w, a.i, a.choice) else w
  }

  ghost predicate Sound(l: Limits, w: World) {
    Counted(w) && TiersCounted(w) && WithinLimits(l, w) && PeakBounded(w) && PeakPending(w)
  }

  lemma {:induction false} NobodyHolds(n: nat, r: Resource)
    ensures Count(seq(n, _ => Arrived), r) == 0
  {
    if n > 0 {
      var ps: seq<Point> := seq(n, _ => Arrived);
      assert ps[..n - 1] == seq(n - 1, _ => Arrived);
      NobodyHolds(n - 1, r);
    }
  }

  /** In every interleaving: the queue depth is the handlers between joining and leaving the queue, likewise
      buffered bodies, permits, requests in flight and each tier's queue; admitted queue holders and permit
      holders never exceed their limits; and the high-water mark is right or about to be. */
  lemma {:induction false} AdmissionSound(l: Limits, n: nat, acts: seq<Action>)
    ensures Sound(l, Play(l, n, acts))
  {
    hide Next, Count, Enabled;
    if acts == [] {
      forall r ensures Count(Opening(n).points, r) == 0 {
        NobodyHolds(n, r);
      }
    } else {
      hide Counted, TiersCounted, WithinLimits, PeakBounded, PeakPending;
      AdmissionSound(l, n, acts[..|acts| - 1]);
      var w, a := Play(l, n, acts[..|acts| - 1]), acts[|acts| - 1];
      if Enabled(l, w, a.i, a.choice) {
        NextCounted(l, w, a.i, a.choice);
        NextTiersCounted(l, w, a.i, a.choice);
        NextWithinLimits(l, w, a.i, a.choice);
        NextPeak(l, w, a.i, a.choice);
      }
    }
  }

  /** Every body in memory belongs to exactly one of three: an admitted handler still queueing for a permit, a permit
      holder, or a handler in its exit tail. */
  lemma {:induction false} BuffersPartition(ps: seq<Point>)
    ensures Count(ps, Buffer) == Count(ps, QueuedBody) + Count(ps, Permit) + Count(ps, Tail)
  {
    if ps != [] {
      BuffersPartition(ps[..|ps| - 1]);
    }
  }

  lemma {:induction false} QueuedAmongAdmitted(ps: seq<Point>, max: int)
    ensures Count(ps, QueuedBody) <= Count(ps, AdmittedSlot(max))
  {
    if ps != [] {
      QueuedAmongAdmitted(ps[..|ps| - 1], max);
    }
  }

  /** Bodies in memory never exceed queue limit plus concurrency limit plus handlers in their exit tail. */
  lemma BufferingBounded(l: Limits, n: nat, acts: seq<Action>)
    requires l.maxQueueDepth >= 0
    ensures var w := Play(l, n, acts);
      && w.buffering == Count(w.points, QueuedBody) + w.permits + Count(w.points, Tail)
      && w.buffering <= l.maxQueueDepth + l.maxConcurrency + Count(w.points, Tail)
  {
    hide Play, Count;
    AdmissionSound(l, n, acts);
    BuffersPartition(Play(l, n, acts).points);
    QueuedAmongAdmitted(Play(l, n, acts).points, l.maxQueueDepth);
  }

  lemma {:induction false} DoneHoldsNothing(ps: seq<Point>, r: Resource)
    requires forall i :: 0 <= i < |ps| ==> ps[i].Done?
    ensures Count(ps, r) == 0
  {
    if ps != [] {
      DoneHoldsNothing(ps[..|ps| - 1], r);
    }
  }

  /** When every handler has ended, every counter is back at zero: no exit path leaks. */
  lemma NothingLeaks(l: Limits, n: nat, acts: seq<Action>)
    requires forall i :: 0 <= i < |Play(l, n, acts).points| ==> Play(l, n, acts).points[i].Done?
    ensures var w := Play(l, n, acts);
      w.queueDepth == w.buffering == w.permits == w.inflight == 0 && forall t :: TierDepth(w, t) == 0
  {
    hide Play, Count;
    AdmissionSound(l, n, acts);
    forall r ensures Count(Play(l, n, acts).points, r) == 0 {
      DoneHoldsNothing(Play(l, n, acts).points, r);
    }
  }

  lemma NextHighest(l: Limits, w: World, i: nat, c: Choice)
    requires Enabled(l, w, i, c) && w.buffering <= w.highest
    ensures var w' := Next(l, w, i, c);
      w'.highest == if w'.buffering > w.highest then w'.buffering else w.highest
  {
  }

  lemma {:induction false} HighestIsMaximum(l: Limits, n: nat, acts: seq<Action>)
    ensures forall j :: 0 <= j <= |acts| ==> Play(l, n, acts[..j]).buffering <= Play(l, n, acts).highest
    ensures exists j :: 0 <= j <= |acts| && Play(l, n, acts[..j]).buffering == Play(l, n, acts).highest
  {
    hide Enabled, Next, Counted, TiersCounted, WithinLimits, PeakPending;
    assert acts[..|acts|] == acts;
    if acts != [] {
      var past, a := acts[..|acts| - 1], acts[|acts| - 1];
      HighestIsMaximum(l, n, past);
      AdmissionSound(l, n, past);
      forall j | 0 <= j < |acts|
        ensures acts[..j] == past[..j]
      {
      }
      var w := Play(l, n, past);
      if Enabled(l, w, a.i, a.choice) {
        NextHighest(l, w, a.i, a.choice);
      }
      var j :| 0 <= j <= |past| && Play(l, n, past[..j]).buffering == w.highest;
      if Play(l, n, acts).highest == w.highest {
        assert Play(l, n, acts[..j]).buffering == Play(l, n, acts).highest;
      } else {
        assert Play(l, n, acts[..|acts|]).buffering == Play(l, n, acts).highest;
      }
    }
  }

  /** Whenever no handler is inside its compare-and-swap loop, the recorded peak is the true maximum of
      bodies ever held at once. */
  lemma PeakExact(l: Limits, n: nat, acts: seq<Action>)
    requires var w := Play(l, n, acts);
      forall i :: 0 <= i < |w.points| ==> !w.points[i].Peaking? && !w.points[i].Comparing?
    ensures forall j :: 0 <= j <= |acts| ==> Play(l, n, acts[..j]).buffering <= Play(l, n, acts).peak
    ensures exists j :: 0 <= j <= |acts| && Play(l, n, acts[..j]).buffering == Play(l, n, acts).peak
  {
    hide Play, Count;
    AdmissionSound(l, n, acts);
    HighestIsMaximum(l, n, acts);
  }

  // ----- why the exit tail belongs in the bound -----

  /** The first m callers were cancelled while waiting and have left the queue but not yet freed their bodies. */
  predicate Lingering(w: World, n: nat, m: nat) {
    && |w.points| == n && m <= n
    && (forall i :: 0 <= i < m ==> w.points[i] == CancelDequeued("unknown"))
    && (forall i :: m <= i < n ==> w.points[i] == Arrived)
    && w.queueDepth == 0 && w.buffering == w.peak == m
  }

  lemma Extend(l: Limits, n: nat, acts: seq<Action>, a: Action)
    ensures var w := Play(l, n, acts);
      Play(l, n, acts + [a]) == if Enabled(l, w, a.i, a.choice) then Next(l, w, a.i, a.choice) else w
  {
    hide Next, Enabled;
    assert (acts + [a])[..|acts|] == acts;
  }

  /** One more caller queues, buffers its body, waits and is cancelled. */
  lemma OneMoreLingers(l: Limits, n: nat, acts: seq<Action>, m: nat) returns (acts': seq<Action>)
    requires l.maxQueueDepth >= 1 && m < n && Lingering(Play(l, n, acts), n, m)
    ensures Lingering(Play(l, n, acts'), n, m + 1)
  {
    hide Play, Count;
    var go, stop := Action(m, Proceed("unknown")), Action(m, GiveUp);
    var path := [go, go, go, go, go, go, stop, go];
    acts' := acts;
    for k := 0 to 8
      invariant var w, w0 := Play(l, n, acts'), Play(l, n, acts);
        && w.points == w0.points[m := Itinerary(m)[k]]
        && w.queueDepth == (if 1 <= k <= 7 then 1 else 0)
        && w.buffering == (if k >= 3 then m + 1 else m)
        && w.peak == (if k >= 5 then m + 1 else m)
    {
      Extend(l, n, acts', path[k]);
      acts' := acts' + [path[k]];
    }
  }

  /** The points a cancelled caller passes when nobody else moves. */
  function Itinerary(m: nat): (ps: seq<Point>)
    ensures |ps| == 9
  {
    [Arrived, Queued(1), Admitted, Peaking(m + 1), Comparing(m + 1, m), Buffered,
     Waiting("unknown"), Cancelled("unknown"), CancelDequeued("unknown")]
  }

  lemma {:induction false} ManyLinger(l: Limits, n: nat, m: nat) returns (acts: seq<Action>)
    requires l.maxQueueDepth >= 1 && m <= n
    ensures Lingering(Play(l, n, acts), n, m)
  {
    if m == 0 {
      acts := [];
    } else {
      var past := ManyLinger(l, n, m - 1);
      acts := OneMoreLingers(l, n, past, m - 1);
    }
  }

  /** The documented ceiling, queue limit plus concurrency limit, is not one: a handler frees its queue slot or
      permit before its body, so for every number of bodies some run holds that many at once. */
  lemma NoBoundWithoutTail(l: Limits, bodies: nat) returns (acts: seq<Action>)
    requires l.maxQueueDepth >= 1
    ensures Play(l, bodies, acts).buffering == bodies
  {
    acts := ManyLinger(l, bodies, bodies);
  }

  // ----- when the documented ceiling holds -----

  /** Queue limit plus concurrency limit bounds the bodies in memory, in every interleaving of n handlers. */
  ghost predicate Ceiling(l: Limits, n: nat) {
    forall acts :: Play(l, n, acts).buffering <= l.maxQueueDepth + l.maxConcurrency
  }

  /** Still outside: nobody who found the queue full gets any further. */
  predicate Outside(p: Point) {
    p.Arrived? || (p.Queued? && p.seen >= 1) || p.Refused? || p.Done?
  }

  lemma {:induction false} NobodyAdmitted(l: Limits, n: nat, acts: seq<Action>)
    requires l.maxQueueDepth <= 0
    ensures var w := Play(l, n, acts);
      w.buffering == 0 && forall i :: 0 <= i < |w.points| ==> Outside(w.points[i])
  {
    hide Count, Sound;
    if acts != [] {
      var past, a := acts[..|acts| - 1], acts[|acts| - 1];
      NobodyAdmitted(l, n, past);
      assert Play(l, n, past).queueDepth >= 0 by { DepthNonNegative(l, n, past); }
    }
  }

  lemma DepthNonNegative(l: Limits, n: nat, acts: seq<Action>)
    ensures Play(l, n, acts).queueDepth >= 0
  {
    hide Play;
    AdmissionSound(l, n, acts);
  }

  lemma {:induction false} CountAtMost(ps: seq<Point>, r: Resource)
    ensures Count(ps, r) <= |ps|
  {
    if ps != [] {
      CountAtMost(ps[..|ps| - 1], r);
    }
  }

  lemma {:induction false} HandlersStay(l: Limits, n: nat, acts: seq<Action>)
    ensures |Play(l, n, acts).points| == n
  {
    if acts != [] {
      HandlersStay(l, n, acts[..|acts| - 1]);
    }
  }

  /** The documented ceiling holds if and only if there are never more handlers than it allows bodies, or the queue
      admits nobody. */
  lemma CeilingExact(l: Limits, n: nat)
    ensures Ceiling(l, n)
            <==> n <= l.maxQueueDepth + l.maxConcurrency || (l.maxQueueDepth <= 0 <= l.maxQueueDepth + l.maxConcurrency)
  {
    hide Play, Count;
    var limit := l.maxQueueDepth + l.maxConcurrency;
    forall acts
      ensures Play(l, n, acts).buffering <= n && (l.maxQueueDepth <= 0 ==> Play(l, n, acts).buffering == 0)
    {
      AdmissionSound(l, n, acts);
      CountAtMost(Play(l, n, acts).points, Buffer);
      HandlersStay(l, n, acts);
      if l.maxQueueDepth <= 0 {
        NobodyAdmitted(l, n, acts);
      }
    }
    if l.maxQueueDepth >= 1 && n > limit {
      var acts := NoBoundWithoutTail(l, n);
      assert Play(l, n, acts).buffering > limit;
    } else if l.maxQueueDepth <= 0 && limit < 0 {
      assert Play(l, n, []).buffering > limit;
    }
  }

  // ----- nobody is refused or blocked without cause -----

  /** What others do leaves a handler where it is. */
  lemma {:induction false} OthersLeave(l: Limits, n: nat, acts: seq<Action>, others: seq<Action>, i: nat)
    requires i < n && forall k :: 0 <= k < |others| ==> others[k].i != i
    ensures |Play(l, n, acts + others).points| == |Play(l, n, acts).points| == n
    ensures Play(l, n, acts + others).points[i] == Play(l, n, acts).points[i]
  {
    hide Play, Next, Enabled;
    HandlersStay(l, n, acts);
    HandlersStay(l, n, acts + others);
    if others == [] {
      assert acts + others == acts;
    } else {
      var (past, a) := (others[..|others| - 1], others[|others| - 1]);
      OthersLeave(l, n, acts, past, i);
      assert acts + others == (acts + past) + [a];
      Extend(l, n, acts + past, a);
      OneMoves(l, Play(l, n, acts + past), a.i, a.choice);
    }
  }

  lemma OneMoves(l: Limits, w: World, i: nat, c: Choice)
    ensures Enabled(l, w, i, c) ==>
      var w' := Next(l, w, i, c);
      |w'.points| == |w.points| && forall j :: 0 <= j < |w.points| && j != i ==> w'.points[j] == w.points[j]
  {
    hide AddTier;
    AddTierFrame(w);
  }

  /** Whatever others do meanwhile, a caller is admitted exactly if it found fewer callers in the queue than the limit
      when it joined. */
  lemma RefusedOnlyWhenFull(l: Limits, n: nat, acts: seq<Action>, others: seq<Action>, i: nat, c: Choice)
    requires i < n && forall k :: 0 <= k < |others| ==> others[k].i != i
    requires |Play(l, n, acts).points| == n && Play(l, n, acts).points[i].Arrived?
    ensures var end := Play(l, n, acts + [Action(i, c)] + others + [Action(i, c)]);
      |end.points| == n
      && end.points[i] == if Count(Play(l, n, acts).points, Slot) < l.maxQueueDepth then Admitted else Refused
  {
    hide Play, Count;
    AdmissionSound(l, n, acts);
    Extend(l, n, acts, Action(i, c));
    OthersLeave(l, n, acts + [Action(i, c)], others, i);
    Extend(l, n, acts + [Action(i, c)] + others, Action(i, c));
  }

  /** A waiting caller is blocked exactly while as many callers as the concurrency limit hold a permit. */
  lemma BlockedOnlyWhenFull(l: Limits, n: nat, acts: seq<Action>, i: nat, tier: string)
    requires i < n && |Play(l, n, acts).points| == n && Play(l, n, acts).points[i].Waiting?
    ensures var w := Play(l, n, acts);
      !Enabled(l, w, i, Proceed(tier)) <==> Count(w.points, Permit) == l.maxConcurrency
  {
    hide Play, Count;
    AdmissionSound(l, n, acts);
  }

  /** No interleaving deadlocks: while a caller is not done, one of them can go on without anybody giving up. */
  lemma SomebodyMoves(l: Limits, n: nat, acts: seq<Action>, i: nat, tier: string) returns (j: nat)
    requires l.maxConcurrency >= 1 && i < n
    requires |Play(l, n, acts).points| == n && !Play(l, n, acts).points[i].Done?
    ensures Enabled(l, Play(l, n, acts), j, Proceed(tier))
  {
    hide Play, Count;
    AdmissionSound(l, n, acts);
    var w := Play(l, n, acts);
    j := i;
    if w.points[i].Waiting? && w.permits >= l.maxConcurrency {
      j := Holder(w.points, Permit);
    }
  }

  lemma {:induction false} Holder(ps: seq<Point>, r: Resource) returns (j: nat)
    requires Count(ps, r) > 0
    ensures j < |ps| && Holds(ps[j], r)
  {
    hide Holds;
    j := |ps| - 1;
    if !Holds(ps[j], r) {
      j := Holder(ps[..|ps| - 1], r);
    }
  }
}
