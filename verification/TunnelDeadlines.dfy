/** The deadlines of an established CONNECT tunnel.

    Two copy loops share one `tunnelDeadlines`. Each refreshes the read deadline of the connection it reads; the
    first to finish arms a linger bound on both. An operation that returns at or after its deadline returns an
    error; before it, anything may happen. `None` is no deadline. */
module TunnelDeadlines {
  import opened Options

  datatype Side = Client | Upstream

  function Other(s: Side): Side {
    if s.Client? then Upstream else Client
  }

  /** One connection's deadlines and the idle deadline recorded for it. */
  datatype Line = Line(read: Option<int>, write: Option<int>, idleAt: Option<int>)

  datatype Deadlines = Deadlines(client: Line, upstream: Line, lingerAt: Option<int>) {
    function Of(s: Side): Line {
      if s.Client? then client else upstream
    }
  }

  datatype Config = Config(idle: int, linger: int)

  function Earlier(at: int, bound: Option<int>): int {
    if bound.Some? && bound.value < at then bound.value else at
  }

  function Refreshed(d: Deadlines, s: Side, now: int, cfg: Config): Deadlines {
    var at := Some(Earlier(now + cfg.idle, d.lingerAt));
    if s.Client? then d.(client := d.client.(read := at, idleAt := at))
    else d.(upstream := d.upstream.(read := at, idleAt := at))
  }

  function Tightened(l: Line, lingerAt: int): Line {
    var at := Some(Earlier(lingerAt, l.idleAt));
    l.(read := at, write := at)
  }

  function Armed(d: Deadlines, now: int, cfg: Config): Deadlines {
    if d.lingerAt.Some? then d
    else Deadlines(Tightened(d.client, now + cfg.linger), Tightened(d.upstream, now + cfg.linger),
                   Some(now + cfg.linger))
  }

  // ----- the two copy loops -----

  /** Where a copy loop is; `Writing(last)` remembers that the read came with an error. */
  datatype Point = Refreshing | Reading | Writing(last: bool) | Arming | Done

  datatype World = World(d: Deadlines, client: Point, upstream: Point) {
    function At(s: Side): Point {
      if s.Client? then client else upstream
    }

    function Move(s: Side, p: Point): World {
      if s.Client? then this.(client := p) else this.(upstream := p)
    }
  }

  /** What a loop does next: refresh, return from Read with or without bytes and an error, return from Write, arm. */
  datatype Action = Refresh | Read(some: bool, err: bool) | Write(err: bool) | Arm

  datatype Event = Event(side: Side, action: Action, now: int)

  predicate Expired(deadline: Option<int>, now: int) {
    deadline.Some? && deadline.value <= now
  }

  predicate Enabled(w: World, e: Event) {
    match e.action
    case Refresh => w.At(e.side).Refreshing?
    case Read(_, err) => w.At(e.side).Reading? && (Expired(w.d.Of(e.side).read, e.now) ==> err)
    case Write(err) => w.At(e.side).Writing? && (Expired(w.d.Of(Other(e.side)).write, e.now) ==> err)
    case Arm => w.At(e.side).Arming?
  }

  function Next(w: World, e: Event, cfg: Config): World
    requires Enabled(w, e)
  {
    match e.action
    case Refresh => w.(d := Refreshed(w.d, e.side, e.now, cfg)).Move(e.side, Reading)
    case Read(some, err) => w.Move(e.side, if some then Writing(err) else if err then Arming else Refreshing)
    case Write(err) => w.Move(e.side, if err || w.At(e.side).last then Arming else Refreshing)
    case Arm => w.(d := Armed(w.d, e.now, cfg)).Move(e.side, Done)
  }

  function Established(): World {
    World(Deadlines(Line(None, None, None), Line(None, None, None), None), Refreshing, Refreshing)
  }

  /** `ws` is a run of the tunnel: every step enabled, the clock never going back. */
  predicate Run(ws: seq<World>, es: seq<Event>, cfg: Config) {
    && |ws| == |es| + 1 && ws[0] == Established()
    && (forall i :: 0 <= i < |es| ==> Enabled(ws[i], es[i]) && ws[i + 1] == Next(ws[i], es[i], cfg))
    && (forall i, j :: 0 <= i <= j < |es| ==> es[i].now <= es[j].now)
  }

  // ----- every run -----

  /** One connection: before arming nothing bounds its writes and its read deadline is the recorded one; after,
      both deadlines are set and within the linger bound. */
  predicate LineSound(l: Line, lingerAt: Option<int>) {
    match lingerAt
    case None => l.write.None? && l.read == l.idleAt
    case Some(t) => l.read.Some? && l.write.Some? && l.read.value <= t && l.write.value <= t
  }

  /** ... and a loop blocked in Read has a deadline at most one idle period ahead of the clock. */
  predicate Sound(w: World, clock: int, cfg: Config) {
    && LineSound(w.d.client, w.d.lingerAt) && LineSound(w.d.upstream, w.d.lingerAt)
    && (w.d.lingerAt.Some? ==> w.d.lingerAt.value <= clock + cfg.linger)
    && (w.d.lingerAt.None? ==> !w.client.Done? && !w.upstream.Done?)
    && (forall s: Side :: w.At(s).Reading? ==> ReadWithin(w.d.Of(s).read, clock + cfg.idle))
  }

  predicate ReadWithin(read: Option<int>, t: int) {
    read.Some? && read.value <= t
  }

  lemma StepSound(w: World, clock: int, e: Event, cfg: Config)
    requires Sound(w, clock, cfg) && Enabled(w, e) && clock <= e.now
    ensures Sound(Next(w, e, cfg), e.now, cfg)
  {
    var w' := Next(w, e, cfg);
    forall s: Side | w'.At(s).Reading?
      ensures ReadWithin(w'.d.Of(s).read, e.now + cfg.idle)
    {
      if s != e.side {
        assert w'.At(s) == w.At(s);
      }
    }
  }

  /** Every state of every run is sound at the time of the event that produced it. */
  lemma {:induction false} RunSound(ws: seq<World>, es: seq<Event>, cfg: Config, n: nat, clock: int)
    requires Run(ws, es, cfg) && n <= |es|
    requires if n == 0 then true else es[n - 1].now <= clock
    ensures Sound(ws[n], clock, cfg)
  {
    if n > 0 {
      RunSound(ws, es, cfg, n - 1, es[n - 1].now);
      StepSound(ws[n - 1], es[n - 1].now, es[n - 1], cfg);
    }
  }

  /** Arming tightens: on both connections, at every reachable moment, a read deadline in force only moves earlier. */
  lemma ArmOnlyTightens(ws: seq<World>, es: seq<Event>, cfg: Config, n: nat, s: Side)
    requires Run(ws, es, cfg) && n < |es| && es[n].action.Arm?
    ensures var before, after := ws[n].d.Of(s).read, ws[n + 1].d.Of(s).read;
            after.Some? && (before.Some? ==> after.value <= before.value)
  {
    RunSound(ws, es, cfg, n, es[n].now);
  }

  /** Whoever arms first fixes the bound for good: from then on all four deadlines stay set and none ever exceeds
      the arming time plus linger, whatever refreshes follow. */
  lemma {:induction false} LingerBound(ws: seq<World>, es: seq<Event>, cfg: Config, k: nat, n: nat)
    requires Run(ws, es, cfg) && k < n <= |es|
    requires ws[k].d.lingerAt.None? && es[k].action.Arm?
    ensures var bound := es[k].now + cfg.linger;
            && ws[n].d.lingerAt == Some(bound)
            && LineSound(ws[n].d.client, Some(bound)) && LineSound(ws[n].d.upstream, Some(bound))
    decreases n
  {
    RunSound(ws, es, cfg, n, es[n - 1].now);
    if n > k + 1 {
      LingerBound(ws, es, cfg, k, n - 1);
    }
  }

  // ----- both loops stop -----

  /** The tunnel can still look like `w` at time `now`: local steps take no time, and a blocked Read or Write is
      returned by its deadline. */
  predicate Lingers(w: World, now: int) {
    forall s: Side :: HalfLingers(w, s, now)
  }

  predicate HalfLingers(w: World, s: Side, now: int) {
    match w.At(s)
    case Reading => !(w.d.Of(s).read.Some? && w.d.Of(s).read.value < now)
    case Writing(_) => !(w.d.Of(Other(s)).write.Some? && w.d.Of(Other(s)).write.value < now)
    case Done => true
    case _ => false
  }

  /** Once armed, both loops are finished by the arming time plus linger. */
  lemma BothHalvesStop(ws: seq<World>, es: seq<Event>, cfg: Config, k: nat, n: nat, now: int)
    requires Run(ws, es, cfg) && k < n <= |es|
    requires ws[k].d.lingerAt.None? && es[k].action.Arm?
    requires now > es[k].now + cfg.linger && Lingers(ws[n], now)
    ensures ws[n].client.Done? && ws[n].upstream.Done?
  {
    LingerBound(ws, es, cfg, k, n);
    assert HalfLingers(ws[n], Client, now) && HalfLingers(ws[n], Upstream, now);
  }

  function Rank(p: Point): nat {
    match p
    case Refreshing => 4
    case Reading => 3
    case Writing(_) => 2
    case Arming => 1
    case Done => 0
  }

  /** A step at or after the linger bound always moves its loop towards the end: no read succeeds any more, so
      the loop cannot go round again, and no write succeeds. */
  lemma LateStepEnds(w: World, clock: int, e: Event, cfg: Config)
    requires Sound(w, clock, cfg) && Enabled(w, e) && w.d.lingerAt.Some? && w.d.lingerAt.value <= e.now
    ensures var w' := Next(w, e, cfg);
            Rank(w'.client) + Rank(w'.upstream) < Rank(w.client) + Rank(w.upstream)
    ensures e.action.Write? ==> e.action.err
  {
  }

  /** So at most eight steps remain once the bound has passed. */
  lemma {:induction false} FewLateSteps(ws: seq<World>, es: seq<Event>, cfg: Config, k: nat, n: nat)
    requires Run(ws, es, cfg) && k <= n <= |es|
    requires ws[k].d.lingerAt.Some?
    requires forall i :: k <= i < n ==> ws[k].d.lingerAt.value <= es[i].now
    ensures n - k + Rank(ws[n].client) + Rank(ws[n].upstream) <= Rank(ws[k].client) + Rank(ws[k].upstream)
    ensures n - k <= 8 && ws[n].d.lingerAt == ws[k].d.lingerAt
    decreases n
  {
    if n > k {
      FewLateSteps(ws, es, cfg, k, n - 1);
      RunSound(ws, es, cfg, n - 1, es[n - 1].now);
      LateStepEnds(ws[n - 1], es[n - 1].now, es[n - 1], cfg);
    }
  }

  /** A tunnel without an event for longer than both bounds is over, except in one situation. */
  lemma SilenceEnds(ws: seq<World>, es: seq<Event>, cfg: Config, clock: int, now: int)
    requires Run(ws, es, cfg) && (|es| > 0 ==> es[|es| - 1].now <= clock)
    requires Lingers(ws[|es|], now) && now > clock + cfg.idle && now > clock + cfg.linger
    ensures var w := ws[|es|];
            || (w.client.Done? && w.upstream.Done?)
            || (w.d.lingerAt.None? && w.client.Writing? && w.upstream.Writing?)
  {
    RunSound(ws, es, cfg, |es|, clock);
    assert HalfLingers(ws[|es|], Client, now) && HalfLingers(ws[|es|], Upstream, now);
  }

  /** The exception is real: with both loops blocked in Write and nobody armed, no deadline bounds the tunnel. */
  lemma WritersUnbounded(ws: seq<World>, es: seq<Event>, cfg: Config, now: int)
    requires Run(ws, es, cfg)
    requires ws[|es|].d.lingerAt.None? && ws[|es|].client.Writing? && ws[|es|].upstream.Writing?
    ensures Lingers(ws[|es|], now)
  {
    RunSound(ws, es, cfg, |es|, if es == [] then 0 else es[|es| - 1].now);
  }

  /** ... and it is reached whenever both peers send first. */
  lemma BothPeersSend(cfg: Config) returns (ws: seq<World>, es: seq<Event>)
    requires cfg.idle > 0
    ensures Run(ws, es, cfg)
    ensures ws[|es|].d.lingerAt.None? && ws[|es|].client.Writing? && ws[|es|].upstream.Writing?
  {
    es := [Event(Client, Refresh, 0), Event(Upstream, Refresh, 0),
           Event(Client, Read(true, false), 0), Event(Upstream, Read(true, false), 0)];
    var w1 := Next(Established(), es[0], cfg);
    var w2 := Next(w1, es[1], cfg);
    var w3 := Next(w2, es[2], cfg);
    ws := [Established(), w1, w2, w3, Next(w3, es[3], cfg)];
  }

  // ----- the shared object -----

  /** A socket, as far as its deadlines go. */
  class Conn {
    var read: Option<int>
    var write: Option<int>

    constructor ()
      ensures read == None && write == None
    {
      read, write := None, None;
    }

    method SetReadDeadline(at: int)
      modifies this
      ensures read == Some(at) && write == old(write)
    {
      read := Some(at);
    }

    method SetDeadline(at: int)
      modifies this
      ensures read == Some(at) && write == Some(at)
    {
      read, write := Some(at), Some(at);
    }
  }

  /** The bookkeeping both loops share; each method is one critical section of its mutex. */
  class TunnelDeadlines {
    const client: Conn
    const upstream: Conn
    const cfg: Config
    var armed: bool
    var lingerAt: int
    var clientIdleAt: Option<int>
    var upstreamIdleAt: Option<int>

    ghost predicate Valid() {
      client != upstream
    }

    ghost function Abstract(): Deadlines
      reads this, client, upstream
    {
      Deadlines(Line(client.read, client.write, clientIdleAt), Line(upstream.read, upstream.write, upstreamIdleAt),
                if armed then Some(lingerAt) else None)
    }

    constructor (client: Conn, upstream: Conn, cfg: Config)
      requires client != upstream
      requires client.read == client.write == upstream.read == upstream.write == None
      ensures Valid() && this.client == client && this.upstream == upstream && this.cfg == cfg
      ensures Abstract() == Established().d
    {
      this.client, this.upstream, this.cfg := client, upstream, cfg;
      armed, lingerAt, clientIdleAt, upstreamIdleAt := false, 0, None, None;
    }

    /** Re-arms the read deadline of the connection about to be read. */
    method RefreshIdle(src: Conn, now: int)
      requires Valid() && (src == client || src == upstream)
      modifies this, src
      ensures Valid()
      ensures Abstract() == Refreshed(old(Abstract()), if src == client then Client else Upstream, now, cfg)
    {
      var at := now + cfg.idle;
      if armed && lingerAt < at {
        at := lingerAt;
      }
      if src == client {
        clientIdleAt := Some(at);
      } else {
        upstreamIdleAt := Some(at);
      }
      src.SetReadDeadline(at);
    }

    /** Applies the linger bound to both connections, once. */
    method ArmBoth(now: int)
      requires Valid()
      modifies this, client, upstream
      ensures Valid() && Abstract() == Armed(old(Abstract()), now, cfg)
    {
      if armed {
        return;
      }
      armed := true;
      lingerAt := now + cfg.linger;
      Tighten(client, clientIdleAt);
      Tighten(upstream, upstreamIdleAt);
    }

    method Tighten(c: Conn, idleAt: Option<int>)
      requires c == client || c == upstream
      modifies c
      ensures c.read == c.write == Some(Earlier(lingerAt, idleAt))
    {
      var at := lingerAt;
      if idleAt.Some? && idleAt.value < at {
        at := idleAt.value;
      }
      c.SetDeadline(at);
    }
  }

  // ----- the deadlines exactly -----

  /** A loop's reads are given the whole idle period: until its next refresh the read deadline is the last refresh plus
      idle, cut short only by the linger bound. */
  lemma {:induction false} ReadDeadlineExact(ws: seq<World>, es: seq<Event>, cfg: Config, k: nat, n: nat, s: Side)
    requires Run(ws, es, cfg) && k < n <= |es| && es[k] == Event(s, Refresh, es[k].now)
    requires forall i :: k < i < n && es[i].action.Refresh? ==> es[i].side != s
    ensures var (idle, linger) := (es[k].now + cfg.idle, ws[n].d.lingerAt);
            && ws[n].d.Of(s).read == Some(if linger.Some? && linger.value < idle then linger.value else idle)
            && (linger.None? ==> ws[n].d.Of(s).idleAt == Some(idle))
            && (linger.Some? ==> linger.value <= idle || ws[n].d.Of(s).idleAt == Some(idle))
    decreases n
  {
    if n > k + 1 {
      ReadDeadlineExact(ws, es, cfg, k, n - 1, s);
    }
  }

  /** Arming bounds a connection's writes by the linger period or, if that comes first, by the read deadline it had;
      nothing moves that bound again. */
  lemma {:induction false} WriteDeadlineExact(ws: seq<World>, es: seq<Event>, cfg: Config, k: nat, n: nat, s: Side)
    requires Run(ws, es, cfg) && k < n <= |es|
    requires ws[k].d.lingerAt.None? && es[k].action.Arm?
    ensures var (linger, read) := (es[k].now + cfg.linger, ws[k].d.Of(s).read);
            ws[n].d.Of(s).write == Some(if read.Some? && read.value < linger then read.value else linger)
    decreases n
  {
    RunSound(ws, es, cfg, k, es[k].now);
    if n > k + 1 {
      WriteDeadlineExact(ws, es, cfg, k, n - 1, s);
      LingerBound(ws, es, cfg, k, n - 1);
    }
  }
}
