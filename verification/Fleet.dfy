/** The failover loop itself, over the router's nodes and their key pools. */
module Fleet {
  import opened Options
  import opened NodeSelection
  import opened KeyPool
  import opened Failover

  datatype Result = Served(at: nat) | Relayed(at: nat) | BadGateway

  /** The nodes of one snapshot with their key pools. Before each atomic step others act as the world says. */
  class Fleet {
    const e: World
    const router: Router
    var pools: seq<Keys>

    ghost function Abstract(): Shared
      reads this, router
    {
      Shared(router.conditions, router.rr, pools)
    }

    ghost predicate Valid()
      reads this, router
    {
      Lawful(e) && router.Valid() && router.nodes == e.nodes && Fitting(e.nodes, Abstract())
    }

    constructor (e: World, router: Router, pools: seq<Keys>)
      requires Lawful(e) && router.Valid() && router.nodes == e.nodes
      requires Fitting(e.nodes, Shared(router.conditions, router.rr, pools))
      ensures Valid() && this.e == e && this.router == router
      ensures Abstract() == Shared(router.conditions, router.rr, pools)
    {
      this.e, this.router, this.pools := e, router, pools;
    }

    /** What others did before this step, and the clock reading it makes. */
    method Disturb(i: nat, p: Point) returns (now: int)
      requires Valid()
      modifies this, router
      ensures Valid() && Abstract() == e.others(i, p, old(Abstract())) && now == e.clock(i, p)
    {
      hide Lawful;
      Kept(e, Abstract(), i, p);
      var d := e.others(i, p, Shared(router.conditions, router.rr, pools));
      router.conditions, router.rr, pools := d.conditions, d.rr, d.pools;
      now := e.clock(i, p);
    }

    method HandKey(node: nat, i: nat, p: Point) returns (h: Handing)
      requires Valid() && node < |e.nodes|
      modifies this, router
      ensures Valid() && (Abstract(), h) == Hand(e, old(Abstract()), node, i, p)
    {
      hide Lawful, Search;
      var now := Disturb(i, p);
      var (left, idx) := Taken(pools[node], now);
      h := Handing(pools[node], now, idx);
      pools := pools[node := left];
    }

    /** Sends the request, once more with the next key if the connection broke; the key to blame, if any. */
    method Send(node: nat, i: nat) returns (key: Option<Handing>)
      requires Valid() && node < |e.nodes|
      modifies this, router
      ensures Valid() && (Abstract(), key) == Sent(e, old(Abstract()), node, i)
    {
      hide Lawful, Hand;
      var h := HandKey(node, i, FirstKey);
      key := None;
      if Used(h) {
        key := Some(h);
      }
      if e.replies(i).reconnected {
        h := HandKey(node, i, SecondKey);
        if Used(h) {
          key := Some(h);
        }
      }
    }

    /** Cools the key and asks whether the whole pool is cooling. */
    method Judge(node: nat, i: nat, idx: int) returns (v: Verdict)
      requires Valid() && node < |e.nodes|
      modifies this, router
      ensures Valid() && (Abstract(), v) == Judged(e, old(Abstract()), node, i, idx)
    {
      hide Lawful, Marked;
      var markedAt := Disturb(i, Marking);
      var before := pools[node];
      assert Proper(Marked(before, idx, markedAt)) by { MarkedProper(before, idx, markedAt); }
      pools := pools[node := Marked(before, idx, markedAt)];
      var askedAt := Disturb(i, Asking);
      v := Verdict(before, markedAt, pools[node], askedAt);
    }

    method Select(q: Request, excluded: set<string>, i: nat, p: Point) returns (chosen: Option<nat>)
      requires Valid()
      modifies this, router
      ensures Valid() && (Abstract(), chosen) == Selected(e, old(Abstract()), q, excluded, i, p)
    {
      hide Lawful, Chooses, Chosen, Goods, AllPassed;
      var now := Disturb(i, p);
      chosen := router.Select(q, excluded, now);
    }

    /** Ejects a probed node after a transport error, and tells its breaker. */
    method Score(node: nat, i: nat, reply: Reply)
      requires Valid() && node < |e.nodes|
      modifies this, router
      ensures Valid() && Abstract() == Scored(e, old(Abstract()), node, i, reply)
    {
      hide Lawful, Rated;
      var now := Disturb(i, Scoring);
      router.conditions := router.conditions[node := Rated(e.nodes[node], router.conditions[node], reply, now)];
    }

    /** The loop. Its result, log and closed responses are those of the state machine after five turns. */
    method Walk(q: Request, first: nat) returns (log: seq<Attempt>, result: Result, closed: set<nat>)
      requires Valid() && first < |e.nodes| && Suits(e.nodes[first], q)
      modifies this, router
      ensures Valid() && Sound(e, q, Opening(old(Abstract()), first))
      ensures var end := Run(e, q, Opening(old(Abstract()), first), MAX_FAILOVER_ATTEMPTS);
        && Abstract() == end.shared && log == end.log && closed == end.closed && |log| <= MAX_FAILOVER_ATTEMPTS
        && result == (if end.served.Some? then Served(end.served.value)
                      else if end.held.Some? then Relayed(end.held.value) else BadGateway)
    {
      hide Lawful, Suits, Sound, Advance, Hand, Sent, Judged, Selected, Scored, Fitting;
      ghost var start := Opening(Abstract(), first);
      OpeningSound(e, q, Abstract(), first);
      log, closed := [], {};
      var tried: set<string>, held: Option<nat>, served: Option<nat> := {}, None, None;
      var candidate := Some(first);
      while candidate.Some? && |log| < MAX_FAILOVER_ATTEMPTS
        invariant Valid() && |log| <= MAX_FAILOVER_ATTEMPTS
        invariant Stage(Abstract(), candidate, tried, log, held, closed, served) == Run(e, q, start, |log|)
        decreases MAX_FAILOVER_ATTEMPTS - |log|
      {
        ghost var stage := Run(e, q, start, |log|);
        SoundGoes(e, q, stage);
        candidate, tried, log, held, closed, served := Turn(q, candidate.value, tried, log, held, closed, served);
        AdvanceKeepsSound(e, q, stage);
        assert Run(e, q, start, |log|) == Advance(e, q, stage);
      }
      if candidate.None? {
        RunStops(e, q, start, |log|, MAX_FAILOVER_ATTEMPTS);
      }
      result := if served.Some? then Served(served.value) else if held.Some? then Relayed(held.value) else BadGateway;
    }

    /** One turn: send, then serve, stay on another key, or score and move on. */
    method Turn(q: Request, node: nat, tried0: set<string>, log0: seq<Attempt>, held0: Option<nat>, closed0: set<nat>,
                served0: Option<nat>)
      returns (candidate: Option<nat>, tried: set<string>, log: seq<Attempt>, held: Option<nat>, closed: set<nat>,
               served: Option<nat>)
      requires Valid() && node < |e.nodes|
      modifies this, router
      ensures Valid()
      ensures Stage(Abstract(), candidate, tried, log, held, closed, served)
           == Advance(e, q, Stage(old(Abstract()), Some(node), tried0, log0, held0, closed0, served0))
    {
      hide Lawful, Suits, Hand, Sent, Judged, Selected, Scored, Fitting, Exhausted;
      var i, name, reply := |log0|, e.nodes[node].name, e.replies(|log0|).reply;
      tried, held, closed, served := tried0 + {name}, held0, closed0, served0;
      var key := Send(node, i);
      var a := Attempt(node, key, reply, None, None, false, 0, None);
      if Servable(reply) {
        Score(node, i, reply);
        return None, tried, log0 + [a.(scores := 1)], held, closed + Released(held), Some(i);
      }
      if QuotaHit(reply) && key.Some? {
        var v := Judge(node, i, key.value.idx);
        a := a.(verdict := Some(v));
        if !Exhausted(v.asked, v.askedAt) {
          closed, held := closed + Released(held), Some(i);
          var again := Select(q, tried - {name}, i, Reselecting);
          a := a.(again := again);
          if Same(e.nodes, again, name) {
            return again, tried, log0 + [a.(retried := true, next := again)], held, closed, served;
          }
        }
      }
      Score(node, i, reply);
      if reply.Status? {
        closed, held := closed + Released(held), Some(i);
      }
      candidate := Select(q, tried, i, Selecting);
      log := log0 + [a.(scores := 1, next := candidate)];
    }
  }

  lemma MarkedProper(k: Keys, idx: int, now: int)
    requires Proper(k)
    ensures Proper(Marked(k, idx, now))
  {
  }
}
