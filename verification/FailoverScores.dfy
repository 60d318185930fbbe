/** What walks do to the nodes' breakers and health flags, told from the attempts they made.

    Nobody else acts on the nodes while these walks run, so every change is theirs. */
module FailoverScores {
  import opened Options
  import CircuitBreaker
  import opened NodeSelection
  import opened KeyPool
  import opened Failover
  import opened FailoverCases

  type Events = seq<CircuitBreaker.Event>

  // ----- what one attempt tells one node -----

  /** A response the client can have: any status but 429 and the server errors. */
  predicate Good(r: Reply) {
    r.Status? && r.code != 429 && r.code < 500
  }

  /** A selection looks at the node's breaker. */
  predicate Considered(n: Node, healthy: bool, q: Request, excluded: set<string>) {
    && (n.workloads == [] || q.class_ in n.workloads) && (q.personal ==> n.piiLocal)
    && healthy && n.name !in excluded && (q.tier == "" || q.tier == n.tier)
  }

  /** The attempt takes node n out of service until a health check brings it back. */
  predicate Ejects(nodes: seq<Node>, a: Attempt, n: nat)
    requires n < |nodes|
  {
    a.node == n && a.reply.TransportError? && nodes[n].probed
  }

  /** One failure for an attempt on the node that was neither served nor retried, one success if it was served. */
  function Score(e: World, i: nat, a: Attempt, n: nat): Events {
    if a.node != n || a.retried then []
    else if Good(a.reply) then [CircuitBreaker.Success]
    else [CircuitBreaker.Failure(e.clock(i, Scoring))]
  }

  function AskIf(asked: bool, now: int): Events {
    if asked then [CircuitBreaker.Ask(now)] else []
  }

  /** All that attempt i tells node n, whose health flag was `healthy` before it: the look of the selection that may
      keep the walk at the same node, the score, and the look of the selection that moves it on. */
  function Telling(e: World, q: Request, i: nat, a: Attempt, n: nat, healthy: bool, tried: set<string>): Events
    requires n < |e.nodes|
  {
    AskIf(Offered(a) && Considered(e.nodes[n], healthy, q, tried - {NameOf(e.nodes, a.node)}), e.clock(i, Reselecting))
    + Score(e, i, a, n)
    + AskIf(!a.retried && !Good(a.reply) && Considered(e.nodes[n], healthy && !Ejects(e.nodes, a, n), q, tried),
            e.clock(i, Selecting))
  }

  // ----- the effect of events on a condition -----

  /** The breaker, if there is one, has gone through the events. */
  predicate Follows(n: Node, c: Condition, c': Condition, es: Events) {
    match c.circuit
    case None => c'.circuit == None
    case Some(b) => c'.circuit == Some(CircuitBreaker.RunFrom(b, n.settings, es))
  }

  lemma FollowsAppend(n: Node, c: Condition, d: Condition, f: Condition, es: Events, more: Events)
    requires Follows(n, c, d, es) && Follows(n, d, f, more)
    ensures Follows(n, c, f, es + more)
  {
    if c.circuit.Some? {
      CircuitBreaker.RunFromAppend(c.circuit.value, n.settings, es, more);
    }
  }

  lemma FollowsOne(n: Node, c: Condition, c': Condition, ev: CircuitBreaker.Event)
    requires match c.circuit
             case None => c'.circuit == None
             case Some(b) => c'.circuit == Some(CircuitBreaker.Step(b, n.settings, ev))
    ensures Follows(n, c, c', [ev])
  {
    if c.circuit.Some? {
      var b := c.circuit.value;
      assert [ev][..0] == [];
      assert CircuitBreaker.RunFrom(b, n.settings, []) == b;
    }
  }

  lemma FollowsNone(n: Node, c: Condition)
    ensures Follows(n, c, c, [])
  {
  }

  // ----- each step of an undisturbed attempt -----

  function At(s: Shared, n: nat): Condition {
    if n < |s.conditions| then s.conditions[n] else Condition(false, None)
  }

  lemma SelectionTells(e: World, s: Shared, q: Request, excluded: set<string>, i: nat, p: Point, n: nat)
    requires Undisturbed(e) && Lawful(e) && Fitting(e.nodes, s) && n < |e.nodes|
    ensures var (c, c') := (At(s, n), At(Selected(e, s, q, excluded, i, p).0, n));
      && c'.healthy == c.healthy
      && Follows(e.nodes[n], c, c', AskIf(Considered(e.nodes[n], c.healthy, q, excluded), e.clock(i, p)))
  {
    hide Lawful, Chosen, Goods, CircuitBreaker.Asked, Follows;
    var (c, now) := (s.conditions[n], e.clock(i, p));
    assert e.others(i, p, s) == s;
    var c' := Passed(e.nodes[n], c, q, excluded, now);
    assert At(Selected(e, s, q, excluded, i, p).0, n) == c';
    if Considered(e.nodes[n], c.healthy, q, excluded) {
      FollowsOne(e.nodes[n], c, c', CircuitBreaker.Ask(now));
    } else {
      FollowsNone(e.nodes[n], c);
    }
  }

  lemma ScoreTells(e: World, s: Shared, i: nat, a: Attempt, n: nat)
    requires Undisturbed(e) && Lawful(e) && Fitting(e.nodes, s) && n < |e.nodes| && a.node < |e.nodes| && !a.retried
    ensures var (c, c') := (At(s, n), At(Scored(e, s, a.node, i, a.reply), n));
      && c'.healthy == (c.healthy && !Ejects(e.nodes, a, n))
      && Follows(e.nodes[n], c, c', Score(e, i, a, n))
  {
    hide Lawful, CircuitBreaker.Succeeded, CircuitBreaker.Failed, Follows;
    assert e.others(i, Scoring, s) == s;
    var (c, c') := (At(s, n), At(Scored(e, s, a.node, i, a.reply), n));
    if a.node != n {
      FollowsNone(e.nodes[n], c);
    } else if Good(a.reply) {
      FollowsOne(e.nodes[n], c, c', CircuitBreaker.Success);
    } else {
      FollowsOne(e.nodes[n], c, c', CircuitBreaker.Failure(e.clock(i, Scoring)));
    }
  }

  /** Handing out keys and judging them touches no condition. */
  lemma KeysTellNothing(e: World, s: Shared, node: nat, i: nat, idx: int)
    requires Undisturbed(e) && Lawful(e) && Fitting(e.nodes, s) && node < |e.nodes|
    ensures Sent(e, s, node, i).0.conditions == s.conditions && Judged(e, s, node, i, idx).0.conditions == s.conditions
  {
    hide Lawful, Taken, Marked;
    HandKeeps(e, s, node, i, FirstKey);
    assert e.others(i, FirstKey, s) == s && e.others(i, Marking, s) == s;
  }

  lemma MoveOnTells(e: World, q: Request, s: Stage, a: Attempt, n: nat)
    requires Undisturbed(e) && Lawful(e) && Fitting(e.nodes, s.shared) && n < |e.nodes| && a.node < |e.nodes|
    requires !a.retried && !Good(a.reply)
    ensures var (c, c', i) := (At(s.shared, n), At(MoveOn(e, q, s, a).shared, n), |s.log|);
      var healthy := c.healthy && !Ejects(e.nodes, a, n);
      && c'.healthy == healthy
      && Follows(e.nodes[n], c, c',
                 Score(e, i, a, n) + AskIf(Considered(e.nodes[n], healthy, q, s.tried), e.clock(i, Selecting)))
  {
    hide Lawful, Fitting, Scored, Selected, Follows, Score, AskIf, Considered, Ejects, At, Undisturbed;
    var i := |s.log|;
    var scored := Scored(e, s.shared, a.node, i, a.reply);
    ScoredKeeps(e, s.shared, a.node, i, a.reply);
    ScoreTells(e, s.shared, i, a, n);
    SelectionTells(e, scored, q, s.tried, i, Selecting, n);
    var c, c' := At(s.shared, n), At(MoveOn(e, q, s, a).shared, n);
    var asked := Considered(e.nodes[n], c.healthy && !Ejects(e.nodes, a, n), q, s.tried);
    FollowsAppend(e.nodes[n], c, At(scored, n), c', Score(e, i, a, n), AskIf(asked, e.clock(i, Selecting)));
  }

  lemma MoveOnLogs(e: World, q: Request, s: Stage, a: Attempt)
    requires Lawful(e) && Fitting(e.nodes, s.shared) && a.node < |e.nodes|
    ensures var log := MoveOn(e, q, s, a).log;
      && |log| == |s.log| + 1 && log[..|s.log|] == s.log
      && log[|s.log|] == a.(scores := 1, next := log[|s.log|].next)
  {
    hide Lawful, Fitting, Scored, Selected;
    ScoredKeeps(e, s.shared, a.node, |s.log|, a.reply);
  }

  /** The turn from s to s' logs one attempt, and does to node n's condition what that attempt tells it. */
  ghost predicate Tells(e: World, q: Request, s: Stage, s': Stage, tried: set<string>, n: nat)
    requires n < |e.nodes|
  {
    && |s'.log| == |s.log| + 1 && s'.log[..|s.log|] == s.log
    && var (a, c, c') := (s'.log[|s.log|], At(s.shared, n), At(s'.shared, n));
       && c'.healthy == (c.healthy && !Ejects(e.nodes, a, n))
       && Follows(e.nodes[n], c, c', Telling(e, q, |s.log|, a, n, c.healthy, tried))
  }

  /** Moving on without having been offered the same node again. */
  lemma PlainMoveTells(e: World, q: Request, s: Stage, a: Attempt, n: nat)
    requires Undisturbed(e) && Lawful(e) && Fitting(e.nodes, s.shared) && n < |e.nodes| && a.node < |e.nodes|
    requires !a.retried && !Good(a.reply) && !Offered(a)
    ensures Tells(e, q, s, MoveOn(e, q, s, a), s.tried, n)
  {
    hide Lawful, Fitting, MoveOn, Follows, At, Undisturbed, Considered, Exhausted;
    MoveOnTells(e, q, s, a, n);
    MoveOnLogs(e, q, s, a);
    var b := MoveOn(e, q, s, a).log[|s.log|];
    var healthy := At(s.shared, n).healthy;
    var onward := AskIf(Considered(e.nodes[n], healthy && !Ejects(e.nodes, a, n), q, s.tried),
                        e.clock(|s.log|, Selecting));
    assert Telling(e, q, |s.log|, b, n, healthy, s.tried) == Score(e, |s.log|, a, n) + onward;
  }

  /** Moving on after selection, asked to stay, named another node. */
  lemma OfferedMoveTells(e: World, q: Request, s: Stage, s2: Stage, a: Attempt, n: nat)
    requires Undisturbed(e) && Lawful(e) && Fitting(e.nodes, s2.shared) && n < |e.nodes| && a.node < |e.nodes|
    requires !a.retried && !Good(a.reply) && Offered(a) && s2.log == s.log && s2.tried == s.tried
    requires At(s2.shared, n).healthy == At(s.shared, n).healthy
    requires Follows(e.nodes[n], At(s.shared, n), At(s2.shared, n),
                     AskIf(Considered(e.nodes[n], At(s.shared, n).healthy, q, s.tried - {NameOf(e.nodes, a.node)}),
                           e.clock(|s.log|, Reselecting)))
    ensures Tells(e, q, s, MoveOn(e, q, s2, a), s.tried, n)
  {
    hide Lawful, Fitting, MoveOn, Follows, At, Undisturbed, Considered, Exhausted;
    MoveOnTells(e, q, s2, a, n);
    MoveOnLogs(e, q, s2, a);
    var i, c, c' := |s.log|, At(s.shared, n), At(MoveOn(e, q, s2, a).shared, n);
    var stay := AskIf(Considered(e.nodes[n], c.healthy, q, s.tried - {NameOf(e.nodes, a.node)}),
                      e.clock(i, Reselecting));
    var onward := AskIf(Considered(e.nodes[n], c.healthy && !Ejects(e.nodes, a, n), q, s.tried), e.clock(i, Selecting));
    FollowsAppend(e.nodes[n], c, At(s2.shared, n), c', stay, Score(e, i, a, n) + onward);
    var b := MoveOn(e, q, s2, a).log[i];
    assert Telling(e, q, i, b, n, c.healthy, s.tried) == stay + (Score(e, i, a, n) + onward);
  }

  /** Staying at the node: it is looked at, and not scored. */
  lemma StayTells(e: World, q: Request, s: Stage, s': Stage, a: Attempt, n: nat)
    requires n < |e.nodes| && a.retried && a.reply.Status? && !Good(a.reply) && Offered(a) && s'.log == s.log + [a]
    requires At(s'.shared, n).healthy == At(s.shared, n).healthy
    requires Follows(e.nodes[n], At(s.shared, n), At(s'.shared, n),
                     AskIf(Considered(e.nodes[n], At(s.shared, n).healthy, q, s.tried - {NameOf(e.nodes, a.node)}),
                           e.clock(|s.log|, Reselecting)))
    ensures Tells(e, q, s, s', s.tried, n)
  {
    hide Follows, At, Considered, Exhausted;
    var i, c := |s.log|, At(s.shared, n);
    var stay := AskIf(Considered(e.nodes[n], c.healthy, q, s.tried - {NameOf(e.nodes, a.node)}),
                      e.clock(i, Reselecting));
    assert Telling(e, q, i, a, n, c.healthy, s.tried) == stay + [] + [];
    assert stay + [] + [] == stay;
  }

  lemma FailTells(e: World, q: Request, s: Stage, a: Attempt, n: nat)
    requires Undisturbed(e) && Lawful(e) && Fitting(e.nodes, s.shared) && n < |e.nodes| && a.node < |e.nodes|
    requires !a.retried && a.reply.Status? && !Good(a.reply) && a.verdict.None?
    ensures Tells(e, q, s, Fail(e, q, s, a), s.tried, n)
  {
    hide Lawful, Fitting, MoveOn, Follows, Undisturbed, Considered, Exhausted, Tells, Judged, Selected, Good;
    if !QuotaHit(a.reply) || a.key.None? {
      PlainMoveTells(e, q, s, a, n);
    } else {
      var i, name := |s.log|, e.nodes[a.node].name;
      KeysTellNothing(e, s.shared, a.node, i, a.key.value.idx);
      JudgedKeeps(e, s.shared, a.node, i, a.key.value.idx);
      var (judged, v) := Judged(e, s.shared, a.node, i, a.key.value.idx);
      var a1 := a.(verdict := Some(v));
      if !Offered(a1) {
        PlainMoveTells(e, q, s.(shared := judged), a1, n);
        SameStart(e, q, s, judged, Fail(e, q, s, a), n);
      } else {
        SelectionTells(e, judged, q, s.tried - {name}, i, Reselecting, n);
        SelectedKeeps(e, judged, q, s.tried - {name}, i, Reselecting);
        var (shared, again) := Selected(e, judged, q, s.tried - {name}, i, Reselecting);
        var s2 := s.(shared := shared, held := Some(i), closed := s.closed + Released(s.held));
        var a2 := a1.(again := again);
        if Same(e.nodes, again, name) {
          StayTells(e, q, s, Fail(e, q, s, a), a2.(retried := true, next := again), n);
        } else {
          OfferedMoveTells(e, q, s, s2, a2, n);
        }
      }
    }
  }

  lemma SameStart(e: World, q: Request, s: Stage, shared: Shared, s': Stage, n: nat)
    requires n < |e.nodes| && shared.conditions == s.shared.conditions
    requires Tells(e, q, s.(shared := shared), s', s.tried, n)
    ensures Tells(e, q, s, s', s.tried, n)
  {
    hide Follows, Telling, Ejects;
  }

  /** Every turn of an undisturbed walk does to every node's condition exactly what its attempt tells it. */
  lemma AdvanceTells(e: World, q: Request, s: Stage, n: nat)
    requires Undisturbed(e) && Going(e, s) && s.candidate.Some? && n < |e.nodes|
    ensures Tells(e, q, s, Advance(e, q, s), s.tried + {e.nodes[s.candidate.value].name}, n)
  {
    hide Lawful, Fitting, MoveOn, Fail, Follows, Undisturbed, Considered, Exhausted, Tells, Sent, Judged, Scored;
    var i, node := |s.log|, s.candidate.value;
    var reply := e.replies(i).reply;
    KeysTellNothing(e, s.shared, node, i, 0);
    SentKeeps(e, s.shared, node, i);
    var (shared, key) := Sent(e, s.shared, node, i);
    var s0 := s.(tried := s.tried + {e.nodes[node].name});
    var s1 := s0.(shared := shared);
    var a := Attempt(node, key, reply, None, None, false, 0, None);
    if Servable(reply) {
      ScoreTells(e, shared, i, a.(scores := 1), n);
      ServedTells(e, q, s0, Advance(e, q, s), a.(scores := 1), n);
    } else if reply.TransportError? {
      PlainMoveTells(e, q, s1, a, n);
      SameStart(e, q, s0, shared, Advance(e, q, s), n);
    } else {
      FailTells(e, q, s1, a, n);
      SameStart(e, q, s0, shared, Advance(e, q, s), n);
    }
    SameTried(e, q, s, s0.tried, Advance(e, q, s), n);
  }

  lemma ServedTells(e: World, q: Request, s: Stage, s': Stage, a: Attempt, n: nat)
    requires n < |e.nodes| && !a.retried && Good(a.reply) && a.verdict.None? && s'.log == s.log + [a]
    requires At(s'.shared, n).healthy == (At(s.shared, n).healthy && !Ejects(e.nodes, a, n))
    requires Follows(e.nodes[n], At(s.shared, n), At(s'.shared, n), Score(e, |s.log|, a, n))
    ensures Tells(e, q, s, s', s.tried, n)
  {
    hide Follows, At, Considered, Exhausted;
    var told := Telling(e, q, |s.log|, a, n, At(s.shared, n).healthy, s.tried);
    assert told == [] + Score(e, |s.log|, a, n) + [];
    assert told == Score(e, |s.log|, a, n);
  }

  lemma SameTried(e: World, q: Request, s: Stage, tried: set<string>, s': Stage, n: nat)
    requires n < |e.nodes| && Tells(e, q, s.(tried := tried), s', tried, n)
    ensures Tells(e, q, s, s', tried, n)
  {
    hide Follows, Telling, Ejects, At;
  }

  // ----- whole walks -----

  /** Node n is in service after the attempts: it was before them and none of them ejected it. */
  predicate Standing(nodes: seq<Node>, log: seq<Attempt>, n: nat, healthy: bool)
    requires n < |nodes|
  {
    healthy && forall j :: 0 <= j < |log| ==> !Ejects(nodes, log[j], n)
  }

  /** All that the attempts told node n, in order. */
  function Told(e: World, q: Request, log: seq<Attempt>, n: nat, healthy: bool): Events
    requires n < |e.nodes|
  {
    if log == [] then []
    else
      var (past, a) := (log[..|log| - 1], log[|log| - 1]);
      Told(e, q, past, n, healthy)
      + Telling(e, q, |past|, a, n, Standing(e.nodes, past, n, healthy), Names(e.nodes, log))
  }

  ghost predicate AllTold(e: World, q: Request, shared: Shared, s: Stage, n: nat)
    requires n < |e.nodes|
  {
    var (c, c') := (At(shared, n), At(s.shared, n));
    && c'.healthy == Standing(e.nodes, s.log, n, c.healthy)
    && Follows(e.nodes[n], c, c', Told(e, q, s.log, n, c.healthy))
  }

  lemma TurnTold(e: World, q: Request, shared: Shared, s: Stage, s': Stage, n: nat)
    requires n < |e.nodes| && AllTold(e, q, shared, s, n) && Tells(e, q, s, s', Names(e.nodes, s'.log), n)
    ensures AllTold(e, q, shared, s', n)
  {
    hide Follows, Telling, Ejects, At, Names;
    var (c, log') := (At(shared, n), s'.log);
    var a := log'[|s.log|];
    assert log'[..|log'| - 1] == s.log && log'[|log'| - 1] == a;
    assert forall j :: 0 <= j < |s.log| ==> log'[j] == s.log[j];
    FollowsAppend(e.nodes[n], c, At(s.shared, n), At(s'.shared, n), Told(e, q, s.log, n, c.healthy),
                  Telling(e, q, |s.log|, a, n, At(s.shared, n).healthy, Names(e.nodes, log')));
  }

  lemma TriedAfter(e: World, q: Request, s: Stage)
    requires Lawful(e) && Sound(e, q, s) && s.candidate.Some? && s.candidate.value < |e.nodes|
    requires Fitting(e.nodes, s.shared)
    ensures s.tried + {e.nodes[s.candidate.value].name} == Names(e.nodes, Advance(e, q, s).log)
  {
    hide Lawful, Advance, Sound, Turns, AttemptSound;
    SoundGoes(e, q, s);
    assert s.tried == Names(e.nodes, s.log) && s.served.None? by { SoundTried(e, q, s); }
    if Servable(e.replies(|s.log|).reply) {
      ServedTurn(e, q, s);
    } else {
      AdvanceTurns(e, q, s);
      TurnsLog(e, q, s.(tried := s.tried + {e.nodes[s.candidate.value].name}), Advance(e, q, s),
               Advance(e, q, s).log[|s.log|]);
    }
    NamesAppend(e.nodes, s.log, Advance(e, q, s).log[|s.log|]);
  }

  lemma SoundTried(e: World, q: Request, s: Stage)
    requires Sound(e, q, s)
    ensures s.tried == Names(e.nodes, s.log) && (s.candidate.Some? ==> s.served.None?)
  {
  }

  lemma TurnsLog(e: World, q: Request, s: Stage, s': Stage, a: Attempt)
    requires Turns(e, q, s, s', a)
    ensures s'.log == s.log + [a]
  {
  }

  /** At every stage of a walk nobody disturbs, each node's breaker is where the walk's own looks, failures and success
      leave it, and its health flag is cleared exactly if an attempt on it ended in a transport error and its health is
      probed. */
  lemma {:induction false} WalkTells(e: World, q: Request, shared: Shared, first: nat, k: nat, n: nat)
    requires Undisturbed(e) && Lawful(e) && Fitting(e.nodes, shared) && n < |e.nodes|
    requires first < |e.nodes| && Suits(e.nodes[first], q) && Sound(e, q, Opening(shared, first))
    ensures AllTold(e, q, shared, Run(e, q, Opening(shared, first), k), n)
  {
    hide Lawful, Advance, Sound, Undisturbed, Tells, AllTold, Suits, Fitting;
    if k == 0 {
      NothingTold(e, q, shared, first, n);
    } else {
      WalkTells(e, q, shared, first, k - 1, n);
      var s := Run(e, q, Opening(shared, first), k - 1);
      if s.candidate.Some? {
        SoundGoes(e, q, s);
        AdvanceTells(e, q, s, n);
        TriedAfter(e, q, s);
        TurnTold(e, q, shared, s, Advance(e, q, s), n);
      }
    }
  }

  lemma NothingTold(e: World, q: Request, shared: Shared, first: nat, n: nat)
    requires n < |e.nodes|
    ensures AllTold(e, q, shared, Opening(shared, first), n)
  {
    FollowsNone(e.nodes[n], At(shared, n));
  }

  // ----- one walk after another -----

  datatype Trip = Trip(e: World, q: Request, first: nat)

  ghost predicate Alone(nodes: seq<Node>, t: Trip) {
    Undisturbed(t.e) && Lawful(t.e) && t.e.nodes == nodes && t.first < |nodes| && Suits(nodes[t.first], t.q)
  }

  ghost predicate AllAlone(nodes: seq<Node>, trips: seq<Trip>) {
    forall i :: 0 <= i < |trips| ==> Alone(nodes, trips[i])
  }

  function Walked(nodes: seq<Node>, t: Trip, s: Shared): (end: Stage)
    requires Alone(nodes, t) && Fitting(nodes, s)
    ensures Fitting(nodes, end.shared)
  {
    OpeningSound(t.e, t.q, s, t.first);
    Run(t.e, t.q, Opening(s, t.first), MAX_FAILOVER_ATTEMPTS)
  }

  /** The shared state after the walks. */
  function Across(nodes: seq<Node>, trips: seq<Trip>, s: Shared): (s': Shared)
    requires AllAlone(nodes, trips) && Fitting(nodes, s)
    ensures Fitting(nodes, s')
  {
    if trips == [] then s
    else Walked(nodes, trips[|trips| - 1], Across(nodes, trips[..|trips| - 1], s)).shared
  }

  /** All that the walks told node n. */
  function ToldAcross(nodes: seq<Node>, trips: seq<Trip>, s: Shared, n: nat): Events
    requires AllAlone(nodes, trips) && Fitting(nodes, s) && n < |nodes|
  {
    if trips == [] then []
    else
      var (past, t) := (trips[..|trips| - 1], trips[|trips| - 1]);
      var before := Across(nodes, past, s);
      ToldAcross(nodes, past, s, n) + Told(t.e, t.q, Walked(nodes, t, before).log, n, At(before, n).healthy)
  }

  lemma {:induction false} AcrossTells(nodes: seq<Node>, trips: seq<Trip>, s: Shared, n: nat)
    requires AllAlone(nodes, trips) && Fitting(nodes, s) && n < |nodes|
    ensures Follows(nodes[n], At(s, n), At(Across(nodes, trips, s), n), ToldAcross(nodes, trips, s, n))
  {
    hide Follows, Told, Run, Fitting, At;
    if trips == [] {
      FollowsNone(nodes[n], At(s, n));
    } else {
      var (past, t) := (trips[..|trips| - 1], trips[|trips| - 1]);
      var before := Across(nodes, past, s);
      AcrossTells(nodes, past, s, n);
      OpeningSound(t.e, t.q, before, t.first);
      WalkTells(t.e, t.q, before, t.first, MAX_FAILOVER_ATTEMPTS, n);
      var end := Walked(nodes, t, before);
      FollowsAppend(nodes[n], At(s, n), At(before, n), At(end.shared, n), ToldAcross(nodes, past, s, n),
                    Told(t.e, t.q, end.log, n, At(before, n).healthy));
    }
  }

  // ----- misses -----

  /** Attempts on the node that were neither served nor retried. */
  function Misses(log: seq<Attempt>, n: nat): nat {
    if log == [] then 0
    else
      var a := log[|log| - 1];
      Misses(log[..|log| - 1], n) + if a.node == n && !a.retried && !Good(a.reply) then 1 else 0
  }

  predicate NoneServed(log: seq<Attempt>, n: nat) {
    forall j :: 0 <= j < |log| && log[j].node == n ==> !Good(log[j].reply)
  }

  function MissesAcross(nodes: seq<Node>, trips: seq<Trip>, s: Shared, n: nat): nat
    requires AllAlone(nodes, trips) && Fitting(nodes, s)
  {
    if trips == [] then 0
    else
      var (past, t) := (trips[..|trips| - 1], trips[|trips| - 1]);
      MissesAcross(nodes, past, s, n) + Misses(Walked(nodes, t, Across(nodes, past, s)).log, n)
  }

  ghost predicate NoneServedAcross(nodes: seq<Node>, trips: seq<Trip>, s: Shared, n: nat)
    requires AllAlone(nodes, trips) && Fitting(nodes, s)
  {
    trips == []
    || (var (past, t) := (trips[..|trips| - 1], trips[|trips| - 1]);
        NoneServedAcross(nodes, past, s, n) && NoneServed(Walked(nodes, t, Across(nodes, past, s)).log, n))
  }

  lemma TellingStreak(e: World, q: Request, i: nat, a: Attempt, n: nat, healthy: bool, tried: set<string>, es: Events)
    requires n < |e.nodes| && !(a.node == n && Good(a.reply))
    ensures CircuitBreaker.Streak(es + Telling(e, q, i, a, n, healthy, tried))
        == CircuitBreaker.Streak(es) + if a.node == n && !a.retried && !Good(a.reply) then 1 else 0
  {
    hide Considered, Offered, Ejects, Good, CircuitBreaker.Streak, AskIf;
    var stay := Offered(a) && Considered(e.nodes[n], healthy, q, tried - {NameOf(e.nodes, a.node)});
    var onward := !a.retried && !Good(a.reply) && Considered(e.nodes[n], healthy && !Ejects(e.nodes, a, n), q, tried);
    var score := Score(e, i, a, n);
    AskAddsNothing(es, stay, e.clock(i, Reselecting));
    var told := es + AskIf(stay, e.clock(i, Reselecting));
    AtMostOne(told, score);
    AskAddsNothing(told + score, onward, e.clock(i, Selecting));
    Regroup(es, AskIf(stay, e.clock(i, Reselecting)), score, AskIf(onward, e.clock(i, Selecting)));
  }

  lemma AskAddsNothing(es: Events, asked: bool, now: int)
    ensures CircuitBreaker.Streak(es + AskIf(asked, now)) == CircuitBreaker.Streak(es)
  {
    AtMostOne(es, AskIf(asked, now));
  }

  lemma Regroup(w: Events, x: Events, y: Events, z: Events)
    ensures w + (x + y + z) == w + x + y + z
  {
  }

  lemma AtMostOne(es: Events, more: Events)
    requires |more| <= 1 && (more != [] ==> !more[0].Success?)
    ensures CircuitBreaker.Streak(es + more)
        == CircuitBreaker.Streak(es) + if more != [] && more[0].Failure? then 1 else 0
  {
    if more == [] {
      assert es + more == es;
    } else {
      assert (es + more)[..|es|] == es;
    }
  }

  lemma {:induction false} ToldStreak(e: World, q: Request, log: seq<Attempt>, n: nat, healthy: bool, es: Events)
    requires n < |e.nodes| && NoneServed(log, n)
    ensures CircuitBreaker.Streak(es + Told(e, q, log, n, healthy)) == CircuitBreaker.Streak(es) + Misses(log, n)
  {
    hide Telling, Good, Standing, Names, CircuitBreaker.Streak;
    if log == [] {
      assert es + [] == es;
    } else {
      var (past, a) := (log[..|log| - 1], log[|log| - 1]);
      ToldStreak(e, q, past, n, healthy, es);
      var told := Told(e, q, past, n, healthy);
      var telling := Telling(e, q, |past|, a, n, Standing(e.nodes, past, n, healthy), Names(e.nodes, log));
      TellingStreak(e, q, |past|, a, n, Standing(e.nodes, past, n, healthy), Names(e.nodes, log), es + told);
      assert es + (told + telling) == es + told + telling;
    }
  }

  lemma {:induction false} AcrossStreak(nodes: seq<Node>, trips: seq<Trip>, s: Shared, n: nat)
    requires AllAlone(nodes, trips) && Fitting(nodes, s) && n < |nodes| && NoneServedAcross(nodes, trips, s, n)
    ensures CircuitBreaker.Streak(ToldAcross(nodes, trips, s, n)) == MissesAcross(nodes, trips, s, n)
  {
    hide Told, Misses, NoneServed, Walked, Fitting, CircuitBreaker.Streak;
    if trips == [] {
      assert CircuitBreaker.Streak([]) == 0 by { NoStreak(); }
    } else {
      var (past, t) := (trips[..|trips| - 1], trips[|trips| - 1]);
      var before := Across(nodes, past, s);
      AcrossStreak(nodes, past, s, n);
      ToldStreak(t.e, t.q, Walked(nodes, t, before).log, n, At(before, n).healthy, ToldAcross(nodes, past, s, n));
    }
  }

  lemma NoStreak()
    ensures CircuitBreaker.Streak([]) == 0
  {
  }

  predicate UpTo(es: Events, now: int) {
    forall j :: 0 <= j < |es| && !es[j].Success? ==> es[j].now <= now
  }

  /** Failure number `threshold` of the streak, at position `at`, holds the node back for a cooldown. */
  predicate HeldSince(n: Node, c: Condition, es: Events, at: nat, q: Request, excluded: set<string>, now: int) {
    && at < |es| && es[at].Failure? && CircuitBreaker.Streak(es[..at + 1]) == n.settings.threshold
    && (now < es[at].now + n.settings.cooldown ==> !Available(n, c, q, excluded, now))
  }

  lemma StreakHoldsBack(n: Node, c: Condition, es: Events, q: Request, excluded: set<string>, now: int)
    returns (at: nat)
    requires n.settings.threshold >= 1 && n.settings.cooldown >= 1 && CircuitBreaker.Monotone(es) && UpTo(es, now)
    requires c.circuit == Some(CircuitBreaker.Run(n.settings, es))
    requires CircuitBreaker.Streak(es) >= n.settings.threshold
    ensures HeldSince(n, c, es, at, q, excluded, now)
  {
    hide CircuitBreaker.Streak, CircuitBreaker.Run, Available, CircuitBreaker.Permits;
    at := CircuitBreaker.ThresholdOpens(n.settings, es);
    CircuitBreaker.NoneBeforeCooldown(n.settings, es, at, now);
    AvailableIsEligible(n, c, q, excluded, now);
  }

  /** Fewer unserved attempts than the threshold, over any number of walks, leave the breaker closed; the one that
      makes them `threshold` takes the node out of every selection until its cooldown is over. */
  lemma MissesHoldBack(nodes: seq<Node>, trips: seq<Trip>, s: Shared, n: nat, q: Request, excluded: set<string>,
                       now: int)
    returns (at: nat)
    requires AllAlone(nodes, trips) && Fitting(nodes, s) && n < |nodes| && NoneServedAcross(nodes, trips, s, n)
    requires At(s, n).circuit == Some(CircuitBreaker.FRESH)
    requires nodes[n].settings.threshold >= 1 && nodes[n].settings.cooldown >= 1
    requires CircuitBreaker.Monotone(ToldAcross(nodes, trips, s, n)) && UpTo(ToldAcross(nodes, trips, s, n), now)
    ensures var (es, c) := (ToldAcross(nodes, trips, s, n), At(Across(nodes, trips, s), n));
      if MissesAcross(nodes, trips, s, n) < nodes[n].settings.threshold
      then c.circuit.Some? && c.circuit.value.phase.Closed?
      else HeldSince(nodes[n], c, es, at, q, excluded, now)
  {
    hide Fitting, Across, ToldAcross, MissesAcross, At, HeldSince, AllAlone, NoneServedAcross,
         CircuitBreaker.Streak, CircuitBreaker.RunFrom, CircuitBreaker.Monotone, UpTo;
    var es, c := ToldAcross(nodes, trips, s, n), At(Across(nodes, trips, s), n);
    AcrossTells(nodes, trips, s, n);
    AcrossStreak(nodes, trips, s, n);
    CircuitBreaker.ClosedWhileBelowThreshold(nodes[n].settings, es);
    at := 0;
    if MissesAcross(nodes, trips, s, n) >= nodes[n].settings.threshold {
      at := StreakHoldsBack(nodes[n], c, es, q, excluded, now);
    }
  }
}
