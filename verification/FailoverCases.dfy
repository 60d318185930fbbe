/** Walks whose outcome is known in full: a node on its own, and two nodes that share a priority. */
module FailoverCases {
  import opened Options
  import CircuitBreaker
  import opened NodeSelection
  import opened KeyPool
  import opened Failover

  // ----- one node on its own -----

  ghost predicate Undisturbed(e: World) {
    forall i, p, s :: e.others(i, p, s) == s
  }

  /** A single suitable node, nobody else about, a clock that stands still, and a quota reply to everything. */
  ghost predicate Lone(e: World, q: Request, t: int) {
    && |e.nodes| == 1 && AllWeighted(e.nodes) && Suits(e.nodes[0], q) && Undisturbed(e)
    && (forall i, p :: e.clock(i, p) == t)
    && (forall i :: QuotaHit(e.replies(i).reply) && !e.replies(i).reconnected)
  }

  predicate Open(c: Condition) {
    c.circuit.Some? && c.circuit.value.phase == CircuitBreaker.Phase.Open
  }

  /** The walk is about to try its only node, with these keys. */
  predicate Trying(nodes: seq<Node>, s: Stage, k: Keys, c: Condition) {
    && |nodes| == 1 && s.candidate == Some(0) && s.tried <= {nodes[0].name}
    && s.shared.pools == [k] && s.shared.conditions == [c]
    && Proper(k) && k.names != [] && "" !in k.names && c.healthy && !Open(c)
  }

  lemma LoneSelection(nodes: seq<Node>, c: Condition, q: Request, excluded: set<string>, now: int, cursor: nat)
    requires |nodes| == 1 && AllWeighted(nodes) && Suits(nodes[0], q) && c.healthy && !Open(c)
    ensures Chosen(nodes, Goods(nodes, [c], q, excluded, now), cursor)
            == if nodes[0].name in excluded then None else Some(0)
    ensures AllPassed(nodes, [c], q, excluded, now) == [c]
  {
    hide Suits, Bucket, Offer;
    var ok := Goods(nodes, [c], q, excluded, now);
    ChosenChooses(nodes, ok, cursor);
    assert ok[0] <==> nodes[0].name !in excluded;
  }

  /** The pool once the next key has been handed out and blamed. */
  function Drawn(k: Keys, t: int): Keys
    requires Proper(k)
  {
    Marked(Taken(k, t).0, Taken(k, t).1, t)
  }

  lemma LoneJudged(e: World, q: Request, t: int, s: Shared, k: Keys, i: nat)
    requires Lawful(e) && Lone(e, q, t) && Fitting(e.nodes, s)
    requires s.pools == [k] && Proper(k) && k.names != [] && "" !in k.names
    ensures var (sent, key) := Sent(e, s, 0, i);
      && key == Some(Handing(k, t, Taken(k, t).1)) && sent == s.(pools := [Taken(k, t).0])
      && Judged(e, sent, 0, i, key.value.idx) == (s.(pools := [Drawn(k, t)]), Verdict(Taken(k, t).0, t, Drawn(k, t), t))
  {
    hide Lawful, Search;
    Kept(e, s, i, FirstKey);
    assert k.names[Taken(k, t).1] in k.names;
    assert [k][0 := Taken(k, t).0] == [Taken(k, t).0];
    assert [Taken(k, t).0][0 := Drawn(k, t)] == [Drawn(k, t)];
  }

  /** One turn: the same node again, on what is left of its keys, unless nothing is left. */
  lemma LoneTurn(e: World, q: Request, t: int, s: Stage, k: Keys, c: Condition)
    requires Lawful(e) && Lone(e, q, t) && Fitting(e.nodes, s.shared) && Trying(e.nodes, s, k, c)
    ensures var s' := Advance(e, q, s);
      && |s'.log| == |s.log| + 1 && s'.log[..|s.log|] == s.log
      && if Exhausted(Drawn(k, t), t) then s'.candidate.None?
         else Trying(e.nodes, s', Drawn(k, t), c) && s'.log[|s.log|].retried
  {
    hide Lawful, Search, Suits, Sent, Judged, Exhausted, Chosen, AllPassed, Goods, Drawn, Taken, Scored, Selected;
    var i, name := |s.log|, e.nodes[0].name;
    LoneJudged(e, q, t, s.shared, k, i);
    DrawnKeeps(k, t);
    assert s.tried + {name} - {name} == {} && s.tried + {name} == {name};
    var reply, judged := e.replies(i).reply, s.shared.(pools := [Drawn(k, t)]);
    assert QuotaHit(reply);
    var (sent, key) := Sent(e, s.shared, 0, i);
    var s1 := s.(shared := sent, tried := {name});
    var a := Attempt(0, key, reply, None, None, false, 0, None);
    assert Advance(e, q, s) == Fail(e, q, s1, a);
    LoneReselects(e, q, t, judged, c, i);
    NobodyElse(e, q, t, judged, i, reply);
  }

  lemma LoneReselects(e: World, q: Request, t: int, s: Shared, c: Condition, i: nat)
    requires Lawful(e) && Lone(e, q, t) && Fitting(e.nodes, s) && s.conditions == [c] && c.healthy && !Open(c)
    ensures Selected(e, s, q, {}, i, Reselecting) == (s.(rr := s.rr + 1), Some(0))
  {
    hide Lawful, Suits, Chosen, AllPassed, Goods;
    LoneSelection(e.nodes, c, q, {}, t, s.rr);
  }

  lemma DrawnKeeps(k: Keys, t: int)
    requires Proper(k)
    ensures Proper(Drawn(k, t)) && SameKeys(k, Drawn(k, t)) && Proper(Taken(k, t).0)
  {
  }

  /** Once the only node is excluded, selection finds nothing. */
  lemma NobodyElse(e: World, q: Request, t: int, s: Shared, i: nat, reply: Reply)
    requires Lawful(e) && Lone(e, q, t) && Fitting(e.nodes, s)
    ensures Fitting(e.nodes, Scored(e, s, 0, i, reply))
    ensures Selected(e, Scored(e, s, 0, i, reply), q, {e.nodes[0].name}, i, Selecting).1 == None
  {
    hide Lawful, Suits, Scored;
    ScoredKeeps(e, s, 0, i, reply);
    SelectedKeeps(e, Scored(e, s, 0, i, reply), q, {e.nodes[0].name}, i, Selecting);
  }

  /** Blaming a key makes it cold if cooling is enabled; a warm key is handed out first if there is one. */
  lemma DrawnWarm(k: Keys, t: int)
    requires Proper(k) && k.names != []
    ensures var (all, left, idx) := (WarmKeys(k, t), WarmKeys(Drawn(k, t), t), Taken(k, t).1);
      && left == (if k.cooldown > 0 then all - {idx} else all)
      && (all != {} ==> idx in all)
      && (Exhausted(Drawn(k, t), t) <==> left == {})
  {
    SearchHands(k.cool, k.cursor, t);
    var d, all := Drawn(k, t), WarmKeys(k, t);
    if all != {} {
      var i :| i in all;
      assert Warm(k.cool, i, t);
    }
    if !Exhausted(d, t) {
      var i :| 0 <= i < |d.cool| && Warm(d.cool, i, t);
      assert i in WarmKeys(d, t);
    } else {
      assert forall i: nat :: i < |d.cool| ==> !Warm(d.cool, i, t);
    }
  }

  /** How many warm keys are left after j attempts. */
  function Left(warm: nat, cooldown: int, j: nat): int {
    if cooldown > 0 then warm - j else warm
  }

  lemma {:induction false} LoneAfter(e: World, q: Request, t: int, s: Stage, k: Keys, c: Condition, j: nat)
    returns (k': Keys)
    requires Lawful(e) && Lone(e, q, t) && Sound(e, q, s) && Trying(e.nodes, s, k, c)
    requires j == 0 || Left(|WarmKeys(k, t)|, k.cooldown, j) >= 1
    ensures var s' := Run(e, q, s, j);
      && Trying(e.nodes, s', k', c) && |s'.log| == |s.log| + j
      && forall i :: |s.log| <= i < |s'.log| ==> s'.log[i].retried
    ensures SameKeys(k, k') && |WarmKeys(k', t)| == Left(|WarmKeys(k, t)|, k.cooldown, j)
    ensures k.cooldown <= 0 ==> k'.cool == k.cool
  {
    hide Sound, Advance, Lone, Lawful, Drawn, Exhausted, WarmKeys;
    if j == 0 {
      k' := k;
    } else {
      var r := LoneAfter(e, q, t, s, k, c, j - 1);
      var before := Run(e, q, s, j - 1);
      assert Fitting(e.nodes, before.shared) by { SoundGoes(e, q, before); }
      LoneTurn(e, q, t, before, r, c);
      DrawnKeeps(r, t);
      DrawnCount(r, t);
      k' := Drawn(r, t);
    }
  }

  lemma DrawnCount(k: Keys, t: int)
    requires Proper(k) && k.names != []
    ensures var (warm, left) := (|WarmKeys(k, t)|, |WarmKeys(Drawn(k, t), t)|);
      && left == (if k.cooldown > 0 && warm > 0 then warm - 1 else warm)
      && (Exhausted(Drawn(k, t), t) <==> left == 0)
      && (k.cooldown <= 0 ==> Drawn(k, t).cool == k.cool)
  {
    DrawnWarm(k, t);
    hide WarmKeys, Exhausted;
    var all, left := WarmKeys(k, t), WarmKeys(Drawn(k, t), t);
    if all != {} && k.cooldown > 0 {
      assert all == left + {Taken(k, t).1};
    }
  }

  /** "Each upstream is tried at most once" is not what the loop does. A node on its own that answers every attempt with
      a quota error is tried once per warm key, up to the ceiling - or, with cooling disabled, up to the ceiling even
      on a single key, with no key cooled and its breaker never told. */
  lemma LoneNodeAttempts(e: World, q: Request, t: int, shared: Shared, k: Keys, c: Condition)
    requires Lawful(e) && Lone(e, q, t) && Fitting(e.nodes, shared) && Trying(e.nodes, Opening(shared, 0), k, c)
    requires Sound(e, q, Opening(shared, 0))
    ensures var (end, warm) := (Run(e, q, Opening(shared, 0), MAX_FAILOVER_ATTEMPTS), |WarmKeys(k, t)|);
      && |end.log| == (if warm == 0 then 1 else if k.cooldown > 0 && warm < 5 then warm else 5)
      && (k.cooldown <= 0 && warm > 0 ==>
            end.shared.pools[0].cool == k.cool
            && forall i :: 0 <= i < 5 ==> end.log[i].retried && end.log[i].scores == 0)
  {
    hide Lawful, Lone, Sound, Advance, WarmKeys, Exhausted, Drawn;
    var s, warm := Opening(shared, 0), |WarmKeys(k, t)|;
    var turns := if warm == 0 then 0 else if k.cooldown > 0 && warm <= 5 then warm - 1 else 5;
    var k' := LoneAfter(e, q, t, s, k, c, turns);
    var r := Run(e, q, s, turns);
    assert Fitting(e.nodes, r.shared) by { SoundGoes(e, q, r); }
    if turns == 5 {
      RetriesUnscored(e, q, r);
    } else {
      LoneTurn(e, q, t, r, k', c);
      DrawnCount(k', t);
      assert Run(e, q, s, turns + 1) == Advance(e, q, r);
      RunStops(e, q, s, turns + 1, 5);
    }
  }

  lemma RetriesUnscored(e: World, q: Request, s: Stage)
    requires Sound(e, q, s)
    ensures forall i :: 0 <= i < |s.log| && s.log[i].retried ==> s.log[i].scores == 0
  {
    hide AttemptSound, Waiting, Finished;
    forall i | 0 <= i < |s.log| && s.log[i].retried
      ensures s.log[i].scores == 0
    {
      assert AttemptSound(e.nodes, q, s.log[i]);
      UnscoredIfRetried(e.nodes, q, s.log[i]);
    }
  }

  lemma UnscoredIfRetried(nodes: seq<Node>, q: Request, a: Attempt)
    requires AttemptSound(nodes, q, a) && a.retried
    ensures a.scores == 0
  {
  }

  const FINE := Condition(true, None)

  /** At the input a negative `key_cooldown` configures: one key, cooling disabled. */
  lemma DisabledCooling(q: Request, n: Node) returns (e: World, shared: Shared)
    requires Suits(n, q) && n.weight >= 1
    ensures Lawful(e) && Sound(e, q, Opening(shared, 0)) && e.nodes == [n] && shared.pools == [Keys(["k"], 0, [0], 0)]
    ensures var end := Run(e, q, Opening(shared, 0), MAX_FAILOVER_ATTEMPTS);
      |end.log| == 5 && end.shared.pools[0].cool == [0] && forall i :: 0 <= i < 5 ==> end.log[i].scores == 0
  {
    hide Suits, Run;
    e := World([n], (_, _, s) => s, (_, _) => 0, _ => Exchange(false, Status(429, false)));
    var k := Keys(["k"], 0, [0], 0);
    shared := Shared([FINE], 0, [k]);
    OpeningSound(e, q, shared, 0);
    assert 0 in WarmKeys(k, 0);
    assert |WarmKeys(k, 0)| != 0;
    LoneNodeAttempts(e, q, 0, shared, k, FINE);
  }

  // ----- the held response -----

  /** Two nodes of one priority: which of them a selection names. */
  lemma PairSelection(nodes: seq<Node>, ok: seq<bool>, cursor: nat)
    requires |nodes| == |ok| == 2 && nodes[0].weight == nodes[1].weight == 1
    requires nodes[0].priority == nodes[1].priority && ok[1]
    ensures Chosen(nodes, ok, cursor) == if ok[0] && cursor % 2 == 0 then Some(0) else Some(1)
  {
    hide Bucket;
    var p := nodes[0].priority;
    EmptyBucket(nodes, ok, p);
    BucketGrows(nodes, ok, p, 0);
    BucketGrows(nodes, ok, p, 1);
    assert LeastPriority(nodes, ok, 2) == Some(p);
  }

  /** The first turn of the example below: one of two keys is cooled, the node is offered again, selection names the
      other one. */
  lemma PairTurn(e: World, q: Request, s: Stage, k: Keys)
    requires Lawful(e) && Sound(e, q, s) && s == Opening(s.shared, 0) && Undisturbed(e) && |e.nodes| == 2
    requires e.nodes[0].weight == e.nodes[1].weight == 1 && e.nodes[0].priority == e.nodes[1].priority
    requires Suits(e.nodes[1], q) && e.nodes[0].name != e.nodes[1].name
    requires s.shared == Shared([FINE, FINE], 1, [k, Keys([], 1, [], 0)]) && k == Keys(["a", "b"], 1, [0, 0], 0)
    requires (forall p :: e.clock(0, p) == 0) && e.replies(0) == Exchange(false, Status(429, false))
    ensures var s' := Advance(e, q, s);
      && |s'.log| == 1 && s'.log[0].node == 0 && s'.log[0].reply == e.replies(0).reply && s'.served.None?
      && Offered(s'.log[0]) && !s'.log[0].retried && s'.candidate == Some(1)
  {
    hide Lawful, Suits, Chosen, AllPassed, MoveOn, Sound;
    SoundGoes(e, q, s);
    SentKeeps(e, s.shared, 0, 0);
    assert Search(k.cool, 0, 0, 0) == 0;
    var (sent, key) := Sent(e, s.shared, 0, 0);
    assert key == Some(Handing(k, 0, 0));
    JudgedKeeps(e, sent, 0, 0, 0);
    var (judged, v) := Judged(e, sent, 0, 0, 0);
    assert Warm(v.asked.cool, 1, 0);
    var name := e.nodes[0].name;
    var tried := s.tried + {name};
    var ok := Goods(e.nodes, judged.conditions, q, tried - {name}, 0);
    assert ok[1];
    PairSelection(e.nodes, ok, 1);
    SelectedKeeps(e, judged, q, tried - {name}, 0, Reselecting);
    var (shared, again) := Selected(e, judged, q, tried - {name}, 0, Reselecting);
    assert again == Some(1);
    var s1 := s.(shared := shared, tried := tried, held := Some(0), closed := s.closed + Released(s.held));
    var a := Attempt(0, key, e.replies(0).reply, Some(v), again, false, 0, None);
    assert Advance(e, q, s) == MoveOn(e, q, s1, a);
    PairMovesOn(e, q, s1, a);
  }

  lemma PairMovesOn(e: World, q: Request, s: Stage, a: Attempt)
    requires Lawful(e) && Fitting(e.nodes, s.shared) && Undisturbed(e) && |e.nodes| == 2 && a.node == 0 && s.log == []
    requires e.nodes[0].weight == e.nodes[1].weight == 1 && e.nodes[0].priority == e.nodes[1].priority
    requires Suits(e.nodes[1], q) && e.nodes[0].name != e.nodes[1].name && s.tried == {e.nodes[0].name}
    requires s.shared.conditions[1] == FINE
    ensures var s' := MoveOn(e, q, s, a);
      s'.candidate == Some(1) && s'.log == [a.(scores := 1, next := Some(1))] && s'.served == s.served
  {
    hide Lawful, Suits, Chosen;
    ScoredKeeps(e, s.shared, 0, 0, a.reply);
    var scored := Scored(e, s.shared, 0, 0, a.reply);
    var ok := Goods(e.nodes, scored.conditions, q, s.tried, e.clock(0, Selecting));
    assert ok[1] && !ok[0];
    PairSelection(e.nodes, ok, scored.rr);
  }

  /** "The last real upstream response is relayed" - closed, here: the first node answers 429 and cools one of its two
      keys, round robin names the second node when the first is asked for again, and the second cannot be reached. The
      first node's breaker was told of a failure although a key was warm. */
  lemma RelaysClosedResponse(q: Request, x: Node, y: Node) returns (e: World, shared: Shared)
    requires Suits(x, q) && Suits(y, q) && x.name != y.name && x.priority == y.priority && x.weight == y.weight == 1
    ensures Lawful(e) && Sound(e, q, Opening(shared, 0)) && e.nodes == [x, y]
    ensures var end := Run(e, q, Opening(shared, 0), MAX_FAILOVER_ATTEMPTS);
      && |end.log| == 2 && end.served.None? && end.held == Some(0) && 0 in end.closed
      && end.log[0].scores == 1 && Offered(end.log[0])
  {
    hide Suits, Advance, Offered, Sound, Lawful;
    var k := Keys(["a", "b"], 1, [0, 0], 0);
    e := World([x, y], (_, _, s) => s, (_, _) => 0,
               i => Exchange(false, if i == 0 then Status(429, false) else TransportError));
    shared := Shared([FINE, FINE], 1, [k, Keys([], 1, [], 0)]);
    assert Lawful(e) by { UndisturbedLawful(e); }
    OpeningSound(e, q, shared, 0);
    var s0 := Opening(shared, 0);
    assert Run(e, q, s0, 0) == s0;
    PairTurn(e, q, s0, k);
    var s1 := Run(e, q, s0, 1);
    PairEnds(e, q, s1);
    var s2 := Run(e, q, s0, 2);
    RunStops(e, q, s0, 2, 5);
    LastIsFirst(e, q, s2);
  }

  lemma UndisturbedLawful(e: World)
    requires Undisturbed(e) && AllWeighted(e.nodes)
    ensures Lawful(e)
  {
  }

  /** The second turn: both nodes have been tried. */
  lemma PairEnds(e: World, q: Request, s: Stage)
    requires Lawful(e) && Sound(e, q, s) && |e.nodes| == 2 && |s.log| == 1 && s.log[0].node == 0
    requires s.candidate == Some(1) && s.served.None? && e.replies(1).reply.TransportError?
    ensures Fitting(e.nodes, s.shared)
    ensures var s' := Advance(e, q, s);
      && |s'.log| == 2 && s'.log[0] == s.log[0] && s'.log[1].reply.TransportError?
      && s'.candidate.None? && s'.served.None?
  {
    hide Lawful, Suits, Waiting, Finished, KeySound, VerdictSound, Exhausted, Advance;
    AdvanceTurns(e, q, s);
    assert NameOf(e.nodes, s.log[0].node) in Names(e.nodes, s.log);
  }

  lemma LastIsFirst(e: World, q: Request, s: Stage)
    requires Sound(e, q, s) && s.served.None? && |s.log| == 2
    requires s.log[0].reply.Status? && s.log[1].reply.TransportError?
    requires Offered(s.log[0]) && !s.log[0].retried
    ensures s.held == Some(0) && 0 in s.closed && s.log[0].scores == 1
  {
    hide Suits;
    assert AttemptSound(e.nodes, q, s.log[0]);
    assert LastResponse(s.log) == Some(0);
  }
}
