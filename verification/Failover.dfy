/** One request's walk down the fallback chain.

    The shared state - breakers, health flags, the selection cursor and every node's key pool - is read and written
    in single atomic steps; before each of them other requests may have changed it in any way they can. What the
    upstreams answer and what the clock reads is arbitrary too. `Run` is the walk as a state machine; `Fleet.Walk` is
    the loop, proved to be that machine. */
module Failover {
  import opened Options
  import opened Arithmetic
  import opened CircuitBreaker
  import opened NodeSelection
  import opened KeyPool

  const MAX_FAILOVER_ATTEMPTS: nat := 5

  datatype Reply = TransportError | Status(code: int, quotaBody: bool)

  /** An exchange with an upstream; after a broken connection it is sent once more, with the next key. */
  datatype Exchange = Exchange(reconnected: bool, reply: Reply)

  predicate IsFailoverStatus(code: int) {
    code == 429 || code >= 500
  }

  predicate Servable(r: Reply) {
    r.Status? && !IsFailoverStatus(r.code)
  }

  /** A failover status that says a quota is used up. */
  predicate QuotaHit(r: Reply) {
    r.Status? && IsFailoverStatus(r.code) && (r.code == 429 || r.quotaBody)
  }

  // ----- the world of a walk -----

  datatype Shared = Shared(conditions: seq<Condition>, rr: nat, pools: seq<Keys>)

  /** The atomic steps of one attempt. */
  datatype Point = FirstKey | SecondKey | Marking | Asking | Reselecting | Scoring | Selecting

  /** Everything a walk cannot choose: the nodes, what others do before each step of attempt i, the clock there, and
      the upstreams' replies. */
  datatype World = World(
    nodes: seq<Node>,
    others: (nat, Point, Shared) -> Shared,
    clock: (nat, Point) -> int,
    replies: nat -> Exchange)

  predicate Fitting(nodes: seq<Node>, s: Shared) {
    && |s.conditions| == |nodes| == |s.pools|
    && forall i :: 0 <= i < |nodes| ==> Proper(s.pools[i])
  }

  predicate SameKeys(k: Keys, j: Keys) {
    k.names == j.names && k.cooldown == j.cooldown
  }

  predicate SamePools(s: Shared, t: Shared) {
    |s.pools| == |t.pools| && forall i :: 0 <= i < |s.pools| ==> SameKeys(s.pools[i], t.pools[i])
  }

  /** Others change conditions, cursors and cooldowns as they like, but not which nodes and keys there are. */
  ghost predicate Lawful(e: World) {
    && AllWeighted(e.nodes)
    && forall i, p, s :: Fitting(e.nodes, s) ==> Fitting(e.nodes, e.others(i, p, s)) && SamePools(s, e.others(i, p, s))
  }

  // ----- the steps -----

  /** A pool as a key of it was handed out. */
  datatype Handing = Handing(keys: Keys, now: int, idx: int)

  /** Only a key that is not blank is used, and later blamed. */
  predicate Used(h: Handing) {
    0 <= h.idx < |h.keys.names| && h.keys.names[h.idx] != ""
  }

  function Hand(e: World, s: Shared, node: nat, i: nat, p: Point): (Shared, Handing)
    requires Lawful(e) && Fitting(e.nodes, s) && node < |e.nodes|
  {
    var d, now := e.others(i, p, s), e.clock(i, p);
    var (left, idx) := Taken(d.pools[node], now);
    (d.(pools := d.pools[node := left]), Handing(d.pools[node], now, idx))
  }

  /** Sending the request: the pool as the key it is blamed on was handed out. */
  function Sent(e: World, s: Shared, node: nat, i: nat): (Shared, Option<Handing>)
    requires Lawful(e) && Fitting(e.nodes, s) && node < |e.nodes|
  {
    var (s1, h1) := Hand(e, s, node, i, FirstKey);
    var key := if Used(h1) then Some(h1) else None;
    if !e.replies(i).reconnected then (s1, key)
    else
      var (s2, h2) := Hand(e, s1, node, i, SecondKey);
      (s2, if Used(h2) then Some(h2) else key)
  }

  /** A quota verdict on a key: the pool just before it was marked, and as it was asked whether all are cooling. */
  datatype Verdict = Verdict(before: Keys, markedAt: int, asked: Keys, askedAt: int)

  function Judged(e: World, s: Shared, node: nat, i: nat, idx: int): (Shared, Verdict)
    requires Lawful(e) && Fitting(e.nodes, s) && node < |e.nodes|
  {
    var d, now := e.others(i, Marking, s), e.clock(i, Marking);
    var s1 := d.(pools := d.pools[node := Marked(d.pools[node], idx, now)]);
    var s2 := e.others(i, Asking, s1);
    (s2, Verdict(d.pools[node], now, s2.pools[node], e.clock(i, Asking)))
  }

  function Selected(e: World, s: Shared, q: Request, excluded: set<string>, i: nat, p: Point): (Shared, Option<nat>)
    requires Lawful(e) && Fitting(e.nodes, s)
  {
    var d, now := e.others(i, p, s), e.clock(i, p);
    var chosen := Chosen(e.nodes, Goods(e.nodes, d.conditions, q, excluded, now), d.rr);
    (d.(conditions := AllPassed(e.nodes, d.conditions, q, excluded, now),
        rr := if chosen.Some? then d.rr + 1 else d.rr),
     chosen)
  }

  /** A node's condition once an attempt is scored: a transport error also ejects a node whose health is probed. */
  function Rated(n: Node, c: Condition, reply: Reply, now: int): Condition {
    Condition(c.healthy && !(reply.TransportError? && n.probed),
              match c.circuit
              case None => None
              case Some(b) => Some(if Servable(reply) then Succeeded(b) else Failed(b, n.settings, now)))
  }

  function Scored(e: World, s: Shared, node: nat, i: nat, reply: Reply): Shared
    requires Lawful(e) && Fitting(e.nodes, s) && node < |e.nodes|
  {
    var d := e.others(i, Scoring, s);
    d.(conditions := d.conditions[node := Rated(e.nodes[node], d.conditions[node], reply, e.clock(i, Scoring))])
  }

  // ----- the walk -----

  /** One attempt: its node, the key it is blamed on, its reply, the verdict on the key, what selection said when asked
      to stay, whether it stayed, how often the breaker was scored, and where the walk went next. */
  datatype Attempt = Attempt(
    node: nat,
    key: Option<Handing>,
    reply: Reply,
    verdict: Option<Verdict>,
    again: Option<nat>,
    retried: bool,
    scores: nat,
    next: Option<nat>)

  /** The pool was not out of keys when asked, so the same node is offered once more. */
  predicate Offered(a: Attempt) {
    a.verdict.Some? && !Exhausted(a.verdict.value.asked, a.verdict.value.askedAt)
  }

  datatype Stage = Stage(
    shared: Shared,
    candidate: Option<nat>,
    tried: set<string>,
    log: seq<Attempt>,
    held: Option<nat>,
    closed: set<nat>,
    served: Option<nat>)

  function Released(held: Option<nat>): set<nat> {
    if held.Some? then {held.value} else {}
  }

  /** Scores the breaker and moves on: the end of every attempt that is neither served nor retried. */
  function MoveOn(e: World, q: Request, s: Stage, a: Attempt): Stage
    requires Lawful(e) && Fitting(e.nodes, s.shared) && a.node < |e.nodes|
  {
    var i := |s.log|;
    var (shared, next) := Selected(e, Scored(e, s.shared, a.node, i, a.reply), q, s.tried, i, Selecting);
    var s' := s.(shared := shared, candidate := next, log := s.log + [a.(scores := 1, next := next)]);
    if a.reply.TransportError? then s' else s'.(held := Some(i), closed := s.closed + Released(s.held))
  }

  /** A failover status: a quota verdict may keep the walk at this node. */
  function Fail(e: World, q: Request, s: Stage, a: Attempt): Stage
    requires Lawful(e) && Fitting(e.nodes, s.shared) && a.node < |e.nodes|
  {
    if !QuotaHit(a.reply) || a.key.None? then MoveOn(e, q, s, a)
    else
      var i, name := |s.log|, e.nodes[a.node].name;
      var (judged, v) := Judged(e, s.shared, a.node, i, a.key.value.idx);
      var a1 := a.(verdict := Some(v));
      if !Offered(a1) then MoveOn(e, q, s.(shared := judged), a1)
      else
        var (shared, again) := Selected(e, judged, q, s.tried - {name}, i, Reselecting);
        var (s2, a2) := (s.(shared := shared, held := Some(i), closed := s.closed + Released(s.held)),
                         a1.(again := again));
        if Same(e.nodes, again, name)
        then s2.(candidate := again, log := s.log + [a2.(retried := true, next := again)])
        else MoveOn(e, q, s2, a2)
  }

  predicate Same(nodes: seq<Node>, pick: Option<nat>, name: string) {
    pick.Some? && pick.value < |nodes| && nodes[pick.value].name == name
  }

  /** One turn of the loop. */
  function Advance(e: World, q: Request, s: Stage): Stage
    requires Lawful(e) && Fitting(e.nodes, s.shared) && s.candidate.Some? && s.candidate.value < |e.nodes|
  {
    var i, node := |s.log|, s.candidate.value;
    var reply := e.replies(i).reply;
    var (shared, key) := Sent(e, s.shared, node, i);
    var s1 := s.(shared := shared, tried := s.tried + {e.nodes[node].name});
    var a := Attempt(node, key, reply, None, None, false, 0, None);
    if Servable(reply)
    then s1.(shared := Scored(e, shared, node, i, reply), candidate := None, log := s.log + [a.(scores := 1)],
             closed := s.closed + Released(s.held), served := Some(i))
    else if reply.TransportError? then MoveOn(e, q, s1, a)
    else Fail(e, q, s1, a)
  }

  function Opening(s: Shared, first: nat): Stage {
    Stage(s, Some(first), {}, [], None, {}, None)
  }

  ghost predicate Going(e: World, s: Stage) {
    Lawful(e) && Fitting(e.nodes, s.shared) && (s.candidate.Some? ==> s.candidate.value < |e.nodes|)
  }

  // ----- every step keeps the nodes and keys -----

  lemma Kept(e: World, s: Shared, i: nat, p: Point)
    requires Lawful(e) && Fitting(e.nodes, s)
    ensures Fitting(e.nodes, e.others(i, p, s)) && SamePools(s, e.others(i, p, s))
  {
  }

  lemma SentKeeps(e: World, s: Shared, node: nat, i: nat)
    requires Lawful(e) && Fitting(e.nodes, s) && node < |e.nodes|
    ensures var (s', key) := Sent(e, s, node, i);
      && Fitting(e.nodes, s') && SamePools(s, s')
      && (key.Some? ==> KeySound(key.value) && SameKeys(key.value.keys, s.pools[node]))
  {
    hide Lawful, Search;
    HandKeeps(e, s, node, i, FirstKey);
    if e.replies(i).reconnected {
      HandKeeps(e, Hand(e, s, node, i, FirstKey).0, node, i, SecondKey);
    }
  }

  /** The key blamed is the one its pool really handed out at that moment. */
  predicate KeySound(h: Handing) {
    Proper(h.keys) && Used(h) && h.idx == Taken(h.keys, h.now).1
  }

  lemma HandKeeps(e: World, s: Shared, node: nat, i: nat, p: Point)
    requires Lawful(e) && Fitting(e.nodes, s) && node < |e.nodes|
    ensures var (s', h) := Hand(e, s, node, i, p);
      && Fitting(e.nodes, s') && SamePools(s, s') && SameKeys(h.keys, s.pools[node])
      && Proper(h.keys) && h.idx == Taken(h.keys, h.now).1
  {
    hide Lawful, Search;
    Kept(e, s, i, p);
  }

  lemma JudgedKeeps(e: World, s: Shared, node: nat, i: nat, idx: int)
    requires Lawful(e) && Fitting(e.nodes, s) && node < |e.nodes|
    ensures var (s', v) := Judged(e, s, node, i, idx);
      && Fitting(e.nodes, s') && SamePools(s, s')
      && VerdictSound(v) && SameKeys(v.before, s.pools[node])
  {
    hide Lawful;
    Kept(e, s, i, Marking);
    var d := e.others(i, Marking, s);
    Kept(e, d.(pools := d.pools[node := Marked(d.pools[node], idx, e.clock(i, Marking))]), i, Asking);
  }

  predicate VerdictSound(v: Verdict) {
    Proper(v.before) && Proper(v.asked) && SameKeys(v.before, v.asked)
  }

  lemma SelectedKeeps(e: World, s: Shared, q: Request, excluded: set<string>, i: nat, p: Point)
    requires Lawful(e) && Fitting(e.nodes, s)
    ensures var (s', c) := Selected(e, s, q, excluded, i, p);
      && Fitting(e.nodes, s') && SamePools(s, s')
      && (c.Some? ==> c.value < |e.nodes| && Suits(e.nodes[c.value], q) && e.nodes[c.value].name !in excluded)
  {
    hide Suits, Offer, Chooses, Passed, Eligible;
    Kept(e, s, i, p);
    var d, now := e.others(i, p, s), e.clock(i, p);
    var c := Selected(e, s, q, excluded, i, p).1;
    ChosenChooses(e.nodes, Goods(e.nodes, d.conditions, q, excluded, now), d.rr);
    if c.Some? {
      ChosenIsSafe(e.nodes, d.conditions, q, excluded, now, d.rr, c.value);
    }
  }

  lemma ScoredKeeps(e: World, s: Shared, node: nat, i: nat, reply: Reply)
    requires Lawful(e) && Fitting(e.nodes, s) && node < |e.nodes|
    ensures Fitting(e.nodes, Scored(e, s, node, i, reply)) && SamePools(s, Scored(e, s, node, i, reply))
  {
    hide Lawful, Rated;
    Kept(e, s, i, Scoring);
  }

  // ----- what is promised of the log -----

  /** One attempt's record: the node suits the request; the key blamed was handed out by its pool; there is a verdict
      exactly for a quota reply to a request with a pooled key; the attempt is retried exactly if the pool was not out
      of keys and selection named the same node, and then that is where the walk goes; the breaker is scored once unless
      it is retried. */
  predicate AttemptSound(nodes: seq<Node>, q: Request, a: Attempt) {
    && a.node < |nodes| && Suits(nodes[a.node], q)
    && (a.key.Some? ==> KeySound(a.key.value))
    && (a.verdict.Some? <==> QuotaHit(a.reply) && a.key.Some?)
    && (a.verdict.Some? ==> VerdictSound(a.verdict.value) && SameKeys(a.verdict.value.before, a.key.value.keys))
    && (a.retried <==> Offered(a) && Same(nodes, a.again, nodes[a.node].name))
    && (a.retried ==> a.next == a.again)
    && a.scores == (if a.retried then 0 else 1)
  }

  /** Each attempt is on the node the one before it named, and the candidate is the node the last one named. */
  predicate Linked(log: seq<Attempt>, candidate: Option<nat>) {
    && (forall j :: 0 < j < |log| ==> log[j - 1].next == Some(log[j].node))
    && (|log| > 0 ==> log[|log| - 1].next == candidate)
  }

  function NameOf(nodes: seq<Node>, n: nat): string {
    if n < |nodes| then nodes[n].name else ""
  }

  function Names(nodes: seq<Node>, log: seq<Attempt>): set<string> {
    set i | 0 <= i < |log| :: NameOf(nodes, log[i].node)
  }

  /** A node is tried again only right after an attempt on it that was retried. */
  predicate Repeats(nodes: seq<Node>, log: seq<Attempt>) {
    forall j, k :: 0 <= j < k < |log| && NameOf(nodes, log[j].node) == NameOf(nodes, log[k].node) ==>
      NameOf(nodes, log[k - 1].node) == NameOf(nodes, log[k].node) && log[k - 1].retried
  }

  /** A node may be tried next if it is new, or if the last attempt was retried on it. */
  predicate MayFollow(nodes: seq<Node>, log: seq<Attempt>, n: nat) {
    NameOf(nodes, n) in Names(nodes, log) ==>
      |log| > 0 && log[|log| - 1].retried && NameOf(nodes, log[|log| - 1].node) == NameOf(nodes, n)
  }

  /** The last attempt that got a response at all. */
  function LastResponse(log: seq<Attempt>): (r: Option<nat>)
    ensures r.Some? ==> r.value < |log| && log[r.value].reply.Status?
    ensures r.Some? ==> forall j :: r.value < j < |log| ==> log[j].reply.TransportError?
    ensures r.None? ==> forall j :: 0 <= j < |log| ==> log[j].reply.TransportError?
  {
    if log == [] then None
    else if log[|log| - 1].reply.Status? then Some(|log| - 1)
    else LastResponse(log[..|log| - 1])
  }

  /** Offered the same node again but sent elsewhere: its response is stored, then closed by the code that would
      release the previous one, then stored again. */
  predicate ClosedWhileHeld(a: Attempt) {
    Offered(a) && !a.retried
  }

  /** Every superseded response is closed, and the held one exactly when it was closed while held. */
  ghost predicate ClosedExactly(log: seq<Attempt>, closed: set<nat>) {
    forall j: nat :: j in closed <==>
      j < |log| && log[j].reply.Status?
      && match LastResponse(log)
         case None => false
         case Some(h) => j < h || ClosedWhileHeld(log[j])
  }

  predicate NoneServable(log: seq<Attempt>) {
    forall j :: 0 <= j < |log| ==> !Servable(log[j].reply)
  }

  /** While nothing has been served, the last response is held and the others are closed. */
  ghost predicate Waiting(s: Stage) {
    s.served.None? && NoneServable(s.log) && s.held == LastResponse(s.log) && ClosedExactly(s.log, s.closed)
  }

  /** Once the last response is servable, it is open and every other is closed. */
  predicate Finished(s: Stage) {
    && s.candidate.None? && |s.log| > 0 && s.served == Some(|s.log| - 1) && Servable(s.log[|s.log| - 1].reply)
    && (forall j :: 0 <= j < |s.log| - 1 ==> !Servable(s.log[j].reply))
    && (forall j: nat :: j < |s.log| && s.log[j].reply.Status? ==> (j in s.closed <==> j < |s.log| - 1))
  }

  ghost predicate Sound(e: World, q: Request, s: Stage) {
    && Fitting(e.nodes, s.shared)
    && (forall j :: 0 <= j < |s.log| ==> AttemptSound(e.nodes, q, s.log[j]) && s.log[j].reply == e.replies(j).reply)
    && s.tried == Names(e.nodes, s.log) && Repeats(e.nodes, s.log) && Linked(s.log, s.candidate)
    && (s.candidate.Some? ==>
          s.candidate.value < |e.nodes| && Suits(e.nodes[s.candidate.value], q)
          && MayFollow(e.nodes, s.log, s.candidate.value))
    && (if s.served.Some? then Finished(s) else Waiting(s))
  }

  // ----- one turn of the loop -----

  /** What a turn that serves nothing does to the stage, in terms of the attempt it logs. */
  ghost predicate Turns(e: World, q: Request, s: Stage, s': Stage, a: Attempt) {
    && s'.log == s.log + [a] && Fitting(e.nodes, s'.shared) && SamePools(s.shared, s'.shared)
    && AttemptSound(e.nodes, q, a) && s'.tried == s.tried && s'.candidate == a.next && s'.served == s.served
    && (a.next.Some? ==>
          && a.next.value < |e.nodes| && Suits(e.nodes[a.next.value], q)
          && if a.retried then e.nodes[a.next.value].name == e.nodes[a.node].name
             else e.nodes[a.next.value].name !in s.tried)
    && s'.held == (if a.reply.Status? then Some(|s.log|) else s.held)
    && s'.closed == s.closed + (if a.reply.Status? then Released(s.held) else {})
                    + (if ClosedWhileHeld(a) then {|s.log|} else {})
  }

  /** An attempt as the loop builds it up before the walk moves on. */
  predicate Draft(nodes: seq<Node>, q: Request, a: Attempt) {
    && a.node < |nodes| && Suits(nodes[a.node], q) && !a.retried && a.scores == 0
    && (a.key.Some? ==> KeySound(a.key.value))
  }

  lemma MoveOnTurns(e: World, q: Request, s: Stage, a: Attempt)
    requires Lawful(e) && Fitting(e.nodes, s.shared) && Draft(e.nodes, q, a)
    ensures var s' := MoveOn(e, q, s, a);
      && |s'.log| == |s.log| + 1
      && var b := s'.log[|s.log|];
         && s'.log == s.log + [b] && b == a.(scores := 1, next := b.next)
         && Fitting(e.nodes, s'.shared) && SamePools(s.shared, s'.shared)
         && s'.tried == s.tried && s'.candidate == b.next && s'.served == s.served
         && (b.next.Some? ==>
               b.next.value < |e.nodes| && Suits(e.nodes[b.next.value], q) && e.nodes[b.next.value].name !in s.tried)
         && s'.held == (if a.reply.Status? then Some(|s.log|) else s.held)
         && s'.closed == s.closed + (if a.reply.Status? then Released(s.held) else {})
  {
    hide Lawful, Suits, Scored, Selected, KeySound, Fitting;
    var i := |s.log|;
    ScoredKeeps(e, s.shared, a.node, i, a.reply);
    SelectedKeeps(e, Scored(e, s.shared, a.node, i, a.reply), q, s.tried, i, Selecting);
  }

  lemma TransportTurns(e: World, q: Request, s: Stage, a: Attempt)
    requires Lawful(e) && Fitting(e.nodes, s.shared) && Draft(e.nodes, q, a)
    requires a.reply.TransportError? && a.verdict.None?
    ensures var s' := MoveOn(e, q, s, a);
      && |s'.log| == |s.log| + 1 && Turns(e, q, s, s', s'.log[|s.log|])
      && s'.log[|s.log|].node == a.node && s'.log[|s.log|].reply == a.reply
  {
    hide Lawful, Suits, MoveOn, KeySound, Fitting;
    MoveOnTurns(e, q, s, a);
  }

  lemma FailTurns(e: World, q: Request, s: Stage, a: Attempt)
    requires Lawful(e) && Fitting(e.nodes, s.shared) && Draft(e.nodes, q, a)
    requires a.reply.Status? && a.verdict.None?
    requires a.key.Some? ==> SameKeys(a.key.value.keys, s.shared.pools[a.node])
    ensures var s' := Fail(e, q, s, a);
      && |s'.log| == |s.log| + 1 && Turns(e, q, s, s', s'.log[|s.log|])
      && s'.log[|s.log|].node == a.node && s'.log[|s.log|].reply == a.reply
  {
    hide Lawful, Suits, MoveOn, KeySound, Fitting, Judged, Selected, Exhausted, VerdictSound;
    if !QuotaHit(a.reply) || a.key.None? {
      MoveOnTurns(e, q, s, a);
    } else {
      var i, name := |s.log|, e.nodes[a.node].name;
      JudgedKeeps(e, s.shared, a.node, i, a.key.value.idx);
      var (judged, v) := Judged(e, s.shared, a.node, i, a.key.value.idx);
      var a1 := a.(verdict := Some(v));
      if !Offered(a1) {
        MoveOnTurns(e, q, s.(shared := judged), a1);
      } else {
        SelectedKeeps(e, judged, q, s.tried - {name}, i, Reselecting);
        var (shared, again) := Selected(e, judged, q, s.tried - {name}, i, Reselecting);
        if !Same(e.nodes, again, name) {
          MoveOnTurns(e, q, s.(shared := shared, held := Some(i), closed := s.closed + Released(s.held)),
                      a1.(again := again));
        }
      }
    }
  }

  lemma AdvanceTurns(e: World, q: Request, s: Stage)
    requires Going(e, s) && s.candidate.Some? && Suits(e.nodes[s.candidate.value], q)
    requires !Servable(e.replies(|s.log|).reply)
    ensures var s' := Advance(e, q, s);
      && |s'.log| == |s.log| + 1
      && var a := s'.log[|s.log|];
         && a.node == s.candidate.value && a.reply == e.replies(|s.log|).reply
         && Turns(e, q, s.(tried := s.tried + {e.nodes[a.node].name}), s', a)
  {
    hide Lawful, Suits, MoveOn, Fail, Sent, Turns, KeySound;
    var i, node := |s.log|, s.candidate.value;
    SentKeeps(e, s.shared, node, i);
    var reply := e.replies(i).reply;
    var (shared, key) := Sent(e, s.shared, node, i);
    var s0 := s.(tried := s.tried + {e.nodes[node].name});
    var s1 := s0.(shared := shared);
    var a := Attempt(node, key, reply, None, None, false, 0, None);
    if reply.TransportError? {
      TransportTurns(e, q, s1, a);
    } else {
      assert SameKeys(s.shared.pools[node], shared.pools[node]);
      FailTurns(e, q, s1, a);
    }
    var s' := Advance(e, q, s);
    TurnsFrom(e, q, s0, s1, s', s'.log[i]);
  }

  lemma TurnsFrom(e: World, q: Request, s0: Stage, s1: Stage, s': Stage, a: Attempt)
    requires s1 == s0.(shared := s1.shared) && SamePools(s0.shared, s1.shared) && Turns(e, q, s1, s', a)
    ensures Turns(e, q, s0, s', a)
  {
    hide Fitting, AttemptSound, Suits;
  }

  lemma NamesAppend(nodes: seq<Node>, log: seq<Attempt>, a: Attempt)
    ensures Names(nodes, log + [a]) == Names(nodes, log) + {NameOf(nodes, a.node)}
  {
    var log' := log + [a];
    assert forall j :: 0 <= j < |log| ==> log'[j] == log[j];
    assert log'[|log|] == a;
  }

  lemma RepeatsAppend(nodes: seq<Node>, log: seq<Attempt>, a: Attempt)
    requires Repeats(nodes, log) && MayFollow(nodes, log, a.node)
    ensures Repeats(nodes, log + [a])
  {
    hide NameOf;
    var log' := log + [a];
    assert forall j :: 0 <= j < |log| ==> log'[j] == log[j];
    forall j, k | 0 <= j < k < |log'| && NameOf(nodes, log'[j].node) == NameOf(nodes, log'[k].node)
      ensures NameOf(nodes, log'[k - 1].node) == NameOf(nodes, log'[k].node) && log'[k - 1].retried
    {
      if k == |log| {
        assert NameOf(nodes, log[j].node) in Names(nodes, log);
      }
    }
  }

  lemma LastResponseAppend(log: seq<Attempt>, a: Attempt)
    ensures LastResponse(log + [a]) == if a.reply.Status? then Some(|log|) else LastResponse(log)
  {
    assert (log + [a])[..|log|] == log;
  }

  lemma ClosedAfter(log: seq<Attempt>, closed: set<nat>, a: Attempt, closed': set<nat>)
    requires ClosedExactly(log, closed) && (ClosedWhileHeld(a) ==> a.reply.Status?)
    requires closed' == closed + (if a.reply.Status? then Released(LastResponse(log)) else {})
                        + (if ClosedWhileHeld(a) then {|log|} else {})
    ensures ClosedExactly(log + [a], closed')
  {
    hide LastResponse, ClosedWhileHeld;
    LastResponseAppend(log, a);
    var log' := log + [a];
    assert forall j :: 0 <= j < |log| ==> log'[j] == log[j];
    assert log'[|log|] == a;
  }

  lemma TurnWaits(e: World, q: Request, s: Stage, s': Stage, a: Attempt)
    requires Waiting(s) && Turns(e, q, s, s', a) && !Servable(a.reply)
    ensures Waiting(s')
  {
    hide LastResponse, ClosedExactly, Exhausted, Fitting, KeySound, VerdictSound, Suits;
    LastResponseAppend(s.log, a);
    ClosedAfter(s.log, s.closed, a, s'.closed);
  }

  lemma TurnKeepsSound(e: World, q: Request, s: Stage, s': Stage, a: Attempt)
    requires Sound(e, q, s) && s.served.None? && s.candidate == Some(a.node)
    requires Turns(e, q, s.(tried := s.tried + {NameOf(e.nodes, a.node)}), s', a)
    requires a.reply == e.replies(|s.log|).reply && !Servable(a.reply)
    ensures Sound(e, q, s')
  {
    hide Fitting, AttemptSound, Suits, Waiting, Finished, Repeats, Names, ClosedWhileHeld, Released;
    var log' := s'.log;
    assert forall j :: 0 <= j < |s.log| ==> log'[j] == s.log[j];
    assert log'[|s.log|] == a && log'[..|s.log|] == s.log;
    NamesAppend(e.nodes, s.log, a);
    RepeatsAppend(e.nodes, s.log, a);
    assert Waiting(s.(tried := s.tried + {NameOf(e.nodes, a.node)}))
      by { SameWaiting(s, s.tried + {NameOf(e.nodes, a.node)}); }
    TurnWaits(e, q, s.(tried := s.tried + {NameOf(e.nodes, a.node)}), s', a);
    assert s'.served.None?;
    assert a.node < |e.nodes| by { SoundNode(e.nodes, q, a); }
  }

  lemma SoundNode(nodes: seq<Node>, q: Request, a: Attempt)
    requires AttemptSound(nodes, q, a)
    ensures a.node < |nodes|
  {
  }

  lemma SameWaiting(s: Stage, tried: set<string>)
    requires Waiting(s)
    ensures Waiting(s.(tried := tried))
  {
  }

  /** The turn that serves: nothing is named next and the held response is closed. */
  lemma ServedTurn(e: World, q: Request, s: Stage)
    requires Going(e, s) && s.candidate.Some? && Suits(e.nodes[s.candidate.value], q)
    requires Servable(e.replies(|s.log|).reply)
    ensures var s' := Advance(e, q, s);
      && |s'.log| == |s.log| + 1
      && var a := s'.log[|s.log|];
         && s'.log == s.log + [a] && AttemptSound(e.nodes, q, a) && a.node == s.candidate.value && a.next.None?
         && a.reply == e.replies(|s.log|).reply && Fitting(e.nodes, s'.shared)
         && s'.tried == s.tried + {NameOf(e.nodes, a.node)} && s'.candidate.None?
         && s'.served == Some(|s.log|) && s'.closed == s.closed + Released(s.held)
  {
    hide Lawful, Suits, Sent, Scored, KeySound;
    var i, node := |s.log|, s.candidate.value;
    SentKeeps(e, s.shared, node, i);
    ScoredKeeps(e, Sent(e, s.shared, node, i).0, node, i, e.replies(i).reply);
  }

  lemma ServedKeepsSound(e: World, q: Request, s: Stage)
    requires Lawful(e) && Sound(e, q, s) && s.served.None? && s.candidate.Some?
    requires Servable(e.replies(|s.log|).reply)
    ensures Sound(e, q, Advance(e, q, s))
  {
    hide Lawful, Suits, Repeats, Names, LastResponse, Advance, AttemptSound, Fitting;
    ServedTurn(e, q, s);
    var s' := Advance(e, q, s);
    assert forall j :: 0 <= j < |s.log| ==> s'.log[j] == s.log[j];
    NamesAppend(e.nodes, s.log, s'.log[|s.log|]);
    RepeatsAppend(e.nodes, s.log, s'.log[|s.log|]);
    ServedCloses(s.log, s.closed, s.held);
  }

  lemma ServedCloses(log: seq<Attempt>, closed: set<nat>, held: Option<nat>)
    requires ClosedExactly(log, closed) && held == LastResponse(log)
    ensures |log| !in closed + Released(held)
    ensures forall j: nat :: j < |log| && log[j].reply.Status? ==> j in closed + Released(held)
  {
  }

  lemma AdvanceKeepsSound(e: World, q: Request, s: Stage)
    requires Lawful(e) && Sound(e, q, s) && s.served.None? && s.candidate.Some?
    ensures Sound(e, q, Advance(e, q, s)) && |Advance(e, q, s).log| == |s.log| + 1
  {
    if Servable(e.replies(|s.log|).reply) {
      ServedKeepsSound(e, q, s);
    } else {
      hide Lawful, Sound, Advance, Turns;
      assert Going(e, s) && Suits(e.nodes[s.candidate.value], q) by { SoundGoes(e, q, s); }
      AdvanceTurns(e, q, s);
      var s' := Advance(e, q, s);
      TurnKeepsSound(e, q, s, s', s'.log[|s.log|]);
    }
  }

  lemma SoundGoes(e: World, q: Request, s: Stage)
    requires Lawful(e) && Sound(e, q, s)
    ensures Going(e, s) && (s.candidate.Some? ==> Suits(e.nodes[s.candidate.value], q))
    ensures s.served.Some? ==> s.candidate.None?
  {
    hide Lawful;
  }

  /** The stage after k turns; a walk that is over stays as it is. */
  function Run(e: World, q: Request, s: Stage, k: nat): (s': Stage)
    requires Lawful(e) && Sound(e, q, s)
    ensures Sound(e, q, s') && |s'.log| <= |s.log| + k
    ensures s'.candidate.Some? ==> |s'.log| == |s.log| + k
    ensures k > 0 && s.candidate.Some? ==> |s'.log| > |s.log|
  {
    if k == 0 then s
    else
      var r := Run(e, q, s, k - 1);
      if r.candidate.None? then r
      else
        SoundGoes(e, q, r);
        AdvanceKeepsSound(e, q, r);
        Advance(e, q, r)
  }

  /** A walk that is over stays over. */
  lemma {:induction false} RunStops(e: World, q: Request, s: Stage, j: nat, n: nat)
    requires Lawful(e) && Sound(e, q, s) && j <= n && Run(e, q, s, j).candidate.None?
    ensures Run(e, q, s, n) == Run(e, q, s, j)
  {
    hide Lawful, Sound, Advance;
    if j < n {
      RunStops(e, q, s, j, n - 1);
    }
  }

  lemma OpeningSound(e: World, q: Request, shared: Shared, first: nat)
    requires Fitting(e.nodes, shared) && first < |e.nodes| && Suits(e.nodes[first], q)
    ensures Sound(e, q, Opening(shared, first))
  {
  }

  /** Attempt k is on a node that was tried before. */
  predicate TriedBefore(nodes: seq<Node>, log: seq<Attempt>, k: nat)
    requires k < |log|
  {
    exists j :: 0 <= j < k && NameOf(nodes, log[j].node) == NameOf(nodes, log[k].node)
  }

  /** When each upstream is tried at most once, exactly: an attempt is on a node already tried if and only if the
      attempt just before it was retried. */
  lemma RepeatsExactly(e: World, q: Request, shared: Shared, first: nat, k: nat)
    requires Lawful(e) && Fitting(e.nodes, shared) && first < |e.nodes| && Suits(e.nodes[first], q)
    requires Sound(e, q, Opening(shared, first))
    requires 0 < k < |Run(e, q, Opening(shared, first), MAX_FAILOVER_ATTEMPTS).log|
    ensures var log := Run(e, q, Opening(shared, first), MAX_FAILOVER_ATTEMPTS).log;
      log[k - 1].retried <==> TriedBefore(e.nodes, log, k)
  {
    hide Lawful, Suits, Run, Waiting, Finished, Fitting, Exhausted, KeySound, VerdictSound;
    var end := Run(e, q, Opening(shared, first), MAX_FAILOVER_ATTEMPTS);
    assert AttemptSound(e.nodes, q, end.log[k - 1]) && AttemptSound(e.nodes, q, end.log[k]);
    assert end.log[k - 1].next == Some(end.log[k].node);
  }

  /** So no upstream is tried twice if and only if no attempt but the last is retried. */
  lemma TriedOnce(e: World, q: Request, shared: Shared, first: nat)
    requires Lawful(e) && Fitting(e.nodes, shared) && first < |e.nodes| && Suits(e.nodes[first], q)
    requires Sound(e, q, Opening(shared, first))
    ensures var log := Run(e, q, Opening(shared, first), MAX_FAILOVER_ATTEMPTS).log;
      Distinct(e.nodes, log) <==> forall j :: 0 <= j < |log| - 1 ==> !log[j].retried
  {
    hide Lawful, Suits, Run, Sound, Fitting;
    var log := Run(e, q, Opening(shared, first), MAX_FAILOVER_ATTEMPTS).log;
    forall j | 0 <= j < |log| - 1
      ensures log[j].retried <==> TriedBefore(e.nodes, log, j + 1)
    {
      RepeatsExactly(e, q, shared, first, j + 1);
    }
    forall k | 0 < k < |log| && TriedBefore(e.nodes, log, k)
      ensures !Distinct(e.nodes, log) && log[k - 1].retried
    {
      RepeatsExactly(e, q, shared, first, k);
    }
    if !Distinct(e.nodes, log) {
      var j, k :| 0 <= j < k < |log| && NameOf(e.nodes, log[j].node) == NameOf(e.nodes, log[k].node);
      assert TriedBefore(e.nodes, log, k);
    }
  }

  /** No two attempts are on nodes of the same name. */
  predicate Distinct(nodes: seq<Node>, log: seq<Attempt>) {
    forall j, k :: 0 <= j < k < |log| ==> NameOf(nodes, log[j].node) != NameOf(nodes, log[k].node)
  }

  /** Response j is the one the client gets. */
  predicate ForClient(s: Stage, j: nat) {
    if s.served.Some? then s.served == Some(j) else s.held == Some(j)
  }

  /** What a client gets, and which responses are closed by then: the first servable response, open; else the last
      response of any kind, open unless its node was offered again and another was named; else bad gateway, and only
      if there was no response at all. Every response not handed to the client is closed. */
  lemma WalkConcludes(e: World, q: Request, shared: Shared, first: nat)
    requires Lawful(e) && Fitting(e.nodes, shared) && first < |e.nodes| && Suits(e.nodes[first], q)
    ensures Sound(e, q, Opening(shared, first))
    ensures var end := Run(e, q, Opening(shared, first), MAX_FAILOVER_ATTEMPTS);
      && 1 <= |end.log| <= MAX_FAILOVER_ATTEMPTS && Repeats(e.nodes, end.log)
      && (forall j :: 0 <= j < |end.log| ==> AttemptSound(e.nodes, q, end.log[j]))
      && (end.served.None? ==> NoneServable(end.log) && (|end.log| == MAX_FAILOVER_ATTEMPTS || end.candidate.None?))
      && (end.served.Some? ==>
            && end.served.value == |end.log| - 1 && Servable(end.log[end.served.value].reply)
            && end.served.value !in end.closed)
      && (end.served.None? && end.held.Some? ==>
            && end.held == LastResponse(end.log)
            && (end.held.value in end.closed <==> ClosedWhileHeld(end.log[end.held.value])))
      && (end.served.None? && end.held.None? ==> forall j :: 0 <= j < |end.log| ==> end.log[j].reply.TransportError?)
      && (forall j: nat :: j < |end.log| && end.log[j].reply.Status? && !ForClient(end, j) ==> j in end.closed)
  {
    hide Lawful, Suits, AttemptSound, Repeats, Advance, Linked, MayFollow;
    OpeningSound(e, q, shared, first);
  }

  // ----- how often a node can be tried in a row -----

  /** What a verdict does to the blamed key: it is cold afterwards if cooling is enabled, and otherwise nothing
      changes. */
  lemma VerdictCools(nodes: seq<Node>, q: Request, a: Attempt)
    requires AttemptSound(nodes, q, a) && a.verdict.Some?
    ensures var (v, idx) := (a.verdict.value, a.key.value.idx);
      var after := Marked(v.before, idx, v.markedAt);
      && 0 <= idx < |after.cool|
      && (v.before.cooldown > 0 ==>
            after.cool == v.before.cool[idx := v.markedAt + v.before.cooldown] && !Warm(after.cool, idx, v.markedAt))
      && (v.before.cooldown <= 0 ==> after == v.before)
  {
    hide Search;
  }

  /** The keys of the node that are warm as the attempt's key is handed out. */
  function WarmThen(a: Attempt): set<nat>
    requires a.key.Some? && Proper(a.key.value.keys)
  {
    WarmKeys(a.key.value.keys, a.key.value.now)
  }

  /** From handing out a key of `a` to handing out one of `b`, no key becomes warm again. */
  predicate NoneRewarms(a: Attempt, b: Attempt)
    requires a.verdict.Some? && VerdictSound(a.verdict.value)
    requires a.key.Some? && Proper(a.key.value.keys) && (b.key.Some? ==> Proper(b.key.value.keys))
  {
    var v := a.verdict.value;
    var marked := WarmKeys(Marked(v.before, a.key.value.idx, v.markedAt), v.markedAt);
    && marked <= WarmThen(a) && WarmKeys(v.asked, v.askedAt) <= marked
    && (b.key.Some? ==> WarmThen(b) <= WarmKeys(v.asked, v.askedAt))
  }

  predicate Streak(nodes: seq<Node>, q: Request, log: seq<Attempt>, j: nat, k: nat) {
    && j <= k < |log| && (forall i :: j <= i <= k ==> AttemptSound(nodes, q, log[i]))
    && (forall i :: j <= i < k ==>
          log[i].retried && log[i].verdict.value.before.cooldown > 0 && NoneRewarms(log[i], log[i + 1]))
  }

  /** A retried attempt uses up a warm key and leaves one. */
  lemma RetryCosts(nodes: seq<Node>, q: Request, a: Attempt, b: Attempt)
    requires AttemptSound(nodes, q, a) && a.retried && a.verdict.value.before.cooldown > 0
    requires (b.key.Some? ==> Proper(b.key.value.keys)) && NoneRewarms(a, b)
    ensures (b.key.Some? ==> |WarmThen(b)| + 1 <= |WarmThen(a)|) && 2 <= |WarmThen(a)|
  {
    hide Suits, Same, Search;
    VerdictCools(nodes, q, a);
    var v, h := a.verdict.value, a.key.value;
    var left := WarmKeys(v.asked, v.askedAt);
    var one :| 0 <= one < |v.asked.cool| && Warm(v.asked.cool, one, v.askedAt);
    assert one in left && one in WarmThen(a) && Warm(h.keys.cool, one, h.now);
    SearchHands(h.keys.cool, h.keys.cursor, h.now);
    assert h.idx in WarmThen(a) && h.idx !in left;
    SubsetSize(left + {h.idx}, WarmThen(a));
    SubsetSize({one}, left);
    if b.key.Some? {
      SubsetSize(WarmThen(b), left);
    }
  }

  /** With cooling enabled and no key re-warming, a node gets no more attempts in a row than it had warm keys. */
  lemma {:induction false} StreakBound(nodes: seq<Node>, q: Request, log: seq<Attempt>, j: nat, k: nat)
    requires Streak(nodes, q, log, j, k)
    ensures j < k ==> k - j + 1 <= |WarmThen(log[j])|
    decreases k - j
  {
    hide AttemptSound, NoneRewarms, WarmThen;
    if j < k {
      assert AttemptSound(nodes, q, log[j]) && AttemptSound(nodes, q, log[j + 1]);
      KeyOf(nodes, q, log[j]);
      KeyOf(nodes, q, log[j + 1]);
      RetryCosts(nodes, q, log[j], log[j + 1]);
      StreakBound(nodes, q, log, j + 1, k);
    }
  }

  lemma KeyOf(nodes: seq<Node>, q: Request, a: Attempt)
    requires AttemptSound(nodes, q, a)
    ensures (a.key.Some? ==> Proper(a.key.value.keys)) && (a.retried ==> a.key.Some?)
  {
  }
}
