/** Choosing an upstream: filters, priority buckets, weighted round robin. */
module NodeSelection {
  import opened Options
  import opened Arithmetic
  import opened CircuitBreaker

  /** An upstream's configuration; `probed` is false when its health checks are disabled. */
  datatype Node = Node(
    name: string,
    tier: string,
    models: seq<string>,
    workloads: seq<string>,
    piiLocal: bool,
    priority: int,
    weight: int,
    settings: Settings,
    probed: bool)

  /** What a request asks for; an empty tier or model means any. */
  datatype Request = Request(model: string, tier: string, class_: string, personal: bool)

  /** The constraints a node meets or not whatever its condition. */
  predicate Suits(n: Node, q: Request) {
    && (n.workloads == [] || q.class_ in n.workloads)
    && (q.personal ==> n.piiLocal)
    && (q.tier != "" ==> n.tier == q.tier)
    && (q.model != "" ==> q.model in n.models)
  }

  /** A node's condition; a node without a breaker is never held back by one. */
  datatype Condition = Condition(healthy: bool, circuit: Option<Circuit>)

  /** The checks made before the breaker is asked. */
  predicate Asks(n: Node, c: Condition, q: Request, excluded: set<string>) {
    && (n.workloads == [] || q.class_ in n.workloads)
    && !(q.personal && !n.piiLocal)
    && c.healthy
    && n.name !in excluded
    && (q.tier == "" || n.tier == q.tier)
  }

  predicate HeldBack(n: Node, c: Condition, now: Time) {
    c.circuit.Some? && !Permits(c.circuit.value, n.settings, now)
  }

  predicate Eligible(n: Node, c: Condition, q: Request, excluded: set<string>, now: Time) {
    Suits(n, q) && c.healthy && n.name !in excluded && !HeldBack(n, c, now)
  }

  // ----- the candidate list -----

  /** How often a node is entered in its bucket. */
  function Copies(n: Node): nat {
    if n.weight < 0 then 0 else n.weight
  }

  function Repeat(i: nat, times: nat): (r: seq<nat>)
    ensures |r| == times && forall j :: 0 <= j < times ==> r[j] == i
  {
    seq(times, _ => i)
  }

  /** What node n contributes to a bucket. */
  function Added(nodes: seq<Node>, ok: seq<bool>, p: int, n: nat): seq<nat>
    requires n < |nodes| == |ok|
  {
    if ok[n] && nodes[n].priority == p then Repeat(n, Copies(nodes[n])) else []
  }

  /** Of the first n nodes, the eligible ones of priority p, each as often as its weight. */
  function Bucket(nodes: seq<Node>, ok: seq<bool>, p: int, n: nat): seq<nat>
    requires n <= |nodes| == |ok|
  {
    if n == 0 then []
    else Bucket(nodes, ok, p, n - 1) + Added(nodes, ok, p, n - 1)
  }

  lemma {:induction false} BucketSound(nodes: seq<Node>, ok: seq<bool>, p: int, n: nat)
    requires n <= |nodes| == |ok|
    ensures forall j :: 0 <= j < |Bucket(nodes, ok, p, n)| ==>
      var i := Bucket(nodes, ok, p, n)[j];
      i < n && ok[i] && nodes[i].priority == p
  {
    if n > 0 {
      BucketSound(nodes, ok, p, n - 1);
    }
  }

  /** Each eligible node of the bucket occurs exactly its weight times. */
  lemma {:induction false} BucketWeights(nodes: seq<Node>, ok: seq<bool>, p: int, n: nat, i: nat)
    requires n <= |nodes| == |ok| && i < |nodes|
    ensures multiset(Bucket(nodes, ok, p, n))[i]
         == if i < n && ok[i] && nodes[i].priority == p then Copies(nodes[i]) else 0
  {
    hide Bucket, Added, Copies;
    if n == 0 {
      EmptyBucket(nodes, ok, p);
    } else {
      var past, added := Bucket(nodes, ok, p, n - 1), Added(nodes, ok, p, n - 1);
      BucketGrows(nodes, ok, p, n - 1);
      BucketWeights(nodes, ok, p, n - 1, i);
      AddedCounts(nodes, ok, p, n - 1, i);
      CountsAdd(past, added, i);
    }
  }

  lemma EmptyBucket(nodes: seq<Node>, ok: seq<bool>, p: int)
    requires |nodes| == |ok|
    ensures Bucket(nodes, ok, p, 0) == []
  {
  }

  lemma BucketGrows(nodes: seq<Node>, ok: seq<bool>, p: int, n: nat)
    requires n < |nodes| == |ok|
    ensures Bucket(nodes, ok, p, n + 1) == Bucket(nodes, ok, p, n) + Added(nodes, ok, p, n)
  {
  }

  lemma AddedCounts(nodes: seq<Node>, ok: seq<bool>, p: int, n: nat, i: nat)
    requires n < |nodes| == |ok|
    ensures multiset(Added(nodes, ok, p, n))[i]
         == if i == n && ok[n] && nodes[n].priority == p then Copies(nodes[n]) else 0
  {
    hide Repeat, Copies;
    RepeatCounts(n, Copies(nodes[n]), i);
  }

  lemma CountsAdd(xs: seq<nat>, ys: seq<nat>, i: nat)
    ensures multiset(xs + ys)[i] == multiset(xs)[i] + multiset(ys)[i]
  {
    assert multiset(xs + ys) == multiset(xs) + multiset(ys);
  }

  lemma {:induction false} RepeatCounts(x: nat, times: nat, i: nat)
    ensures multiset(Repeat(x, times))[i] == if i == x then times else 0
  {
    if times > 0 {
      RepeatCounts(x, times - 1, i);
      assert Repeat(x, times) == Repeat(x, times - 1) + [x];
    }
  }

  // ----- the router's selection -----

  function Consulted(n: Node, c: Condition, now: Time): Condition {
    match c.circuit
    case None => c
    case Some(b) => c.(circuit := Some(Asked(b, n.settings, now)))
  }

  /** The condition a selection leaves behind: only a node that passed the earlier filters has its breaker asked. */
  function Passed(n: Node, c: Condition, q: Request, excluded: set<string>, now: Time): Condition {
    if Asks(n, c, q, excluded) then Consulted(n, c, now) else c
  }

  function AllPassed(nodes: seq<Node>, cs: seq<Condition>, q: Request, excluded: set<string>, now: Time)
    : (r: seq<Condition>)
    requires |cs| == |nodes|
    ensures |r| == |nodes|
    ensures forall i :: 0 <= i < |nodes| ==> r[i] == Passed(nodes[i], cs[i], q, excluded, now)
  {
    seq(|nodes|, i requires 0 <= i < |nodes| => Passed(nodes[i], cs[i], q, excluded, now))
  }

  function Goods(nodes: seq<Node>, cs: seq<Condition>, q: Request, excluded: set<string>, now: Time): (ok: seq<bool>)
    requires |cs| == |nodes|
    ensures |ok| == |nodes|
    ensures forall i :: 0 <= i < |nodes| ==> ok[i] == Eligible(nodes[i], cs[i], q, excluded, now)
  {
    seq(|nodes|, i requires 0 <= i < |nodes| => Eligible(nodes[i], cs[i], q, excluded, now))
  }

  /** The buckets hold exactly the candidates of the first n nodes, none of them empty. */
  ghost predicate Bucketed(nodes: seq<Node>, ok: seq<bool>, buckets: map<int, seq<nat>>, priorities: seq<int>, n: nat)
    requires n <= |nodes| == |ok|
  {
    && (forall p :: p in buckets <==> p in priorities)
    && (forall p :: p in buckets ==> buckets[p] == Bucket(nodes, ok, p, n) && buckets[p] != [])
    && (forall p :: p !in buckets ==> Bucket(nodes, ok, p, n) == [])
    && (forall j :: 0 <= j < n && ok[j] ==> nodes[j].priority in buckets)
  }

  function Entry(buckets: map<int, seq<nat>>, p: int): seq<nat> {
    if p in buckets then buckets[p] else []
  }

  /** Appends one node's entries to its bucket, opening the bucket if it is the first. */
  method AddCandidate(n: Node, buckets: map<int, seq<nat>>, priorities: seq<int>, i: nat)
    returns (buckets': map<int, seq<nat>>, priorities': seq<int>)
    ensures buckets' == buckets[n.priority := Entry(buckets, n.priority) + Repeat(i, Copies(n))]
    ensures priorities' == if n.priority in buckets then priorities else priorities + [n.priority]
  {
    var p, candidates := n.priority, [];
    priorities' := priorities;
    if p in buckets {
      candidates := buckets[p];
    } else {
      priorities' := priorities + [p];
    }
    var k := 0;
    while k < n.weight
      invariant 0 <= k <= Copies(n)
      invariant candidates == Entry(buckets, p) + Repeat(i, k)
    {
      candidates := candidates + [i];
      k := k + 1;
    }
    buckets' := buckets[p := candidates];
  }

  lemma AddKeepsBucketed(nodes: seq<Node>, ok: seq<bool>, buckets: map<int, seq<nat>>, priorities: seq<int>, i: nat)
    requires i < |nodes| == |ok| && ok[i] && nodes[i].weight >= 1 && Bucketed(nodes, ok, buckets, priorities, i)
    ensures var p := nodes[i].priority;
      Bucketed(nodes, ok, buckets[p := Entry(buckets, p) + Repeat(i, Copies(nodes[i]))],
               if p in buckets then priorities else priorities + [p], i + 1)
  {
    hide Bucket, Copies, Repeat;
    var p0 := nodes[i].priority;
    var buckets' := buckets[p0 := Entry(buckets, p0) + Repeat(i, Copies(nodes[i]))];
    forall p
      ensures if p in buckets' then buckets'[p] == Bucket(nodes, ok, p, i + 1) && buckets'[p] != []
              else Bucket(nodes, ok, p, i + 1) == []
    {
      EntryAfter(nodes, ok, buckets, i, p);
    }
  }

  /** What adding node i makes of the entry for priority p. */
  lemma EntryAfter(nodes: seq<Node>, ok: seq<bool>, buckets: map<int, seq<nat>>, i: nat, p: int)
    requires i < |nodes| == |ok| && ok[i] && nodes[i].weight >= 1
    requires Entry(buckets, p) == Bucket(nodes, ok, p, i)
    ensures p == nodes[i].priority ==>
      var more := Entry(buckets, p) + Repeat(i, Copies(nodes[i]));
      more == Bucket(nodes, ok, p, i + 1) && more != []
    ensures p != nodes[i].priority ==> Entry(buckets, p) == Bucket(nodes, ok, p, i + 1)
  {
    hide Bucket;
    BucketGrows(nodes, ok, p, i);
  }

  lemma SkipCandidate(nodes: seq<Node>, ok: seq<bool>, buckets: map<int, seq<nat>>, priorities: seq<int>, i: nat)
    requires i < |nodes| == |ok| && !ok[i] && Bucketed(nodes, ok, buckets, priorities, i)
    ensures Bucketed(nodes, ok, buckets, priorities, i + 1)
  {
    hide Bucket;
    forall p ensures Bucket(nodes, ok, p, i + 1) == Bucket(nodes, ok, p, i) {
      BucketGrows(nodes, ok, p, i);
    }
  }

  /** The first of the priorities once sorted. */
  method LeastOf(xs: seq<int>) returns (m: int)
    requires xs != []
    ensures m in xs && forall i :: 0 <= i < |xs| ==> m <= xs[i]
  {
    m := xs[0];
    for i := 1 to |xs|
      invariant m in xs && forall j :: 0 <= j < i ==> m <= xs[j]
    {
      if xs[i] < m {
        m := xs[i];
      }
    }
  }

  /** What a selection is: nothing when no node is eligible, else the cursor's turn in the bucket of least priority. */
  ghost predicate Chooses(nodes: seq<Node>, ok: seq<bool>, cursor: nat, chosen: Option<nat>)
    requires |nodes| == |ok|
  {
    match chosen
    case None => forall i :: 0 <= i < |ok| ==> !ok[i]
    case Some(c) =>
      && c < |nodes| && ok[c]
      && (forall i :: 0 <= i < |nodes| && ok[i] ==> nodes[c].priority <= nodes[i].priority)
      && var list := Bucket(nodes, ok, nodes[c].priority, |nodes|);
         list != [] && c == list[cursor % |list|]
  }

  /** At most one answer is a selection. */
  lemma ChoosesOnce(nodes: seq<Node>, ok: seq<bool>, cursor: nat, a: Option<nat>, b: Option<nat>)
    requires |nodes| == |ok| && Chooses(nodes, ok, cursor, a) && Chooses(nodes, ok, cursor, b)
    ensures a == b
  {
    hide Bucket;
  }

  /** The least priority among the eligible nodes of the first n. */
  function LeastPriority(nodes: seq<Node>, ok: seq<bool>, n: nat): (r: Option<int>)
    requires n <= |nodes| == |ok|
    ensures r.None? ==> forall i :: 0 <= i < n ==> !ok[i]
    ensures r.Some? ==> exists i :: 0 <= i < n && ok[i] && nodes[i].priority == r.value
    ensures r.Some? ==> forall i :: 0 <= i < n && ok[i] ==> r.value <= nodes[i].priority
  {
    if n == 0 then None
    else
      var r := LeastPriority(nodes, ok, n - 1);
      if ok[n - 1] && (r.None? || nodes[n - 1].priority < r.value) then Some(nodes[n - 1].priority) else r
  }

  /** The list a selection picks from: the eligible nodes of least priority, each as often as its weight. */
  function Offer(nodes: seq<Node>, ok: seq<bool>): seq<nat>
    requires |nodes| == |ok|
  {
    var p := LeastPriority(nodes, ok, |nodes|);
    if p.None? then [] else Bucket(nodes, ok, p.value, |nodes|)
  }

  /** The selection, as a function. */
  function Chosen(nodes: seq<Node>, ok: seq<bool>, cursor: nat): Option<nat>
    requires |nodes| == |ok|
  {
    var list := Offer(nodes, ok);
    if list == [] then None else Some(list[cursor % |list|])
  }

  lemma ChosenChooses(nodes: seq<Node>, ok: seq<bool>, cursor: nat)
    requires |nodes| == |ok| && AllWeighted(nodes)
    ensures Chooses(nodes, ok, cursor, Chosen(nodes, ok, cursor))
  {
    hide Bucket, LeastPriority;
    var p := LeastPriority(nodes, ok, |nodes|);
    if p.Some? {
      var i :| 0 <= i < |nodes| && ok[i] && nodes[i].priority == p.value;
      BucketHolds(nodes, ok, p.value, |nodes|, i);
      BucketSound(nodes, ok, p.value, |nodes|);
    }
  }

  /** A node that can serve the request now, in plain terms: the request's constraints, health, not excluded, and a
      breaker that is absent, not open, or open for at least its cooldown. */
  predicate Available(n: Node, c: Condition, q: Request, excluded: set<string>, now: Time) {
    && (n.workloads != [] ==> q.class_ in n.workloads) && (q.personal ==> n.piiLocal)
    && (q.tier == "" || q.tier == n.tier) && (q.model == "" || q.model in n.models)
    && c.healthy && n.name !in excluded
    && (c.circuit.Some? && c.circuit.value.phase.Open? ==> c.circuit.value.openedAt + n.settings.cooldown <= now)
  }

  /** A selection comes back empty only if no node is available, and else names an available one that no other
      available node goes before. */
  lemma SelectionExact(nodes: seq<Node>, cs: seq<Condition>, q: Request, excluded: set<string>, now: Time, cursor: nat)
    requires |nodes| == |cs| && AllWeighted(nodes)
    ensures var chosen := Chosen(nodes, Goods(nodes, cs, q, excluded, now), cursor);
      && (chosen.None? <==> forall i :: 0 <= i < |nodes| ==> !Available(nodes[i], cs[i], q, excluded, now))
      && (chosen.Some? ==>
            && chosen.value < |nodes| && Available(nodes[chosen.value], cs[chosen.value], q, excluded, now)
            && forall i :: 0 <= i < |nodes| && Available(nodes[i], cs[i], q, excluded, now) ==>
                 nodes[chosen.value].priority <= nodes[i].priority)
  {
    hide Offer, Chosen, Bucket, Eligible, Available;
    var ok := Goods(nodes, cs, q, excluded, now);
    ChosenChooses(nodes, ok, cursor);
    forall i | 0 <= i < |nodes|
      ensures ok[i] <==> Available(nodes[i], cs[i], q, excluded, now)
    {
      AvailableIsEligible(nodes[i], cs[i], q, excluded, now);
    }
  }

  lemma AvailableIsEligible(n: Node, c: Condition, q: Request, excluded: set<string>, now: Time)
    ensures Eligible(n, c, q, excluded, now) <==> Available(n, c, q, excluded, now)
  {
  }

  predicate AllWeighted(nodes: seq<Node>) {
    forall i :: 0 <= i < |nodes| ==> nodes[i].weight >= 1
  }

  lemma {:induction false} BucketHolds(nodes: seq<Node>, ok: seq<bool>, p: int, n: nat, i: nat)
    requires i < n <= |nodes| == |ok| && ok[i] && nodes[i].priority == p && nodes[i].weight >= 1
    ensures Bucket(nodes, ok, p, n) != []
  {
    hide Bucket;
    BucketGrows(nodes, ok, p, n - 1);
    if i < n - 1 {
      BucketHolds(nodes, ok, p, n - 1, i);
    } else {
      assert |Added(nodes, ok, p, i)| == nodes[i].weight;
    }
  }

  lemma LeastBucketChooses(nodes: seq<Node>, ok: seq<bool>, buckets: map<int, seq<nat>>, priorities: seq<int>,
                           p: int, cursor: nat)
    requires |nodes| == |ok| && Bucketed(nodes, ok, buckets, priorities, |nodes|)
    requires p in priorities && forall i :: 0 <= i < |priorities| ==> p <= priorities[i]
    ensures buckets[p] != [] && Chooses(nodes, ok, cursor, Some(buckets[p][cursor % |buckets[p]|]))
  {
    hide Bucket;
    BucketSound(nodes, ok, p, |nodes|);
    forall i | 0 <= i < |nodes| && ok[i]
      ensures p <= nodes[i].priority
    {
      assert nodes[i].priority in priorities;
    }
  }

  /** A non-positive weight in the configuration counts as one. */
  function Weighted(n: Node): (r: Node)
    ensures r.weight >= 1
  {
    if n.weight <= 0 then n.(weight := 1) else n
  }

  class Router {
    const nodes: seq<Node>
    var conditions: seq<Condition>
    var rr: nat

    ghost predicate Valid()
      reads this
    {
      |conditions| == |nodes| && AllWeighted(nodes)
    }

    constructor (nodes: seq<Node>, conditions: seq<Condition>)
      requires |conditions| == |nodes|
      ensures Valid() && this.conditions == conditions && rr == 0
      ensures |this.nodes| == |nodes| && forall i :: 0 <= i < |nodes| ==>
        this.nodes[i] == Weighted(nodes[i])
    {
      this.nodes := seq(|nodes|, i requires 0 <= i < |nodes| =>
        Weighted(nodes[i]));
      this.conditions, this.rr := conditions, 0;
    }

    /** Runs one node through the filters in order; its breaker is asked only if those before it pass. */
    method Consider(i: nat, q: Request, excluded: set<string>, now: Time) returns (ok: bool)
      requires Valid() && i < |nodes|
      modifies `conditions
      ensures Valid() && ok == Eligible(nodes[i], old(conditions)[i], q, excluded, now)
      ensures conditions == old(conditions)[i := Passed(nodes[i], old(conditions)[i], q, excluded, now)]
    {
      var n, c := nodes[i], conditions[i];
      if n.workloads != [] && q.class_ !in n.workloads { return false; }
      if q.personal && !n.piiLocal { return false; }
      if !c.healthy { return false; }
      if n.name in excluded { return false; }
      if q.tier != "" && n.tier != q.tier { return false; }
      conditions := conditions[i := Consulted(n, c, now)];
      if HeldBack(n, c, now) { return false; }
      ok := q.model == "" || q.model in n.models;
    }

    /** One pass over the nodes, in order. */
    method Collect(q: Request, excluded: set<string>, now: Time)
      returns (buckets: map<int, seq<nat>>, priorities: seq<int>)
      requires Valid()
      modifies `conditions
      ensures Valid() && |old(conditions)| == |nodes|
      ensures conditions == AllPassed(nodes, old(conditions), q, excluded, now)
      ensures Bucketed(nodes, Goods(nodes, old(conditions), q, excluded, now), buckets, priorities, |nodes|)
    {
      hide Eligible, Passed, Bucket, Copies, Repeat, Bucketed;
      ghost var ok := Goods(nodes, conditions, q, excluded, now);
      ghost var before := conditions;
      buckets, priorities := map[], [];
      NoBuckets(nodes, ok);
      for i := 0 to |nodes|
        invariant Valid()
        invariant forall j :: 0 <= j < i ==> conditions[j] == Passed(nodes[j], before[j], q, excluded, now)
        invariant forall j :: i <= j < |nodes| ==> conditions[j] == before[j]
        invariant Bucketed(nodes, ok, buckets, priorities, i)
      {
        var eligible := Consider(i, q, excluded, now);
        if eligible {
          AddKeepsBucketed(nodes, ok, buckets, priorities, i);
          buckets, priorities := AddCandidate(nodes[i], buckets, priorities, i);
        } else {
          SkipCandidate(nodes, ok, buckets, priorities, i);
        }
      }
    }

    /** Filters, buckets, least priority, and the cursor's turn in that bucket. */
    method Select(q: Request, excluded: set<string>, now: Time) returns (chosen: Option<nat>)
      requires Valid()
      modifies this
      ensures Valid() && |old(conditions)| == |nodes|
      ensures conditions == AllPassed(nodes, old(conditions), q, excluded, now)
      ensures chosen == Chosen(nodes, Goods(nodes, old(conditions), q, excluded, now), old(rr))
      ensures Chooses(nodes, Goods(nodes, old(conditions), q, excluded, now), old(rr), chosen)
      ensures rr == if chosen.Some? then old(rr) + 1 else old(rr)
    {
      hide Eligible, Passed, Bucket, Offer;
      ghost var ok := Goods(nodes, conditions, q, excluded, now);
      var buckets, priorities := Collect(q, excluded, now);
      ChosenChooses(nodes, ok, rr);
      if |priorities| == 0 {
        ChoosesOnce(nodes, ok, rr, None, Chosen(nodes, ok, rr));
        return None;
      }
      var p := LeastOf(priorities);
      LeastBucketChooses(nodes, ok, buckets, priorities, p, rr);
      ChoosesOnce(nodes, ok, rr, Some(buckets[p][rr % |buckets[p]|]), Chosen(nodes, ok, rr));
      rr := rr + 1;
      chosen := Some(buckets[p][(rr - 1) % |buckets[p]|]);
    }
  }

  lemma NoBuckets(nodes: seq<Node>, ok: seq<bool>)
    requires |nodes| == |ok|
    ensures Bucketed(nodes, ok, map[], [], 0)
  {
  }

  /** Whatever is chosen suits the request: class, personal-data, tier and model constraints all hold, it is
      not excluded, and its breaker is not open and uncooled. */
  lemma ChosenIsSafe(nodes: seq<Node>, cs: seq<Condition>, q: Request, excluded: set<string>, now: Time,
                     cursor: nat, c: nat)
    requires |cs| == |nodes| && Chooses(nodes, Goods(nodes, cs, q, excluded, now), cursor, Some(c))
    ensures c < |nodes| && Suits(nodes[c], q) && nodes[c].name !in excluded
    ensures cs[c].circuit.Some? ==>
      !(cs[c].circuit.value.phase.Open? && now - cs[c].circuit.value.openedAt < nodes[c].settings.cooldown)
  {
    hide Bucket;
  }

  // ----- weighted round robin -----

  /** What |list| consecutive picks from an unchanged list return, starting at the given cursor. */
  function Picks(list: seq<nat>, cursor: nat): seq<nat>
    requires list != []
  {
    seq(|list|, k requires 0 <= k < |list| => list[(cursor + k) % |list|])
  }

  /** A full round is a rotation of the list. */
  lemma PicksRotate(list: seq<nat>, cursor: nat)
    requires list != []
    ensures var r := cursor % |list|;
      Picks(list, cursor) == list[r..] + list[..r]
  {
    var r := cursor % |list|;
    var turned := list[r..] + list[..r];
    forall k | 0 <= k < |list|
      ensures Picks(list, cursor)[k] == turned[k]
    {
      PickAt(list, cursor, k);
    }
  }

  lemma PickAt(list: seq<nat>, cursor: nat, k: nat)
    requires k < |list|
    ensures var r := cursor % |list|;
      list[(cursor + k) % |list|] == (list[r..] + list[..r])[k]
  {
    var r, n := cursor % |list|, |list|;
    RoundRobinTurns(cursor, n, if r + k < n then r + k else r + k - n, k);
  }

  // ----- runs of selections -----

  /** One selection of a run: what it asks for, and the conditions it finds, which anybody may have changed. */
  datatype Turn = Turn(conditions: seq<Condition>, q: Request, excluded: set<string>, now: Time)

  predicate Fits(nodes: seq<Node>, turns: seq<Turn>) {
    forall k :: 0 <= k < |turns| ==> |turns[k].conditions| == |nodes|
  }

  function Good(nodes: seq<Node>, turns: seq<Turn>, k: nat): (ok: seq<bool>)
    requires Fits(nodes, turns) && k < |turns|
    ensures |ok| == |nodes|
  {
    Goods(nodes, turns[k].conditions, turns[k].q, turns[k].excluded, turns[k].now)
  }

  /** The one cursor every selection shares: it moves with each that finds a node, whatever the request. */
  function CursorAt(nodes: seq<Node>, turns: seq<Turn>, rr: nat, k: nat): nat
    requires Fits(nodes, turns) && k <= |turns|
  {
    if k == 0 then rr
    else CursorAt(nodes, turns, rr, k - 1) + if Offer(nodes, Good(nodes, turns, k - 1)) != [] then 1 else 0
  }

  function AnswerAt(nodes: seq<Node>, turns: seq<Turn>, rr: nat, k: nat): Option<nat>
    requires Fits(nodes, turns) && k < |turns|
  {
    Chosen(nodes, Good(nodes, turns, k), CursorAt(nodes, turns, rr, k))
  }

  /** How many of the selections a .. b-1 choose node i. */
  function Times(nodes: seq<Node>, turns: seq<Turn>, rr: nat, a: nat, b: nat, i: nat): nat
    requires Fits(nodes, turns) && a <= b <= |turns|
    decreases b
  {
    if a == b then 0
    else Times(nodes, turns, rr, a, b - 1, i) + if AnswerAt(nodes, turns, rr, b - 1) == Some(i) then 1 else 0
  }

  predicate SameOffer(nodes: seq<Node>, turns: seq<Turn>, a: nat, b: nat, list: seq<nat>)
    requires Fits(nodes, turns)
  {
    a <= b <= |turns| && forall k :: a <= k < b ==> Offer(nodes, Good(nodes, turns, k)) == list
  }

  lemma {:induction false} TimesArePicks(nodes: seq<Node>, turns: seq<Turn>, rr: nat, a: nat, b: nat,
                                         list: seq<nat>, i: nat)
    requires Fits(nodes, turns) && SameOffer(nodes, turns, a, b, list) && list != [] && b - a <= |list|
    ensures CursorAt(nodes, turns, rr, b) == CursorAt(nodes, turns, rr, a) + b - a
    ensures Times(nodes, turns, rr, a, b, i) == multiset(Picks(list, CursorAt(nodes, turns, rr, a))[..b - a])[i]
    decreases b
  {
    hide Offer, Good, Picks;
    if a < b {
      TimesArePicks(nodes, turns, rr, a, b - 1, list, i);
      PicksGrow(list, CursorAt(nodes, turns, rr, a), b - a - 1, i);
      assert Offer(nodes, Good(nodes, turns, b - 1)) == list;
    }
  }

  lemma PicksGrow(list: seq<nat>, cursor: nat, n: nat, i: nat)
    requires n < |list|
    ensures multiset(Picks(list, cursor)[..n + 1])[i]
         == multiset(Picks(list, cursor)[..n])[i] + if list[(cursor + n) % |list|] == i then 1 else 0
  {
    var picks := Picks(list, cursor);
    assert picks[..n + 1] == picks[..n] + [picks[n]];
  }

  /** Over any L consecutive selections that are all offered the same list of length L, each node of least priority
      among the eligible is chosen exactly its weight times and no other node at all. */
  lemma WeightsHonoured(nodes: seq<Node>, turns: seq<Turn>, rr: nat, a: nat, i: nat)
    requires Fits(nodes, turns) && a < |turns| && i < |nodes|
    requires var list := Offer(nodes, Good(nodes, turns, a));
      list != [] && SameOffer(nodes, turns, a, a + |list|, list)
    ensures var (ok, list) := (Good(nodes, turns, a), Offer(nodes, Good(nodes, turns, a)));
      Times(nodes, turns, rr, a, a + |list|, i)
        == if ok[i] && LeastPriority(nodes, ok, |nodes|) == Some(nodes[i].priority) then Copies(nodes[i]) else 0
  {
    hide Bucket, LeastPriority, Times, Goods, CursorAt, Picks, Copies;
    var ok := Good(nodes, turns, a);
    var list, cursor := Offer(nodes, ok), CursorAt(nodes, turns, rr, a);
    TimesArePicks(nodes, turns, rr, a, a + |list|, list, i);
    FullRound(list, cursor, i);
    BucketWeights(nodes, ok, LeastPriority(nodes, ok, |nodes|).value, |nodes|, i);
  }

  lemma FullRound(list: seq<nat>, cursor: nat, i: nat)
    requires list != []
    ensures Picks(list, cursor)[..|list|] == Picks(list, cursor)
    ensures multiset(Picks(list, cursor))[i] == multiset(list)[i]
  {
    var r := cursor % |list|;
    PicksRotate(list, cursor);
    assert list == list[..r] + list[r..];
    CountsAdd(list[..r], list[r..], i);
    CountsAdd(list[r..], list[..r], i);
  }

  /** The list must be offered to every selection in between, because they share the cursor: when a request with
      two candidates alternates with one for another node, it gets the same candidate every time. */
  lemma {:induction false} ForeignSelectionsSkew(nodes: seq<Node>, turns: seq<Turn>, rr: nat, k: nat, x: nat,
                                                 y: nat, z: nat)
    requires Fits(nodes, turns) && 2 * k < |turns|
    requires forall j :: 0 <= j < |turns| ==> Offer(nodes, Good(nodes, turns, j)) == if j % 2 == 0 then [x, y] else [z]
    ensures AnswerAt(nodes, turns, rr, 2 * k) == Some(if rr % 2 == 0 then x else y)
    ensures CursorAt(nodes, turns, rr, 2 * k) == rr + 2 * k
  {
    hide Offer, Good;
    if k > 0 {
      ForeignSelectionsSkew(nodes, turns, rr, k - 1, x, y, z);
      assert Offer(nodes, Good(nodes, turns, 2 * k - 2)) == [x, y];
      assert Offer(nodes, Good(nodes, turns, 2 * k - 1)) == [z];
      assert CursorAt(nodes, turns, rr, 2 * k - 1) == rr + 2 * k - 1;
    }
    assert Offer(nodes, Good(nodes, turns, 2 * k)) == [x, y];
  }
}
