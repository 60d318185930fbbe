/** Key selection: round robin, least used, least tokens, and an unknown custom policy.

    A policy sees only the views of admissible keys and answers with a position among them. Cursors,
    64-bit atomics in the gateway, are unbounded naturals. */
module RotationPolicies {
  import opened Options
  import opened KeyAccounting

  /** A snapshot of one key, as handed to a policy. */
  datatype View = View(
    index: nat,
    requests: int,
    tokens: int,
    inFlight: int,
    reclaimed: int,
    errors: int,
    estimated: bool,
    selectable: bool,
    softRetired: bool,
    drained: bool,
    retiredUntil: Option<Time>,
    reason: Reason)

  function ViewOf(k: Key, i: nat, now: Time): View {
    View(i, k.requests, k.tokens, |k.leases|, k.reclaimed, k.errors, k.estimated,
         Selectable(k, now), k.softRetired, k.drained, k.retiredUntil, ReasonAt(k, now))
  }

  datatype PolicyKind = RoundRobin | LeastUsed | LeastTokens | Custom

  datatype Metric = ByLoad | ByTokens

  function Score(m: Metric, v: View): int {
    match m
    case ByLoad => v.requests + v.inFlight
    case ByTokens => v.tokens
  }

  /** The least score among the first n views. */
  function Least(m: Metric, views: seq<View>, n: nat): int
    requires 0 < n <= |views|
  {
    if n == 1 then Score(m, views[0])
    else
      var b := Least(m, views, n - 1);
      if Score(m, views[n - 1]) < b then Score(m, views[n - 1]) else b
  }

  /** The positions below n that score exactly `best`, in ascending order. */
  function Scoring(m: Metric, views: seq<View>, best: int, n: nat): seq<nat>
    requires n <= |views|
  {
    if n == 0 then []
    else Scoring(m, views, best, n - 1) + (if Score(m, views[n - 1]) == best then [n - 1] else [])
  }

  lemma LeastBounds(m: Metric, views: seq<View>, n: nat)
    requires 0 < n <= |views|
    ensures forall i :: 0 <= i < n ==> Least(m, views, n) <= Score(m, views[i])
    ensures Scoring(m, views, Least(m, views, n), n) != []
  {
  }

  lemma ScoringExact(m: Metric, views: seq<View>, best: int, n: nat)
    requires n <= |views|
    ensures forall j :: 0 <= j < |Scoring(m, views, best, n)| ==>
      Scoring(m, views, best, n)[j] < n && Score(m, views[Scoring(m, views, best, n)[j]]) == best
  {
  }

  function PickMin(m: Metric, cursor: nat, views: seq<View>): (pos: int)
    ensures if views == [] then pos == -1
            else 0 <= pos < |views| && forall i :: 0 <= i < |views| ==> Score(m, views[pos]) <= Score(m, views[i])
  {
    if views == [] then -1
    else
      var best := Least(m, views, |views|);
      var tied := Scoring(m, views, best, |views|);
      LeastBounds(m, views, |views|);
      ScoringExact(m, views, best, |views|);
      tied[cursor % |tied|]
  }

  predicate AnyEstimated(views: seq<View>) {
    exists i :: 0 <= i < |views| && views[i].estimated
  }

  /** A policy's answer; `custom` is what an unknown implementation returned. */
  function Answer(kind: PolicyKind, cursor: nat, views: seq<View>, custom: int): (pos: int)
    ensures kind != Custom && views != [] ==> 0 <= pos < |views|
  {
    match kind
    case RoundRobin => if views == [] then -1 else cursor % |views|
    case LeastUsed => PickMin(ByLoad, cursor, views)
    case LeastTokens => PickMin(if AnyEstimated(views) then ByLoad else ByTokens, cursor, views)
    case Custom => custom
  }

  /** A policy object: its kind and the cursor that breaks ties. */
  class Policy {
    const kind: PolicyKind
    var cursor: nat

    constructor (kind: PolicyKind)
      ensures this.kind == kind && cursor == 0
    {
      this.kind := kind;
      cursor := 0;
    }

    method PickMinimum(m: Metric, views: seq<View>) returns (pos: int)
      modifies this
      ensures pos == PickMin(m, old(cursor), views)
      ensures cursor == if views == [] then old(cursor) else old(cursor) + 1
    {
      if views == [] {
        return -1;
      }
      var tied := LeastPositions(m, views);
      cursor := cursor + 1;
      pos := tied[(cursor - 1) % |tied|];
    }

    method Select(views: seq<View>, custom: int) returns (pos: int)
      modifies this
      ensures pos == Answer(kind, old(cursor), views, custom)
      ensures cursor == if kind == Custom || views == [] then old(cursor) else old(cursor) + 1
    {
      match kind
      case RoundRobin =>
        if views == [] {
          return -1;
        }
        cursor := cursor + 1;
        pos := (cursor - 1) % |views|;
      case LeastUsed =>
        pos := PickMinimum(ByLoad, views);
      case LeastTokens =>
        var estimated := false;
        for i := 0 to |views|
          invariant estimated == AnyEstimated(views[..i])
        {
          assert views[..i + 1] == views[..i] + [views[i]];
          if views[i].estimated {
            assert views[..i + 1][i].estimated;
            estimated := true;
          } else {
            assert forall j :: 0 <= j < i ==> views[..i + 1][j] == views[..i][j];
          }
        }
        assert views[..|views|] == views;
        pos := PickMinimum(if estimated then ByLoad else ByTokens, views);
      case Custom =>
        pos := custom;
    }
  }

  /** One scan keeps the least score so far and every position that attains it. */
  method LeastPositions(m: Metric, views: seq<View>) returns (tied: seq<nat>)
    requires views != []
    ensures tied == Scoring(m, views, Least(m, views, |views|), |views|) && tied != []
  {
    var best := Score(m, views[0]);
    tied := [0];
    for i := 1 to |views|
      invariant best == Least(m, views, i)
      invariant tied == Scoring(m, views, best, i)
    {
      var v := Score(m, views[i]);
      if v < best {
        LeastBounds(m, views, i);
        NoneScoresBelow(m, views, v, i);
        best, tied := v, [i];
      } else if v == best {
        tied := tied + [i];
      }
    }
    LeastBounds(m, views, |views|);
  }

  lemma NoneScoresBelow(m: Metric, views: seq<View>, v: int, n: nat)
    requires n <= |views| && forall i :: 0 <= i < n ==> v < Score(m, views[i])
    ensures Scoring(m, views, v, n) == []
  {
  }
}
