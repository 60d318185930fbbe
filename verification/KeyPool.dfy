/** A node's API keys: round robin that skips keys on cooldown. */
module KeyPool {
  import opened Arithmetic

  type Time = int

  predicate Warm(cool: seq<Time>, i: int, now: Time)
    requires 0 <= i < |cool|
  {
    cool[i] <= now
  }

  predicate AllCold(cool: seq<Time>, now: Time) {
    forall i :: 0 <= i < |cool| ==> !Warm(cool, i, now)
  }

  /** The key whose turn comes `off` places after the cursor's. */
  function Place(cursor: nat, off: nat, n: nat): (i: nat)
    requires n > 0
    ensures i < n
  {
    (cursor + off) % n
  }

  /** The key a call hands out: the nearest warm one from the cursor on, or the cursor's own if none is warm. */
  ghost predicate Handed(cool: seq<Time>, cursor: nat, now: Time, idx: int) {
    && 0 <= idx < |cool|
    && if AllCold(cool, now) then idx == cursor % |cool|
       else exists off :: 0 <= off < |cool| && idx == Place(cursor, off, |cool|) && Warm(cool, idx, now)
                          && forall o :: 0 <= o < off ==> !Warm(cool, Place(cursor, o, |cool|), now)
  }

  /** The search as a function: the first warm key `off` or more places after the cursor's. */
  function Search(cool: seq<Time>, cursor: nat, now: Time, off: nat): (i: nat)
    requires off <= |cool| && cool != []
    ensures i < |cool|
    decreases |cool| - off
  {
    if off == |cool| then Place(cursor, 0, |cool|)
    else if Warm(cool, Place(cursor, off, |cool|), now) then Place(cursor, off, |cool|)
    else Search(cool, cursor, now, off + 1)
  }

  /** The search hands out what it should. */
  lemma SearchHands(cool: seq<Time>, cursor: nat, now: Time)
    requires cool != []
    ensures Handed(cool, cursor, now, Search(cool, cursor, now, 0))
  {
    var n, off := |cool|, 0;
    while off < n && !Warm(cool, Place(cursor, off, n), now)
      invariant off <= n && Search(cool, cursor, now, 0) == Search(cool, cursor, now, off)
      invariant forall o :: 0 <= o < off ==> !Warm(cool, Place(cursor, o, n), now)
    {
      off := off + 1;
    }
    if off == n {
      forall i | 0 <= i < n
        ensures !Warm(cool, i, now)
      {
        RoundRobinTurns(cursor, n, i, Turn(cursor, n, i));
        assert Place(cursor, Turn(cursor, n, i), n) == i;
      }
    }
  }

  /** A cold key is handed out only when every key is cold. */
  lemma ColdOnlyIfAllCold(cool: seq<Time>, cursor: nat, now: Time, idx: int)
    requires Handed(cool, cursor, now, idx) && !Warm(cool, idx, now)
    ensures AllCold(cool, now)
  {
  }

  /** How many of the first n keys are on cooldown. */
  function ColdCount(cool: seq<Time>, now: Time, n: nat): (c: nat)
    requires n <= |cool|
    ensures c <= n && (c == n <==> forall i :: 0 <= i < n ==> !Warm(cool, i, now))
  {
    if n == 0 then 0 else ColdCount(cool, now, n - 1) + if Warm(cool, n - 1, now) then 0 else 1
  }

  /** A pool as a value. */
  datatype Keys = Keys(names: seq<string>, cooldown: int, cool: seq<Time>, cursor: nat)

  predicate Proper(k: Keys) {
    |k.cool| == |k.names|
  }

  /** Handing out a key: the pool afterwards, and the key's index or -1. */
  function Taken(k: Keys, now: Time): (Keys, int)
    requires Proper(k)
  {
    var i: int := if k.names == [] then -1 else Search(k.cool, k.cursor, now, 0);
    (if k.names == [] then k else k.(cursor := k.cursor + 1), i)
  }

  /** Starting a key's cooldown; an out-of-range index or a disabled cooldown changes nothing. */
  function Marked(k: Keys, idx: int, now: Time): Keys
    requires Proper(k)
  {
    if 0 <= idx < |k.names| && k.cooldown > 0 then k.(cool := k.cool[idx := now + k.cooldown]) else k
  }

  /** The node as a whole is out of quota. */
  predicate Exhausted(k: Keys, now: Time) {
    k.names != [] && AllCold(k.cool, now)
  }

  // ----- consecutive calls -----

  /** The pool after its first n hand-outs, at the given clock readings. */
  function After(k: Keys, times: seq<Time>, n: nat): (r: Keys)
    requires Proper(k) && n <= |times|
    ensures Proper(r) && r.names == k.names && r.cool == k.cool
    ensures k.names != [] ==> r.cursor == k.cursor + n
  {
    if n == 0 then k else Taken(After(k, times, n - 1), times[n - 1]).0
  }

  function HandedAt(k: Keys, times: seq<Time>, j: nat): int
    requires Proper(k) && j < |times|
  {
    Taken(After(k, times, j), times[j]).1
  }

  /** Of any n consecutive hand-outs from a pool of n keys that are all warm each time, exactly one hands out key i: the
      one whose turn it is. */
  lemma WarmKeysTakeTurns(k: Keys, times: seq<Time>, a: nat, j: nat, i: nat)
    requires Proper(k) && i < |k.names| && a <= j < a + |k.names| <= |times|
    requires forall x, y :: 0 <= x < |k.cool| && a <= y < |times| ==> Warm(k.cool, x, times[y])
    ensures HandedAt(k, times, j) == i <==> j - a == Turn(k.cursor + a, |k.names|, i)
  {
    var n, cursor := |k.names|, k.cursor + j;
    RoundRobinTurns(k.cursor + a, n, i, j - a);
    assert Warm(k.cool, Place(cursor, 0, n), times[j]);
  }

  function WarmKeys(k: Keys, now: Time): set<nat>
    requires Proper(k)
  {
    set i: nat | i < |k.cool| && Warm(k.cool, i, now)
  }

  class Pool {
    const keys: seq<string>
    const cooldown: int
    const coolUntil: array<Time>
    var cursor: nat

    ghost predicate Valid()
      reads this
    {
      coolUntil.Length == |keys|
    }

    ghost function Abstract(): Keys
      reads this, coolUntil
    {
      Keys(keys, cooldown, coolUntil[..], cursor)
    }

    constructor (keys: seq<string>, cooldown: int)
      ensures Valid() && fresh(coolUntil)
      ensures Abstract() == Keys(keys, cooldown, seq(|keys|, _ => 0), 0)
    {
      this.keys, this.cooldown := keys, cooldown;
      coolUntil := new Time[|keys|](_ => 0);
      cursor := 0;
    }

    /** The first warm key at or after the cursor's turn; a cold one only when all are cold. */
    method Next(now: Time) returns (key: string, idx: int)
      requires Valid()
      modifies `cursor
      ensures (Abstract(), idx) == Taken(old(Abstract()), now)
      ensures idx == -1 ==> keys == [] && key == ""
      ensures idx != -1 ==> 0 <= idx < |keys| && key == keys[idx] && Handed(coolUntil[..], old(cursor), now, idx)
    {
      var n := |keys|;
      if n == 0 {
        return "", -1;
      }
      var start := cursor;
      cursor := cursor + 1;
      SearchHands(coolUntil[..], start, now);
      for off := 0 to n
        invariant Search(coolUntil[..], start, now, off) == Search(coolUntil[..], start, now, 0)
      {
        var i := Place(start, off, n);
        if coolUntil[i] <= now {
          return keys[i], i;
        }
      }
      idx := start % n;
      key := keys[idx];
    }

    /** Starts a key's cooldown; an out-of-range index or a disabled cooldown changes nothing. */
    method MarkExhausted(idx: int, now: Time)
      requires Valid()
      modifies coolUntil
      ensures Abstract() == Marked(old(Abstract()), idx, now)
    {
      if idx < 0 || idx >= |keys| || cooldown <= 0 {
        return;
      }
      coolUntil[idx] := now + cooldown;
    }

    method Cooling(now: Time) returns (c: nat)
      requires Valid()
      ensures c == ColdCount(coolUntil[..], now, |keys|)
    {
      c := 0;
      for i := 0 to coolUntil.Length
        invariant c == ColdCount(coolUntil[..], now, i)
      {
        if coolUntil[i] > now {
          c := c + 1;
        }
      }
    }

    /** Whether the node as a whole is out of quota. */
    method AllCooling(now: Time) returns (all: bool)
      requires Valid()
      ensures all == Exhausted(Abstract(), now)
    {
      var c := Cooling(now);
      all := |keys| > 0 && c == |keys|;
    }
  }
}
