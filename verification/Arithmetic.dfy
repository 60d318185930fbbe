/** The few facts about integers and finite sets that several proofs share. */
module Arithmetic {
  lemma ProductEscapes(d: int, n: int)
    requires n > 0 && d != 0
    ensures d * n >= n || d * n <= -n
  {
    if d > 0 {
      assert d * n == (d - 1) * n + n;
      MulNonNegative(d - 1, n);
    } else {
      assert -d * n == (-d - 1) * n + n;
      MulNonNegative(-d - 1, n);
    }
  }

  lemma MulNonNegative(a: int, b: int)
    requires a >= 0 && b >= 0
    ensures a * b >= 0
  {
  }

  lemma MulMonotone(a: int, b: int, c: int)
    requires a <= b && c >= 0
    ensures a * c <= b * c
  {
    MulNonNegative(b - a, c);
    assert (b - a) * c == b * c - a * c;
  }

  /** Quotient and remainder are the only way to write x as q*n + r with 0 <= r < n. */
  lemma DivModUnique(x: int, n: int, q: int, r: int)
    requires n > 0 && 0 <= r < n && x == q * n + r
    ensures x / n == q && x % n == r
  {
    var d := x / n - q;
    assert d * n == x / n * n - q * n;
    if d != 0 {
      ProductEscapes(d, n);
    }
  }

  /** When position `pos` of n comes round, counting from the cursor. */
  function Turn(cursor: nat, n: nat, pos: nat): (turn: nat)
    requires pos < n
    ensures turn < n
  {
    if pos >= cursor % n then pos - cursor % n else pos + n - cursor % n
  }

  /** Over n unchanged candidates, n consecutive round-robin answers reach position `pos` exactly once: at its turn. */
  lemma RoundRobinTurns(cursor: nat, n: nat, pos: nat, k: nat)
    requires pos < n && k < n
    ensures (cursor + k) % n == pos <==> k == Turn(cursor, n, pos)
  {
    var q, r := cursor / n, cursor % n + k;
    assert cursor == q * n + cursor % n;
    if r < n {
      DivModUnique(cursor + k, n, q, r);
    } else {
      assert (q + 1) * n == q * n + n;
      DivModUnique(cursor + k, n, q + 1, r - n);
    }
  }

  lemma SubsetSize(a: set<nat>, b: set<nat>)
    requires a <= b
    ensures |a| <= |b|
  {
    assert b == a + (b - a);
  }
}
