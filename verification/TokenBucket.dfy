/** The token bucket behind the fair-share scheduler and the live-probe limiter: tokens accrue at `num / den` per
    tick, saturate at `cap`, and an admission takes one. */
module TokenBucket {
  datatype Rule = Rule(cap: int, num: int, den: int)

  predicate Proper(p: Rule) {
    p.cap >= 0 && p.num >= 0 && p.den > 0
  }

  function Grown(p: Rule, dt: int): real
    requires p.den > 0
  {
    p.num as real * (dt as real / p.den as real)
  }

  /** Tokens, and the time they were last topped up. */
  datatype Tokens = Tokens(count: real, last: int)

  /** No refill without a positive denominator. */
  function Refilled(p: Rule, b: Tokens, now: int): Tokens {
    if now - b.last <= 0 || p.den <= 0 then b
    else
      var grown := b.count + Grown(p, now - b.last);
      Tokens(if grown > p.cap as real then p.cap as real else grown, now)
  }

  /** One call: top up, then take a token if there is a whole one. */
  function Take(p: Rule, b: Tokens, now: int): (Tokens, bool) {
    var full := Refilled(p, b, now);
    if full.count < 1.0 then (full, false) else (full.(count := full.count - 1.0), true)
  }

  predicate InRange(p: Rule, b: Tokens, clock: int) {
    0.0 <= b.count <= p.cap as real && b.last <= clock
  }

  lemma GrownAdds(p: Rule, a: int, b: int)
    requires p.den > 0
    ensures Grown(p, a + b) == Grown(p, a) + Grown(p, b)
  {
    var x, y, d := a as real, b as real, p.den as real;
    assert (x + y) / d == x / d + y / d;
  }

  lemma GrownNonNegative(p: Rule, dt: int)
    requires Proper(p) && dt >= 0
    ensures Grown(p, dt) >= 0.0
  {
    assert dt as real / p.den as real >= 0.0;
  }

  /** Accrual over at least `den` ticks is at least `num`. */
  lemma GrownPast(p: Rule, dt: int)
    requires Proper(p) && dt >= p.den
    ensures Grown(p, dt) >= p.num as real
  {
    GrownAdds(p, dt - p.den, p.den);
    GrownNonNegative(p, dt - p.den);
    assert p.den as real / p.den as real == 1.0;
  }

  /** The level never rises faster than the rate, and never above the cap. */
  lemma RefillGrows(p: Rule, b: Tokens, clock: int, now: int)
    requires Proper(p) && InRange(p, b, clock) && clock <= now
    ensures InRange(p, Refilled(p, b, now), now)
    ensures Refilled(p, b, clock).count <= Refilled(p, b, now).count
            <= Refilled(p, b, clock).count + Grown(p, now - clock)
  {
    GrownAdds(p, clock - b.last, now - clock);
    GrownNonNegative(p, now - clock);
    GrownNonNegative(p, clock - b.last);
  }

  /** The conservation law of one call: what it admits and what it leaves never exceed what there was plus what
      accrued since. */
  lemma TakeConserves(p: Rule, b: Tokens, clock: int, now: int)
    requires Proper(p) && InRange(p, b, clock) && clock <= now
    ensures var (b', ok) := Take(p, b, now);
            && InRange(p, b', now)
            && (if ok then 1.0 else 0.0) + b'.count <= Refilled(p, b, clock).count + Grown(p, now - clock)
            && Refilled(p, b', now) == b'
  {
    RefillGrows(p, b, clock, now);
  }
}
