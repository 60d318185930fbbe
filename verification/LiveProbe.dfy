/** The global limiter on forced health probes. */
module LiveProbe {
  import opened TokenBucket

  const DEFAULT_INTERVAL: int := 10_000_000_000
  const DEFAULT_BURST: int := 3

  function RuleOf(interval: int, burst: int): Rule {
    Rule(if burst <= 0 then DEFAULT_BURST else burst, 1, if interval <= 0 then DEFAULT_INTERVAL else interval)
  }

  predicate Monotone(start: int, times: seq<int>) {
    && (forall i :: 0 <= i < |times| ==> start <= times[i])
    && (forall i, j :: 0 <= i <= j < |times| ==> times[i] <= times[j])
  }

  /** The limiter after its first `n` calls. */
  function After(p: Rule, start: int, times: seq<int>, n: nat): Tokens
    requires n <= |times|
  {
    if n == 0 then Tokens(p.cap as real, start) else Take(p, After(p, start, times, n - 1), times[n - 1]).0
  }

  function Admitted(p: Rule, start: int, times: seq<int>, i: nat, j: nat): nat
    requires i <= j <= |times|
    decreases j
  {
    if i == j then 0
    else Admitted(p, start, times, i, j - 1) + if Take(p, After(p, start, times, j - 1), times[j - 1]).1 then 1 else 0
  }

  lemma {:induction false} AlwaysInRange(p: Rule, start: int, times: seq<int>, n: nat, clock: int)
    requires Proper(p) && Monotone(start, times) && n <= |times| && start <= clock
    requires n > 0 ==> times[n - 1] <= clock
    ensures InRange(p, After(p, start, times, n), clock)
  {
    if n > 0 {
      AlwaysInRange(p, start, times, n - 1, times[n - 1]);
      TakeConserves(p, After(p, start, times, n - 1), times[n - 1], times[n - 1]);
    }
  }

  lemma {:induction false} AdmittedConserves(p: Rule, start: int, times: seq<int>, i: nat, j: nat)
    requires Proper(p) && Monotone(start, times) && i < j <= |times|
    ensures Admitted(p, start, times, i, j) as real + After(p, start, times, j).count
            <= Refilled(p, After(p, start, times, i), times[i]).count + Grown(p, times[j - 1] - times[i])
    decreases j
  {
    hide Grown, Take, Refilled;
    AlwaysInRange(p, start, times, j - 1, times[if j == i + 1 then i else j - 2]);
    if j == i + 1 {
      assert Admitted(p, start, times, i, i) == 0;
      TakeConserves(p, After(p, start, times, i), times[i], times[i]);
    } else {
      AdmittedConserves(p, start, times, i, j - 1);
      TakeConserves(p, After(p, start, times, j - 1), times[j - 2], times[j - 1]);
      AlwaysInRange(p, start, times, j - 2, times[j - 2]);
      TakeConserves(p, After(p, start, times, j - 2), times[j - 2], times[j - 2]);
      GrownAdds(p, times[j - 2] - times[i], times[j - 1] - times[j - 2]);
    }
  }

  /** Whatever the caller configures and however calls arrive: any run of calls admits at most the burst plus one
      per interval elapsed. */
  lemma ProbeBound(interval: int, burst: int, start: int, times: seq<int>, i: nat, j: nat)
    requires Monotone(start, times) && i < j <= |times|
    ensures var p := RuleOf(interval, burst);
            Admitted(p, start, times, i, j) as real <= p.cap as real + (times[j - 1] - times[i]) as real / p.den as real
  {
    var p := RuleOf(interval, burst);
    AdmittedConserves(p, start, times, i, j);
    AlwaysInRange(p, start, times, i, times[i]);
    AlwaysInRange(p, start, times, j, times[j - 1]);
    RefillGrows(p, After(p, start, times, i), times[i], times[i]);
  }

  /** The limiter object. */
  class ProbeLimiter {
    const interval: int
    const burst: int
    var tokens: real
    var last: int

    ghost function Abstract(): Tokens
      reads this
    {
      Tokens(tokens, last)
    }

    constructor (interval: int, burst: int, now: int)
      ensures var p := RuleOf(interval, burst);
              this.interval == p.den && this.burst == p.cap && Abstract() == After(p, now, [], 0)
    {
      var i, b := interval, burst;
      if i <= 0 {
        i := DEFAULT_INTERVAL;
      }
      if b <= 0 {
        b := DEFAULT_BURST;
      }
      this.interval, this.burst, tokens, last := i, b, b as real, now;
    }

    method Allow(now: int) returns (ok: bool)
      requires interval > 0
      modifies this
      ensures (Abstract(), ok) == Take(Rule(burst, 1, interval), old(Abstract()), now)
    {
      var elapsed := now - last;
      if elapsed > 0 {
        tokens := tokens + elapsed as real / interval as real;
        if tokens > burst as real {
          tokens := burst as real;
        }
        last := now;
      }
      if tokens < 1.0 {
        return false;
      }
      tokens := tokens - 1.0;
      return true;
    }
  }

  // ----- no call is refused without cause -----

  /** As many calls at once as the burst allows are admitted, and no more. */
  lemma {:induction false} BurstExact(interval: int, burst: int, start: int, n: nat)
    ensures var (p, times) := (RuleOf(interval, burst), seq(n, _ => start));
            && Admitted(p, start, times, 0, n) == (if n < p.cap then n else p.cap)
            && After(p, start, times, n)
               == Tokens((if n < p.cap then p.cap - n else 0) as real, start)
  {
    if n > 0 {
      BurstExact(interval, burst, start, n - 1);
      OneFewer(RuleOf(interval, burst), start, n);
    }
  }

  lemma {:induction false} Earlier(p: Rule, start: int, times: seq<int>, more: seq<int>, n: nat)
    requires n <= |times| <= |more| && times[..n] == more[..n]
    ensures After(p, start, times, n) == After(p, start, more, n)
    ensures Admitted(p, start, times, 0, n) == Admitted(p, start, more, 0, n)
  {
    hide Take;
    if n > 0 {
      assert times[n - 1] == times[..n][n - 1] == more[..n][n - 1] == more[n - 1];
      assert times[..n - 1] == times[..n][..n - 1] == more[..n][..n - 1] == more[..n - 1];
      Earlier(p, start, times, more, n - 1);
    }
  }

  lemma OneFewer(p: Rule, start: int, n: nat)
    requires n > 0
    ensures var (a, b) := (seq(n - 1, _ => start), seq(n, _ => start));
            After(p, start, a, n - 1) == After(p, start, b, n - 1)
            && Admitted(p, start, a, 0, n - 1) == Admitted(p, start, b, 0, n - 1)
  {
    var a: seq<int>, b: seq<int> := seq(n - 1, _ => start), seq(n, _ => start);
    assert a[..n - 1] == b[..n - 1];
    Earlier(p, start, a, b, n - 1);
  }

  /** A call that comes an interval after the one before it is admitted. */
  lemma PauseReadmits(interval: int, burst: int, start: int, times: seq<int>, n: nat)
    requires Monotone(start, times) && n < |times|
    requires (if n == 0 then start else times[n - 1]) + RuleOf(interval, burst).den <= times[n]
    ensures Take(RuleOf(interval, burst), After(RuleOf(interval, burst), start, times, n), times[n]).1
  {
    var p := RuleOf(interval, burst);
    var last := if n == 0 then start else times[n - 1];
    AlwaysInRange(p, start, times, n, last);
    GrownPast(p, times[n] - After(p, start, times, n).last);
  }
}
