/** The per-upstream circuit breaker: closed, open, half-open. */
module CircuitBreaker {
  type Time = int

  datatype Phase = Closed | Open | HalfOpen

  datatype Circuit = Circuit(phase: Phase, failures: nat, openedAt: Time)

  datatype Settings = Settings(threshold: int, cooldown: int)

  const SECOND: int := 1_000_000_000

  /** Non-positive settings take the defaults of 5 failures and 30 seconds. */
  function Effective(s: Settings): (r: Settings)
    ensures r.threshold >= 1 && r.cooldown >= 1
  {
    Settings(if s.threshold <= 0 then 5 else s.threshold, if s.cooldown <= 0 then 30 * SECOND else s.cooldown)
  }

  const FRESH := Circuit(Closed, 0, 0)

  predicate Cooled(c: Circuit, s: Settings, now: Time) {
    now - c.openedAt >= s.cooldown
  }

  predicate Permits(c: Circuit, s: Settings, now: Time) {
    c.phase.Open? ==> Cooled(c, s, now)
  }

  function Asked(c: Circuit, s: Settings, now: Time): Circuit {
    if c.phase.Open? && Cooled(c, s, now) then c.(phase := HalfOpen) else c
  }

  function Succeeded(c: Circuit): Circuit {
    c.(failures := 0, phase := Closed)
  }

  function Failed(c: Circuit, s: Settings, now: Time): Circuit {
    match c.phase
    case HalfOpen => c.(phase := Open, openedAt := now)
    case Closed =>
      if c.failures + 1 >= s.threshold then Circuit(Open, c.failures + 1, now) else c.(failures := c.failures + 1)
    case Open => c
  }

  // ----- histories -----

  datatype Event = Ask(now: Time) | Success | Failure(now: Time)

  function Step(c: Circuit, s: Settings, e: Event): Circuit {
    match e
    case Ask(now) => Asked(c, s, now)
    case Success => Succeeded(c)
    case Failure(now) => Failed(c, s, now)
  }

  function RunFrom(c: Circuit, s: Settings, es: seq<Event>): Circuit {
    if es == [] then c else Step(RunFrom(c, s, es[..|es| - 1]), s, es[|es| - 1])
  }

  function Run(s: Settings, es: seq<Event>): Circuit {
    RunFrom(FRESH, s, es)
  }

  /** Failures recorded since the last success. */
  function Streak(es: seq<Event>): nat {
    if es == [] then 0
    else
      match es[|es| - 1]
      case Ask(_) => Streak(es[..|es| - 1])
      case Success => 0
      case Failure(_) => Streak(es[..|es| - 1]) + 1
  }

  /** A breaker is closed exactly while fewer than `threshold` failures have followed the last success,
      however failures, successes and probes interleave. */
  lemma {:induction false} ClosedWhileBelowThreshold(s: Settings, es: seq<Event>)
    requires s.threshold >= 1
    ensures Run(s, es).phase.Closed? <==> Streak(es) < s.threshold
    ensures Run(s, es).phase.Closed? ==> Run(s, es).failures == Streak(es)
  {
    if es != [] {
      ClosedWhileBelowThreshold(s, es[..|es| - 1]);
    }
  }

  /** The breaker opened at event `at` and no success has been recorded since. */
  predicate OpenedAt(s: Settings, es: seq<Event>, at: nat) {
    && at < |es| && es[at].Failure?
    && !Run(s, es[..at]).phase.Open? && Run(s, es[..at + 1]).phase.Open?
    && forall j :: at < j < |es| ==> !es[j].Success?
  }

  predicate Monotone(es: seq<Event>) {
    forall i, j :: 0 <= i <= j < |es| && !es[i].Success? && !es[j].Success? ==> es[i].now <= es[j].now
  }

  lemma {:induction false} StaysOpen(s: Settings, es: seq<Event>, at: nat)
    requires s.cooldown >= 1 && Monotone(es) && OpenedAt(s, es, at)
    ensures var c := Run(s, es);
      || (c.phase.Open? && c.openedAt >= es[at].now)
      || exists j :: at < j < |es| && es[j].now >= es[at].now + s.cooldown
    decreases |es|
  {
    assert es[..|es|] == es;
    if at + 1 < |es| {
      var past := es[..|es| - 1];
      assert past[..at] == es[..at] && past[..at + 1] == es[..at + 1];
      StaysOpen(s, past, at);
    } else {
      assert es[..at + 1] == es;
      assert es[..at] == es[..|es| - 1];
    }
  }

  /** Once open, nothing is let through before the cooldown is over, unless a success closes the breaker first. */
  lemma NoneBeforeCooldown(s: Settings, es: seq<Event>, at: nat, now: Time)
    requires s.cooldown >= 1 && Monotone(es) && OpenedAt(s, es, at)
    requires forall j :: 0 <= j < |es| && !es[j].Success? ==> es[j].now <= now
    ensures Permits(Run(s, es), s, now) ==> now >= es[at].now + s.cooldown
  {
    StaysOpen(s, es, at);
  }

  /** The failure that completes a streak of `threshold` opens the breaker, and nothing is let through before the
      cooldown that starts then. */
  lemma {:induction false} ThresholdOpens(s: Settings, es: seq<Event>) returns (at: nat)
    requires s.threshold >= 1 && Streak(es) >= s.threshold
    ensures OpenedAt(s, es, at) && Streak(es[..at + 1]) == s.threshold
    decreases |es|
  {
    var past := es[..|es| - 1];
    ClosedWhileBelowThreshold(s, past);
    ClosedWhileBelowThreshold(s, es);
    assert es[..|es|] == es;
    if Streak(past) >= s.threshold {
      at := ThresholdOpens(s, past);
      assert past[..at] == es[..at] && past[..at + 1] == es[..at + 1];
    } else {
      at := |es| - 1;
    }
  }

  /** Until its cooldown is over an open breaker changes for nothing but a success: asked only before then, it lets a
      call through exactly from then on. */
  lemma {:induction false} PermitsAfterCooldown(s: Settings, es: seq<Event>, at: nat, now: Time)
    requires OpenedAt(s, es, at) && forall j :: at < j < |es| ==> es[j].now < es[at].now + s.cooldown
    ensures var c := Run(s, es); c.phase.Open? && c.openedAt == es[at].now
    ensures Permits(Run(s, es), s, now) <==> es[at].now + s.cooldown <= now
    decreases |es|
  {
    assert es[..|es|] == es;
    if at + 1 < |es| {
      var past := es[..|es| - 1];
      assert past[..at] == es[..at] && past[..at + 1] == es[..at + 1];
      PermitsAfterCooldown(s, past, at, now);
    } else {
      assert es[..at + 1] == es && es[..at] == es[..|es| - 1];
    }
  }

  /** A cooled breaker lets a call through as a probe, and the probe decides: after a success everything passes, after
      a failure nothing does for another cooldown. */
  lemma ProbeDecides(s: Settings, es: seq<Event>, at: nat, asked: Time, answered: Time, now: Time)
    requires OpenedAt(s, es, at) && forall j :: at < j < |es| ==> es[j].now < es[at].now + s.cooldown
    requires es[at].now + s.cooldown <= asked
    ensures var probed := es + [Ask(asked)];
      && Permits(Run(s, probed), s, now)
      && Permits(Run(s, probed + [Success]), s, now)
      && (Permits(Run(s, probed + [Failure(answered)]), s, now) <==> answered + s.cooldown <= now)
  {
    PermitsAfterCooldown(s, es, at, asked);
    var probed := es + [Ask(asked)];
    assert probed[..|es|] == es;
    assert (probed + [Success])[..|probed|] == probed && (probed + [Failure(answered)])[..|probed|] == probed;
  }

  /** Below the threshold everything is let through. */
  lemma PermitsBelowThreshold(s: Settings, es: seq<Event>, now: Time)
    requires s.threshold >= 1 && Streak(es) < s.threshold
    ensures Permits(Run(s, es), s, now)
  {
    ClosedWhileBelowThreshold(s, es);
  }

  /** A history can be replayed in two parts. */
  lemma {:induction false} RunFromAppend(c: Circuit, s: Settings, es: seq<Event>, more: seq<Event>)
    ensures RunFrom(c, s, es + more) == RunFrom(RunFrom(c, s, es), s, more)
  {
    hide Step;
    if more == [] {
      assert es + more == es;
    } else {
      RunFromAppend(c, s, es, more[..|more| - 1]);
      assert (es + more)[..|es + more| - 1] == es + more[..|more| - 1];
    }
  }

  class Breaker {
    const settings: Settings
    var phase: Phase
    var failures: nat
    var openedAt: Time

    ghost function Abstract(): Circuit
      reads this
    {
      Circuit(phase, failures, openedAt)
    }

    constructor (threshold: int, cooldown: int)
      ensures settings == Effective(Settings(threshold, cooldown)) && Abstract() == FRESH
    {
      settings := Effective(Settings(threshold, cooldown));
      phase, failures, openedAt := Closed, 0, 0;
    }

    /** The routing-time check; a cooled open breaker goes half-open and lets the call through. */
    method Allow(now: Time) returns (ok: bool)
      modifies this
      ensures ok == Permits(old(Abstract()), settings, now)
      ensures Abstract() == Asked(old(Abstract()), settings, now)
    {
      match phase
      case Closed => ok := true;
      case Open =>
        ok := now - openedAt >= settings.cooldown;
        if ok {
          phase := HalfOpen;
        }
      case HalfOpen => ok := true;
    }

    method RecordSuccess()
      modifies this
      ensures Abstract() == Succeeded(old(Abstract()))
    {
      failures := 0;
      if phase != Closed {
        phase := Closed;
      }
    }

    method RecordFailure(now: Time)
      modifies this
      ensures Abstract() == Failed(old(Abstract()), settings, now)
    {
      match phase
      case HalfOpen =>
        openedAt := now;
        phase := Open;
      case Closed =>
        failures := failures + 1;
        if failures >= settings.threshold {
          openedAt := now;
          phase := Open;
        }
      case Open =>
    }
  }
}
