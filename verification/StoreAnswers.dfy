/** What the store answers a reservation, read off the keys' own counters. */
module StoreAnswers {
  import opened KeyAccounting
  import opened RotationPolicies
  import opened StoreSpec
  import opened KeyBalance
  import opened AdvertisedWait

  // ----- which keys may be leased -----

  /** No cap flag and no deadline ahead. */
  predicate Free(k: Key, now: Time) {
    !k.drained && !k.softRetired && (k.retiredUntil.Some? ==> k.retiredUntil.value <= now)
  }

  /** One more lease, at the estimated price, still fits under every positive limit of the window. */
  predicate Roomy(k: Key, b: Budget) {
    b.window > 0 ==>
      && (b.requests > 0 ==> k.requests + |k.leases| < b.requests)
      && (b.tokens > 0 ==> k.tokens + |k.leases| * b.estimateTokens < b.tokens)
  }

  predicate Leasable(k: Key, b: Budget, now: Time) {
    Free(k, now) && Roomy(k, b)
  }

  lemma LeasableIsAdmissible(k: Key, b: Budget, now: Time)
    ensures Admissible(k, b, now) <==> Leasable(k, b, now)
    ensures Selectable(k, now) <==> Free(k, now)
  {
  }

  /** The three answers to a reservation: a lease exactly if some key is free and has room, `AdmissionLimited` exactly
      if keys are free but every one of them is at a limit, `Drained` exactly if no key is free. */
  lemma ReserveExact(cfg: Config, s: State, op: Op)
    requires op.Reserve? && op.route in s.routes
    ensures var (keys, out) := (Advance(cfg, s.routes[op.route], op.now).keys, Step(cfg, s, op).1);
      && (out.Leased? <==> exists i :: 0 <= i < |keys| && Free(keys[i], op.now) && Roomy(keys[i], cfg.budget))
      && (out.Leased? ==>
            out.idx < |keys| && Free(keys[out.idx], op.now) && Roomy(keys[out.idx], cfg.budget))
      && (out == Refused(AdmissionLimited)
          <==> && (exists i :: 0 <= i < |keys| && Free(keys[i], op.now))
               && (forall i :: 0 <= i < |keys| && Free(keys[i], op.now) ==> !Roomy(keys[i], cfg.budget)))
      && (out == Refused(Drained) <==> forall i :: 0 <= i < |keys| ==> !Free(keys[i], op.now))
  {
    hide Admissible, Selectable, Free, Roomy, ViewOf, Answer, AdvanceKey, RolledStart;
    var keys := Advance(cfg, s.routes[op.route], op.now).keys;
    forall i | 0 <= i < |keys|
      ensures Admissible(keys[i], cfg.budget, op.now) <==> Free(keys[i], op.now) && Roomy(keys[i], cfg.budget)
      ensures Selectable(keys[i], op.now) <==> Free(keys[i], op.now)
    {
      LeasableIsAdmissible(keys[i], cfg.budget, op.now);
    }
    LeasesExactlyTheAdmissible(cfg, s, op);
    DrainedIffUnselectable(cfg, s, op.route, op.now, op.custom);
    assert op == Op.Reserve(op.route, op.now, op.custom);
  }

  // ----- which of them a policy takes -----

  /** How many of the first n keys may be leased: the position of key n among them. */
  function Rank(keys: seq<Key>, b: Budget, now: Time, n: nat): nat
    requires n <= |keys|
  {
    if n == 0 then 0 else Rank(keys, b, now, n - 1) + if Leasable(keys[n - 1], b, now) then 1 else 0
  }

  /** Candidates and leasable keys correspond position by position. */
  lemma {:induction false} RankIsPosition(keys: seq<Key>, b: Budget, now: Time, n: nat)
    requires n <= |keys|
    ensures |Candidates(b, keys, now, n)| == Rank(keys, b, now, n)
    ensures forall p :: 0 <= p < |Candidates(b, keys, now, n)| ==>
      var i := Candidates(b, keys, now, n)[p].index; i < n && Rank(keys, b, now, i) == p
  {
    hide Admissible, Leasable, ViewOf;
    if n > 0 {
      RankIsPosition(keys, b, now, n - 1);
      LeasableIsAdmissible(keys[n - 1], b, now);
      ViewIndex(keys[n - 1], n - 1, now);
    }
  }

  lemma ViewIndex(k: Key, i: nat, now: Time)
    ensures ViewOf(k, i, now).index == i
  {
  }

  /** Round robin takes the leasable key whose turn it is; a custom policy's answer is honoured when it names a
      position, and otherwise the fallback cursor takes turns in its place. */
  lemma PositionsHonoured(cfg: Config, s: State, op: Op)
    requires op.Reserve? && op.route in s.routes && Step(cfg, s, op).1.Leased? && cfg.kind in {RoundRobin, Custom}
    ensures var (keys, (s', out)) := (Advance(cfg, s.routes[op.route], op.now).keys, Step(cfg, s, op));
      var n := Rank(keys, cfg.budget, op.now, |keys|);
      && n > 0 && out.idx < |keys|
      && var valid := cfg.kind == RoundRobin || 0 <= op.custom < n;
         && Rank(keys, cfg.budget, op.now, out.idx)
            == (if cfg.kind == RoundRobin then s.cursor % n else if valid then op.custom else s.fallback % n)
         && s'.cursor == s.cursor + (if cfg.kind == RoundRobin then 1 else 0)
         && s'.fallback == s.fallback + (if valid then 0 else 1)
  {
    hide Admissible, Leasable, ViewOf, AdvanceKey, RolledStart, Rank, Candidates;
    var keys := Advance(cfg, s.routes[op.route], op.now).keys;
    RankIsPosition(keys, cfg.budget, op.now, |keys|);
  }

  /** Least-used leases a leasable key of least load. Least-tokens leases one charged the fewest tokens, unless some
      leasable key's total is estimated, and then one of least load. */
  lemma LeastIsTaken(cfg: Config, s: State, op: Op)
    requires op.Reserve? && op.route in s.routes && Step(cfg, s, op).1.Leased?
    ensures var (keys, idx) := (Advance(cfg, s.routes[op.route], op.now).keys, Step(cfg, s, op).1.idx);
      var guessed := exists i :: 0 <= i < |keys| && Leasable(keys[i], cfg.budget, op.now) && keys[i].estimated;
      && idx < |keys|
      && (forall i :: 0 <= i < |keys| && Leasable(keys[i], cfg.budget, op.now) ==>
            && (cfg.kind == LeastUsed ==> Load(keys[idx]) <= Load(keys[i]))
            && (cfg.kind == LeastTokens && guessed ==> Load(keys[idx]) <= Load(keys[i]))
            && (cfg.kind == LeastTokens && !guessed ==> keys[idx].tokens <= keys[i].tokens))
  {
    hide Admissible, Leasable, AdvanceKey, RolledStart, Candidates, Least, Scoring;
    var keys := Advance(cfg, s.routes[op.route], op.now).keys;
    var views := Candidates(cfg.budget, keys, op.now, |keys|);
    CandidatesSound(cfg.budget, keys, op.now, |keys|);
    forall i | 0 <= i < |keys|
      ensures Admissible(keys[i], cfg.budget, op.now) <==> Leasable(keys[i], cfg.budget, op.now)
      ensures Leasable(keys[i], cfg.budget, op.now) ==> ViewOf(keys[i], i, op.now) in views
    {
      LeasableIsAdmissible(keys[i], cfg.budget, op.now);
      if Admissible(keys[i], cfg.budget, op.now) {
        CandidatesComplete(cfg.budget, keys, op.now, |keys|, i);
      }
    }
    assert AnyEstimated(views)
        <==> exists i :: 0 <= i < |keys| && Leasable(keys[i], cfg.budget, op.now) && keys[i].estimated;
  }
}
