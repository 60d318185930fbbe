/** Per-user rate limiting: one token bucket per user, created on first use and deleted by a sweep once idle.

    `Acquire` is one atomic step here, although the code releases the map's lock before it takes the bucket's. */
module FairShare {
  import opened TokenBucket

  datatype Config = Config(max: int, window: int, burst: int)

  /** What configuration loading guarantees of an enabled scheduler. */
  predicate Configured(cfg: Config) {
    cfg.max > 0 && cfg.window > 0 && cfg.burst > 0
  }

  function RuleOf(cfg: Config): Rule {
    Rule(cfg.max, cfg.max, cfg.window)
  }

  function Initial(cfg: Config): int {
    if cfg.burst > cfg.max then cfg.max else cfg.burst
  }

  datatype Bucket = Bucket(tokens: Tokens, lastAccess: int)

  type Buckets = map<string, Bucket>

  datatype Op = Acquire(user: string, now: int) | Sweep(now: int)

  function NewBucket(cfg: Config, now: int): Bucket {
    Bucket(Tokens(Initial(cfg) as real, now), now)
  }

  function BucketOf(cfg: Config, s: Buckets, user: string, now: int): Bucket {
    if user in s then s[user] else NewBucket(cfg, now)
  }

  predicate Idle(cfg: Config, b: Bucket, now: int) {
    now - b.lastAccess > cfg.window * 2
  }

  function Step(cfg: Config, s: Buckets, op: Op): (Buckets, bool) {
    match op
    case Acquire(user, now) =>
      var (tokens, ok) := Take(RuleOf(cfg), BucketOf(cfg, s, user, now).tokens, now);
      (s[user := Bucket(tokens, now)], ok)
    case Sweep(now) => (map u | u in s && !Idle(cfg, s[u], now) :: s[u], false)
  }

  // ----- runs -----

  /** An acquisition reads the clock while it holds its bucket, so no earlier operation has a later reading; a sweep
      reads it before it takes the lock, so its reading may be older than those of operations before it. */
  predicate Monotone(ops: seq<Op>) {
    forall i, j :: 0 <= i <= j < |ops| && ops[j].Acquire? ==> ops[i].now <= ops[j].now
  }

  /** The latest reading of operations i .. j-1. */
  function Latest(ops: seq<Op>, i: nat, j: nat): int
    requires i < j <= |ops|
    decreases j
  {
    if j == i + 1 then ops[i].now
    else if ops[j - 1].now > Latest(ops, i, j - 1) then ops[j - 1].now else Latest(ops, i, j - 1)
  }

  function After(cfg: Config, ops: seq<Op>, n: nat): Buckets
    requires n <= |ops|
  {
    if n == 0 then map[] else Step(cfg, After(cfg, ops, n - 1), ops[n - 1]).0
  }

  predicate Admits(cfg: Config, ops: seq<Op>, n: nat, user: string)
    requires n < |ops|
  {
    ops[n].Acquire? && ops[n].user == user && Step(cfg, After(cfg, ops, n), ops[n]).1
  }

  /** How often `user` is admitted from operation `i` up to but not including `j`. */
  function Admitted(cfg: Config, ops: seq<Op>, i: nat, j: nat, user: string): nat
    requires i <= j <= |ops|
    decreases j
  {
    if i == j then 0 else Admitted(cfg, ops, i, j - 1, user) + if Admits(cfg, ops, j - 1, user) then 1 else 0
  }

  // ----- the bound -----

  /** What the user could spend at `clock`: a deleted bucket counts as the fresh one that would replace it. */
  function Level(cfg: Config, s: Buckets, user: string, clock: int): real {
    if user in s then Refilled(RuleOf(cfg), s[user].tokens, clock).count else Initial(cfg) as real
  }

  predicate Sound(cfg: Config, s: Buckets, user: string, clock: int) {
    user in s ==> InRange(RuleOf(cfg), s[user].tokens, s[user].lastAccess) && s[user].lastAccess <= clock
  }

  /** One operation, the sweep included: a bucket is deleted only once it has been idle long enough to be full, so
      starting afresh never leaves the user with more. `clock` and `later` are the latest readings before and after. */
  lemma StepConserves(cfg: Config, s: Buckets, op: Op, user: string, clock: int, later: int)
    requires Configured(cfg) && Sound(cfg, s, user, clock) && (op.Acquire? ==> clock <= op.now)
    requires later == if op.now > clock then op.now else clock
    ensures var (s', ok) := Step(cfg, s, op);
            && Sound(cfg, s', user, later)
            && (if op.Acquire? && op.user == user && ok then 1.0 else 0.0) + Level(cfg, s', user, later)
               <= Level(cfg, s, user, clock) + Grown(RuleOf(cfg), later - clock)
  {
    hide Grown;
    var p := RuleOf(cfg);
    GrownNonNegative(p, later - clock);
    if user in s {
      RefillGrows(p, s[user].tokens, clock, later);
      if op.Sweep? && Idle(cfg, s[user], op.now) {
        SweptIsFull(cfg, s[user], op.now, later);
      }
    }
    if op.Acquire? && op.user == user {
      if user in s {
        TakeConserves(p, s[user].tokens, clock, op.now);
      } else {
        TakeConserves(p, NewBucket(cfg, op.now).tokens, op.now, op.now);
        GrownAdds(p, 0, 0);
      }
    }
  }

  /** An idle bucket would be full from then on. */
  lemma SweptIsFull(cfg: Config, b: Bucket, now: int, later: int)
    requires Configured(cfg) && InRange(RuleOf(cfg), b.tokens, b.lastAccess) && Idle(cfg, b, now) && now <= later
    ensures Refilled(RuleOf(cfg), b.tokens, later).count == cfg.max as real
  {
    GrownPast(RuleOf(cfg), later - b.tokens.last);
  }

  lemma {:induction false} AdmittedConserves(cfg: Config, ops: seq<Op>, i: nat, j: nat, user: string)
    requires Configured(cfg) && Monotone(ops) && i < j <= |ops| && ops[i].Acquire?
    requires Sound(cfg, After(cfg, ops, i), user, ops[i].now)
    ensures Sound(cfg, After(cfg, ops, j), user, Latest(ops, i, j))
    ensures Admitted(cfg, ops, i, j, user) as real + Level(cfg, After(cfg, ops, j), user, Latest(ops, i, j))
            <= Level(cfg, After(cfg, ops, i), user, ops[i].now) + Grown(RuleOf(cfg), Latest(ops, i, j) - ops[i].now)
    decreases j
  {
    hide Grown, Step, Level, Sound;
    var p := RuleOf(cfg);
    if j == i + 1 {
      assert Admitted(cfg, ops, i, i, user) == 0;
      StepConserves(cfg, After(cfg, ops, i), ops[i], user, ops[i].now, ops[i].now);
    } else {
      AdmittedConserves(cfg, ops, i, j - 1, user);
      LatestBounds(ops, i, j - 1, j - 1);
      StepConserves(cfg, After(cfg, ops, j - 1), ops[j - 1], user, Latest(ops, i, j - 1), Latest(ops, i, j));
      GrownAdds(p, Latest(ops, i, j - 1) - ops[i].now, Latest(ops, i, j) - Latest(ops, i, j - 1));
    }
  }

  /** No acquisition reads less than the latest reading before it. */
  lemma {:induction false} LatestBounds(ops: seq<Op>, i: nat, j: nat, k: nat)
    requires Monotone(ops) && i < j <= k < |ops|
    ensures ops[k].Acquire? ==> Latest(ops, i, j) <= ops[k].now
    decreases j
  {
    if j > i + 1 {
      LatestBounds(ops, i, j - 1, k);
    }
  }

  lemma {:induction false} AlwaysSound(cfg: Config, ops: seq<Op>, n: nat, user: string, clock: int)
    requires Configured(cfg) && Monotone(ops) && n <= |ops|
    requires forall k :: 0 <= k < n ==> ops[k].now <= clock
    ensures Sound(cfg, After(cfg, ops, n), user, clock)
  {
    hide Step;
    if n > 0 {
      AlwaysSound(cfg, ops, n - 1, user, clock);
      if ops[n - 1].Acquire? {
        AlwaysSound(cfg, ops, n - 1, user, ops[n - 1].now);
      }
      StepSound(cfg, After(cfg, ops, n - 1), ops[n - 1], user, clock);
    }
  }

  lemma StepSound(cfg: Config, s: Buckets, op: Op, user: string, clock: int)
    requires Configured(cfg) && Sound(cfg, s, user, clock) && op.now <= clock
    requires op.Acquire? ==> Sound(cfg, s, user, op.now)
    ensures Sound(cfg, Step(cfg, s, op).0, user, clock)
  {
    hide Grown;
    if op.Acquire? && op.user == user {
      TakeConserves(RuleOf(cfg), BucketOf(cfg, s, user, op.now).tokens, op.now, op.now);
    }
  }

  lemma LevelInRange(cfg: Config, s: Buckets, user: string, clock: int)
    requires Configured(cfg) && Sound(cfg, s, user, clock)
    ensures 0.0 <= Level(cfg, s, user, clock) <= cfg.max as real
  {
    if user in s {
      RefillGrows(RuleOf(cfg), s[user].tokens, clock, clock);
    }
  }

  /** Any interval of any run from an acquisition on, sweeps included: at most `max` plus the rate times its length. */
  lemma IntervalBound(cfg: Config, ops: seq<Op>, i: nat, j: nat, user: string)
    requires Configured(cfg) && Monotone(ops) && i < j <= |ops| && ops[i].Acquire?
    ensures Admitted(cfg, ops, i, j, user) as real
            <= cfg.max as real + Grown(RuleOf(cfg), Latest(ops, i, j) - ops[i].now)
  {
    hide Grown, Step, Level, Sound, Admitted;
    AlwaysSound(cfg, ops, i, user, ops[i].now);
    LevelInRange(cfg, After(cfg, ops, i), user, ops[i].now);
    AdmittedConserves(cfg, ops, i, j, user);
    LevelInRange(cfg, After(cfg, ops, j), user, Latest(ops, i, j));
  }

  /** From a user's first request on: at most min(burst, max) plus the rate times the time since. */
  lemma TotalBound(cfg: Config, ops: seq<Op>, i: nat, j: nat, user: string)
    requires Configured(cfg) && Monotone(ops) && i < j <= |ops| && ops[i].Acquire?
    requires forall k :: 0 <= k < i ==> !(ops[k].Acquire? && ops[k].user == user)
    ensures Admitted(cfg, ops, 0, j, user) as real
            <= Initial(cfg) as real + Grown(RuleOf(cfg), Latest(ops, i, j) - ops[i].now)
  {
    hide Grown, Step, Admitted;
    AlwaysSound(cfg, ops, i, user, ops[i].now);
    Unknown(cfg, ops, i, user);
    AdmittedConserves(cfg, ops, i, j, user);
    LevelInRange(cfg, After(cfg, ops, j), user, Latest(ops, i, j));
    SkipQuietStart(cfg, ops, i, j, user);
  }

  lemma {:induction false} Unknown(cfg: Config, ops: seq<Op>, n: nat, user: string)
    requires n <= |ops|
    requires forall k :: 0 <= k < n ==> !(ops[k].Acquire? && ops[k].user == user)
    ensures user !in After(cfg, ops, n) && Admitted(cfg, ops, 0, n, user) == 0
  {
    if n > 0 {
      Unknown(cfg, ops, n - 1, user);
    }
  }

  lemma {:induction false} SkipQuietStart(cfg: Config, ops: seq<Op>, i: nat, j: nat, user: string)
    requires i <= j <= |ops|
    requires forall k :: 0 <= k < i ==> !(ops[k].Acquire? && ops[k].user == user)
    ensures Admitted(cfg, ops, 0, j, user) == Admitted(cfg, ops, i, j, user)
    decreases j
  {
    if i < j {
      SkipQuietStart(cfg, ops, i, j - 1, user);
    } else {
      Unknown(cfg, ops, j, user);
    }
  }

  /** The other direction: a user who has paused for `window / max` is admitted, swept or not. */
  lemma PauseReadmits(cfg: Config, ops: seq<Op>, n: nat)
    requires Configured(cfg) && Monotone(ops) && n < |ops| && ops[n].Acquire?
    requires var s, user := After(cfg, ops, n), ops[n].user;
             user in s ==> (ops[n].now - s[user].lastAccess) * cfg.max >= cfg.window
    ensures Admits(cfg, ops, n, ops[n].user)
  {
    var s, user, now, p := After(cfg, ops, n), ops[n].user, ops[n].now, RuleOf(cfg);
    AlwaysSound(cfg, ops, n, user, now);
    if user in s {
      var b := s[user];
      var dt := now - b.lastAccess;
      assert dt > 0;
      GrownAdds(p, b.lastAccess - b.tokens.last, dt);
      GrownNonNegative(p, b.lastAccess - b.tokens.last);
      EnoughForOne(cfg, dt);
    }
  }

  lemma EnoughForOne(cfg: Config, dt: int)
    requires Configured(cfg) && dt * cfg.max >= cfg.window
    ensures Grown(RuleOf(cfg), dt) >= 1.0
  {
    var m, d, w := cfg.max as real, dt as real, cfg.window as real;
    assert m * d == (dt * cfg.max) as real;
    assert m * (d / w) == (m * d) / w;
  }

  function Least(a: int, b: int): int { if a < b then a else b }

  /** A new user's burst is honoured in full: of n requests at one instant, min(n, burst, max) are admitted. */
  lemma {:induction false} BurstExact(cfg: Config, ops: seq<Op>, user: string, now: int, n: nat)
    requires Configured(cfg) && n <= |ops| && forall k :: 0 <= k < n ==> ops[k] == Acquire(user, now)
    ensures Admitted(cfg, ops, 0, n, user) == Least(n, Least(cfg.burst, cfg.max))
    ensures n > 0 ==> user in After(cfg, ops, n)
    ensures var (s, first) := (After(cfg, ops, n), Least(cfg.burst, cfg.max));
      user in s ==> s[user].tokens == Tokens((first - Least(n, first)) as real, now)
  {
    if n > 0 {
      BurstExact(cfg, ops, user, now, n - 1);
    }
  }

  /** The bound needs a positive window: without one nothing refills, but every sweep forgets, so a user who asks
      once between sweeps is admitted every time. */
  lemma {:induction false} UnwindowedForgets(cfg: Config, user: string, n: nat)
    requires cfg.max > 0 && cfg.burst > 0 && cfg.window <= 0
    ensures After(cfg, Alternating(user, n), 2 * n) == map[]
    ensures Admitted(cfg, Alternating(user, n), 0, 2 * n, user) == n
  {
    UnwindowedPrefix(cfg, user, n, n);
  }

  function Alternating(user: string, n: nat): (ops: seq<Op>)
    ensures |ops| == 2 * n
  {
    seq(2 * n, k => if k % 2 == 0 then Acquire(user, k) else Sweep(k))
  }

  lemma {:induction false} UnwindowedPrefix(cfg: Config, user: string, n: nat, k: nat)
    requires cfg.max > 0 && cfg.burst > 0 && cfg.window <= 0 && k <= n
    ensures After(cfg, Alternating(user, n), 2 * k) == map[]
    ensures Admitted(cfg, Alternating(user, n), 0, 2 * k, user) == k
    decreases k
  {
    if k > 0 {
      hide Step, Alternating;
      var ops := Alternating(user, n);
      UnwindowedPrefix(cfg, user, n, k - 1);
      AlternatingAt(user, n, k);
      ForgottenAtOnce(cfg, user, 2 * k - 2);
      assert Admitted(cfg, ops, 0, 2 * k - 1, user) == k;
    }
  }

  lemma AlternatingAt(user: string, n: nat, k: nat)
    requires 0 < k <= n
    ensures var ops := Alternating(user, n);
            ops[2 * k - 2] == Acquire(user, 2 * k - 2) && ops[2 * k - 1] == Sweep(2 * k - 1)
  {
  }

  lemma ForgottenAtOnce(cfg: Config, user: string, now: int)
    requires cfg.max > 0 && cfg.burst > 0 && cfg.window <= 0
    ensures var (s, ok) := Step(cfg, map[], Acquire(user, now));
            ok && Step(cfg, s, Sweep(now + 1)) == (map[], false)
  {
    var s := Step(cfg, map[], Acquire(user, now)).0;
    assert Step(cfg, s, Sweep(now + 1)).0 == map[];
  }

  // ----- the scheduler -----

  class Scheduler {
    const cfg: Config
    var buckets: Buckets

    constructor (cfg: Config)
      ensures this.cfg == cfg && buckets == map[]
    {
      this.cfg, buckets := cfg, map[];
    }

    method AcquireToken(user: string, now: int) returns (ok: bool)
      modifies this
      ensures (buckets, ok) == Step(cfg, old(buckets), Acquire(user, now))
    {
      if user !in buckets {
        buckets := buckets[user := NewBucket(cfg, now)];
      }
      ok := Allow(user, now);
      assert buckets == old(buckets)[user := buckets[user]];
    }

    method Allow(user: string, now: int) returns (ok: bool)
      requires user in buckets
      modifies this
      ensures var (tokens, taken) := Take(RuleOf(cfg), old(buckets[user].tokens), now);
              ok == taken && buckets == old(buckets)[user := Bucket(tokens, now)]
    {
      var tokens, last := buckets[user].tokens.count, buckets[user].tokens.last;
      var elapsed := now - last;
      if elapsed > 0 && cfg.window > 0 {
        tokens := tokens + cfg.max as real * (elapsed as real / cfg.window as real);
        if tokens > cfg.max as real {
          tokens := cfg.max as real;
        }
        last := now;
      }
      ok := tokens >= 1.0;
      if ok {
        tokens := tokens - 1.0;
      }
      buckets := buckets[user := Bucket(Tokens(tokens, last), now)];
    }

    method CollectGarbage(now: int)
      modifies this
      ensures buckets == Step(cfg, old(buckets), Sweep(now)).0
      ensures forall u :: u in buckets <==> u in old(buckets) && now - old(buckets)[u].lastAccess <= 2 * cfg.window
    {
      var users := buckets.Keys;
      while users != {}
        invariant users <= old(buckets).Keys
        invariant buckets == map u | u in old(buckets) && (u in users || !Idle(cfg, old(buckets)[u], now))
                  :: old(buckets)[u]
        decreases |users|
      {
        var user :| user in users;
        users := users - {user};
        if Idle(cfg, buckets[user], now) {
          buckets := buckets - {user};
        }
      }
    }
  }
}
