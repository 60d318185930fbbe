/** One key's accounting record and the transitions the rotation store applies to it.

    Instants and durations are integers (nanoseconds); the zero `time.Time` is `None`.
    Every function here is one critical-section step of the store on one key; the class in
    `RotationStore.dfy` performs them in place and the files beside it prove what whole runs keep. */
module KeyAccounting {
  import opened Options

  type Time = int
  type Duration = int

  datatype Reason = NoReason | Cap | Quota | Error | RateLimit | Balance

  datatype Outcome = Completed | Failed

  const TOKENS_UNKNOWN := -1

  datatype Sample = Sample(outcome: Outcome, tokens: int, estimated: bool)

  /** One route's per-key allowance for one tumbling window. */
  datatype Budget = Budget(window: Duration, tokens: int, requests: int, softRatio: real, estimateTokens: int)

  datatype Key = Key(
    requests: int,
    tokens: int,
    leases: seq<Time>,
    orphaned: int,
    reclaimed: int,
    errors: int,
    estimated: bool,
    drained: bool,
    softRetired: bool,
    retiredUntil: Option<Time>,
    retireReason: Reason)

  const FRESH_KEY := Key(0, 0, [], 0, 0, 0, false, false, false, None, NoReason)

  /** An explicit retirement deadline lies in the future. */
  predicate InForce(k: Key, now: Time) {
    k.retiredUntil.Some? && now < k.retiredUntil.value
  }

  predicate Capped(k: Key) {
    k.drained || k.softRetired
  }

  predicate Selectable(k: Key, now: Time) {
    !k.drained && !k.softRetired && !InForce(k, now)
  }

  function ReasonAt(k: Key, now: Time): Reason {
    if Capped(k) then Cap
    else if InForce(k, now) then (if k.retireReason == NoReason then Quota else k.retireReason)
    else NoReason
  }

  // ----- leases: release and reclamation -----

  /** A settlement names no lease: it is charged to an orphan when there is one, else it pops the oldest stamp. */
  function Release(k: Key): Key {
    if k.orphaned > 0 then k.(orphaned := k.orphaned - 1)
    else if |k.leases| > 0 then k.(leases := k.leases[1..])
    else k
  }

  /** The length of the leading run of stamps that are not after the cutoff. */
  function StaleRun(stamps: seq<Time>, cutoff: Time): (n: nat)
    ensures n <= |stamps|
    ensures forall i :: 0 <= i < n ==> stamps[i] <= cutoff
    ensures n < |stamps| ==> stamps[n] > cutoff
  {
    if stamps == [] || stamps[0] > cutoff then 0 else 1 + StaleRun(stamps[1..], cutoff)
  }

  function ReclaimStale(k: Key, timeout: Duration, now: Time): Key {
    if timeout <= 0 then k
    else
      var n := StaleRun(k.leases, now - timeout);
      k.(leases := k.leases[n..], orphaned := k.orphaned + n, reclaimed := k.reclaimed + n)
  }

  // ----- the tumbling window -----

  predicate WindowExpired(window: Duration, start: Time, now: Time) {
    window > 0 && now - start >= window
  }

  function RolledStart(window: Duration, start: Time, now: Time): Time {
    if WindowExpired(window, start, now) then start + (now - start) / window * window else start
  }

  /** What a rollover does to one key: window counters and caps go, leases stay, an unexpired deadline stays. */
  function Rolled(k: Key, now: Time): Key {
    var z := k.(requests := 0, tokens := 0, errors := 0, estimated := false, drained := false, softRetired := false);
    if InForce(k, now) then z else z.(retiredUntil := None, retireReason := NoReason)
  }

  function AdvanceKey(k: Key, timeout: Duration, window: Duration, start: Time, now: Time): Key {
    var r := ReclaimStale(k, timeout, now);
    if WindowExpired(window, start, now) then Rolled(r, now) else r
  }

  // ----- admission and settlement -----

  predicate Admissible(k: Key, b: Budget, now: Time) {
    && Selectable(k, now)
    && (b.window <= 0
        || (&& !(b.requests > 0 && k.requests + |k.leases| >= b.requests)
            && !(b.tokens > 0 && k.tokens + |k.leases| * b.estimateTokens >= b.tokens)))
  }

  function Granted(k: Key, now: Time): Key {
    k.(leases := k.leases + [now])
  }

  predicate AtRatio(used: int, limit: int, ratio: real) {
    limit > 0 && used as real >= ratio * limit as real
  }

  predicate AtHardCap(k: Key, b: Budget) {
    AtRatio(k.requests, b.requests, 1.0) || AtRatio(k.tokens, b.tokens, 1.0)
  }

  predicate AtSoftCap(k: Key, b: Budget) {
    AtRatio(k.requests, b.requests, b.softRatio) || AtRatio(k.tokens, b.tokens, b.softRatio)
  }

  function ApplyCaps(k: Key, b: Budget): (Key, seq<Reason>) {
    if b.window <= 0 || (b.requests <= 0 && b.tokens <= 0) then (k, [])
    else
      var k' := if AtHardCap(k, b) then k.(drained := true, softRetired := true)
                else if AtSoftCap(k, b) then k.(softRetired := true)
                else k;
      (k', if Capped(k') && !Capped(k) then [Cap] else [])
  }

  /** RecordSample's normalisation: any negative count means "the upstream reported none". */
  function Normalised(s: Sample): Sample {
    if s.tokens < 0 then s.(tokens := TOKENS_UNKNOWN, estimated := true) else s
  }

  /** What a settled sample adds to the key's token counter. */
  function Charge(s: Sample, b: Budget): int {
    if s.outcome.Failed? then 0
    else if s.tokens == TOKENS_UNKNOWN then b.estimateTokens
    else s.tokens
  }

  function SettleKey(k: Key, b: Budget, s: Sample): (Key, seq<Reason>) {
    var r := Release(k);
    if s.outcome.Failed? then (r.(errors := r.errors + 1), [])
    else
      ApplyCaps(r.(requests := r.requests + 1,
                   tokens := r.tokens + Charge(s, b),
                   estimated := r.estimated || s.tokens == TOKENS_UNKNOWN), b)
  }

  // ----- explicit retirement -----

  function RetireKey(k: Key, now: Time, until: Time, reason: Reason): (Key, seq<Reason>) {
    if until <= now then (k, [])
    else
      var k' := if k.retiredUntil.None? || until > k.retiredUntil.value
                then k.(retiredUntil := Some(until), retireReason := reason) else k;
      (k', if InForce(k, now) then [] else [reason])
  }

  /** How long one key stays unselectable: the later of its deadline and, when capped, its window's end. */
  function WaitFor(k: Key, window: Duration, maxRetryAfter: Duration, start: Time, now: Time): Duration {
    var w := if InForce(k, now) then k.retiredUntil.value - now else 0;
    if !Capped(k) then w
    else if window > 0 then (if start + window - now > w then start + window - now else w)
    else if w == 0 then maxRetryAfter
    else w
  }

  // ----- which fields each transition can touch -----

  lemma AdvanceLeases(k: Key, timeout: Duration, window: Duration, start: Time, now: Time)
    ensures var (a, r) := (AdvanceKey(k, timeout, window, start, now), ReclaimStale(k, timeout, now));
      a.leases == r.leases && a.orphaned == r.orphaned && a.reclaimed == r.reclaimed
  {
  }

  lemma AdvanceCounters(k: Key, timeout: Duration, window: Duration, start: Time, now: Time)
    ensures var a := AdvanceKey(k, timeout, window, start, now);
      && a.requests == (if WindowExpired(window, start, now) then 0 else k.requests)
      && a.tokens == (if WindowExpired(window, start, now) then 0 else k.tokens)
  {
  }

  /** Reclaiming moves stamps to orphans one for one. */
  lemma ReclaimCounts(k: Key, timeout: Duration, now: Time)
    ensures var r := ReclaimStale(k, timeout, now);
      && |r.leases| <= |k.leases|
      && r.orphaned - k.orphaned == r.reclaimed - k.reclaimed == |k.leases| - |r.leases|
  {
  }

  lemma ReleaseCounts(k: Key)
    ensures var r := Release(k);
      && |r.leases| == |k.leases| - (if k.orphaned <= 0 < |k.leases| then 1 else 0)
      && r.orphaned == k.orphaned - (if k.orphaned > 0 then 1 else 0)
  {
  }

  /** An admissible key has room for one more lease under each cap. */
  lemma AdmissibleHeadroom(k: Key, b: Budget, now: Time)
    requires Admissible(k, b, now) && b.window > 0
    ensures b.requests > 0 ==> k.requests + |k.leases| < b.requests
    ensures b.tokens > 0 ==> k.tokens + |k.leases| * b.estimateTokens < b.tokens
  {
  }

  lemma SettleLeases(k: Key, b: Budget, s: Sample)
    ensures var (r, c) := (SettleKey(k, b, s).0, Release(k));
      && r.leases == c.leases && r.orphaned == c.orphaned && r.reclaimed == k.reclaimed
      && r.retiredUntil == k.retiredUntil
    ensures var r := SettleKey(k, b, s).0;
      k.orphaned >= 0 && |k.leases| + k.orphaned > 0 ==> |r.leases| + r.orphaned == |k.leases| + k.orphaned - 1
  {
  }

  lemma SettleCounters(k: Key, b: Budget, s: Sample)
    ensures var r := SettleKey(k, b, s).0;
      && r.requests == k.requests + (if s.outcome.Failed? then 0 else 1)
      && r.tokens == k.tokens + Charge(s, b)
      && (Capped(k) ==> Capped(r))
  {
  }

  lemma RetireFrame(k: Key, now: Time, until: Time, reason: Reason)
    ensures var r := RetireKey(k, now, until, reason).0;
      r == k.(retiredUntil := r.retiredUntil, retireReason := r.retireReason)
  {
  }
}
