/** Token usage read off a response as it streams past: a rolling tail, scanned backwards for the last total. */
module UsageExtractor {
  import opened Options
  import opened KeyAccounting

  type Byte = b: int | 0 <= b < 256

  const USAGE_TAIL_BYTES: nat := 8 * 1024

  /** The bytes of `"total_tokens"`, quotes included. */
  const MARKER: seq<Byte> := [34, 116, 111, 116, 97, 108, 95, 116, 111, 107, 101, 110, 115, 34]

  const QUOTE: Byte := 34
  const COLON: Byte := 58
  const MAX_INT64: int := 0x7fff_ffff_ffff_ffff

  // ----- the rolling tail -----

  /** The last n bytes of a body, or all of it when it is shorter. */
  function Last(body: seq<Byte>, n: nat): seq<Byte> {
    if |body| <= n then body else body[|body| - n..]
  }

  lemma LastOfLast(body: seq<Byte>, more: seq<Byte>, n: nat)
    ensures Last(Last(body, n) + more, n) == Last(body + more, n)
  {
  }

  // ----- the number after a marker -----

  predicate IsSpace(c: Byte) { c == 32 || c == 9 || c == 10 || c == 13 }

  predicate IsDigit(c: Byte) { 48 <= c <= 57 }

  /** A byte that can follow a complete JSON number: a comma, a closing brace or bracket, or white space. */
  predicate EndsJSONValue(c: Byte) { c == 44 || c == 125 || c == 93 || IsSpace(c) }

  predicate SpaceIn(b: seq<Byte>, lo: nat, hi: nat) {
    lo <= hi <= |b| && forall i :: lo <= i < hi ==> IsSpace(b[i])
  }

  predicate DigitsIn(b: seq<Byte>, lo: nat, hi: nat) {
    lo <= hi <= |b| && forall i :: lo <= i < hi ==> IsDigit(b[i])
  }

  /** The decimal value of b[lo..hi]. */
  function Value(b: seq<Byte>, lo: nat, hi: nat): nat
    requires DigitsIn(b, lo, hi)
  {
    if lo == hi then 0 else 10 * Value(b, lo, hi - 1) + (b[hi - 1] - 48)
  }

  /** The grammar of a readable count in b[lo..hi]: space, colon, space, digits, and a byte that ends the value. */
  predicate Reads(b: seq<Byte>, lo: nat, hi: nat, colon: nat, start: nat, end: nat) {
    && lo <= colon < start < end < hi <= |b|
    && SpaceIn(b, lo, colon) && b[colon] == COLON && SpaceIn(b, colon + 1, start)
    && IsDigit(b[start]) && DigitsIn(b, start, end) && EndsJSONValue(b[end])
    && Value(b, start, end) <= MAX_INT64
  }

  ghost predicate Readable(b: seq<Byte>, lo: nat, hi: nat, n: int) {
    exists colon: nat, start: nat, end: nat :: Reads(b, lo, hi, colon, start, end) && n == Value(b, start, end)
  }

  ghost predicate Unreadable(b: seq<Byte>, lo: nat, hi: nat) {
    forall colon: nat, start: nat, end: nat :: !Reads(b, lo, hi, colon, start, end)
  }

  /** A text reads in one way at most. */
  lemma ReadsOneWay(b: seq<Byte>, lo: nat, hi: nat, c1: nat, s1: nat, e1: nat, c2: nat, s2: nat, e2: nat)
    requires Reads(b, lo, hi, c1, s1, e1) && Reads(b, lo, hi, c2, s2, e2)
    ensures c1 == c2 && s1 == s2 && e1 == e2
  {
  }

  /** A byte that is neither space, colon, digit nor terminator can be cut off without changing what is read. */
  lemma CutBeforeForeignByte(b: seq<Byte>, lo: nat, cut: nat, hi: nat, colon: nat, start: nat, end: nat)
    requires lo <= cut < hi <= |b| && b[cut] == QUOTE
    ensures Reads(b, lo, hi, colon, start, end) <==> Reads(b, lo, cut, colon, start, end)
  {
  }

  method SkipSpace(b: seq<Byte>, from: nat) returns (i: nat)
    requires from <= |b|
    ensures SpaceIn(b, from, i) && (i < |b| ==> !IsSpace(b[i]))
  {
    i := from;
    while i < |b| && IsSpace(b[i])
      invariant SpaceIn(b, from, i)
    {
      i := i + 1;
    }
  }

  /** Reads the count that follows a marker, and only if it is complete and in range. */
  method ParseUsageValue(b: seq<Byte>) returns (r: Option<int>)
    ensures r.Some? ==> r.value >= 0 && Readable(b, 0, |b|, r.value)
    ensures r.None? ==> Unreadable(b, 0, |b|)
  {
    var colon := SkipSpace(b, 0);
    if colon >= |b| || b[colon] != COLON {
      return None;
    }
    var start := SkipSpace(b, colon + 1);
    var end := start;
    while end < |b| && IsDigit(b[end])
      invariant DigitsIn(b, start, end)
    {
      end := end + 1;
    }
    if start == end || end == |b| || !EndsJSONValue(b[end]) || Value(b, start, end) > MAX_INT64 {
      return None;
    }
    r := Some(Value(b, start, end));
    assert Reads(b, 0, |b|, colon, start, end);
  }

  // ----- the last readable total -----

  predicate OccursAt(s: seq<Byte>, p: int) {
    0 <= p <= |s| - |MARKER| && forall i :: 0 <= i < |MARKER| ==> s[p + i] == MARKER[i]
  }

  /** Position of the last marker in s, or -1. */
  method LastMarker(s: seq<Byte>) returns (at: int)
    ensures at == -1 || OccursAt(s, at)
    ensures forall p :: p > at ==> !OccursAt(s, p)
  {
    at := |s| - |MARKER|;
    while at >= 0
      invariant at >= -1 || at == |s| - |MARKER|
      invariant forall p :: p > at ==> !OccursAt(s, p)
    {
      var i := 0;
      while i < |MARKER| && s[at + i] == MARKER[i]
        invariant 0 <= i <= |MARKER|
        invariant forall j :: 0 <= j < i ==> s[at + j] == MARKER[j]
      {
        i := i + 1;
      }
      if i == |MARKER| {
        return;
      }
      at := at - 1;
    }
    at := -1;
  }

  /** The marker at p is followed by nothing readable. */
  ghost predicate Dead(s: seq<Byte>, p: int)
    requires OccursAt(s, p)
  {
    Unreadable(s, p + |MARKER|, |s|)
  }

  /** The answer a reader of the whole tail would give: the count after the last marker that has one. */
  ghost predicate IsLastTotal(s: seq<Byte>, p: int, n: int) {
    && OccursAt(s, p) && Readable(s, p + |MARKER|, |s|, n)
    && forall q :: q > p && OccursAt(s, q) ==> Dead(s, q)
  }

  /** There is at most one such answer, so what is extracted depends on the body's last bytes alone. */
  lemma LastTotalUnique(s: seq<Byte>, p: int, n: int, q: int, m: int)
    requires IsLastTotal(s, p, n) && IsLastTotal(s, q, m)
    ensures p == q && n == m
  {
    var (lo, hi) := (p + |MARKER|, |s|);
    var c1: nat, s1: nat, e1: nat :| Reads(s, lo, hi, c1, s1, e1) && n == Value(s, s1, e1);
    var c2: nat, s2: nat, e2: nat :| Reads(s, q + |MARKER|, hi, c2, s2, e2) && m == Value(s, s2, e2);
    if p == q {
      ReadsOneWay(s, lo, hi, c1, s1, e1, c2, s2, e2);
    }
  }

  ghost predicate NoTotal(s: seq<Byte>) {
    forall q :: OccursAt(s, q) ==> Dead(s, q)
  }

  /** Markers overlap only by sharing one quote, and then nothing can be read after the earlier one. */
  lemma OverlappingIsDead(s: seq<Byte>, p: int, at: int)
    requires OccursAt(s, p) && OccursAt(s, at) && p < at < p + |MARKER|
    ensures Dead(s, p)
  {
    assert s[at] == MARKER[0] == MARKER[at - p];
    assert s[at + 1] == MARKER[1];
  }

  /** Reading a slice is reading the same bytes in place. */
  lemma SliceReads(s: seq<Byte>, lo: nat, hi: nat)
    requires lo <= hi <= |s|
    ensures Unreadable(s[lo..hi], 0, hi - lo) ==> Unreadable(s, lo, hi)
    ensures forall n :: Readable(s[lo..hi], 0, hi - lo, n) ==> Readable(s, lo, hi, n)
  {
    forall c: nat, st: nat, e: nat | lo <= c < st < e < hi
      ensures Reads(s, lo, hi, c, st, e) <==> Reads(s[lo..hi], 0, hi - lo, c - lo, st - lo, e - lo)
      ensures DigitsIn(s, st, e) ==> Value(s, st, e) == Value(s[lo..hi], st - lo, e - lo)
    {
      SliceReadsAt(s, lo, hi, c, st, e);
    }
    forall n | Readable(s[lo..hi], 0, hi - lo, n)
      ensures Readable(s, lo, hi, n)
    {
      var c: nat, st: nat, e: nat :| Reads(s[lo..hi], 0, hi - lo, c, st, e) && n == Value(s[lo..hi], st, e);
      SliceReadsAt(s, lo, hi, c + lo, st + lo, e + lo);
      assert Reads(s, lo, hi, c + lo, st + lo, e + lo);
    }
  }

  lemma SliceReadsAt(s: seq<Byte>, lo: nat, hi: nat, c: nat, st: nat, e: nat)
    requires lo <= c < st < e < hi <= |s|
    ensures Reads(s, lo, hi, c, st, e) <==> Reads(s[lo..hi], 0, hi - lo, c - lo, st - lo, e - lo)
    ensures DigitsIn(s, st, e) ==>
      DigitsIn(s[lo..hi], st - lo, e - lo) && Value(s, st, e) == Value(s[lo..hi], st - lo, e - lo)
  {
    var b := s[lo..hi];
    assert forall i :: lo <= i < hi ==> s[i] == b[i - lo];
    assert forall i :: 0 <= i < hi - lo ==> b[i] == s[i + lo];
    if DigitsIn(s, st, e) {
      SliceValue(s, lo, hi, st, e);
    }
  }

  lemma {:induction false} SliceValue(s: seq<Byte>, lo: nat, hi: nat, st: nat, e: nat)
    requires lo <= st <= e < hi <= |s| && DigitsIn(s, st, e)
    ensures DigitsIn(s[lo..hi], st - lo, e - lo) && Value(s, st, e) == Value(s[lo..hi], st - lo, e - lo)
    decreases e
  {
    assert forall i :: 0 <= i < hi - lo ==> s[lo..hi][i] == s[i + lo];
    if st < e {
      SliceValue(s, lo, hi, st, e - 1);
    }
  }

  /** Cutting the text at a later marker changes nothing for an earlier one. */
  lemma CutAtMarker(s: seq<Byte>, lo: nat, m: nat)
    requires lo <= m <= |s| && (m < |s| ==> s[m] == QUOTE)
    ensures Unreadable(s, lo, m) ==> Unreadable(s, lo, |s|)
    ensures forall n :: Readable(s, lo, m, n) ==> Readable(s, lo, |s|, n)
  {
    if m < |s| {
      forall c: nat, st: nat, e: nat
        ensures Reads(s, lo, |s|, c, st, e) <==> Reads(s, lo, m, c, st, e)
      {
        CutBeforeForeignByte(s, lo, m, |s|, c, st, e);
      }
    }
  }

  /** Every marker that reaches past m is known to be dead. */
  ghost predicate DeadFrom(s: seq<Byte>, m: int) {
    forall q :: OccursAt(s, q) && q + |MARKER| > m ==> Dead(s, q)
  }

  /** `at` is the last marker of s[..m]. */
  predicate LastWithin(s: seq<Byte>, m: nat, at: int)
    requires m <= |s|
  {
    at + |MARKER| <= m && OccursAt(s, at) && forall q :: q > at && q + |MARKER| <= m ==> !OccursAt(s, q)
  }

  lemma LastWithinPrefix(s: seq<Byte>, m: nat, at: int)
    requires m <= |s| && (forall p :: p > at ==> !OccursAt(s[..m], p)) && (at == -1 || OccursAt(s[..m], at))
    ensures at >= 0 ==> LastWithin(s, m, at) && s[at] == QUOTE
    ensures at < 0 && DeadFrom(s, m) ==> NoTotal(s)
  {
    hide Unreadable;
    if at >= 0 {
      assert s[at + 0] == MARKER[0];
    }
    forall q | q > at && q + |MARKER| <= m
      ensures !OccursAt(s, q)
    {
      assert !OccursAt(s[..m], q);
    }
  }

  lemma LastTotalFound(s: seq<Byte>, m: nat, at: int, n: int)
    requires m <= |s| && LastWithin(s, m, at) && DeadFrom(s, m) && Readable(s, at + |MARKER|, |s|, n)
    ensures IsLastTotal(s, at, n)
  {
    hide Unreadable, Readable, OccursAt;
  }

  lemma DeadFromEarlier(s: seq<Byte>, m: nat, at: int)
    requires m <= |s| && LastWithin(s, m, at) && DeadFrom(s, m) && Dead(s, at)
    ensures DeadFrom(s, at)
  {
    hide Unreadable;
    forall q | OccursAt(s, q) && q + |MARKER| > at
      ensures Dead(s, q)
    {
      if q < at { OverlappingIsDead(s, q, at); }
    }
  }

  /** Scans backwards over shrinking slices. */
  method ScanTail(tail: seq<Byte>) returns (r: Sample)
    ensures r.outcome == Completed && r.tokens >= TOKENS_UNKNOWN
    ensures r.estimated <==> r.tokens == TOKENS_UNKNOWN
    ensures !r.estimated ==> exists p :: IsLastTotal(tail, p, r.tokens)
    ensures r.estimated ==> NoTotal(tail)
  {
    hide Unreadable, Readable, OccursAt, Reads;
    var m := |tail|;
    assert DeadFrom(tail, m) by { NothingPastTheEnd(tail); }
    while true
      invariant 0 <= m <= |tail| && (m < |tail| ==> tail[m] == QUOTE)
      invariant DeadFrom(tail, m)
      decreases m
    {
      var at := LastMarker(tail[..m]);
      LastWithinPrefix(tail, m, at);
      if at < 0 {
        return Sample(Completed, TOKENS_UNKNOWN, true);
      }
      var after := at + |MARKER|;
      assert tail[..m][after..] == tail[after..m];
      var n := ParseUsageValue(tail[..m][after..]);
      SliceReads(tail, after, m);
      CutAtMarker(tail, after, m);
      if n.Some? {
        LastTotalFound(tail, m, at, n.value);
        return Sample(Completed, n.value, false);
      }
      DeadFromEarlier(tail, m, at);
      m := at;
    }
  }

  lemma NothingPastTheEnd(s: seq<Byte>)
    ensures DeadFrom(s, |s|)
  {
  }

  class TailExtractor {
    var tail: seq<Byte>
    ghost var body: seq<Byte>

    ghost predicate Valid()
      reads this
    {
      tail == Last(body, USAGE_TAIL_BYTES)
    }

    constructor ()
      ensures Valid() && body == []
    {
      tail, body := [], [];
    }

    /** However the body is cut into chunks, the tail is its last 8192 bytes. */
    method Observe(b: seq<Byte>)
      requires Valid()
      modifies this
      ensures Valid() && body == old(body) + b
    {
      LastOfLast(body, b, USAGE_TAIL_BYTES);
      body := body + b;
      if |b| == 0 {
        return;
      }
      tail := tail + b;
      if |tail| > USAGE_TAIL_BYTES {
        tail := tail[|tail| - USAGE_TAIL_BYTES..];
      }
    }

    /** The last total in the tail, or an estimate when it holds none. */
    method Result() returns (r: Sample)
      requires Valid()
      ensures r.outcome == Completed && r.tokens >= TOKENS_UNKNOWN
      ensures r.estimated <==> r.tokens == TOKENS_UNKNOWN
      ensures !r.estimated ==> exists p :: IsLastTotal(Last(body, USAGE_TAIL_BYTES), p, r.tokens)
      ensures r.estimated ==> NoTotal(Last(body, USAGE_TAIL_BYTES))
    {
      r := ScanTail(tail);
    }
  }
}
