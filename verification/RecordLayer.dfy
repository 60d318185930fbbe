/** The encrypting record layer: a length-prefixed writer and a reader that survives timeouts at any byte.

    The cipher is a parameter of which only "opening what was sealed gives it back" and the length of a sealed
    text are used. The transport is an adversary: it delivers any number of bytes per read, may time out at any
    point, and may fail. */
module RecordLayer {
  import opened Options

  type Byte = b: int | 0 <= b < 256
  type Bytes = seq<Byte>

  const MAX_FRAME: nat := 64 * 1024
  const NONCE_SIZE: nat := 12
  const TAG_SIZE: nat := 16
  const MAX_RECORD: nat := NONCE_SIZE + MAX_FRAME + TAG_SIZE

  datatype Aead = Aead(seal: (Bytes, Bytes) -> Bytes, open: (Bytes, Bytes) -> Option<Bytes>)

  /** What is assumed of the cipher. */
  ghost predicate Honest(a: Aead) {
    forall n: Bytes, p: Bytes :: |a.seal(n, p)| == |p| + TAG_SIZE && a.open(n, a.seal(n, p)) == Some(p)
  }

  // ----- encoding -----

  function PutUint32(n: nat): (b: Bytes)
    requires n < 0x1_0000_0000
    ensures |b| == 4
  {
    [n / 256 / 256 / 256, n / 256 / 256 % 256, n / 256 % 256, n % 256]
  }

  function Uint32(b: Bytes): nat
    requires |b| == 4
  {
    (((b[0] as int) * 256 + b[1] as int) * 256 + b[2] as int) * 256 + b[3] as int
  }

  lemma Uint32RoundTrip(n: nat)
    requires n < 0x1_0000_0000
    ensures Uint32(PutUint32(n)) == n
  {
  }

  /** One record before sealing: its plaintext chunk and fresh nonce. */
  datatype Record = Record(nonce: Bytes, chunk: Bytes)

  predicate WellFormed(r: Record) {
    |r.nonce| == NONCE_SIZE && |r.chunk| <= MAX_FRAME
  }

  predicate AllWellFormed(rs: seq<Record>) {
    forall i :: 0 <= i < |rs| ==> WellFormed(rs[i])
  }

  function Sealed(a: Aead, r: Record): Bytes {
    r.nonce + a.seal(r.nonce, r.chunk)
  }

  /** Length prefix and sealed record; the length is converted to 32 bits. */
  function Encoded(a: Aead, r: Record): Bytes {
    PutUint32(|Sealed(a, r)| % 0x1_0000_0000) + Sealed(a, r)
  }

  function Stream(a: Aead, rs: seq<Record>): Bytes {
    if rs == [] then [] else Encoded(a, rs[0]) + Stream(a, rs[1..])
  }

  function Plain(rs: seq<Record>): Bytes {
    if rs == [] then [] else rs[0].chunk + Plain(rs[1..])
  }

  lemma {:induction false} StreamAppend(a: Aead, rs: seq<Record>, more: seq<Record>)
    ensures Stream(a, rs + more) == Stream(a, rs) + Stream(a, more)
    ensures Plain(rs + more) == Plain(rs) + Plain(more)
  {
    hide Encoded;
    if rs == [] {
      assert rs + more == more;
    } else {
      assert (rs + more)[1..] == rs[1..] + more;
      StreamAppend(a, rs[1..], more);
    }
  }

  /** An honest record's frame is within the bounds a reader enforces. */
  lemma FrameBounds(a: Aead, r: Record)
    requires Honest(a) && WellFormed(r)
    ensures NONCE_SIZE + TAG_SIZE <= |Sealed(a, r)| <= MAX_RECORD
    ensures Encoded(a, r) == PutUint32(|Sealed(a, r)|) + Sealed(a, r)
    ensures a.open(Sealed(a, r)[..NONCE_SIZE], Sealed(a, r)[NONCE_SIZE..]) == Some(r.chunk)
  {
    hide PutUint32;
    assert Sealed(a, r)[..NONCE_SIZE] == r.nonce;
    assert Sealed(a, r)[NONCE_SIZE..] == a.seal(r.nonce, r.chunk);
  }

  // ----- writing -----

  /** How a payload is cut into chunks: full frames and a rest, and one empty chunk for an empty payload. */
  function Chunks(p: Bytes): (cs: seq<Bytes>)
    ensures cs != []
    decreases |p|
  {
    if |p| <= MAX_FRAME then [p] else [p[..MAX_FRAME]] + Chunks(p[MAX_FRAME..])
  }

  function Joined(cs: seq<Bytes>): Bytes {
    if cs == [] then [] else cs[0] + Joined(cs[1..])
  }

  /** Chunking loses nothing, every chunk but the last is full, and the last is empty only if the payload is. */
  lemma {:induction false} ChunksCover(p: Bytes)
    ensures Joined(Chunks(p)) == p
    ensures forall i :: 0 <= i < |Chunks(p)| ==> |Chunks(p)[i]| <= MAX_FRAME
    ensures forall i :: 0 <= i < |Chunks(p)| - 1 ==> |Chunks(p)[i]| == MAX_FRAME
    ensures p != [] ==> Chunks(p)[|Chunks(p)| - 1] != []
    decreases |p|
  {
    if |p| > MAX_FRAME {
      ChunksCover(p[MAX_FRAME..]);
      assert Chunks(p)[1..] == Chunks(p[MAX_FRAME..]);
    } else {
      assert Chunks(p)[1..] == [];
    }
  }

  /** The records of a Write whose i-th chunk drew the i-th nonce. */
  function Records(cs: seq<Bytes>, nonces: seq<Bytes>): seq<Record>
    requires |cs| <= |nonces|
  {
    seq(|cs|, i requires 0 <= i < |cs| => Record(nonces[i], cs[i]))
  }

  lemma {:induction false} RecordsPlain(cs: seq<Bytes>, nonces: seq<Bytes>)
    requires |cs| <= |nonces|
    ensures Plain(Records(cs, nonces)) == Joined(cs)
  {
    if cs != [] {
      RecordsPlain(cs[1..], nonces[1..]);
      assert Records(cs, nonces)[1..] == Records(cs[1..], nonces[1..]);
    }
  }

  // ----- the transport -----

  datatype Err = Ok | TimedOut | Failed | Tampered

  /** What the next transport read does: deliver up to n bytes, deliver up to n bytes and time out, or deliver up to n
      bytes and fail for good. */
  datatype Event = Chunk(n: nat) | Timeout(n: nat) | Fault(n: nat)

  datatype Net = Net(wire: Bytes, script: seq<Event>)

  function Min(a: nat, b: nat): nat { if a < b then a else b }

  /** One transport read into a buffer of `want` bytes. With nothing more to happen it times out. */
  function Pull(net: Net, want: nat): (r: (Net, Bytes, Err))
    ensures r.1 + r.0.wire == net.wire && |r.1| <= want && !r.2.Tampered?
    ensures |net.script| > 0 ==> |r.0.script| < |net.script|
    ensures net.script == [] ==> r.2.TimedOut?
  {
    if net.script == [] then (net, [], TimedOut)
    else
      var event := net.script[0];
      var k := Min(event.n, Min(want, |net.wire|));
      (Net(net.wire[k..], net.script[1..]), net.wire[..k],
       match event case Chunk(_) => Ok case Timeout(_) => TimedOut case Fault(_) => Failed)
  }

  /** Reads until `target` bytes are there, keeping what arrived when the transport gives up first. */
  function Fill(net: Net, have: Bytes, target: nat): (r: (Net, Bytes, Err))
    requires |have| <= target
    ensures r.1 + r.0.wire == have + net.wire && |have| <= |r.1| <= target && !r.2.Tampered?
    ensures r.2.Ok? ==> |r.1| == target
    decreases |net.script|
  {
    if |have| == target then (net, have, Ok)
    else
      var (net', data, err) := Pull(net, target - |have|);
      assert (have + data) + net'.wire == have + net.wire;
      if !err.Ok? then (net', have + data, err) else Fill(net', have + data, target)
  }

  // ----- reading -----

  /** The reader between calls: the prefix bytes read so far, the frame being assembled, and plaintext that
      did not fit the caller's buffer. */
  datatype Reader = Reader(hdr: Bytes, want: Option<nat>, body: Bytes, readBuf: Bytes, tampered: nat)

  const FRESH_READER := Reader([], None, [], [], 0)

  predicate Consistent(r: Reader) {
    && |r.hdr| <= 4
    && match r.want
       case None => r.body == []
       case Some(n) => |r.hdr| == 4 && n == Uint32(r.hdr) && NONCE_SIZE + TAG_SIZE <= n && |r.body| <= n
  }

  function ResetFraming(r: Reader): Reader {
    r.(hdr := [], want := None, body := [])
  }

  function Read(a: Aead, r: Reader, net: Net, k: nat): (Reader, Net, Bytes, Err)
    requires Consistent(r)
  {
    if k == 0 then (r, net, [], Ok)
    else if r.readBuf != [] then
      var n := Min(k, |r.readBuf|);
      (r.(readBuf := r.readBuf[n..]), net, r.readBuf[..n], Ok)
    else
      var (net', hdr, err) := Fill(net, r.hdr, 4);
      if err.TimedOut? then (r.(hdr := hdr), net', [], TimedOut)
      else if err.Failed? then (ResetFraming(r), net', [], Failed)
      else if r.want.Some? then ReadBody(a, r, net', k)
      else
        var n := Uint32(hdr);
        if n == 0 || n > MAX_RECORD || n < NONCE_SIZE + TAG_SIZE then
          (ResetFraming(r).(tampered := r.tampered + 1), net', [], Tampered)
        else ReadBody(a, r.(hdr := hdr, want := Some(n), body := []), net', k)
  }

  function ReadBody(a: Aead, r: Reader, net: Net, k: nat): (Reader, Net, Bytes, Err)
    requires Consistent(r) && r.want.Some?
  {
    var (net', body, err) := Fill(net, r.body, r.want.value);
    if err.TimedOut? then (r.(body := body), net', [], TimedOut)
    else if err.Failed? then (ResetFraming(r).(tampered := r.tampered + 1), net', [], Failed)
    else
      match a.open(body[..NONCE_SIZE], body[NONCE_SIZE..])
      case None => (ResetFraming(r).(tampered := r.tampered + 1), net', [], Tampered)
      case Some(plain) =>
        var n := Min(k, |plain|);
        (ResetFraming(r).(readBuf := plain[n..]), net', plain[..n], Ok)
  }

  /** The tamper counter moves by one exactly on a rejected record or a stream that ends inside a frame. */
  lemma TamperCountExact(a: Aead, r: Reader, net: Net, k: nat)
    requires Consistent(r)
    ensures var (r', net', _, err) := Read(a, r, net, k);
      var midFrame := r.want.Some? || (k > 0 && r.readBuf == [] && Fill(net, r.hdr, 4).2.Ok?);
      r'.tampered == r.tampered + if err.Tampered? || (err.Failed? && midFrame) then 1 else 0
  {
    hide Uint32;
  }

  /** Even a whole frame is dropped, and counted, when the failure arrives together with its last bytes. */
  lemma CompletedFrameDropped(a: Aead, rec: Record, k: nat)
    requires Honest(a) && WellFormed(rec) && k > 0
    ensures var net := Net(Encoded(a, rec), [Chunk(4), Fault(MAX_RECORD)]);
      Read(a, FRESH_READER, net, k) == (FRESH_READER.(tampered := 1), Net([], []), [], Failed)
  {
    hide PutUint32, Uint32, Sealed;
    FrameBounds(a, rec);
    var sealed := Sealed(a, rec);
    var len := PutUint32(|sealed|);
    Uint32RoundTrip(|sealed|);
    var net := Net(Encoded(a, rec), [Chunk(4), Fault(MAX_RECORD)]);
    assert net.wire[..4] == len && net.wire[4..] == sealed && [] + len == len;
    assert Pull(net, 4) == (Net(sealed, [Fault(MAX_RECORD)]), len, Ok);
    assert Fill(net, [], 4) == Fill(Net(sealed, [Fault(MAX_RECORD)]), len, 4);
    assert sealed[|sealed|..] == [] && sealed[..|sealed|] == sealed && [] + sealed == sealed;
    assert Pull(Net(sealed, [Fault(MAX_RECORD)]), |sealed|) == (Net([], []), sealed, Failed);
  }

  // ----- staying in step with the writer -----

  /** What the reader has taken off the wire and what is still on it are exactly the records ahead, but for the bytes
      `lost` that a failed write never sent. */
  predicate InStep(a: Aead, r: Reader, net: Net, ahead: seq<Record>, lost: Bytes) {
    Consistent(r) && AllWellFormed(ahead) && r.hdr + r.body + (net.wire + lost) == Stream(a, ahead)
  }

  /** A prefix of four bytes is the length of the first record ahead. */
  lemma PrefixIsLength(a: Aead, hdr: Bytes, rest: Bytes, ahead: seq<Record>)
    requires Honest(a) && AllWellFormed(ahead) && |hdr| == 4 && hdr + rest == Stream(a, ahead)
    ensures ahead != [] && Uint32(hdr) == |Sealed(a, ahead[0])|
    ensures rest == Sealed(a, ahead[0]) + Stream(a, ahead[1..])
    ensures NONCE_SIZE + TAG_SIZE <= Uint32(hdr) <= MAX_RECORD
  {
    hide Uint32, PutUint32, Sealed;
    assert |Stream(a, ahead)| == |hdr| + |rest|;
    StreamHead(a, ahead);
    var (len, tail) := (PutUint32(|Sealed(a, ahead[0])|), Sealed(a, ahead[0]) + Stream(a, ahead[1..]));
    Uint32RoundTrip(|Sealed(a, ahead[0])|);
    assert hdr == (hdr + rest)[..4] == (len + tail)[..4] == len;
    assert rest == (hdr + rest)[4..] == (len + tail)[4..] == tail;
  }

  lemma StreamHead(a: Aead, rs: seq<Record>)
    requires Honest(a) && AllWellFormed(rs) && rs != []
    ensures NONCE_SIZE + TAG_SIZE <= |Sealed(a, rs[0])| <= MAX_RECORD
    ensures Stream(a, rs) == PutUint32(|Sealed(a, rs[0])|) + (Sealed(a, rs[0]) + Stream(a, rs[1..]))
  {
    hide PutUint32, Sealed;
    assert WellFormed(rs[0]);
    FrameBounds(a, rs[0]);
  }

  /** A frame of the declared length is the first record's, and opens to its chunk. */
  lemma FrameOpens(a: Aead, body: Bytes, wire: Bytes, ahead: seq<Record>)
    requires Honest(a) && AllWellFormed(ahead) && ahead != []
    requires body + wire == Sealed(a, ahead[0]) + Stream(a, ahead[1..]) && |body| == |Sealed(a, ahead[0])|
    ensures wire == Stream(a, ahead[1..]) && |body| >= NONCE_SIZE
    ensures a.open(body[..NONCE_SIZE], body[NONCE_SIZE..]) == Some(ahead[0].chunk)
  {
    hide Stream, Sealed;
    assert WellFormed(ahead[0]);
    FrameBounds(a, ahead[0]);
    assert body == (body + wire)[..|body|] == Sealed(a, ahead[0]);
    assert wire == (body + wire)[|body|..] == Stream(a, ahead[1..]);
  }

  lemma BodyInStep(a: Aead, r: Reader, net: Net, ahead: seq<Record>, lost: Bytes, k: nat)
    requires Honest(a) && InStep(a, r, net, ahead, lost) && r.want.Some? && r.readBuf == []
    ensures var (r', net', data, err) := ReadBody(a, r, net, k);
      && !err.Tampered?
      && (err.TimedOut? ==>
            InStep(a, r', net', ahead, lost) && data == [] && r'.readBuf == [] && r'.tampered == r.tampered)
      && (err.Failed? ==> data == [] && r'.readBuf == [])
      && (err.Ok? ==>
            && ahead != [] && InStep(a, r', net', ahead[1..], lost) && data + r'.readBuf == ahead[0].chunk
            && r'.tampered == r.tampered)
  {
    hide Uint32, Stream, Sealed, Honest, Fill;
    var (net', body, err) := Fill(net, r.body, r.want.value);
    assert r.hdr + (r.body + (net.wire + lost)) == r.hdr + r.body + (net.wire + lost);
    PrefixIsLength(a, r.hdr, r.body + (net.wire + lost), ahead);
    assert body + (net'.wire + lost) == (body + net'.wire) + lost
           == (r.body + net.wire) + lost == r.body + (net.wire + lost);
    if err.Ok? {
      FrameOpens(a, body, net'.wire + lost, ahead);
      assert [] + [] + (net'.wire + lost) == net'.wire + lost;
      var n := Min(k, |ahead[0].chunk|);
      assert ahead[0].chunk[..n] + ahead[0].chunk[n..] == ahead[0].chunk;
    } else {
      assert r.hdr + (body + (net'.wire + lost)) == r.hdr + body + (net'.wire + lost);
    }
  }

  /** What a read may do to a reader that was in step. */
  predicate Faithful(a: Aead, r: Reader, ahead: seq<Record>, lost: Bytes, k: nat, res: (Reader, Net, Bytes, Err)) {
    var (r', net', data, err) := res;
    match err
    case Tampered => false
    case Failed => data == [] && r'.readBuf == r.readBuf
    case TimedOut =>
      InStep(a, r', net', ahead, lost) && data == [] && r'.readBuf == r.readBuf && r'.tampered == r.tampered
    case Ok =>
      && InStep(a, r', net', AheadAfter(r, ahead, k), lost) && r'.tampered == r.tampered
      && data + r'.readBuf + Plain(AheadAfter(r, ahead, k)) == r.readBuf + Plain(ahead)
  }

  lemma BodyFaithful(a: Aead, r: Reader, from: Reader, net: Net, ahead: seq<Record>, lost: Bytes, k: nat)
    requires Honest(a) && InStep(a, r, net, ahead, lost) && r.want.Some? && r.readBuf == [] && k > 0
    requires from.readBuf == [] && from.tampered == r.tampered
    ensures Faithful(a, from, ahead, lost, k, ReadBody(a, r, net, k))
  {
    hide ReadBody, Stream, Uint32;
    BodyInStep(a, r, net, ahead, lost, k);
    var (r', net', data, err) := ReadBody(a, r, net, k);
    if err.Ok? {
      assert Plain(ahead) == ahead[0].chunk + Plain(ahead[1..]);
      assert from.readBuf + Plain(ahead) == Plain(ahead);
      assert data + r'.readBuf + Plain(ahead[1..]) == ahead[0].chunk + Plain(ahead[1..]);
    }
  }

  /** A read either times out with everything kept, delivers from the next record ahead, or - only if the
      transport fails - gives up. It never takes an honest record for a forgery. */
  lemma ReadInStep(a: Aead, r: Reader, net: Net, ahead: seq<Record>, lost: Bytes, k: nat)
    requires Honest(a) && InStep(a, r, net, ahead, lost)
    ensures Faithful(a, r, ahead, lost, k, Read(a, r, net, k))
  {
    hide Uint32, PutUint32, Stream, ReadBody;
    if k > 0 && r.readBuf == [] {
      if r.want.Some? {
        assert Fill(net, r.hdr, 4) == (net, r.hdr, Ok);
        BodyFaithful(a, r, r, net, ahead, lost, k);
      } else {
        ReadNewRecord(a, r, net, ahead, lost, k);
      }
    } else if k > 0 {
      var n := Min(k, |r.readBuf|);
      assert r.readBuf[..n] + r.readBuf[n..] == r.readBuf;
    }
  }

  lemma ReadNewRecord(a: Aead, r: Reader, net: Net, ahead: seq<Record>, lost: Bytes, k: nat)
    requires Honest(a) && InStep(a, r, net, ahead, lost) && k > 0 && r.readBuf == [] && r.want.None?
    ensures Faithful(a, r, ahead, lost, k, Read(a, r, net, k))
  {
    hide Uint32, PutUint32, Stream, ReadBody, Faithful, Fill;
    var (net', hdr, err) := Fill(net, r.hdr, 4);
    assert r.hdr + [] + (net.wire + lost) == r.hdr + (net.wire + lost) == (r.hdr + net.wire) + lost;
    assert hdr + [] + (net'.wire + lost) == hdr + (net'.wire + lost) == (hdr + net'.wire) + lost;
    match err
    case Ok =>
      PrefixIsLength(a, hdr, net'.wire + lost, ahead);
      var r' := r.(hdr := hdr, want := Some(Uint32(hdr)), body := []);
      BodyFaithful(a, r', r, net', ahead, lost, k);
    case TimedOut => HeaderTimedOut(a, r, net', ahead, lost, hdr, k);
    case Failed => HeaderFailed(a, r, net', ahead, lost, k);
  }

  lemma HeaderTimedOut(a: Aead, r: Reader, net: Net, ahead: seq<Record>, lost: Bytes, hdr: Bytes, k: nat)
    requires InStep(a, r.(hdr := hdr), net, ahead, lost)
    ensures Faithful(a, r, ahead, lost, k, (r.(hdr := hdr), net, [], TimedOut))
  {
  }

  lemma HeaderFailed(a: Aead, r: Reader, net: Net, ahead: seq<Record>, lost: Bytes, k: nat)
    ensures Faithful(a, r, ahead, lost, k, (ResetFraming(r), net, [], Err.Failed))
  {
  }

  /** The records still ahead after a successful read. */
  function AheadAfter(r: Reader, ahead: seq<Record>, k: nat): seq<Record> {
    if k == 0 || r.readBuf != [] || ahead == [] then ahead else ahead[1..]
  }

  // ----- whole sessions -----

  /** A write that succeeds, a write that fails after `done` whole records and `cut` bytes of the next, and a read. */
  datatype Action =
    | Send(payload: Bytes, nonces: seq<Bytes>)
    | Tear(payload: Bytes, nonces: seq<Bytes>, done: nat, cut: nat)
    | Receive(k: nat)

  /** Both ends of one direction: what the writer was told it wrote, the record its failed write left off in and the
      bytes of it that never went out, what was delivered, and whether the transport failed for good. */
  datatype Session = Session(
    reader: Reader,
    net: Net,
    written: Bytes,
    torn: Option<Record>,
    lost: Bytes,
    delivered: Bytes,
    broken: bool)

  /** What can be delivered at all: what was reported as written and, if a failed write got its last record out whole,
      that record too, although it was not reported. */
  function Deliverable(s: Session): Bytes {
    s.written + if s.torn.Some? && s.lost == [] then s.torn.value.chunk else []
  }

  predicate FreshNonces(act: Action) {
    match act
    case Send(p, nonces) => |Chunks(p)| <= |nonces| && AllNonces(nonces)
    case Tear(p, nonces, done, _) => done < |Chunks(p)| <= |nonces| && AllNonces(nonces)
    case Receive(_) => true
  }

  predicate AllNonces(nonces: seq<Bytes>) {
    forall i :: 0 <= i < |nonces| ==> |nonces[i]| == NONCE_SIZE
  }

  /** A read leaves the reader fit for the next one. */
  lemma ReadConsistent(a: Aead, r: Reader, net: Net, k: nat)
    requires Consistent(r)
    ensures Consistent(Read(a, r, net, k).0)
  {
    hide Uint32;
  }

  /** A failed write ends the writing. */
  function Next(a: Aead, s: Session, act: Action): (s': Session)
    requires Consistent(s.reader) && FreshNonces(act)
    ensures Consistent(s'.reader)
  {
    if s.broken then s
    else
      match act
      case Send(p, nonces) =>
        if s.torn.Some? then s
        else s.(net := s.net.(wire := s.net.wire + Stream(a, Records(Chunks(p), nonces))), written := s.written + p)
      case Tear(p, nonces, done, cut) =>
        if s.torn.Some? then s
        else
          var (whole, rec) := (Chunks(p)[..done], Record(nonces[done], Chunks(p)[done]));
          var sent := Min(cut, |Encoded(a, rec)|);
          s.(net := s.net.(wire := s.net.wire + (Stream(a, Records(whole, nonces)) + Encoded(a, rec)[..sent])),
             written := s.written + Joined(whole), torn := Some(rec), lost := Encoded(a, rec)[sent..])
      case Receive(k) =>
        ReadConsistent(a, s.reader, s.net, k);
        var (r, net, data, err) := Read(a, s.reader, s.net, k);
        s.(reader := r, net := net, delivered := s.delivered + data, broken := err.Failed?)
  }

  predicate AllFresh(acts: seq<Action>) {
    forall i :: 0 <= i < |acts| ==> FreshNonces(acts[i])
  }

  function Play(a: Aead, script: seq<Event>, acts: seq<Action>): (s: Session)
    requires AllFresh(acts)
    ensures Consistent(s.reader)
  {
    if acts == [] then Session(FRESH_READER, Net([], script), [], None, [], [], false)
    else Next(a, Play(a, script, acts[..|acts| - 1]), acts[|acts| - 1])
  }

  /** The record that will never arrive whole. */
  function Stub(s: Session): seq<Record> {
    if s.torn.Some? && s.lost != [] then [s.torn.value] else []
  }

  /** The records the session's sender has put on the wire whole and the reader has not finished. */
  ghost predicate Tracks(a: Aead, s: Session, ahead: seq<Record>) {
    && InStep(a, s.reader, s.net, ahead + Stub(s), s.lost)
    && s.delivered + s.reader.readBuf + Plain(ahead) == Deliverable(s)
    && s.reader.tampered == 0
    && (s.torn.None? ==> s.lost == []) && |s.lost| <= |Stream(a, Stub(s))|
  }

  ghost predicate Intact(a: Aead, s: Session) {
    if s.broken then s.delivered + s.reader.readBuf <= Deliverable(s) else exists ahead :: Tracks(a, s, ahead)
  }

  lemma SendTracks(a: Aead, s: Session, act: Action, ahead: seq<Record>)
    requires Tracks(a, s, ahead) && act.Send? && FreshNonces(act) && !s.broken && s.torn.None?
    ensures Tracks(a, Next(a, s, act), ahead + Records(Chunks(act.payload), act.nonces))
  {
    hide Stream, Chunks, Uint32, PutUint32, Read, Plain;
    var cs := Chunks(act.payload);
    var more := Records(cs, act.nonces);
    ChunksCover(act.payload);
    RecordsPlain(cs, act.nonces);
    StreamAppend(a, ahead, more);
    var r := s.reader;
    assert ahead + [] == ahead && ahead + more + [] == ahead + more && s.lost == [];
    assert r.hdr + r.body + (s.net.wire + Stream(a, more) + [])
           == (r.hdr + r.body + (s.net.wire + [])) + Stream(a, more);
    assert s.delivered + r.readBuf + (Plain(ahead) + act.payload)
           == (s.delivered + r.readBuf + Plain(ahead)) + act.payload;
    assert s.written + [] == s.written && (s.written + act.payload) + [] == s.written + act.payload;
  }

  /** What a failed write leaves to track. */
  function TornAhead(a: Aead, act: Action): seq<Record>
    requires act.Tear? && FreshNonces(act)
  {
    var (whole, rec) := (Chunks(act.payload)[..act.done], Record(act.nonces[act.done], Chunks(act.payload)[act.done]));
    Records(whole, act.nonces) + if act.cut >= |Encoded(a, rec)| then [rec] else []
  }

  lemma TearTracks(a: Aead, s: Session, act: Action, ahead: seq<Record>)
    requires Tracks(a, s, ahead) && act.Tear? && FreshNonces(act) && !s.broken && s.torn.None?
    ensures Tracks(a, Next(a, s, act), ahead + TornAhead(a, act))
  {
    hide Stream, Chunks, Consistent, Read, Plain, Encoded, Joined, Records;
    ChunksCover(act.payload);
    var (whole, rec) := (Chunks(act.payload)[..act.done], Record(act.nonces[act.done], Chunks(act.payload)[act.done]));
    var (more, s') := (Records(whole, act.nonces), Next(a, s, act));
    RecordsPlain(whole, act.nonces);
    OneRecord(a, rec);
    StreamAppend(a, more, [rec]);
    StreamAppend(a, ahead, more + [rec]);
    StreamAppend(a, ahead, more);
    assert ahead + [] == ahead && s.net.wire + [] == s.net.wire && s.written + [] == s.written;
    TornWire(a, s.reader.hdr + s.reader.body, s.net.wire, ahead, more, rec, Min(act.cut, |Encoded(a, rec)|));
    assert ahead + TornAhead(a, act) + Stub(s') == ahead + (more + [rec]);
    TornWellFormed(act, ahead, more, rec);
    TornPlain(a, s, s', act, ahead, more, rec);
  }

  lemma TornWellFormed(act: Action, ahead: seq<Record>, more: seq<Record>, rec: Record)
    requires act.Tear? && FreshNonces(act) && AllWellFormed(ahead)
    requires forall i :: 0 <= i < |Chunks(act.payload)| ==> |Chunks(act.payload)[i]| <= MAX_FRAME
    requires more == Records(Chunks(act.payload)[..act.done], act.nonces)
    requires rec == Record(act.nonces[act.done], Chunks(act.payload)[act.done])
    ensures AllWellFormed(ahead + (more + [rec]))
  {
    hide Chunks;
  }

  /** What went out and what did not make up the whole records and the torn one. */
  lemma TornWire(a: Aead, got: Bytes, wire: Bytes, ahead: seq<Record>, more: seq<Record>, rec: Record, sent: nat)
    requires got + wire == Stream(a, ahead) && sent <= |Encoded(a, rec)|
    ensures var frame := Encoded(a, rec);
      got + (wire + (Stream(a, more) + frame[..sent]) + frame[sent..]) == Stream(a, ahead + (more + [rec]))
  {
    hide Stream, Encoded;
    var frame := Encoded(a, rec);
    OneRecord(a, rec);
    StreamAppend(a, more, [rec]);
    StreamAppend(a, ahead, more + [rec]);
    assert frame[..sent] + frame[sent..] == frame;
    assert wire + (Stream(a, more) + frame[..sent]) + frame[sent..] == wire + (Stream(a, more) + frame);
    assert got + (wire + (Stream(a, more) + frame)) == (got + wire) + (Stream(a, more) + frame);
  }

  lemma OneRecord(a: Aead, rec: Record)
    ensures Stream(a, [rec]) == Encoded(a, rec) && Plain([rec]) == rec.chunk
  {
    hide Encoded;
    assert [rec][1..] == [];
    assert Encoded(a, rec) + [] == Encoded(a, rec) && rec.chunk + [] == rec.chunk;
  }

  lemma TornPlain(a: Aead, s: Session, s': Session, act: Action, ahead: seq<Record>, more: seq<Record>, rec: Record)
    requires act.Tear? && FreshNonces(act) && s'.delivered == s.delivered && s'.reader == s.reader
    requires var whole := Chunks(act.payload)[..act.done];
      && more == Records(whole, act.nonces) && rec == Record(act.nonces[act.done], Chunks(act.payload)[act.done])
      && s'.written == s.written + Joined(whole) && Plain(more) == Joined(whole)
    requires s'.torn == Some(rec) && s'.lost == Encoded(a, rec)[Min(act.cut, |Encoded(a, rec)|)..]
    requires s.delivered + s.reader.readBuf + Plain(ahead) == s.written
    requires Plain(ahead + (more + [rec])) == Plain(ahead) + Plain(more + [rec])
    requires Plain(ahead + more) == Plain(ahead) + Plain(more)
    requires Plain(more + [rec]) == Plain(more) + Plain([rec]) && Plain([rec]) == rec.chunk
    ensures s'.delivered + s'.reader.readBuf + Plain(ahead + TornAhead(a, act)) == Deliverable(s')
  {
    hide Chunks, Encoded, Joined, Plain;
    var given := s.delivered + s.reader.readBuf;
    assert given + (Plain(ahead) + Plain(more)) == (given + Plain(ahead)) + Plain(more);
    assert given + (Plain(ahead) + (Plain(more) + rec.chunk)) == ((given + Plain(ahead)) + Plain(more)) + rec.chunk;
    assert more + [] == more;
    assert s'.written + [] == s'.written;
  }

  /** A read that finishes a record finishes one that arrived whole. */
  lemma NeverTheStub(a: Aead, s: Session, ahead: seq<Record>, r: Reader, net: Net)
    requires Stub(s) != [] && InStep(a, r, net, (ahead + Stub(s))[1..], s.lost)
    ensures ahead != [] && (ahead + Stub(s))[1..] == ahead[1..] + Stub(s)
  {
    assert |ahead + Stub(s)| == |ahead| + 1;
  }

  lemma SameEnd(x: Bytes, y: Bytes, end: Bytes)
    requires x + end == y + end
    ensures x == y
  {
    assert |x| == |y|;
    assert x == (x + end)[..|x|] == (y + end)[..|y|] == y;
  }

  /** A successful read in terms of the records that arrive whole. */
  lemma ReadTracks(a: Aead, s: Session, ahead: seq<Record>, k: nat)
    requires Honest(a) && Tracks(a, s, ahead)
    ensures var (r, net, data, err) := Read(a, s.reader, s.net, k);
      && !err.Tampered?
      && (err.Failed? ==> data == [] && r.readBuf == s.reader.readBuf)
      && (err.TimedOut? ==>
            && InStep(a, r, net, ahead + Stub(s), s.lost) && data == [] && r.readBuf == s.reader.readBuf
            && r.tampered == s.reader.tampered)
      && (err.Ok? ==>
            && InStep(a, r, net, AheadAfter(s.reader, ahead, k) + Stub(s), s.lost) && r.tampered == s.reader.tampered
            && data + r.readBuf + Plain(AheadAfter(s.reader, ahead, k)) == s.reader.readBuf + Plain(ahead))
  {
    hide Stream, Read, Uint32, Plain, Consistent;
    var full := ahead + Stub(s);
    assert InStep(a, s.reader, s.net, full, s.lost);
    ReadInStep(a, s.reader, s.net, full, s.lost, k);
    var (r, net, data, err) := Read(a, s.reader, s.net, k);
    if err.Ok? {
      var ahead' := AheadAfter(s.reader, ahead, k);
      if AheadAfter(s.reader, full, k) != full && Stub(s) != [] {
        NeverTheStub(a, s, ahead, r, net);
      } else {
        assert ahead + [] == ahead && ahead' + [] == ahead';
      }
      assert AheadAfter(s.reader, full, k) == ahead' + Stub(s);
      StreamAppend(a, ahead, Stub(s));
      StreamAppend(a, ahead', Stub(s));
      var end := Plain(Stub(s));
      assert data + r.readBuf + (Plain(ahead') + end) == (data + r.readBuf + Plain(ahead')) + end;
      assert s.reader.readBuf + (Plain(ahead) + end) == (s.reader.readBuf + Plain(ahead)) + end;
      SameEnd(data + r.readBuf + Plain(ahead'), s.reader.readBuf + Plain(ahead), end);
    }
  }

  lemma Received(a: Aead, s: Session, k: nat)
    requires Consistent(s.reader) && !s.broken
    ensures var (r, net, data, err) := Read(a, s.reader, s.net, k);
      Next(a, s, Receive(k)) == s.(reader := r, net := net, delivered := s.delivered + data, broken := err.Failed?)
  {
    hide Read, Consistent, Stream;
  }

  /** A read that succeeds keeps the session on track. */
  lemma ReceiveTracks(a: Aead, s: Session, ahead: seq<Record>, k: nat)
    requires Honest(a) && Tracks(a, s, ahead) && !s.broken && Read(a, s.reader, s.net, k).3.Ok?
    ensures var s' := Next(a, s, Receive(k));
      Tracks(a, s', AheadAfter(s.reader, ahead, k)) && !s'.broken && Deliverable(s') == Deliverable(s)
  {
    hide Stream, Read, Consistent, Plain, AheadAfter, AllWellFormed, Next;
    ReadTracks(a, s, ahead, k);
    Received(a, s, k);
    var (r, net, data, err) := Read(a, s.reader, s.net, k);
    var (s', rest) := (Next(a, s, Receive(k)), Plain(AheadAfter(s.reader, ahead, k)));
    assert Stub(s') == Stub(s) && Deliverable(s') == Deliverable(s);
    assert s.delivered + data + r.readBuf + rest == s.delivered + (data + r.readBuf + rest);
    assert s.delivered + s.reader.readBuf + Plain(ahead) == s.delivered + (s.reader.readBuf + Plain(ahead));
  }

  lemma ReceiveIntact(a: Aead, s: Session, act: Action, ahead: seq<Record>)
    requires Honest(a) && Tracks(a, s, ahead) && act.Receive? && !s.broken
    ensures Intact(a, Next(a, s, act))
  {
    hide Stream, Read, Uint32, Consistent;
    ReadTracks(a, s, ahead, act.k);
    var (r, net, data, err) := Read(a, s.reader, s.net, act.k);
    var s' := Next(a, s, act);
    assert Stub(s') == Stub(s) && Deliverable(s') == Deliverable(s);
    match err
    case Failed =>
      assert s.delivered + [] == s.delivered;
      assert s.delivered + s.reader.readBuf <= s.delivered + s.reader.readBuf + Plain(ahead);
    case TimedOut =>
      assert s.delivered + [] == s.delivered;
      assert Tracks(a, s', ahead);
    case Ok =>
      ReceiveTracks(a, s, ahead, act.k);
  }

  lemma OpeningTracks(a: Aead, script: seq<Event>)
    ensures Tracks(a, Play(a, script, []), [])
  {
  }

  lemma {:induction false} SessionIntact(a: Aead, script: seq<Event>, acts: seq<Action>)
    requires Honest(a) && AllFresh(acts)
    ensures Intact(a, Play(a, script, acts))
  {
    hide Read, Stream, Chunks, Encoded;
    if acts == [] {
      OpeningTracks(a, script);
    } else {
      hide Tracks, Deliverable;
      var (past, act) := (acts[..|acts| - 1], acts[|acts| - 1]);
      SessionIntact(a, script, past);
      var s := Play(a, script, past);
      if !s.broken {
        var ahead :| Tracks(a, s, ahead);
        if act.Receive? {
          ReceiveIntact(a, s, act, ahead);
        } else if s.torn.Some? {
          assert Next(a, s, act) == s;
        } else if act.Send? {
          SendTracks(a, s, act, ahead);
        } else {
          TearTracks(a, s, act, ahead);
        }
      }
    }
  }

  /** For every interleaving of writes and reads, a write that fails at any byte included, every splitting of the wire,
      every placement of timeouts and every buffer size: what was delivered, with what waits in the reader's buffer, is
      a prefix of what was reported as written - followed, only if the failed write got its last record out whole, by
      that record. Until the transport fails nothing is counted as tampering. */
  lemma DeliveredIsPrefix(a: Aead, script: seq<Event>, acts: seq<Action>)
    requires Honest(a) && AllFresh(acts)
    ensures var s := Play(a, script, acts);
      && s.delivered + s.reader.readBuf <= Deliverable(s) && (!s.broken ==> s.reader.tampered == 0)
      && (s.torn.None? || s.lost != [] ==> s.delivered + s.reader.readBuf <= s.written)
  {
    hide Stream, Uint32, Play, InStep;
    SessionIntact(a, script, acts);
    var s := Play(a, script, acts);
    assert s.written + [] == s.written;
    if !s.broken {
      var ahead :| Tracks(a, s, ahead);
    }
  }

  /** Once the wire is drained and no record is half read, everything deliverable has been delivered or is buffered. */
  lemma DrainedIsComplete(a: Aead, script: seq<Event>, acts: seq<Action>)
    requires Honest(a) && AllFresh(acts)
    requires var s := Play(a, script, acts);
      !s.broken && s.net.wire == [] && s.reader.hdr == [] && s.reader.body == []
    ensures var s := Play(a, script, acts);
      s.delivered + s.reader.readBuf == Deliverable(s)
  {
    hide Uint32, Play, Sealed, PutUint32, Stream;
    SessionIntact(a, script, acts);
    var s := Play(a, script, acts);
    var ahead :| Tracks(a, s, ahead);
    StreamAppend(a, ahead, Stub(s));
    if ahead != [] {
      assert forall i :: 0 <= i < |ahead| ==> ahead[i] == (ahead + Stub(s))[i];
      StreamHead(a, ahead);
    }
  }

  // ----- progress -----

  /** A transport that delivers at least a byte whenever asked, often enough. */
  predicate Steady(net: Net, times: nat) {
    |net.script| >= times && forall i :: 0 <= i < times ==> net.script[i].Chunk? && net.script[i].n > 0
  }

  lemma {:induction false} FillCompletes(net: Net, have: Bytes, target: nat, spare: nat)
    requires |have| <= target <= |have| + |net.wire| && Steady(net, target - |have| + spare)
    ensures var (net', got, err) := Fill(net, have, target);
      err.Ok? && Steady(net', spare)
    decreases target - |have|
  {
    if |have| < target {
      var (net', data, _) := Pull(net, target - |have|);
      assert |data| > 0;
      FillCompletes(net', have + data, target, spare);
    }
  }

  /** Whenever a record is ahead and the transport is steady, a read finishes it, with events to spare. */
  lemma ReadDelivers(a: Aead, r: Reader, net: Net, ahead: seq<Record>, lost: Bytes, k: nat, spare: nat)
    requires Honest(a) && InStep(a, r, net, ahead, lost) && ahead != [] && k > 0 && r.readBuf == []
    requires |lost| <= |Stream(a, ahead[1..])|
    requires Steady(net, 4 + MAX_RECORD + spare)
    ensures Read(a, r, net, k).3.Ok? && Steady(Read(a, r, net, k).1, spare)
  {
    hide Uint32, PutUint32, Sealed, Stream, Fill;
    StreamHead(a, ahead);
    ReadInStep(a, r, net, ahead, lost, k);
    var (net', hdr, err) := Fill(net, r.hdr, 4);
    assert |r.hdr| + |r.body| + |net.wire| + |lost| == |Stream(a, ahead)|;
    if r.want.Some? {
      FullHeader(net, r.hdr);
      assert r.hdr + (r.body + (net.wire + lost)) == r.hdr + r.body + (net.wire + lost);
      PrefixIsLength(a, r.hdr, r.body + (net.wire + lost), ahead);
      BodyCompletes(r, net, r.want.value, spare);
    } else {
      assert r.hdr + [] + (net.wire + lost) == (r.hdr + net.wire) + lost;
      FillCompletes(net, r.hdr, 4, MAX_RECORD + spare);
      assert hdr + (net'.wire + lost) == (hdr + net'.wire) + lost;
      PrefixIsLength(a, hdr, net'.wire + lost, ahead);
      BodyCompletes(r.(hdr := hdr, want := Some(Uint32(hdr)), body := []), net', Uint32(hdr), spare);
    }
  }

  lemma FullHeader(net: Net, hdr: Bytes)
    requires |hdr| == 4
    ensures Fill(net, hdr, 4) == (net, hdr, Ok)
  {
  }

  lemma BodyCompletes(r: Reader, net: Net, n: nat, spare: nat)
    requires |r.body| <= n <= MAX_RECORD && n <= |r.body| + |net.wire| && Steady(net, MAX_RECORD + spare)
    ensures var (net', _, err) := Fill(net, r.body, n);
      err.Ok? && Steady(net', spare)
  {
    FillCompletes(net, r.body, n, spare);
  }

  // ----- everything arrives -----

  const READ_EVENTS: nat := 4 + MAX_RECORD

  /** Bytes not yet delivered, and one for each record still ahead. */
  function Outstanding(s: Session, ahead: seq<Record>): nat {
    |s.reader.readBuf| + |Plain(ahead)| + |ahead|
  }

  function Receives(a: Aead, s: Session, k: nat, times: nat): (s': Session)
    requires Consistent(s.reader)
    ensures Consistent(s'.reader)
    decreases times
  {
    if times == 0 then s else Receives(a, Next(a, s, Receive(k)), k, times - 1)
  }

  /** One steady read brings the end closer. */
  lemma ReceiveProgress(a: Aead, s: Session, ahead: seq<Record>, k: nat, spare: nat)
    requires Honest(a) && Tracks(a, s, ahead) && !s.broken && k > 0 && Outstanding(s, ahead) > 0
    requires Steady(s.net, READ_EVENTS + spare)
    ensures var (s', ahead') := (Next(a, s, Receive(k)), AheadAfter(s.reader, ahead, k));
      && Tracks(a, s', ahead') && !s'.broken && Deliverable(s') == Deliverable(s) && Steady(s'.net, spare)
      && Outstanding(s', ahead') < Outstanding(s, ahead)
  {
    hide Stream, Uint32, Read, Deliverable, Consistent;
    ReadProgress(a, s, ahead, k, spare);
    ReceiveTracks(a, s, ahead, k);
  }

  lemma ReadProgress(a: Aead, s: Session, ahead: seq<Record>, k: nat, spare: nat)
    requires Honest(a) && Tracks(a, s, ahead) && k > 0 && Outstanding(s, ahead) > 0
    requires Steady(s.net, READ_EVENTS + spare)
    ensures var (r, net, _, err) := Read(a, s.reader, s.net, k);
      var ahead' := AheadAfter(s.reader, ahead, k);
      && err.Ok? && Steady(net, spare)
      && |r.readBuf| + |Plain(ahead')| + |ahead'| < Outstanding(s, ahead)
  {
    hide Stream, Read, Uint32, Consistent, Deliverable;
    var r := s.reader;
    ReadTracks(a, s, ahead, k);
    var (r', net', data, err) := Read(a, r, s.net, k);
    if r.readBuf == [] {
      assert ahead != [];
      assert (ahead + Stub(s))[1..] == ahead[1..] + Stub(s);
      StreamAppend(a, ahead[1..], Stub(s));
      ReadDelivers(a, r, s.net, ahead + Stub(s), s.lost, k, spare);
      assert |data + r'.readBuf + Plain(ahead[1..])| == |r.readBuf + Plain(ahead)|;
    } else {
      BufferedRead(a, r, s.net, k);
      SteadyLess(s.net, READ_EVENTS + spare, spare);
      assert |data + r'.readBuf + Plain(ahead)| == |r.readBuf + Plain(ahead)|;
    }
  }

  lemma BufferedRead(a: Aead, r: Reader, net: Net, k: nat)
    requires Consistent(r) && r.readBuf != [] && k > 0
    ensures var (r', net', data, err) := Read(a, r, net, k);
      err.Ok? && net' == net && |data| > 0
  {
  }

  lemma SteadyLess(net: Net, times: nat, fewer: nat)
    requires Steady(net, times) && fewer <= times
    ensures Steady(net, fewer)
  {
  }

  lemma {:induction false} ReceivesAll(a: Aead, s: Session, ahead: seq<Record>, k: nat) returns (taken: nat)
    requires Honest(a) && Tracks(a, s, ahead) && !s.broken && k > 0
    requires Steady(s.net, Outstanding(s, ahead) * READ_EVENTS)
    ensures taken <= Outstanding(s, ahead)
    ensures var end := Receives(a, s, k, taken);
      !end.broken && end.delivered == Deliverable(end) == Deliverable(s) && end.reader.tampered == 0
    decreases Outstanding(s, ahead)
  {
    hide Next, Stream, Uint32, Steady, Deliverable;
    var left := Outstanding(s, ahead);
    if left == 0 {
      assert ahead == [] && s.reader.readBuf == [];
      assert s.delivered + [] + [] == s.delivered;
      taken := 0;
    } else {
      var (s', ahead') := (Next(a, s, Receive(k)), AheadAfter(s.reader, ahead, k));
      assert left * READ_EVENTS == READ_EVENTS + (left - 1) * READ_EVENTS;
      ReceiveProgress(a, s, ahead, k, (left - 1) * READ_EVENTS);
      FewerEvents(Outstanding(s', ahead'), left - 1);
      SteadyLess(s'.net, (left - 1) * READ_EVENTS, Outstanding(s', ahead') * READ_EVENTS);
      var more := ReceivesAll(a, s', ahead', k);
      taken := more + 1;
    }
  }

  lemma FewerEvents(m: nat, n: nat)
    requires m <= n
    ensures m * READ_EVENTS <= n * READ_EVENTS
  {
  }

  /** From any session whose transport has not failed, whatever happened so far: if from now on it delivers something
      whenever asked, then after enough reads of any size everything deliverable has been delivered. */
  lemma EverythingArrives(a: Aead, script: seq<Event>, acts: seq<Action>, k: nat) returns (enough: nat)
    requires Honest(a) && AllFresh(acts) && k > 0 && !Play(a, script, acts).broken
    ensures forall future: seq<Event> :: Steady(Net([], future), enough * READ_EVENTS) ==>
      var s := Play(a, script, acts);
      Arrives(a, s.(net := s.net.(script := future)), k, enough)
  {
    hide Play, Stream, Uint32, InStep, Steady, Outstanding, Receives, Deliverable;
    SessionIntact(a, script, acts);
    var s := Play(a, script, acts);
    var ahead :| Tracks(a, s, ahead);
    enough := Outstanding(s, ahead);
    forall future: seq<Event> | Steady(Net([], future), enough * READ_EVENTS)
      ensures Arrives(a, s.(net := s.net.(script := future)), k, enough)
    {
      var s' := s.(net := s.net.(script := future));
      NewScript(a, s, ahead, future, enough * READ_EVENTS);
      var taken := ReceivesAll(a, s', ahead, k);
      assert Completes(a, s', k, taken);
    }
  }

  predicate Completes(a: Aead, s: Session, k: nat, times: nat)
    requires Consistent(s.reader)
  {
    var end := Receives(a, s, k, times);
    !end.broken && end.delivered == Deliverable(end) == Deliverable(s) && end.reader.tampered == 0
  }

  /** Some number of reads up to the limit delivers everything. */
  predicate Arrives(a: Aead, s: Session, k: nat, limit: nat)
    requires Consistent(s.reader)
  {
    exists times: nat :: times <= limit && Completes(a, s, k, times)
  }

  lemma NewScript(a: Aead, s: Session, ahead: seq<Record>, future: seq<Event>, times: nat)
    requires Tracks(a, s, ahead) && Steady(Net([], future), times)
    ensures var s' := s.(net := s.net.(script := future));
      Tracks(a, s', ahead) && Outstanding(s', ahead) == Outstanding(s, ahead) && Steady(s'.net, times)
  {
  }
}
