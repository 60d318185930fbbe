/** What a reader makes of any byte stream, under any cipher: a reference cut of the wire into frames, and the proof
    that whatever the reads are, exactly the frames that open are delivered and exactly the others are counted. */
module RecordCut {
  import opened Options
  import opened RecordLayer

  // ----- the reference cut -----

  /** The length prefix: four bytes, most significant first. */
  function Length(p: Bytes): int
    requires |p| >= 4
  {
    p[0] as int * 0x100_0000 + p[1] as int * 0x1_0000 + p[2] as int * 0x100 + p[3] as int
  }

  /** A sealed record is a 12-byte nonce, a 16-byte tag and at most 64 KiB between them. */
  predicate Allowed(n: int) {
    28 <= n <= 65_564
  }

  /** How many bytes the first item takes: a refused prefix stands alone, an allowed one brings its frame. */
  function Size(p: Bytes): (n: nat)
    requires |p| >= 4
    ensures n >= 4
  {
    if Allowed(Length(p)) then 4 + Length(p) else 4
  }

  /** The bytes are a sequence of whole items. */
  predicate Whole(p: Bytes) {
    p == [] || (|p| >= 4 && |p| >= Size(p) && Whole(p[Size(p)..]))
  }

  /** What the first item opens to; nothing if its prefix is refused or the cipher does not open it. */
  function Opened(a: Aead, p: Bytes): Option<Bytes>
    requires |p| >= 4 && |p| >= Size(p)
  {
    if Allowed(Length(p)) then a.open(p[4..16], p[16..Size(p)]) else None
  }

  function Contribution(o: Option<Bytes>): Bytes {
    if o.Some? then o.value else []
  }

  /** All that the items open to, in order. */
  function Plaintext(a: Aead, p: Bytes): Bytes
    requires Whole(p)
  {
    if p == [] then []
    else Contribution(Opened(a, p)) + Plaintext(a, p[Size(p)..])
  }

  /** How many items do not open. */
  function Refusals(a: Aead, p: Bytes): nat
    requires Whole(p)
  {
    if p == [] then 0 else (if Opened(a, p).Some? then 0 else 1) + Refusals(a, p[Size(p)..])
  }

  lemma {:induction false} CutAppend(a: Aead, x: Bytes, y: Bytes)
    requires Whole(x) && Whole(y)
    ensures Whole(x + y)
    ensures Plaintext(a, x + y) == Plaintext(a, x) + Plaintext(a, y)
    ensures Refusals(a, x + y) == Refusals(a, x) + Refusals(a, y)
    decreases |x|
  {
    hide Opened, Size, Plaintext, Refusals;
    NothingJudged(a);
    if x == [] {
      assert x + y == y && [] + Plaintext(a, y) == Plaintext(a, y);
    } else {
      WholeMeans(x);
      var n := Size(x);
      CutAppend(a, x[n..], y);
      assert (x + y)[n..] == x[n..] + y;
      FirstItem(a, x, y);
      ItemThenRest(a, x);
      ItemThenRest(a, x + y);
    }
  }

  lemma WholeMeans(p: Bytes)
    requires Whole(p) && p != []
    ensures |p| >= 4 && |p| >= Size(p) && Whole(p[Size(p)..])
  {
  }

  lemma ItemThenRest(a: Aead, p: Bytes)
    requires |p| >= 4 && |p| >= Size(p) && Whole(p[Size(p)..])
    ensures Whole(p)
    ensures Plaintext(a, p) == Contribution(Opened(a, p)) + Plaintext(a, p[Size(p)..])
    ensures Refusals(a, p) == (if Opened(a, p).Some? then 0 else 1) + Refusals(a, p[Size(p)..])
  {
    hide Opened, Size;
  }

  /** The first item does not depend on what follows it. */
  lemma FirstItem(a: Aead, x: Bytes, y: Bytes)
    requires |x| >= 4 && |x| >= Size(x)
    ensures Size(x + y) == Size(x) && Opened(a, x + y) == Opened(a, x)
  {
    assert Length(x + y) == Length(x);
    if Allowed(Length(x)) {
      assert (x + y)[4..16] == x[4..16] && (x + y)[16..Size(x)] == x[16..Size(x)];
    }
  }

  /** One item by itself. */
  lemma OneItem(a: Aead, p: Bytes)
    requires |p| >= 4 && |p| == Size(p)
    ensures Whole(p)
    ensures Plaintext(a, p) == Contribution(Opened(a, p))
    ensures Refusals(a, p) == if Opened(a, p).Some? then 0 else 1
  {
    assert p[Size(p)..] == [];
  }

  // ----- one read -----

  /** A reader whose frame in progress, if any, has an allowed length. */
  predicate Framed(r: Reader) {
    Consistent(r) && (r.want.Some? ==> Allowed(r.want.value))
  }

  /** A reader between records. */
  predicate Clean(r: Reader) {
    r.hdr == [] && r.want.None? && r.body == []
  }

  /** What a read that the transport did not break did with the bytes it judged. */
  ghost predicate Judged(a: Aead, r: Reader, net: Net, res: (Reader, Net, Bytes, Err), piece: Bytes) {
    var (r', net', data, err) := res;
    && Framed(r') && Whole(piece)
    && r.hdr + r.body + net.wire == piece + (r'.hdr + r'.body + net'.wire)
    && data + r'.readBuf == r.readBuf + Plaintext(a, piece)
    && r'.tampered == r.tampered + Refusals(a, piece)
    && Refusals(a, piece) == (if err.Tampered? then 1 else 0)
    && (err.Tampered? ==> data == [] && r'.readBuf == [] && Clean(r'))
    && (err.TimedOut? ==> data == [])
  }

  lemma LengthIsUint32(p: Bytes)
    requires |p| >= 4
    ensures Length(p) == Uint32(p[..4])
  {
  }

  /** A frame that arrived whole is judged by the cipher. */
  lemma FrameJudged(a: Aead, hdr: Bytes, body: Bytes)
    requires |hdr| == 4 && Allowed(Uint32(hdr)) && |body| == Uint32(hdr)
    ensures |hdr + body| == Size(hdr + body)
    ensures Opened(a, hdr + body) == a.open(body[..NONCE_SIZE], body[NONCE_SIZE..])
  {
    var p := hdr + body;
    LengthIsUint32(p);
    assert p[..4] == hdr && p[4..16] == body[..12] && p[16..|p|] == body[12..];
  }

  lemma PrefixJudged(a: Aead, hdr: Bytes)
    requires |hdr| == 4 && !Allowed(Uint32(hdr))
    ensures |hdr| == Size(hdr) && Opened(a, hdr) == None
  {
    LengthIsUint32(hdr);
    assert hdr[..4] == hdr;
  }

  lemma BodyJudged(a: Aead, r: Reader, net: Net, k: nat) returns (piece: Bytes)
    requires Framed(r) && r.want.Some? && r.readBuf == []
    ensures var res := ReadBody(a, r, net, k); res.3.Failed? || Judged(a, r, net, res, piece)
  {
    hide Uint32, Fill, Whole, Plaintext, Refusals, Opened, Size;
    var (net', body, err) := Fill(net, r.body, r.want.value);
    assert r.hdr + r.body + net.wire == r.hdr + (r.body + net.wire) == r.hdr + (body + net'.wire);
    if err.Ok? {
      piece := r.hdr + body;
      FrameJudged(a, r.hdr, body);
      OneItem(a, piece);
      assert r.hdr + (body + net'.wire) == piece + ([] + [] + net'.wire);
      var plain := a.open(body[..NONCE_SIZE], body[NONCE_SIZE..]);
      if plain.Some? {
        var n := Min(k, |plain.value|);
        assert plain.value[..n] + plain.value[n..] == [] + plain.value;
      }
    } else {
      piece := [];
      NothingJudged(a);
      assert r.hdr + (body + net'.wire) == [] + (r.hdr + body + net'.wire);
    }
  }

  lemma NothingJudged(a: Aead)
    ensures Whole([]) && Plaintext(a, []) == [] && Refusals(a, []) == 0
  {
  }

  /** Every read judges at most one item of the reference cut, delivers what it opens to, and refuses it otherwise:
      then there is no data, nothing is buffered and the count goes up by one. */
  lemma ReadJudges(a: Aead, r: Reader, net: Net, k: nat) returns (piece: Bytes)
    requires Framed(r)
    ensures var res := Read(a, r, net, k); res.3.Failed? || Judged(a, r, net, res, piece)
  {
    hide Uint32, Fill, Whole, Plaintext, Refusals, Opened, Size, ReadBody;
    piece := [];
    NothingJudged(a);
    if k > 0 && r.readBuf == [] {
      if r.want.Some? {
        FullHeader(net, r.hdr);
        piece := BodyJudged(a, r, net, k);
      } else {
        piece := PrefixRead(a, r, net, k);
      }
    } else {
      assert r.hdr + r.body + net.wire == [] + (r.hdr + r.body + net.wire);
      var n := Min(k, |r.readBuf|);
      assert r.readBuf[..n] + r.readBuf[n..] == r.readBuf == r.readBuf + [];
    }
  }

  lemma PrefixRead(a: Aead, r: Reader, net: Net, k: nat) returns (piece: Bytes)
    requires Framed(r) && r.want.None? && r.readBuf == [] && k > 0
    ensures var res := Read(a, r, net, k); res.3.Failed? || Judged(a, r, net, res, piece)
  {
    hide Uint32, Fill, Whole, Plaintext, Refusals, Opened, Size, ReadBody;
    var (net', hdr, err) := Fill(net, r.hdr, 4);
    assert r.hdr + [] + net.wire == r.hdr + net.wire == hdr + net'.wire == hdr + [] + net'.wire;
    if !err.Ok? {
      piece := [];
      NothingJudged(a);
      assert hdr + [] + net'.wire == [] + (hdr + [] + net'.wire);
    } else if Allowed(Uint32(hdr)) {
      var r' := r.(hdr := hdr, want := Some(Uint32(hdr)), body := []);
      piece := BodyJudged(a, r', net', k);
    } else {
      piece := hdr;
      PrefixJudged(a, hdr);
      OneItem(a, hdr);
      assert hdr + net'.wire == piece + ([] + [] + net'.wire);
    }
  }

  /** A read the transport breaks delivers nothing, keeps the buffer and starts afresh; the loss is counted exactly if
      the four bytes of a prefix were there. */
  lemma BrokenReadRestarts(a: Aead, r: Reader, net: Net, k: nat)
    requires Framed(r)
    ensures var (r', net', data, err) := Read(a, r, net, k);
      err.Failed? ==>
        && data == [] && r'.readBuf == r.readBuf == [] && Clean(r') && Framed(r')
        && r'.tampered == r.tampered + (if Fill(net, r.hdr, 4).2.Ok? then 1 else 0)
  {
    hide Uint32;
  }

  // ----- any sequence of reads -----

  /** A reader's side of a conversation: what it delivered in all, and each read's error. */
  datatype Log = Log(reader: Reader, net: Net, data: Bytes, errs: seq<Err>)

  /** Reads with buffers of the given sizes, one after another. */
  function Reads(a: Aead, r: Reader, net: Net, ks: seq<nat>): (l: Log)
    requires Consistent(r)
    ensures Consistent(l.reader) && |l.errs| == |ks|
  {
    if ks == [] then Log(r, net, [], [])
    else
      var l := Reads(a, r, net, ks[..|ks| - 1]);
      ReadConsistent(a, l.reader, l.net, ks[|ks| - 1]);
      var (r', net', data, err) := Read(a, l.reader, l.net, ks[|ks| - 1]);
      Log(r', net', l.data + data, l.errs + [err])
  }

  function TamperCount(errs: seq<Err>): nat {
    if errs == [] then 0 else TamperCount(errs[..|errs| - 1]) + if errs[|errs| - 1].Tampered? then 1 else 0
  }

  /** The wire, from where the reader started on it, is the judged items, the bytes of the one in progress and what is
      still to come; everything the judged items open to was delivered or is buffered, and nothing else was. */
  ghost predicate Accounts(a: Aead, r: Reader, net: Net, l: Log, done: Bytes) {
    && Framed(l.reader) && Whole(done)
    && net.wire == done + (l.reader.hdr + l.reader.body + l.net.wire)
    && l.data + l.reader.readBuf == r.readBuf + Plaintext(a, done)
    && l.reader.tampered == r.tampered + Refusals(a, done)
    && TamperCount(l.errs) == Refusals(a, done)
  }

  /** For any cipher, any wire and any reads: until the transport breaks, what was delivered and buffered is exactly
      what the cipher opens of the frames the wire's own prefixes cut it into, and the reads that reported tampering,
      like the counter, are as many as the items that do not open. A broken reader is clean again, so the statement
      holds of the reads after the break from there on. */
  lemma {:induction false} ReadsAreCut(a: Aead, r: Reader, net: Net, ks: seq<nat>) returns (done: Bytes)
    requires Consistent(r) && Clean(r) && Err.Failed !in Reads(a, r, net, ks).errs
    ensures Accounts(a, r, net, Reads(a, r, net, ks), done)
  {
    hide Read, Accounts, Judged;
    if ks == [] {
      done := [];
      NothingRead(a, r, net);
    } else {
      var (past, k) := (ks[..|ks| - 1], ks[|ks| - 1]);
      var (l, l') := (Reads(a, r, net, past), Reads(a, r, net, ks));
      assert forall e :: e in l.errs ==> e in l'.errs;
      var before := ReadsAreCut(a, r, net, past);
      AccountsFramed(a, r, net, l, before);
      var piece := ReadJudges(a, l.reader, l.net, k);
      var res := Read(a, l.reader, l.net, k);
      assert l'.errs[|l'.errs| - 1] == res.3;
      done := before + piece;
      ReadAccounts(a, r, net, l, res, before, piece);
    }
  }

  lemma NothingRead(a: Aead, r: Reader, net: Net)
    requires Consistent(r) && Clean(r)
    ensures Accounts(a, r, net, Log(r, net, [], []), [])
  {
    NothingJudged(a);
    assert net.wire == [] + ([] + [] + net.wire) && [] + r.readBuf == r.readBuf + [];
  }

  lemma AccountsFramed(a: Aead, r: Reader, net: Net, l: Log, done: Bytes)
    requires Accounts(a, r, net, l, done)
    ensures Framed(l.reader)
  {
  }

  lemma ReadAccounts(a: Aead, r: Reader, net: Net, l: Log, res: (Reader, Net, Bytes, Err), before: Bytes, piece: Bytes)
    requires Accounts(a, r, net, l, before) && Judged(a, l.reader, l.net, res, piece)
    ensures Accounts(a, r, net, Log(res.0, res.1, l.data + res.2, l.errs + [res.3]), before + piece)
  {
    hide Whole, Plaintext, Refusals, Framed, Clean;
    CutAppend(a, before, piece);
    var errs := l.errs + [res.3];
    assert errs[..|errs| - 1] == l.errs;
    Reassociate(net.wire, before, piece, res.0.hdr + res.0.body + res.1.wire);
    var (x, y, z) := (Plaintext(a, before), Plaintext(a, piece), res.0.readBuf);
    Reassociate(l.data + (res.2 + z), l.data, res.2, z);
    Reassociate(l.data + (l.reader.readBuf + y), l.data, l.reader.readBuf, y);
    Reassociate(r.readBuf + (x + y), r.readBuf, x, y);
  }

  lemma Reassociate(wire: Bytes, x: Bytes, y: Bytes, z: Bytes)
    requires wire == x + (y + z)
    ensures wire == (x + y) + z
  {
  }

  // ----- what a writer puts on the wire -----

  lemma RecordIsItem(a: Aead, rec: Record)
    requires Honest(a) && WellFormed(rec)
    ensures var p := Encoded(a, rec); |p| >= 4 && |p| == Size(p) && Opened(a, p) == Some(rec.chunk)
  {
    hide PutUint32, Uint32, Sealed;
    FrameBounds(a, rec);
    var (len, sealed) := (PutUint32(|Sealed(a, rec)|), Sealed(a, rec));
    Uint32RoundTrip(|sealed|);
    FrameJudged(a, len, sealed);
  }

  /** The writer's stream is whole items of the reference cut, every one of which opens, to the plaintext it wrote. */
  lemma {:induction false} WrittenIsCut(a: Aead, rs: seq<Record>)
    requires Honest(a) && AllWellFormed(rs)
    ensures Whole(Stream(a, rs)) && Plaintext(a, Stream(a, rs)) == Plain(rs) && Refusals(a, Stream(a, rs)) == 0
  {
    hide Honest, Encoded, Size, Opened, Whole, Plaintext, Refusals;
    if rs == [] {
      NothingJudged(a);
    } else {
      assert WellFormed(rs[0]);
      WrittenIsCut(a, rs[1..]);
      RecordIsItem(a, rs[0]);
      OneItem(a, Encoded(a, rs[0]));
      CutAppend(a, Encoded(a, rs[0]), Stream(a, rs[1..]));
    }
  }
}
