/** The connection wrapper itself: buffers filled in place and resumed across calls.

    Every call is proved equal to its counterpart in `RecordLayer`, whose session theorems therefore speak
    about these objects. */
module RecordConn {
  import opened Options
  import opened RecordLayer

  /** The underlying socket as seen from both ends of one direction. `accepts` is how many more writes it takes before
      failing, and `cut` how many bytes of a failing write still go out. */
  class Transport {
    const cut: nat
    var wire: Bytes
    var script: seq<Event>
    var accepts: nat

    constructor (script: seq<Event>, accepts: nat, cut: nat)
      ensures wire == [] && this.script == script && this.accepts == accepts && this.cut == cut
    {
      this.wire, this.script, this.accepts, this.cut := [], script, accepts, cut;
    }

    /** What a failing write puts on the wire. */
    function Torn(frame: Bytes): Bytes {
      frame[..Min(cut, |frame|)]
    }

    ghost function Abstract(): Net
      reads this
    {
      Net(wire, script)
    }

    method Read(want: nat) returns (data: Bytes, err: Err)
      modifies `wire, `script
      ensures (Abstract(), data, err) == Pull(old(Abstract()), want)
    {
      if script == [] {
        return [], TimedOut;
      }
      var event := script[0];
      script := script[1..];
      var k := Min(event.n, Min(want, |wire|));
      data, wire := wire[..k], wire[k..];
      match event
      case Chunk(_) => err := Ok;
      case Timeout(_) => err := TimedOut;
      case Fault(_) => err := Failed;
    }

    method Write(frame: Bytes) returns (ok: bool)
      modifies `wire, `accepts
      ensures ok == (old(accepts) > 0) && wire == old(wire) + if ok then frame else Torn(frame)
      ensures accepts == if ok then old(accepts) - 1 else old(accepts)
    {
      ok := accepts > 0;
      if ok {
        wire, accepts := wire + frame, accepts - 1;
      } else {
        wire := wire + frame[..Min(cut, |frame|)];
      }
    }
  }

  class WrapConn {
    const conn: Transport
    const aead: Aead
    const hdr: array<Byte>
    var hdrN: nat
    var frame: array?<Byte>
    var frameN: nat
    var readBuf: Bytes
    var tamperCount: nat

    ghost predicate Valid()
      reads this, hdr, frame
    {
      && hdr.Length == 4 && hdrN <= 4
      && (frame == null ==> frameN == 0)
      && (frame != null ==>
            && frame != hdr && hdrN == 4 && frameN <= frame.Length
            && frame.Length == Uint32(hdr[..]) && NONCE_SIZE + TAG_SIZE <= frame.Length)
    }

    ghost function Abstract(): (r: Reader)
      requires Valid()
      reads this, hdr, frame
      ensures Consistent(r)
    {
      assert hdr[..hdr.Length] == hdr[..];
      Reader(hdr[..hdrN],
             if frame == null then None else Some(frame.Length),
             if frame == null then [] else frame[..frameN],
             readBuf, tamperCount)
    }

    constructor (conn: Transport, aead: Aead)
      ensures Valid() && fresh(hdr) && frame == null
      ensures this.conn == conn && this.aead == aead && Abstract() == FRESH_READER
    {
      this.conn, this.aead := conn, aead;
      hdr := new Byte[4];
      hdrN, frame, frameN, readBuf, tamperCount := 0, null, 0, [], 0;
    }

    /** Splits a payload into records; an empty payload still makes one. A failing transport stops it after `done` whole
        records and a torn one, and the count returned is the plaintext the whole ones carried. */
    method Write(p: Bytes, nonces: seq<Bytes>) returns (written: nat, ok: bool, done: nat)
      requires Valid() && |Chunks(p)| <= |nonces|
      modifies conn`wire, conn`accepts
      ensures done <= |Chunks(p)| && (ok <==> done == |Chunks(p)|)
      ensures var sent := old(conn.wire) + Stream(aead, Records(Chunks(p)[..done], nonces));
        conn.wire == if ok then sent else sent + conn.Torn(Encoded(aead, Record(nonces[done], Chunks(p)[done])))
      ensures written == |Joined(Chunks(p)[..done])| && (ok ==> written == |p|)
    {
      hide Stream, PutUint32, Chunks, Encoded, Records, Joined;
      written, done := 0, 0;
      ghost var all, wire := Chunks(p), conn.wire;
      NothingSent(aead, all, nonces);
      assert p[0..] == p && all[0..] == all && wire + [] == wire;
      while true
        invariant done < |all| && written <= |p| && Chunks(p[written..]) == all[done..]
        invariant written == |Joined(all[..done])|
        invariant conn.wire == wire + Stream(aead, Records(all[..done], nonces))
        decreases |all| - done
      {
        var chunk := p[written..];
        if |chunk| > MAX_FRAME {
          chunk := chunk[..MAX_FRAME];
        }
        ChunksUnfold(p[written..]);
        assert chunk == all[done];
        var accepted := WriteRecord(Record(nonces[done], chunk));
        if !accepted {
          return written, false, done;
        }
        RecordSent(aead, all, nonces, done);
        assert p[written..][|chunk|..] == p[written + |chunk|..] && all[done..][1..] == all[done + 1..];
        written, done := written + |chunk|, done + 1;
        if written >= |p| {
          assert all[..done] == all;
          return |p|, true, done;
        }
      }
    }

    /** Seals one chunk behind its length prefix and hands it to the transport. */
    method WriteRecord(r: Record) returns (ok: bool)
      requires Valid()
      modifies conn`wire, conn`accepts
      ensures conn.wire == old(conn.wire) + if ok then Encoded(aead, r) else conn.Torn(Encoded(aead, r))
    {
      var sealed := r.nonce + aead.seal(r.nonce, r.chunk);
      ok := conn.Write(PutUint32(|sealed| % 0x1_0000_0000) + sealed);
    }

    method ResetFrames()
      modifies `hdrN, `frame, `frameN
      ensures hdrN == 0 && frame == null && frameN == 0
    {
      hdrN, frame, frameN := 0, null, 0;
    }

    /** Delivers up to k bytes of plaintext, resuming whatever an earlier call left unfinished. */
    method Read(k: nat) returns (data: Bytes, err: Err)
      requires Valid()
      modifies this, hdr, frame, conn
      ensures Valid() && (frame == null || frame == old(frame) || fresh(frame))
      ensures (Abstract(), conn.Abstract(), data, err)
           == RecordLayer.Read(aead, old(Abstract()), old(conn.Abstract()), k)
    {
      hide Uint32, Fill, ReadBody;
      if k == 0 {
        return [], Ok;
      }
      if |readBuf| > 0 {
        var n := Min(k, |readBuf|);
        data, readBuf, err := readBuf[..n], readBuf[n..], Ok;
        return;
      }
      ghost var r0, net0 := Abstract(), conn.Abstract();
      if frame != null {
        FullHeader(net0, r0.hdr);
      }
      hdrN, err := FillBuffer(hdr, hdrN);
      if err.TimedOut? {
        return [], TimedOut;
      }
      if err.Failed? {
        ResetFrames();
        return [], Failed;
      }
      assert hdr[..hdrN] == hdr[..];
      if frame == null {
        var frameLen := Uint32(hdr[..]);
        if frameLen == 0 || frameLen > MAX_RECORD || frameLen < NONCE_SIZE + TAG_SIZE {
          ResetFrames();
          tamperCount := tamperCount + 1;
          return [], Tampered;
        }
        frame := new Byte[frameLen];
        frameN := 0;
      }
      data, err := ReadFrame(k);
    }

    method ReadFrame(k: nat) returns (data: Bytes, err: Err)
      requires Valid() && frame != null && readBuf == []
      modifies this, frame, conn
      ensures Valid() && (frame == null || frame == old(frame))
      ensures (Abstract(), conn.Abstract(), data, err) == ReadBody(aead, old(Abstract()), old(conn.Abstract()), k)
    {
      hide Uint32, Fill;
      frameN, err := FillBuffer(frame, frameN);
      if err.TimedOut? {
        return [], TimedOut;
      }
      var body := frame[..frameN];
      ResetFrames();
      if err.Failed? {
        tamperCount := tamperCount + 1;
        return [], Failed;
      }
      var plaintext := aead.open(body[..NONCE_SIZE], body[NONCE_SIZE..]);
      match plaintext
      case None =>
        tamperCount := tamperCount + 1;
        data, err := [], Tampered;
      case Some(plain) =>
        var n := Min(k, |plain|);
        data, err := plain[..n], Ok;
        readBuf := plain[n..];
    }

    /** Fills a buffer from position `have` on, keeping what arrived if the transport gives up first. */
    method FillBuffer(buf: array<Byte>, have: nat) returns (n: nat, err: Err)
      requires have <= buf.Length
      modifies conn`wire, conn`script, buf
      ensures n <= buf.Length && !err.Tampered?
      ensures (conn.Abstract(), buf[..n], err) == Fill(old(conn.Abstract()), old(buf[..have]), buf.Length)
    {
      hide Fill, Pull;
      n := have;
      ghost var goal := Fill(conn.Abstract(), buf[..have], buf.Length);
      while n < buf.Length
        invariant n <= buf.Length
        invariant Fill(conn.Abstract(), buf[..n], buf.Length) == goal
        decreases |conn.script|, buf.Length - n
      {
        var data;
        label before:
        FillUnfold(conn.Abstract(), buf[..n], buf.Length);
        data, err := conn.Read(buf.Length - n);
        Copy(buf, n, data);
        assert buf[..n + |data|] == old@before(buf[..n]) + data;
        n := n + |data|;
        if !err.Ok? {
          return;
        }
      }
      FillUnfold(conn.Abstract(), buf[..n], buf.Length);
      err := Ok;
    }
  }

  lemma FillUnfold(net: Net, have: Bytes, target: nat)
    requires |have| <= target
    ensures Fill(net, have, target) ==
      if |have| == target then (net, have, Ok)
      else
        var (net', data, err) := Pull(net, target - |have|);
        if !err.Ok? then (net', have + data, err) else Fill(net', have + data, target)
  {
  }

  method Copy(buf: array<Byte>, at: nat, data: Bytes)
    requires at + |data| <= buf.Length
    modifies buf
    ensures buf[..at + |data|] == old(buf[..at]) + data
  {
    for i := 0 to |data|
      invariant buf[..at + i] == old(buf[..at]) + data[..i]
    {
      buf[at + i] := data[i];
      assert buf[..at + i + 1] == buf[..at + i] + [data[i]];
    }
  }

  lemma NothingSent(a: Aead, cs: seq<Bytes>, nonces: seq<Bytes>)
    requires |cs| <= |nonces|
    ensures Stream(a, Records(cs[..0], nonces)) == [] && Joined(cs[..0]) == []
  {
  }

  /** The first chunk of a payload and what remains of it. */
  lemma ChunksUnfold(p: Bytes)
    ensures Chunks(p)[0] == if |p| > MAX_FRAME then p[..MAX_FRAME] else p
    ensures if |p| > MAX_FRAME then Chunks(p)[1..] == Chunks(p[MAX_FRAME..]) else |Chunks(p)| == 1
  {
  }

  lemma {:induction false} JoinedSnoc(cs: seq<Bytes>, i: nat)
    requires i < |cs|
    ensures Joined(cs[..i + 1]) == Joined(cs[..i]) + cs[i]
  {
    if i > 0 {
      JoinedSnoc(cs[1..], i - 1);
      assert cs[..i + 1][1..] == cs[1..][..i] && cs[..i][1..] == cs[1..][..i - 1];
    } else {
      assert cs[..1][1..] == [];
    }
  }

  lemma RecordSent(a: Aead, cs: seq<Bytes>, nonces: seq<Bytes>, i: nat)
    requires i < |cs| <= |nonces|
    ensures Joined(cs[..i + 1]) == Joined(cs[..i]) + cs[i]
    ensures Stream(a, Records(cs[..i + 1], nonces))
            == Stream(a, Records(cs[..i], nonces)) + Encoded(a, Record(nonces[i], cs[i]))
  {
    hide Encoded;
    JoinedSnoc(cs, i);
    var one := [Record(nonces[i], cs[i])];
    assert Records(cs[..i + 1], nonces) == Records(cs[..i], nonces) + one;
    StreamAppend(a, Records(cs[..i], nonces), one);
    assert Stream(a, one) == Encoded(a, one[0]) + Stream(a, one[1..]);
  }
}