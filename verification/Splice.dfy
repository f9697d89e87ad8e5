/** The splice forwarder: coalesces "boring" backend frames into one buffer and stops, with
    the header put back, at the first frame the proxy has to look at. */
module Splice {
  import opened ByteStream

  const HEADER_SIZE: nat := 5

  datatype TagClass = ClassBoring | ClassInteresting | ClassError | ClassTerminator | ClassCopyIn | ClassUnknown

  /** The 256-entry table: entries that initialisation does not set keep the zero value, which
      is ClassBoring, so no tag is ever ClassUnknown. */
  function Classify(tag: byte): TagClass {
    if tag == 'S' as int || tag == 'K' as int || tag == 'A' as int || tag == 'N' as int ||
       tag == 'W' as int || tag == 'v' as int || tag == 'H' as int then ClassInteresting
    else if tag == 'E' as int then ClassError
    else if tag == 'Z' as int then ClassTerminator
    else if tag == 'G' as int then ClassCopyIn
    else ClassBoring
  }

  /** The big-endian length field counts itself. */
  function BodyLen(s: seq<byte>): int
    requires |s| >= HEADER_SIZE
  {
    (s[1] as int) * 0x100_0000 + (s[2] as int) * 0x1_0000 + (s[3] as int) * 0x100 + (s[4] as int) - 4
  }

  function FrameLen(s: seq<byte>): int
    requires |s| >= HEADER_SIZE
  {
    HEADER_SIZE + BodyLen(s)
  }

  /** `s` starts with a complete frame. */
  predicate WholeFrame(s: seq<byte>) { |s| >= HEADER_SIZE && BodyLen(s) >= 0 && |s| >= FrameLen(s) }

  predicate BoringFrame(s: seq<byte>) { WholeFrame(s) && Classify(s[0]).ClassBoring? }

  /** Where a message-by-message copy that forwards boring frames would stop. */
  function Cut(s: seq<byte>): (k: nat)
    ensures k <= |s|
    ensures !BoringFrame(s[k..])
    decreases |s|
  {
    if BoringFrame(s) then
      var k := Cut(s[FrameLen(s)..]);
      assert s[FrameLen(s)..][k..] == s[FrameLen(s) + k..];
      FrameLen(s) + k
    else
      assert s[0..] == s; 0
  }

  datatype SpliceResult = Stop | AtEof | ReadFailed | WriteFailed | BadLength

  /** Bytes forwarded, bytes pending in the buffer and bytes unread are consecutive pieces of
      the original stream. */
  ghost predicate Pieces(all: seq<byte>, sent: nat, pending: seq<byte>, rest: seq<byte>) {
    sent + |pending| <= |all| && pending == all[sent..sent + |pending|] && rest == all[sent + |pending|..]
  }

  lemma PiecesGrow(all: seq<byte>, sent: nat, pending: seq<byte>, rest: seq<byte>, n: nat)
    requires Pieces(all, sent, pending, rest) && n <= |rest|
    ensures Pieces(all, sent, pending + rest[..n], rest[n..])
  {
    assert all[sent..sent + |pending| + n] == pending + rest[..n];
    assert rest[n..] == all[sent + |pending| + n..];
  }

  lemma PiecesFlush(all: seq<byte>, sent: nat, pending: seq<byte>, rest: seq<byte>)
    requires Pieces(all, sent, pending, rest)
    ensures Pieces(all, sent + |pending|, [], rest)
    ensures all[..sent] + pending == all[..sent + |pending|]
  {
  }

  /** Reads the rest of a frame whose header sits in the tail region of `buf` behind the
      `woff` coalesced bytes, header first. */
  method AppendFrame(src: ChunkReader, buf: array<byte>, woff: nat, bodyLen: nat, ghost hdr: seq<byte>)
    returns (err: IoError)
    requires src.Valid() && buf != src.buf && |hdr| == HEADER_SIZE
    requires woff + HEADER_SIZE + bodyLen <= buf.Length - HEADER_SIZE
    requires buf[buf.Length - HEADER_SIZE..] == hdr
    modifies buf, src, src.buf, src.r
    ensures src.Valid() && (src.buf == old(src.buf) || fresh(src.buf)) && buf != src.buf
    ensures err.NoError? ==> bodyLen <= |old(src.Stream())| && src.Stream() == old(src.Stream())[bodyLen..]
    ensures err.NoError?
            ==> buf[..woff + HEADER_SIZE + bodyLen] == old(buf[..woff]) + hdr + old(src.Stream())[..bodyLen]
    ensures !err.NoError? ==> src.r.broken || bodyLen > |old(src.Stream())|
  {
    var h := buf[buf.Length - HEADER_SIZE..];
    CopyIn(buf, woff, h);
    ghost var front := buf[..woff + HEADER_SIZE];
    assert front == old(buf[..woff]) + hdr;
    err := NoError;
    if bodyLen > 0 {
      var n;
      n, err := src.Read(buf, woff + HEADER_SIZE, woff + HEADER_SIZE + bodyLen);
      if err.NoError? {
        assert buf[..woff + HEADER_SIZE + bodyLen] == front + old(src.Stream())[..bodyLen];
      }
    } else {
      assert old(src.Stream())[bodyLen..] == old(src.Stream());
    }
  }

  /** The bytes written so far extend `out` by a prefix of the stream. */
  ghost predicate Prefix(out: seq<byte>, now: seq<byte>, all: seq<byte>) { out <= now <= out + all }

  lemma PrefixAt(out: seq<byte>, all: seq<byte>, k: nat)
    requires k <= |all|
    ensures Prefix(out, out + all[..k], all)
  {
  }

  /** What a finished drain has done to the sink and the reader: on Stop exactly the first `k`
      bytes were forwarded and the rest starts with a header that is not boring; at the end of
      the stream and on a negative length nothing past `k` was touched; always, the bytes
      written are a prefix of the stream. */
  ghost predicate Outcome(res: SpliceResult, out: seq<byte>, now: seq<byte>, all: seq<byte>, k: nat, rest: seq<byte>)
    requires k <= |all|
  {
    && Prefix(out, now, all)
    && (res.Stop? ==> now == out + all[..k] && rest == all[k..])
    && (res.Stop? ==> |rest| >= HEADER_SIZE && BodyLen(rest) >= 0 && !Classify(rest[0]).ClassBoring?)
    && (res.AtEof? ==> now <= out + all[..k] && rest == all[k..] && |rest| < HEADER_SIZE)
    && (res.BadLength? ==> now <= out + all[..k] && rest == all[k..] && |rest| >= HEADER_SIZE && BodyLen(rest) < 0)
  }

  predicate Failed(res: SpliceResult) { res.ReadFailed? || res.WriteFailed? }

  /** The stream ends inside a header or inside a frame. */
  predicate Truncated(s: seq<byte>) { |s| < HEADER_SIZE || (BodyLen(s) >= 0 && |s| < FrameLen(s)) }

  /** A partial write or copy after `sent` bytes still leaves a prefix. */
  lemma PrefixMore(out: seq<byte>, all: seq<byte>, sent: nat, more: seq<byte>, now: seq<byte>)
    requires sent <= |all| && more <= all[sent..]
    requires out + all[..sent] <= now <= out + all[..sent] + more
    ensures Prefix(out, now, all)
  {
    assert all[..sent] + all[sent..] == all;
    assert out + all[..sent] + more <= out + all;
  }

  /** Writes out the coalesced bytes. */
  method Flush(dst: Sink, buf: array<byte>, woff: nat, ghost out: seq<byte>, ghost all: seq<byte>, ghost sent: nat)
    returns (ok: bool)
    requires woff <= buf.Length && sent + woff <= |all| && buf[..woff] == all[sent..sent + woff]
    requires dst.out == out + all[..sent]
    modifies dst
    ensures ok ==> dst.out == out + all[..sent + woff]
    ensures !ok ==> dst.broken
    ensures Prefix(out, dst.out, all) && out + all[..sent] <= dst.out <= out + all[..sent + woff]
  {
    PrefixAt(out, all, sent);
    ok := true;
    if woff > 0 {
      ok := dst.Write(buf[..woff]);
      assert all[..sent] + buf[..woff] == all[..sent + woff];
      assert out + all[..sent] + buf[..woff] == out + all[..sent + woff];
      PrefixMore(out, all, sent, buf[..woff], dst.out);
    }
  }

  /** The two-write path for a frame that cannot fit the buffer. */
  method ForwardGiant(dst: Sink, src: ChunkReader, hdr: seq<byte>, bodyLen: nat, ghost out: seq<byte>,
                      ghost all: seq<byte>, ghost sent: nat)
    returns (ok: bool)
    requires src.Valid() && |hdr| == HEADER_SIZE && sent + HEADER_SIZE <= |all|
    requires hdr == all[sent..sent + HEADER_SIZE] && src.Stream() == all[sent + HEADER_SIZE..]
    requires dst.out == out + all[..sent]
    modifies dst, src, src.buf, src.r
    ensures src.Valid() && (src.buf == old(src.buf) || fresh(src.buf))
    ensures ok ==> sent + HEADER_SIZE + bodyLen <= |all|
    ensures ok ==> dst.out == out + all[..sent + HEADER_SIZE + bodyLen]
    ensures ok ==> src.Stream() == all[sent + HEADER_SIZE + bodyLen..]
    ensures !ok ==> src.r.broken || dst.broken || sent + HEADER_SIZE + bodyLen > |all|
    ensures Prefix(out, dst.out, all)
  {
    ok := dst.Write(hdr);
    PrefixMore(out, all, sent, hdr, dst.out);
    if ok {
      assert all[..sent] + hdr == all[..sent + HEADER_SIZE];
      assert dst.out == out + all[..sent + HEADER_SIZE];
      ghost var body := src.Stream();
      ok := CopyN(dst, src, bodyLen);
      PrefixMore(out, all, sent + HEADER_SIZE, body, dst.out);
      if ok {
        assert all[..sent + HEADER_SIZE] + body[..bodyLen] == all[..sent + HEADER_SIZE + bodyLen];
        assert body[bodyLen..] == all[sent + HEADER_SIZE + bodyLen..];
      }
    }
  }

  /** Appends a frame that fits, header from the tail region, to the coalesced bytes. */
  method Coalesce(src: ChunkReader, buf: array<byte>, woff: nat, bodyLen: nat, ghost all: seq<byte>, ghost sent: nat,
                  ghost rest: seq<byte>)
    returns (ok: bool)
    requires src.Valid() && buf != src.buf && woff + HEADER_SIZE + bodyLen <= buf.Length - HEADER_SIZE
    requires |rest| >= HEADER_SIZE && buf[buf.Length - HEADER_SIZE..] == rest[..HEADER_SIZE]
             && src.Stream() == rest[HEADER_SIZE..]
    requires Pieces(all, sent, buf[..woff], rest)
    modifies buf, src, src.buf, src.r
    ensures src.Valid() && (src.buf == old(src.buf) || fresh(src.buf)) && buf != src.buf
    ensures ok ==> HEADER_SIZE + bodyLen <= |rest|
    ensures ok ==> Pieces(all, sent, buf[..woff + HEADER_SIZE + bodyLen], src.Stream())
    ensures !ok ==> src.r.broken || HEADER_SIZE + bodyLen > |rest|
  {
    ghost var pending, hdr := buf[..woff], rest[..HEADER_SIZE];
    var err := AppendFrame(src, buf, woff, bodyLen, hdr);
    ok := err.NoError?;
    if ok {
      ghost var n := HEADER_SIZE + bodyLen;
      PiecesGrow(all, sent, pending, rest, n);
      assert hdr + rest[HEADER_SIZE..][..bodyLen] == rest[..n];
      assert rest[HEADER_SIZE..][bodyLen..] == rest[n..];
      assert pending + hdr + rest[HEADER_SIZE..][..bodyLen] == pending + rest[..n];
    }
  }

  /** The same with nothing coalesced yet. */
  method ForwardAlone(dst: Sink, src: ChunkReader, buf: array<byte>, bodyLen: nat,
                      ghost out: seq<byte>, ghost all: seq<byte>, ghost sent: nat, ghost rest: seq<byte>)
    returns (woff': nat, ghost sent': nat, res: SpliceResult, ok: bool)
    requires src.Valid() && buf != src.buf && HEADER_SIZE <= buf.Length
    requires |rest| >= HEADER_SIZE && buf[buf.Length - HEADER_SIZE..] == rest[..HEADER_SIZE]
             && src.Stream() == rest[HEADER_SIZE..]
    requires Pieces(all, sent, [], rest) && dst.out == out + all[..sent]
    modifies dst, buf, src, src.buf, src.r
    ensures src.Valid() && (src.buf == old(src.buf) || fresh(src.buf)) && buf != src.buf
    ensures ok ==> woff' + HEADER_SIZE <= buf.Length && HEADER_SIZE + bodyLen <= |rest|
    ensures ok ==> sent' + woff' == sent + HEADER_SIZE + bodyLen
    ensures ok ==> Pieces(all, sent', buf[..woff'], src.Stream()) && dst.out == out + all[..sent']
    ensures !ok ==> res.ReadFailed? || res.WriteFailed?
    ensures !ok ==> (src.r.broken || dst.broken || HEADER_SIZE + bodyLen > |rest|)
    ensures Prefix(out, dst.out, all)
  {
    var msgTotal := HEADER_SIZE + bodyLen;
    PrefixAt(out, all, sent);
    assert buf[..0] == [];
    if msgTotal <= buf.Length - HEADER_SIZE {
      ok := Coalesce(src, buf, 0, bodyLen, all, sent, rest);
      woff', sent', res := msgTotal, sent, ReadFailed;
      return;
    }
    var hdr := buf[buf.Length - HEADER_SIZE..];
    assert hdr == all[sent..sent + HEADER_SIZE] && rest[HEADER_SIZE..] == all[sent + HEADER_SIZE..];
    ok := ForwardGiant(dst, src, hdr, bodyLen, out, all, sent);
    woff', sent', res := 0, sent + msgTotal, WriteFailed;
    assert buf[..0] == [];
  }

  /** Forwards one frame whose header is in the tail region of `buf`: coalesced when it fits,
      after a flush when it fits an empty buffer, in two writes otherwise. */
  method ForwardBoring(dst: Sink, src: ChunkReader, buf: array<byte>, woff: nat, bodyLen: nat,
                       ghost out: seq<byte>, ghost all: seq<byte>, ghost sent: nat, ghost rest: seq<byte>)
    returns (woff': nat, ghost sent': nat, res: SpliceResult, ok: bool)
    requires src.Valid() && buf != src.buf && woff + HEADER_SIZE <= buf.Length
    requires |rest| >= HEADER_SIZE && buf[buf.Length - HEADER_SIZE..] == rest[..HEADER_SIZE]
             && src.Stream() == rest[HEADER_SIZE..]
    requires Pieces(all, sent, buf[..woff], rest) && dst.out == out + all[..sent]
    modifies dst, buf, src, src.buf, src.r
    ensures src.Valid() && (src.buf == old(src.buf) || fresh(src.buf)) && buf != src.buf
    ensures ok ==> woff' + HEADER_SIZE <= buf.Length && HEADER_SIZE + bodyLen <= |rest|
    ensures ok ==> sent' + woff' == sent + woff + HEADER_SIZE + bodyLen
    ensures ok ==> Pieces(all, sent', buf[..woff'], src.Stream()) && dst.out == out + all[..sent']
    ensures !ok ==> res.ReadFailed? || res.WriteFailed?
    ensures !ok ==> (src.r.broken || dst.broken || HEADER_SIZE + bodyLen > |rest|)
    ensures Prefix(out, dst.out, all)
  {
    var msgTotal := HEADER_SIZE + bodyLen;
    woff', sent', res := woff, sent, ReadFailed;
    PrefixAt(out, all, sent);
    if woff + msgTotal <= buf.Length - HEADER_SIZE {
      ok := Coalesce(src, buf, woff, bodyLen, all, sent, rest);
      woff' := woff + msgTotal;
      return;
    }
    ok := Flush(dst, buf, woff, out, all, sent);
    res := WriteFailed;
    if !ok { return; }
    PiecesFlush(all, sent, buf[..woff], rest);
    woff', sent', res, ok := ForwardAlone(dst, src, buf, bodyLen, out, all, sent + woff, rest);
  }

  /** A header that ends the loop goes back to the reader: at once when its length is negative, and
      after a flush of the coalesced bytes otherwise. */
  method StopSplice(dst: Sink, src: ChunkReader, buf: array<byte>, woff: nat, bodyLen: int,
                    ghost out: seq<byte>, ghost all: seq<byte>, ghost sent: nat, ghost rest: seq<byte>)
    returns (res: SpliceResult)
    requires src.Valid() && buf != src.buf && woff <= buf.Length && Pieces(all, sent, buf[..woff], rest)
             && dst.out == out + all[..sent]
    requires |rest| >= HEADER_SIZE && bodyLen == BodyLen(rest) && (bodyLen < 0 || !Classify(rest[0]).ClassBoring?)
    requires src.Stream() == rest[HEADER_SIZE..] && HEADER_SIZE <= src.rp
             && src.buf[src.rp - HEADER_SIZE..src.rp] == rest[..HEADER_SIZE]
    modifies dst, src`rp
    ensures src.Valid() && Outcome(res, out, dst.out, all, sent + woff, src.Stream())
    ensures res.BadLength? || res.Stop? || (res.WriteFailed? && dst.broken)
  {
    PrefixAt(out, all, sent);
    if bodyLen < 0 {
      src.Rewind(HEADER_SIZE);
      assert src.Stream() == rest;
      assert out + all[..sent] <= out + all[..sent + woff];
      return BadLength;
    }
    var ok := Flush(dst, buf, woff, out, all, sent);
    if !ok { return WriteFailed; }
    src.Rewind(HEADER_SIZE);
    assert src.Stream() == rest;
    return Stop;
  }

  /** One turn of the loop: reads a header and forwards, stops or gives up. */
  method SpliceStep(dst: Sink, src: ChunkReader, buf: array<byte>, woff: nat, ghost out: seq<byte>,
                    ghost all: seq<byte>, ghost sent: nat)
    returns (woff': nat, ghost sent': nat, res: SpliceResult, more: bool)
    requires src.Valid() && buf != src.buf && woff + HEADER_SIZE <= buf.Length
    requires Pieces(all, sent, buf[..woff], src.Stream()) && dst.out == out + all[..sent]
    modifies dst, buf, src, src.buf, src.r
    ensures src.Valid() && (src.buf == old(src.buf) || fresh(src.buf)) && buf != src.buf
    ensures Prefix(out, dst.out, all)
    ensures more ==> woff' + HEADER_SIZE <= buf.Length && BoringFrame(old(src.Stream()))
    ensures more ==> sent' + woff' == sent + woff + FrameLen(old(src.Stream()))
    ensures more ==> Pieces(all, sent', buf[..woff'], src.Stream()) && dst.out == out + all[..sent']
    ensures !more ==> Outcome(res, out, dst.out, all, sent + woff, src.Stream())
    ensures !more && Failed(res) ==> src.r.broken || dst.broken || Truncated(old(src.Stream()))
    ensures !more && res.AtEof? ==> dst.broken || dst.out == out + all[..sent + woff]
  {
    ghost var rest := src.Stream();
    woff', sent', res, more := woff, sent, ReadFailed, false;
    PrefixAt(out, all, sent);
    var err := ReadHeader(src, buf, woff);
    if err.Eof? {
      var _ := Flush(dst, buf, woff, out, all, sent);
      res := AtEof;
      return;
    }
    if !err.NoError? {
      return;
    }
    var hdr := buf[buf.Length - HEADER_SIZE..];
    var bodyLen := BodyLen(hdr);
    assert bodyLen == BodyLen(rest);
    if bodyLen >= 0 && Classify(hdr[0]).ClassBoring? {
      woff', sent', res, more := ForwardBoring(dst, src, buf, woff, bodyLen, out, all, sent, rest);
      return;
    }
    res := StopSplice(dst, src, buf, woff, bodyLen, out, all, sent, rest);
  }

  /** `pos` is a frame boundary on the way to the cut. */
  ghost predicate OnTheWay(all: seq<byte>, pos: nat) { pos <= |all| && Cut(all) == pos + Cut(all[pos..]) }

  /** One boring frame lies between `p` and `q`. */
  ghost predicate Hop(all: seq<byte>, p: nat, q: nat) {
    p <= |all| && BoringFrame(all[p..]) && q == p + FrameLen(all[p..])
  }

  ghost predicate HopAt(all: seq<byte>, hops: seq<nat>, i: nat)
    requires i + 1 < |hops|
  {
    Hop(all, hops[i], hops[i + 1])
  }

  ghost predicate Hops(all: seq<byte>, hops: seq<nat>) {
    hops != [] && hops[0] == 0 && forall i :: 0 <= i < |hops| - 1 ==> HopAt(all, hops, i)
  }

  lemma HopsGrow(all: seq<byte>, hops: seq<nat>, pos: nat)
    requires Hops(all, hops) && Hop(all, hops[|hops| - 1], pos)
    ensures Hops(all, hops + [pos])
  {
    forall i | 0 <= i < |hops| ensures HopAt(all, hops + [pos], i) {
      if i < |hops| - 1 { assert HopAt(all, hops, i); }
    }
  }

  lemma {:induction false} HopsLead(all: seq<byte>, hops: seq<nat>)
    requires Hops(all, hops)
    ensures OnTheWay(all, hops[|hops| - 1])
  {
    if |hops| == 1 {
      assert all[0..] == all;
    } else {
      var n := |hops| - 1;
      forall i | 0 <= i < n - 1 ensures HopAt(all, hops[..n], i) { assert HopAt(all, hops, i); }
      HopsLead(all, hops[..n]);
      var rest := all[hops[n - 1]..];
      assert HopAt(all, hops, n - 1);
      assert rest[FrameLen(rest)..] == all[hops[n]..];
    }
  }

  /** A drain that ends at a boundary on the way, at something that is not a boring frame,
      ends at the cut. */
  lemma Arrived(res: SpliceResult, out: seq<byte>, now: seq<byte>, all: seq<byte>, pos: nat, rest: seq<byte>,
                readBroken: bool, writeBroken: bool)
    requires OnTheWay(all, pos) && Closed(res, out, now, all, pos, rest, readBroken, writeBroken)
    ensures Closed(res, out, now, all, Cut(all), rest, readBroken, writeBroken)
  {
    assert res.Stop? || res.AtEof? || res.BadLength? ==> !BoringFrame(all[pos..]);
  }

  /** How a drain that forwarded `pos` bytes ended: as Outcome says, failing only when a socket
      failed or the stream ends inside the next frame, and at the end of the stream with all
      `pos` bytes written unless the write failed. */
  ghost predicate Closed(res: SpliceResult, out: seq<byte>, now: seq<byte>, all: seq<byte>, pos: nat, rest: seq<byte>,
                         readBroken: bool, writeBroken: bool)
    requires pos <= |all|
  {
    && Outcome(res, out, now, all, pos, rest)
    && (Failed(res) ==> readBroken || writeBroken || Truncated(all[pos..]))
    && (res.AtEof? ==> writeBroken || now == out + all[..pos])
  }

  /** A turn of the loop, with the boundaries passed so far. */
  method HopStep(dst: Sink, src: ChunkReader, buf: array<byte>, woff: nat, ghost out: seq<byte>, ghost all: seq<byte>,
                 ghost sent: nat, ghost hops: seq<nat>)
    returns (woff': nat, ghost sent': nat, res: SpliceResult, more: bool, ghost hops': seq<nat>)
    requires src.Valid() && buf != src.buf && woff + HEADER_SIZE <= buf.Length
    requires Pieces(all, sent, buf[..woff], src.Stream()) && dst.out == out + all[..sent]
    requires Hops(all, hops) && hops[|hops| - 1] == sent + woff
    modifies dst, buf, src, src.buf, src.r
    ensures src.Valid() && (src.buf == old(src.buf) || fresh(src.buf)) && buf != src.buf
    ensures Hops(all, hops') && hops'[|hops'| - 1] <= |all|
    ensures more ==> woff' + HEADER_SIZE <= buf.Length && |src.Stream()| < |old(src.Stream())|
    ensures more ==> hops'[|hops'| - 1] == sent' + woff'
    ensures more ==> Pieces(all, sent', buf[..woff'], src.Stream()) && dst.out == out + all[..sent']
    ensures !more ==> Closed(res, out, dst.out, all, hops'[|hops'| - 1], src.Stream(), src.r.broken, dst.broken)
  {
    assert src.Stream() == all[sent + woff..];
    woff', sent', res, more := SpliceStep(dst, src, buf, woff, out, all, sent);
    hops' := hops;
    if more {
      HopsGrow(all, hops, sent' + woff');
      hops' := hops + [sent' + woff'];
    }
  }

  /** The drain loop; `hops` are the boundaries of the frames it forwarded. */
  method DrainLoop(dst: Sink, src: ChunkReader, bufsize: nat) returns (res: SpliceResult, ghost hops: seq<nat>)
    requires src.Valid() && bufsize >= HEADER_SIZE
    modifies dst, src, src.buf, src.r
    ensures src.Valid() && Hops(old(src.Stream()), hops) && hops[|hops| - 1] <= |old(src.Stream())|
    ensures Closed(res, old(dst.out), dst.out, old(src.Stream()), hops[|hops| - 1], src.Stream(), src.r.broken,
                   dst.broken)
  {
    var buf := new byte[bufsize](_ => 0);
    var woff := 0;
    ghost var all, out := src.Stream(), dst.out;
    ghost var sent: nat := 0;
    assert all[0..0] == [] && all[0..] == all;
    hops := [0];
    while true
      invariant src.Valid() && (src.buf == old(src.buf) || fresh(src.buf)) && buf != src.buf
      invariant 0 <= woff <= bufsize - HEADER_SIZE
      invariant Pieces(all, sent, buf[..woff], src.Stream())
      invariant Hops(all, hops) && hops[|hops| - 1] == sent + woff
      invariant dst.out == out + all[..sent]
      decreases |src.Stream()|
    {
      var more;
      woff, sent, res, more, hops := HopStep(dst, src, buf, woff, out, all, sent, hops);
      if !more {
        return;
      }
    }
  }

  /** Whatever the buffer size and however the socket chunks its bytes: on Stop the bytes
      written, followed by the bytes still readable, are the original stream, cut at the
      first frame that is not boring; and the drain fails only when a socket failed or the
      stream ends inside the frame at the cut. */
  method DrainSplice(dst: Sink, src: ChunkReader, size: int) returns (res: SpliceResult)
    requires src.Valid()
    modifies dst, src, src.buf, src.r
    ensures src.Valid()
    ensures Closed(res, old(dst.out), dst.out, old(src.Stream()), Cut(old(src.Stream())), src.Stream(), src.r.broken,
                   dst.broken)
  {
    ghost var all, out := src.Stream(), dst.out;
    ghost var hops;
    res, hops := DrainLoop(dst, src, if size < HEADER_SIZE then HEADER_SIZE else size);
    HopsLead(all, hops);
    Arrived(res, out, dst.out, all, hops[|hops| - 1], src.Stream(), src.r.broken, dst.broken);
  }

  /** io.ReadFull of a header into the tail region, leaving the coalesced bytes alone. */
  method ReadHeader(src: ChunkReader, buf: array<byte>, woff: nat) returns (err: IoError)
    requires src.Valid() && buf != src.buf && woff + HEADER_SIZE <= buf.Length
    modifies buf, src, src.buf, src.r
    ensures src.Valid() && (src.buf == old(src.buf) || fresh(src.buf)) && buf != src.buf
    ensures buf[..woff] == old(buf[..woff])
    ensures err.NoError? ==> |old(src.Stream())| >= HEADER_SIZE && src.Stream() == old(src.Stream())[HEADER_SIZE..]
    ensures err.NoError? ==> buf[buf.Length - HEADER_SIZE..] == old(src.Stream())[..HEADER_SIZE]
    ensures err.NoError?
            ==> HEADER_SIZE <= src.rp && src.buf[src.rp - HEADER_SIZE..src.rp] == old(src.Stream())[..HEADER_SIZE]
    ensures !err.NoError? ==> src.Stream() == old(src.Stream())
    ensures err.Eof? ==> |old(src.Stream())| < HEADER_SIZE
    ensures !err.NoError? ==> src.r.broken || |old(src.Stream())| < HEADER_SIZE
  {
    var n;
    n, err := src.Read(buf, buf.Length - HEADER_SIZE, buf.Length);
  }
}
