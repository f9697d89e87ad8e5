/** Byte streams: the backend socket, the client socket, and the buffered reader that the
    splice forwarder shares with the protocol decoder. */
module ByteStream {
  type byte = x: int | 0 <= x < 256

  datatype IoError = NoError | Eof | UnexpectedEof | OtherError

  /** The socket a reader reads from: the bytes that have yet to arrive. */
  class Source {
    var data: seq<byte>
    /** A read has failed for a reason other than the end of the stream. */
    ghost var broken: bool

    constructor (data: seq<byte>)
      ensures this.data == data && !broken
    {
      this.data := data;
      broken := false;
    }

    /** io.ReadAtLeast into `dst[off..]`: any amount may arrive, and the read may fail at any
        point, keeping what it already delivered. */
    method ReadAtLeast(dst: array<byte>, off: nat, min: nat) returns (n: nat, err: IoError)
      requires off <= dst.Length && min <= dst.Length - off
      modifies this, dst
      ensures n <= |old(data)| && off + n <= dst.Length
      ensures data == old(data)[n..]
      ensures dst[..] == old(dst[..off]) + old(data)[..n] + old(dst[off + n..])
      ensures err.NoError? <==> n >= min
      ensures err.Eof? ==> n == 0
      ensures err.Eof? || err.UnexpectedEof? ==> data == []
      ensures broken == (old(broken) || err.OtherError?)
    {
      n :| 0 <= n <= |data| && off + n <= dst.Length;
      var i := 0;
      while i < n
        invariant 0 <= i <= n && data == old(data) && broken == old(broken)
        invariant dst[..] == old(dst[..off]) + data[..i] + old(dst[off + i..])
      {
        dst[off + i] := data[i];
        i := i + 1;
      }
      data := data[n..];
      if n >= min {
        err := NoError;
      } else if data != [] {
        err := OtherError;
        broken := true;
      } else if n == 0 {
        err := Eof;
      } else {
        err := UnexpectedEof;
      }
    }
  }

  /** The socket a forwarder writes to.  A failed write may have delivered a part. */
  class Sink {
    var out: seq<byte>
    /** A write has failed. */
    ghost var broken: bool

    constructor ()
      ensures out == [] && !broken
    {
      out := [];
      broken := false;
    }

    method Write(bs: seq<byte>) returns (ok: bool)
      modifies this
      ensures ok ==> out == old(out) + bs
      ensures old(out) <= out <= old(out) + bs
      ensures broken == (old(broken) || !ok)
    {
      var k: nat :| k <= |bs|;
      out := out + bs[..k];
      ok := k == |bs|;
      broken := broken || !ok;
    }
  }

  /** copy(dst[lo:], bs) */
  method CopyIn(dst: array<byte>, lo: nat, bs: seq<byte>)
    requires lo + |bs| <= dst.Length
    modifies dst
    ensures dst[..] == old(dst[..lo]) + bs + old(dst[lo + |bs|..])
  {
    var i := 0;
    while i < |bs|
      invariant 0 <= i <= |bs|
      invariant forall k :: lo <= k < lo + i ==> dst[k] == bs[k - lo]
      invariant forall k :: 0 <= k < lo || lo + i <= k < dst.Length ==> dst[k] == old(dst[k])
    {
      dst[lo + i] := bs[i];
      i := i + 1;
    }
  }

  /** chunkReaderMirror with RawReader's Read and Rewind on top of it. */
  class ChunkReader {
    const r: Source
    var buf: array<byte>
    var rp: nat
    var wp: nat
    const minBufSize: nat

    ghost predicate Valid()
      reads this
    {
      rp <= wp <= buf.Length
    }

    /** The abstract unread stream: what is buffered, then what has yet to arrive. */
    ghost function Stream(): seq<byte>
      requires Valid()
      reads this, buf, r
    {
      buf[rp..wp] + r.data
    }

    /** Takes over a reader that may already hold bytes; they stay in front of the stream, in the
        reader's own buffer. */
    constructor (r: Source, held: array<byte>, rp: nat, wp: nat, minBufSize: nat)
      requires rp <= wp <= held.Length
      ensures Valid() && this.r == r && this.minBufSize == minBufSize && buf == held && this.rp == rp && this.wp == wp
      ensures Stream() == held[rp..wp] + r.data
    {
      this.r, this.minBufSize := r, minBufSize;
      this.buf, this.rp, this.wp := held, rp, wp;
    }

    /** Moves the filled area to the front of `dst`. */
    method Compact(dst: array<byte>)
      requires Valid() && wp - rp <= dst.Length
      modifies this, dst, buf
      ensures Valid() && buf == dst && rp == 0 && wp == old(wp) - old(rp)
      ensures buf[..wp] == old(buf[rp..wp])
    {
      var n := wp - rp;
      var i := 0;
      while i < n
        invariant 0 <= i <= n && buf == old(buf) && rp == old(rp) && wp == old(wp) && n == wp - rp
        invariant dst[..i] == old(buf[rp..rp + i])
        invariant buf[rp + i..wp] == old(buf[rp + i..wp])
      {
        assert buf[rp + i] == buf[rp + i..wp][0];
        dst[i] := buf[rp + i];
        i := i + 1;
      }
      buf, rp, wp := dst, 0, n;
    }

    /** Drops an exhausted buffer of the wrong size. */
    method Renew()
      requires Valid()
      modifies this
      ensures Valid() && (buf == old(buf) || fresh(buf))
      ensures Stream() == old(Stream())
      ensures wp - rp == old(wp) - old(rp)
    {
      if rp == wp {
        if buf.Length != minBufSize {
          buf := new byte[minBufSize](_ => 0);
        }
        rp, wp := 0, 0;
      }
    }

    /** Grows or compacts until `n` bytes fit from the read position on. */
    method MakeRoom(n: nat)
      requires Valid() && wp - rp < n
      modifies this, buf
      ensures Valid() && (buf == old(buf) || fresh(buf))
      ensures Stream() == old(Stream())
      ensures wp - rp == old(wp) - old(rp) && rp + n <= buf.Length
    {
      if buf.Length < n {
        var big := new byte[n](_ => 0);
        Compact(big);
        assert Stream() == old(Stream());
      }
      if buf.Length - wp < n - (wp - rp) {
        Compact(buf);
      }
    }

    /** One read from the socket into the free tail of the buffer. */
    method Fill(min: nat) returns (err: IoError)
      requires Valid() && min <= buf.Length - wp
      modifies this`wp, buf, r
      ensures Valid() && wp >= old(wp)
      ensures Stream() == old(Stream())
      ensures err.NoError? ==> wp >= old(wp) + min
      ensures err.Eof? || err.UnexpectedEof? ==> |Stream()| < wp - rp + 1 && wp < old(wp) + min
      ensures err.OtherError? ==> r.broken
    {
      ghost var head, rest := buf[rp..wp], r.data;
      var got;
      got, err := r.ReadAtLeast(buf, wp, min);
      assert buf[rp..wp] == head;
      assert buf[wp..wp + got] == rest[..got];
      wp := wp + got;
      assert buf[rp..wp] == head + rest[..got];
      assert rest == rest[..got] + rest[got..];
    }

    method Take(n: nat) returns (bs: seq<byte>)
      requires Valid() && n <= wp - rp
      modifies this`rp
      ensures Valid() && n <= rp && buf[rp - n..rp] == bs
      ensures bs == old(Stream())[..n] && Stream() == old(Stream())[n..]
    {
      bs := buf[rp..rp + n];
      assert buf[rp..wp] == bs + buf[rp + n..wp];
      rp := rp + n;
    }

    /** Returns the next `n` bytes of the stream, or leaves the stream as it was.  After a
        success the bytes are still in the buffer, just before the read position. */
    method Next(n: nat) returns (bs: seq<byte>, err: IoError)
      requires Valid()
      modifies this, buf, r
      ensures Valid() && (buf == old(buf) || fresh(buf))
      ensures err.NoError? ==> n <= |old(Stream())| && bs == old(Stream())[..n] && Stream() == old(Stream())[n..]
      ensures err.NoError? ==> n <= rp && buf[rp - n..rp] == bs
      ensures !err.NoError? ==> bs == [] && Stream() == old(Stream())
      ensures err.Eof? || err.UnexpectedEof? ==> |old(Stream())| < n
      ensures err.OtherError? ==> r.broken
    {
      Renew();
      err := NoError;
      if wp - rp < n {
        MakeRoom(n);
        err := Fill(n - (wp - rp));
        if !err.NoError? {
          return [], err;
        }
      }
      bs := Take(n);
    }

    /** One turn of the loop below: take what remains and copy it. */
    method ReadRest(dst: array<byte>, lo: nat, hi: nat) returns (n: nat, err: IoError)
      requires Valid() && lo <= hi <= dst.Length && dst != buf
      modifies this, buf, r, dst
      ensures Valid() && (buf == old(buf) || fresh(buf)) && dst != buf
      ensures err.NoError? ==> n == hi - lo <= |old(Stream())| && Stream() == old(Stream())[n..]
      ensures err.NoError? ==> dst[..] == old(dst[..lo]) + old(Stream())[..n] + old(dst[hi..])
      ensures err.NoError? ==> n <= rp && buf[rp - n..rp] == old(Stream())[..n]
      ensures !err.NoError? ==> n == 0 && dst[..] == old(dst[..]) && Stream() == old(Stream())
      ensures err.Eof? || err.UnexpectedEof? ==> |old(Stream())| < hi - lo
      ensures err.OtherError? ==> r.broken
    {
      ghost var before, stream := dst[..], Stream();
      var bs;
      bs, err := Next(hi - lo);
      n := 0;
      if err.NoError? {
        CopyIn(dst, lo, bs);
        n := |bs|;
        assert dst[..] == before[..lo] + stream[..n] + before[hi..];
      }
    }

    /** RawReader.Read into `dst[lo..hi]`: all of it or nothing. */
    method Read(dst: array<byte>, lo: nat, hi: nat) returns (n: nat, err: IoError)
      requires Valid() && lo <= hi <= dst.Length && dst != buf
      modifies this, buf, r, dst
      ensures Valid() && (buf == old(buf) || fresh(buf)) && dst != buf
      ensures err.NoError? ==> n == hi - lo <= |old(Stream())| && Stream() == old(Stream())[n..]
      ensures err.NoError? ==> dst[..] == old(dst[..lo]) + old(Stream())[..n] + old(dst[hi..])
      ensures err.NoError? ==> n <= rp && buf[rp - n..rp] == old(Stream())[..n]
      ensures !err.NoError? ==> n == 0 && dst[..] == old(dst[..]) && Stream() == old(Stream())
      ensures err.Eof? || err.UnexpectedEof? ==> |old(Stream())| < hi - lo
      ensures err.OtherError? ==> r.broken
    {
      n, err := 0, NoError;
      while n < hi - lo
        invariant n == 0 || n == hi - lo
        invariant Valid() && (buf == old(buf) || fresh(buf)) && dst != buf && err.NoError?
        invariant n == 0 ==> dst[..] == old(dst[..]) && Stream() == old(Stream())
        invariant n > 0 ==> n <= |old(Stream())| && Stream() == old(Stream())[n..]
        invariant n > 0 ==> dst[..] == old(dst[..lo]) + old(Stream())[..n] + old(dst[hi..])
        invariant n > 0 ==> n <= rp && buf[rp - n..rp] == old(Stream())[..n]
        decreases hi - lo - n
      {
        n, err := ReadRest(dst, lo, hi);
        if !err.NoError? { return; }
        assert old(dst[..])[..lo] == old(dst[..lo]) && old(dst[..])[hi..] == old(dst[hi..]);
      }
    }

    /** Undoes the last `k` bytes of reading, which the buffer still holds. */
    method Rewind(k: nat)
      requires Valid() && k <= rp
      modifies this`rp
      ensures Valid() && rp == old(rp) - k
      ensures Stream() == old(buf[rp - k..rp]) + old(Stream())
    {
      rp := rp - k;
      assert buf[rp..wp] == old(buf[rp - k..rp]) + old(buf[rp..wp]);
    }
  }

  method CopyChunk(dst: Sink, src: ChunkReader, n: nat) returns (ok: bool)
    requires src.Valid()
    modifies dst, src, src.buf, src.r
    ensures src.Valid() && (src.buf == old(src.buf) || fresh(src.buf))
    ensures ok ==> n <= |old(src.Stream())|
    ensures ok ==> dst.out == old(dst.out) + old(src.Stream())[..n] && src.Stream() == old(src.Stream())[n..]
    ensures old(dst.out) <= dst.out <= old(dst.out) + old(src.Stream())
    ensures !ok ==> src.r.broken || dst.broken || n > |old(src.Stream())|
  {
    var tmp := new byte[n](_ => 0);
    var got, err := src.Read(tmp, 0, n);
    if !err.NoError? {
      return false;
    }
    assert tmp[..] == old(src.Stream())[..n];
    ok := dst.Write(tmp[..]);
  }

  /** io.CopyN: moves `n` bytes in chunks of at most 32 KiB. */
  method CopyN(dst: Sink, src: ChunkReader, n: nat) returns (ok: bool)
    requires src.Valid()
    modifies dst, src, src.buf, src.r
    ensures src.Valid() && (src.buf == old(src.buf) || fresh(src.buf))
    ensures ok ==> n <= |old(src.Stream())|
    ensures ok ==> dst.out == old(dst.out) + old(src.Stream())[..n] && src.Stream() == old(src.Stream())[n..]
    ensures old(dst.out) <= dst.out <= old(dst.out) + old(src.Stream())
    ensures !ok ==> src.r.broken || dst.broken || n > |old(src.Stream())|
  {
    ghost var out, all := dst.out, src.Stream();
    var done := 0;
    while done < n
      invariant 0 <= done <= n && done <= |all|
      invariant src.Valid() && (src.buf == old(src.buf) || fresh(src.buf))
      invariant dst.out == out + all[..done]
      invariant src.Stream() == all[done..]
    {
      var chunk := if n - done < 32768 then n - done else 32768;
      ghost var before := dst.out;
      var sent := CopyChunk(dst, src, chunk);
      assert before + all[done..] == out + all;
      if !sent {
        return false;
      }
      assert all[..done] + all[done..][..chunk] == all[..done + chunk];
      done := done + chunk;
    }
    ok := true;
  }
}
