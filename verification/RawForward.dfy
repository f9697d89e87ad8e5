/** The raw fast path against the decode loop: what RawForwardAll delivers, and exactly when
    that is what a frame-by-frame copy would have delivered. */
module RawForward {
  import opened ByteStream
  import opened Splice
  import opened WireFrames

  const TAG_RFQ: byte := 'Z' as int
  const TAG_COPY_IN: byte := 'G' as int

  /** How a drain up to the next stable point can end, as a function of the backend's bytes.
      `tx` is the status byte of ReadyForQuery and 0 when there is none. */
  datatype Drained =
    | Delivered(out: seq<byte>, rest: seq<byte>, tag: byte, tx: byte)
    | Starved                    // the stream ends before the stable point
    | Malformed                  // a length field or a body the decoder refuses
    | Panics                     // a slice or index out of range

  function Prepend(p: seq<byte>, d: Drained): Drained {
    if d.Delivered? then d.(out := p + d.out) else d
  }

  /** The decode loop: one frame at a time, until ReadyForQuery or CopyInResponse. */
  function SlowPath(s: seq<byte>): (d: Drained)
    decreases |s|
  {
    if |s| < HEADER_SIZE then Starved
    else if BodyLen(s) < 0 then Malformed
    else if |s| < FrameLen(s) then Starved
    else
      var n := FrameLen(s);
      if s[0] == TAG_RFQ then
        if BodyLen(s) != 1 then Malformed else Delivered(s[..n], s[n..], TAG_RFQ, s[HEADER_SIZE])
      else if s[0] == TAG_COPY_IN then Delivered(s[..n], s[n..], TAG_COPY_IN, 0)
      else Prepend(s[..n], SlowPath(s[n..]))
  }

  /** The bytes written for a frame of `n` bytes that overflows the buffer. */
  function Oversize(s: seq<byte>, n: nat, pend: seq<byte>): seq<byte>
    requires HEADER_SIZE <= n <= |s| && (pend == [] || |pend| >= HEADER_SIZE)
  {
    pend + (if pend == [] then s[..HEADER_SIZE] else pend[..HEADER_SIZE]) + s[HEADER_SIZE..n]
  }

  /** The raw loop with buffer length `len` and capacity `cap`; `pend` is what the buffer
      holds.  A header may be read past the length, into spare capacity, but its tag is then
      indexed within the length.  In the oversize branch the header written is the first five
      bytes of the buffer, which is the frame's own header only when nothing was pending. */
  function FastPath(s: seq<byte>, len: nat, cap: nat, pend: seq<byte>): (d: Drained)
    requires pend == [] || |pend| >= HEADER_SIZE
    decreases |s|
  {
    if |pend| + HEADER_SIZE > cap then Panics
    else if |s| < HEADER_SIZE then Starved
    else if |pend| >= len then Panics
    else if BodyLen(s) < 0 then Malformed
    else if |s| < FrameLen(s) then Starved
    else
      var n := FrameLen(s);
      var rest := s[n..];
      if |pend| + n <= len then
        if s[0] == TAG_RFQ then Delivered(pend + s[..n], rest, TAG_RFQ, if BodyLen(s) >= 1 then s[HEADER_SIZE] else 0)
        else if s[0] == TAG_COPY_IN then Delivered(pend + s[..n], rest, TAG_COPY_IN, 0)
        else FastPath(rest, len, cap, pend + s[..n])
      else
        var sent := Oversize(s, n, pend);
        if s[0] == TAG_RFQ then
          if BodyLen(s) >= 1 then Panics else Delivered(sent, rest, TAG_RFQ, 0)
        else if s[0] == TAG_COPY_IN then Delivered(sent, rest, TAG_COPY_IN, 0)
        else Prepend(sent, FastPath(rest, len, cap, []))
  }

  /** The frames up to the stable point never find the buffer full or overflow a non-empty one,
      except under a header equal to the one at the front of the buffer, and ReadyForQuery itself
      fits.  Only frame headers are read. */
  predicate Fits(s: seq<byte>, len: nat, cap: nat, woff: nat, front: seq<byte>)
    requires SlowPath(s).Delivered?
    decreases |s|
  {
    var n := FrameLen(s);
    && woff + HEADER_SIZE <= cap && woff < len
    && if woff + n <= len then
         s[0] == TAG_RFQ || s[0] == TAG_COPY_IN ||
         Fits(s[n..], len, cap, woff + n, if woff == 0 then s[..HEADER_SIZE] else front)
       else
         && s[0] != TAG_RFQ
         && (woff == 0 || s[..HEADER_SIZE] == front)
         && (s[0] == TAG_COPY_IN || Fits(s[n..], len, cap, 0, []))
  }

  lemma SplitEqual(a: seq<byte>, b: seq<byte>, c: seq<byte>, d: seq<byte>)
    requires |a| == |b|
    ensures a + c == b + d <==> a == b && c == d
  {
    assert (a + c)[..|a|] == a && (b + d)[..|b|] == b && (a + c)[|a|..] == c && (b + d)[|b|..] == d;
  }

  lemma PrependEqual(p: seq<byte>, q: seq<byte>, d: Drained, e: Drained)
    requires |p| == |q| && e.Delivered?
    ensures Prepend(p, d) == Prepend(q, e) <==> p == q && d == e
  {
    if d.Delivered? { SplitEqual(p, q, d.out, e.out); }
  }

  lemma PrependTwice(p: seq<byte>, q: seq<byte>, d: Drained)
    ensures Prepend(p, Prepend(q, d)) == Prepend(p + q, d)
  {
    if d.Delivered? { assert p + (q + d.out) == (p + q) + d.out; }
  }

  /** The fast path delivers the slow path's bytes, stop point and status if and only if the
      frames fit. */
  lemma {:induction false} FastIsSlow(s: seq<byte>, len: nat, cap: nat, pend: seq<byte>)
    requires SlowPath(s).Delivered? && (pend == [] || |pend| >= HEADER_SIZE)
    ensures FastPath(s, len, cap, pend) == Prepend(pend, SlowPath(s))
            <==> Fits(s, len, cap, |pend|, if pend == [] then [] else pend[..HEADER_SIZE])
    decreases |s|
  {
    var n := FrameLen(s);
    var rest := s[n..];
    var front := if pend == [] then [] else pend[..HEADER_SIZE];
    if |pend| + HEADER_SIZE <= cap && |pend| < len && s[0] != TAG_RFQ && s[0] != TAG_COPY_IN {
      if |pend| + n <= len {
        FastIsSlow(rest, len, cap, pend + s[..n]);
        PrependTwice(pend, s[..n], SlowPath(rest));
        assert (pend + s[..n])[..HEADER_SIZE] == if pend == [] then s[..HEADER_SIZE] else front;
      } else {
        FastIsSlow(rest, len, cap, []);
        var h := if pend == [] then s[..HEADER_SIZE] else pend[..HEADER_SIZE];
        PrependTwice(pend, s[..n], SlowPath(rest));
        PrependEqual(pend + h + s[HEADER_SIZE..n], pend + s[..n], FastPath(rest, len, cap, []), SlowPath(rest));
        OverflowHeader(s, pend, n);
        assert Prepend([], SlowPath(rest)) == SlowPath(rest);
      }
    } else if |pend| + HEADER_SIZE <= cap && |pend| < len && |pend| + n > len && s[0] == TAG_COPY_IN {
      OverflowHeader(s, pend, n);
    }
  }

  /** In the oversize branch the bytes are right exactly when the header written is the
      frame's own. */
  lemma OverflowHeader(s: seq<byte>, pend: seq<byte>, n: nat)
    requires HEADER_SIZE <= n <= |s| && (pend == [] || |pend| >= HEADER_SIZE)
    ensures var h := if pend == [] then s[..HEADER_SIZE] else pend[..HEADER_SIZE];
            pend + h + s[HEADER_SIZE..n] == pend + s[..n] <==> h == s[..HEADER_SIZE]
  {
    var h := if pend == [] then s[..HEADER_SIZE] else pend[..HEADER_SIZE];
    assert s[..n] == s[..HEADER_SIZE] + s[HEADER_SIZE..n];
    assert (pend + h + s[HEADER_SIZE..n])[|pend|..|pend| + HEADER_SIZE] == h;
    assert (pend + s[..n])[|pend|..|pend| + HEADER_SIZE] == s[..HEADER_SIZE];
  }

  /** Room for the whole response is enough. */
  lemma {:induction false} RoomIsEnough(s: seq<byte>, len: nat, cap: nat, woff: nat, front: seq<byte>)
    requires SlowPath(s).Delivered? && woff + |SlowPath(s).out| <= len <= cap
    ensures Fits(s, len, cap, woff, front)
    decreases |s|
  {
    var n := FrameLen(s);
    if s[0] != TAG_RFQ && s[0] != TAG_COPY_IN {
      RoomIsEnough(s[n..], len, cap, woff + n, if woff == 0 then s[..HEADER_SIZE] else front);
    }
  }

  /** The release decision taken at the stable point. */
  predicate ReleaseAfter(d: Drained, pinned: bool, statementMode: bool) {
    d.Delivered? && d.tag == TAG_RFQ && !pinned && (statementMode || d.tx == 'I' as int)
  }

  /** A response that fits the buffer is delivered by the fast path as by the slow path: same
      bytes, same unread rest, same status, hence the same release decision. */
  lemma FastRefinesSlow(s: seq<byte>, len: nat, cap: nat, pinned: bool, statementMode: bool)
    requires SlowPath(s).Delivered? && |SlowPath(s).out| <= len <= cap
    ensures FastPath(s, len, cap, []) == SlowPath(s)
    ensures ReleaseAfter(FastPath(s, len, cap, []), pinned, statementMode)
            == ReleaseAfter(SlowPath(s), pinned, statementMode)
  {
    FastIsSlow(s, len, cap, []);
    RoomIsEnough(s, len, cap, 0, []);
    assert [] + SlowPath(s).out == SlowPath(s).out;
  }

  /** Two 7-byte frames and a ReadyForQuery through a 12-byte buffer: the second frame is
      forwarded under the first one's header. */
  lemma OversizeCorrupts()
    ensures var t, d, z := Packet('T' as int, [1, 2]), Packet('D' as int, [3, 4]), Packet('Z' as int, ['I' as int]);
            var s := Spell(t) + (Spell(d) + Spell(z));
            SlowPath(s).Delivered? && FastPath(s, 12, 12, []) != SlowPath(s)
  {
    var p, q, e := Packet('T' as int, [1, 2]), Packet('D' as int, [3, 4]), Packet('Z' as int, ['I' as int]);
    SpelledSmall(p);
    SpelledSmall(q);
    SpelledSmall(e);
    var t, d, z := Spell(p), Spell(q), Spell(e);
    var s := t + (d + z);
    assert s[7..] == d + z && (d + z)[7..] == z;
    assert SlowPath(z).Delivered?;
    assert SlowPath(d + z).Delivered?;
    assert (d + z)[..HEADER_SIZE] != s[..HEADER_SIZE] by { assert (d + z)[0] != s[0]; }
    assert !Fits(d + z, 12, 12, 7, s[..HEADER_SIZE]);
    FastIsSlow(s, 12, 12, []);
    assert [] + SlowPath(s).out == SlowPath(s).out;
  }

  /** A ReadyForQuery that arrives with less than six bytes of room left panics. */
  lemma OversizeRfqPanics()
    ensures var s := Spell(Packet('T' as int, [1, 2])) + Spell(Packet('Z' as int, ['I' as int]));
            SlowPath(s).Delivered? && FastPath(s, 12, 12, []).Panics?
  {
    var p, e := Packet('T' as int, [1, 2]), Packet('Z' as int, ['I' as int]);
    SpelledSmall(p);
    SpelledSmall(e);
    var t, z := Spell(p), Spell(e);
    var s := t + z;
    assert s[7..] == z && s[..7] == t && z[..6] == z && z[6..] == [];
    assert BodyLen(s) == 2 && BodyLen(z) == 1;
    assert SlowPath(z).Delivered?;
    assert [] + t == t;
    assert FastPath(s, 12, 12, []) == FastPath(z, 12, 12, t);
  }

  /** A frame that fills the buffer to its length makes the next header's tag an index out of
      range, however much capacity is left. */
  lemma FullBufferPanics(len: nat, cap: nat, p: Packet, next: seq<byte>)
    requires Spellable(p) && p.tag != TAG_RFQ && p.tag != TAG_COPY_IN && |next| >= HEADER_SIZE
    requires |Spell(p)| == len && len + HEADER_SIZE <= cap
    ensures FastPath(Spell(p) + next, len, cap, []).Panics?
  {
    var f := Spell(p);
    var s := f + next;
    SpelledIsRead(p, next);
    assert [] + f == f;
    assert FastPath(s, len, cap, []) == FastPath(next, len, cap, f);
  }

  // ---------------------------------------------------------------- the loop itself

  datatype RawResult = Raw(tag: byte, tx: byte, copyIn: bool, eof: bool) | RawFailed | RawPanic

  predicate Stable(tag: byte) { tag == TAG_RFQ || tag == TAG_COPY_IN }

  /** One turn of the raw loop on values: from unread `s` and buffered `pend`, it wrote `w` and
      left `rest` and `pend'`. */
  ghost predicate Turn(s: seq<byte>, len: nat, cap: nat, pend: seq<byte>, w: seq<byte>, rest: seq<byte>,
                       pend': seq<byte>)
    requires pend == [] || |pend| >= HEADER_SIZE
  {
    |pend| + HEADER_SIZE <= cap && |pend| < len && WholeFrame(s) && rest == s[FrameLen(s)..] &&
    if |pend| + FrameLen(s) <= len then
      if Stable(s[0]) then w == pend + s[..FrameLen(s)] else w == [] && pend' == pend + s[..FrameLen(s)]
    else
      w == Oversize(s, FrameLen(s), pend) && pend' == []
  }

  /** How the raw loop ends after a turn, or without completing one. */
  ghost predicate Ends(s: seq<byte>, len: nat, cap: nat, pend: seq<byte>, w: seq<byte>, rest: seq<byte>, res: RawResult)
    requires pend == [] || |pend| >= HEADER_SIZE
  {
    match res
    case RawFailed => true
    case RawPanic =>
      || |pend| + HEADER_SIZE > cap
      || (|s| >= HEADER_SIZE && |pend| >= len)
      || (WholeFrame(s) && |pend| + FrameLen(s) > len && s[0] == TAG_RFQ && BodyLen(s) >= 1)
    case Raw(tag, tx, copyIn, eof) =>
      if eof then |pend| + HEADER_SIZE <= cap && |s| < HEADER_SIZE
      else
        && Turn(s, len, cap, pend, w, rest, []) && Stable(s[0]) && tag == s[0] && (copyIn <==> tag == TAG_COPY_IN)
        && if |pend| + FrameLen(s) <= len then tx == if tag == TAG_RFQ && BodyLen(s) >= 1 then s[HEADER_SIZE] else 0
           else tx == 0 && !(tag == TAG_RFQ && BodyLen(s) >= 1)
  }

  /** The buffer has room for a header, but the stream ends first or gives a negative length. */
  predicate Unusable(s: seq<byte>, len: nat, cap: nat, pend: seq<byte>) {
    |pend| + HEADER_SIZE <= cap && (|s| < HEADER_SIZE || (|pend| < len && !WholeFrame(s)))
  }

  lemma TurnIsFast(s: seq<byte>, len: nat, cap: nat, pend: seq<byte>, w: seq<byte>, rest: seq<byte>, pend': seq<byte>)
    requires (pend == [] || |pend| >= HEADER_SIZE) && Turn(s, len, cap, pend, w, rest, pend') && !Stable(s[0])
    ensures (pend' == [] || |pend'| >= HEADER_SIZE) && |rest| < |s|
    ensures FastPath(s, len, cap, pend) == Prepend(w, FastPath(rest, len, cap, pend'))
  {
    var d := FastPath(rest, len, cap, pend');
    if d.Delivered? { assert [] + d.out == d.out; }
  }

  lemma EndIsFast(s: seq<byte>, len: nat, cap: nat, pend: seq<byte>, w: seq<byte>, rest: seq<byte>, res: RawResult)
    requires (pend == [] || |pend| >= HEADER_SIZE) && Ends(s, len, cap, pend, w, rest, res)
    ensures res.RawPanic? ==> FastPath(s, len, cap, pend).Panics?
    ensures res.Raw? && res.eof ==> FastPath(s, len, cap, pend).Starved?
    ensures res.Raw? && !res.eof ==>
      FastPath(s, len, cap, pend) == Delivered(w, rest, res.tag, res.tx) && (res.copyIn <==> res.tag == TAG_COPY_IN)
  {
  }

  /** The body of a frame that fits: read behind its header. */
  method ReadBody(src: ChunkReader, buf: array<byte>, at: nat, bodyLen: nat) returns (ok: bool)
    requires src.Valid() && buf != src.buf && at + bodyLen <= buf.Length
    modifies buf, src, src.buf, src.r
    ensures src.Valid() && (src.buf == old(src.buf) || fresh(src.buf)) && buf != src.buf
    ensures ok ==> bodyLen <= |old(src.Stream())| && src.Stream() == old(src.Stream())[bodyLen..]
    ensures ok ==> buf[..at + bodyLen] == old(buf[..at]) + old(src.Stream())[..bodyLen]
    ensures !ok ==> src.r.broken || bodyLen > |old(src.Stream())|
  {
    ok := true;
    if bodyLen > 0 {
      var n, err := src.Read(buf, at, at + bodyLen);
      ok := err.NoError?;
    } else {
      assert old(src.Stream())[bodyLen..] == old(src.Stream());
    }
  }

  /** The oversize branch: flush, then the first five bytes of the buffer, then the body. */
  method ForwardOversize(dst: Sink, src: ChunkReader, buf: array<byte>, woff: nat, bodyLen: nat) returns (ok: bool)
    requires src.Valid() && buf != src.buf && woff + HEADER_SIZE <= buf.Length
    modifies dst, src, src.buf, src.r
    ensures src.Valid() && (src.buf == old(src.buf) || fresh(src.buf)) && buf != src.buf
    ensures ok ==> bodyLen <= |old(src.Stream())| && src.Stream() == old(src.Stream())[bodyLen..]
    ensures ok ==> dst.out == old(dst.out) + (buf[..woff] + buf[..HEADER_SIZE] + old(src.Stream())[..bodyLen])
    ensures !ok ==> src.r.broken || dst.broken || bodyLen > |old(src.Stream())|
  {
    ok := true;
    if woff > 0 { ok := dst.Write(buf[..woff]); }
    if ok { ok := dst.Write(buf[..HEADER_SIZE]); }
    if ok {
      assert dst.out == old(dst.out) + buf[..woff] + buf[..HEADER_SIZE];
      ok := CopyN(dst, src, bodyLen);
    }
  }

  /** The buffered bytes go out with the frame that ends the drain. */
  method Deliver(dst: Sink, buf: array<byte>, woff: nat, tag: byte, bodyLen: nat, ghost s: seq<byte>,
                 ghost pend: seq<byte>) returns (res: RawResult)
    requires HEADER_SIZE + bodyLen <= |s| && woff == |pend| + HEADER_SIZE + bodyLen <= buf.Length
    requires buf[..woff] == pend + s[..HEADER_SIZE + bodyLen] && Stable(tag)
    modifies dst
    ensures if res.Raw? then dst.out == old(dst.out) + buf[..woff] else res.RawFailed? && dst.broken
    ensures res.Raw?
            ==> res == Raw(tag, if tag == TAG_RFQ && bodyLen >= 1 then s[HEADER_SIZE] else 0, tag == TAG_COPY_IN, false)
  {
    var tx := if tag == TAG_RFQ && bodyLen >= 1 then buf[woff - bodyLen] else 0;
    assert bodyLen >= 1 ==> buf[woff - bodyLen] == buf[..woff][woff - bodyLen] == s[HEADER_SIZE];
    var ok := dst.Write(buf[..woff]);
    res := if ok then Raw(tag, tx, tag == TAG_COPY_IN, false) else RawFailed;
  }

  /** A frame that fits, its header already behind the `woff` buffered bytes. */
  method RawFits(dst: Sink, src: ChunkReader, buf: array<byte>, len: nat, woff: nat, tag: byte, bodyLen: nat,
                 ghost s: seq<byte>, ghost pend: seq<byte>)
    returns (woff': nat, res: RawResult, more: bool, ghost w: seq<byte>)
    requires src.Valid() && buf != src.buf && woff + HEADER_SIZE + bodyLen <= len <= buf.Length
    requires |pend| == woff && (pend == [] || woff >= HEADER_SIZE)
    requires |s| >= HEADER_SIZE && bodyLen == BodyLen(s) && tag == s[0]
    requires buf[..woff + HEADER_SIZE] == pend + s[..HEADER_SIZE] && src.Stream() == s[HEADER_SIZE..]
    requires woff < len
    modifies dst, buf, src, src.buf, src.r
    ensures src.Valid() && (src.buf == old(src.buf) || fresh(src.buf)) && buf != src.buf
    ensures more ==> woff' <= len && !Stable(s[0])
    ensures more || (res.Raw? && !res.eof) ==> dst.out == old(dst.out) + w
    ensures more ==> Turn(s, len, buf.Length, pend, w, src.Stream(), buf[..woff'])
    ensures !more ==> Ends(s, len, buf.Length, pend, w, src.Stream(), res)
    ensures !more && res.RawFailed? ==> src.r.broken || dst.broken || Unusable(s, len, buf.Length, pend)
  {
    woff', res, more, w := woff, RawFailed, false, [];
    var total := HEADER_SIZE + bodyLen;
    var ok := ReadBody(src, buf, woff + HEADER_SIZE, bodyLen);
    if !ok { return; }
    woff' := woff + total;
    assert s[..total] == s[..HEADER_SIZE] + s[HEADER_SIZE..][..bodyLen] && s[HEADER_SIZE..][bodyLen..] == s[total..];
    assert buf[..woff'] == pend + s[..total];
    if Stable(tag) {
      res := Deliver(dst, buf, woff', tag, bodyLen, s, pend);
      w := buf[..woff'];
    } else {
      more := true;
    }
  }

  /** A frame that overflows the buffer. */
  method RawOverflows(dst: Sink, src: ChunkReader, buf: array<byte>, len: nat, woff: nat, tag: byte, bodyLen: nat,
                      ghost s: seq<byte>, ghost pend: seq<byte>)
    returns (res: RawResult, more: bool, ghost w: seq<byte>)
    requires src.Valid() && buf != src.buf && woff + HEADER_SIZE <= buf.Length && woff + HEADER_SIZE + bodyLen > len
    requires |pend| == woff && (pend == [] || woff >= HEADER_SIZE)
    requires |s| >= HEADER_SIZE && bodyLen == BodyLen(s) && tag == s[0]
    requires buf[..woff + HEADER_SIZE] == pend + s[..HEADER_SIZE] && src.Stream() == s[HEADER_SIZE..]
    requires woff < len
    modifies dst, src, src.buf, src.r
    ensures src.Valid() && (src.buf == old(src.buf) || fresh(src.buf)) && buf != src.buf
    ensures more || (res.Raw? && !res.eof) ==> dst.out == old(dst.out) + w
    ensures more ==> Turn(s, len, buf.Length, pend, w, src.Stream(), []) && !Stable(s[0])
    ensures !more ==> Ends(s, len, buf.Length, pend, w, src.Stream(), res)
    ensures !more && res.RawFailed? ==> src.r.broken || dst.broken || Unusable(s, len, buf.Length, pend)
  {
    res, more, w := RawFailed, false, [];
    assert buf[..woff] == buf[..woff + HEADER_SIZE][..woff] == pend;
    assert buf[..HEADER_SIZE] == buf[..woff + HEADER_SIZE][..HEADER_SIZE]
           == if woff == 0 then s[..HEADER_SIZE] else pend[..HEADER_SIZE];
    var ok := ForwardOversize(dst, src, buf, woff, bodyLen);
    if !ok { return; }
    w := Oversize(s, HEADER_SIZE + bodyLen, pend);
    assert s[HEADER_SIZE..][..bodyLen] == s[HEADER_SIZE..HEADER_SIZE + bodyLen]
           && s[HEADER_SIZE..][bodyLen..] == s[HEADER_SIZE + bodyLen..];
    if tag == TAG_RFQ && bodyLen >= 1 {
      res := RawPanic;
    } else if Stable(tag) {
      res := Raw(tag, 0, tag == TAG_COPY_IN, false);
    } else {
      more := true;
    }
  }

  method RawStep(dst: Sink, src: ChunkReader, buf: array<byte>, len: nat, woff: nat)
    returns (woff': nat, res: RawResult, more: bool, ghost w: seq<byte>)
    requires src.Valid() && buf != src.buf && woff <= len <= buf.Length && (woff == 0 || woff >= HEADER_SIZE)
    modifies dst, buf, src, src.buf, src.r
    ensures src.Valid() && (src.buf == old(src.buf) || fresh(src.buf)) && buf != src.buf
    ensures more ==> woff' <= len && (woff' == 0 || woff' >= HEADER_SIZE) && |src.Stream()| < |old(src.Stream())|
    ensures more ==> |old(src.Stream())| >= HEADER_SIZE && !Stable(old(src.Stream())[0])
    ensures more || (res.Raw? && !res.eof) ==> dst.out == old(dst.out) + w
    ensures more ==> Turn(old(src.Stream()), len, buf.Length, old(buf[..woff]), w, src.Stream(), buf[..woff'])
    ensures !more ==> Ends(old(src.Stream()), len, buf.Length, old(buf[..woff]), w, src.Stream(), res)
    ensures !more && res.RawFailed?
            ==> src.r.broken || dst.broken || Unusable(old(src.Stream()), len, buf.Length, old(buf[..woff]))
  {
    ghost var s, pend := src.Stream(), buf[..woff];
    woff', res, more, w := woff, RawFailed, false, [];
    if woff + HEADER_SIZE > buf.Length {
      res := RawPanic;
      return;
    }
    var n, err := src.Read(buf, woff, woff + HEADER_SIZE);
    if err.Eof? {
      if woff > 0 { var _ := dst.Write(buf[..woff]); }
      res := Raw(0, 0, false, true);
      return;
    }
    if !err.NoError? {
      return;
    }
    var hdr := buf[woff..woff + HEADER_SIZE];
    assert buf[..woff + HEADER_SIZE] == pend + s[..HEADER_SIZE] && hdr == s[..HEADER_SIZE];
    if woff >= len {
      res := RawPanic;
      return;
    }
    var tag, bodyLen := buf[woff], BodyLen(hdr);
    assert tag == hdr[0];
    assert bodyLen == BodyLen(s);
    if bodyLen < 0 {
      return;
    }
    if woff + HEADER_SIZE + bodyLen <= len {
      woff', res, more, w := RawFits(dst, src, buf, len, woff, tag, bodyLen, s, pend);
    } else {
      res, more, w := RawOverflows(dst, src, buf, len, woff, tag, bodyLen, s, pend);
      woff' := 0;
      assert buf[..0] == [];
    }
  }

  /** Where the loop stands between two turns: the unread stream, the pending bytes, what was written. */
  datatype Spot = Spot(s: seq<byte>, pend: seq<byte>, sofar: seq<byte>)

  predicate FitSpot(a: Spot) { a.pend == [] || |a.pend| >= HEADER_SIZE }

  ghost predicate Leap(len: nat, cap: nat, a: Spot, b: Spot) {
    && FitSpot(a) && a.sofar <= b.sofar
    && Turn(a.s, len, cap, a.pend, b.sofar[|a.sofar|..], b.s, b.pend) && !Stable(a.s[0])
  }

  ghost predicate Linked(len: nat, cap: nat, trail: seq<Spot>, i: nat)
    requires i + 1 < |trail|
  {
    Leap(len, cap, trail[i], trail[i + 1])
  }

  /** Consecutive turns. */
  ghost predicate Trail(len: nat, cap: nat, trail: seq<Spot>) {
    forall i :: 0 <= i < |trail| - 1 ==> Linked(len, cap, trail, i)
  }

  lemma TrailGrows(len: nat, cap: nat, trail: seq<Spot>, b: Spot)
    requires trail != [] && Trail(len, cap, trail) && Leap(len, cap, trail[|trail| - 1], b)
    ensures Trail(len, cap, trail + [b])
  {
    forall i | 0 <= i < |trail| ensures Linked(len, cap, trail + [b], i) {
      if i < |trail| - 1 { assert Linked(len, cap, trail, i); }
    }
  }

  lemma TrailRest(len: nat, cap: nat, trail: seq<Spot>)
    requires trail != [] && Trail(len, cap, trail)
    ensures Trail(len, cap, trail[1..])
  {
    forall i | 0 <= i < |trail| - 2 ensures Linked(len, cap, trail[1..], i) { assert Linked(len, cap, trail, i + 1); }
  }

  lemma {:induction false} TrailIsFast(len: nat, cap: nat, trail: seq<Spot>)
    requires trail != [] && Trail(len, cap, trail) && FitSpot(trail[0]) && FitSpot(trail[|trail| - 1])
    ensures var a, b := trail[0], trail[|trail| - 1];
            && a.sofar <= b.sofar
            && FastPath(a.s, len, cap, a.pend) == Prepend(b.sofar[|a.sofar|..], FastPath(b.s, len, cap, b.pend))
    decreases |trail|
  {
    var a, b := trail[0], trail[|trail| - 1];
    if |trail| == 1 {
      var d := FastPath(a.s, len, cap, a.pend);
      if d.Delivered? { assert [] + d.out == d.out; }
    } else {
      var c := trail[1];
      assert Linked(len, cap, trail, 0);
      TrailRest(len, cap, trail);
      TurnIsFast(a.s, len, cap, a.pend, c.sofar[|a.sofar|..], c.s, c.pend);
      TrailIsFast(len, cap, trail[1..]);
      PrependTwice(c.sofar[|a.sofar|..], b.sofar[|c.sofar|..], FastPath(b.s, len, cap, b.pend));
      assert c.sofar[|a.sofar|..] + b.sofar[|c.sofar|..] == b.sofar[|a.sofar|..];
    }
  }

  /** The trail ends where the reader and the buffer stand. */
  ghost predicate Stands(trail: seq<Spot>, s: seq<byte>, pend: seq<byte>) {
    trail != [] && FitSpot(trail[|trail| - 1]) && trail[|trail| - 1].s == s && trail[|trail| - 1].pend == pend
  }

  function Written(trail: seq<Spot>): seq<byte>
    requires trail != []
  {
    trail[|trail| - 1].sofar
  }

  /** How the turn from the trail's end finished the loop. */
  ghost predicate Finished(len: nat, cap: nat, trail: seq<Spot>, w: seq<byte>, rest: seq<byte>, res: RawResult) {
    trail != [] && FitSpot(trail[|trail| - 1])
      && Ends(trail[|trail| - 1].s, len, cap, trail[|trail| - 1].pend, w, rest, res)
  }

  /** A step from where the trail ends. */
  method TrailStep(dst: Sink, src: ChunkReader, buf: array<byte>, len: nat, woff: nat, ghost trail: seq<Spot>)
    returns (woff': nat, res: RawResult, more: bool, ghost trail': seq<Spot>, ghost w: seq<byte>)
    requires src.Valid() && buf != src.buf && woff <= len <= buf.Length
    requires Trail(len, buf.Length, trail) && Stands(trail, src.Stream(), buf[..woff])
    modifies dst, buf, src, src.buf, src.r
    ensures src.Valid() && (src.buf == old(src.buf) || fresh(src.buf)) && buf != src.buf
    ensures more ==> woff' <= len && |src.Stream()| < |old(src.Stream())|
    ensures trail' != [] && trail'[0] == trail[0] && Trail(len, buf.Length, trail')
    ensures more ==> Stands(trail', src.Stream(), buf[..woff'])
    ensures more ==> Written(trail') == Written(trail) + w
    ensures more || (res.Raw? && !res.eof) ==> dst.out == old(dst.out) + w
    ensures !more ==> trail' == trail && Finished(len, buf.Length, trail, w, src.Stream(), res)
    ensures !more && res.RawFailed?
            ==> src.r.broken || dst.broken || Unusable(old(src.Stream()), len, buf.Length, old(buf[..woff]))
  {
    ghost var a := trail[|trail| - 1];
    woff', res, more, w := RawStep(dst, src, buf, len, woff);
    trail' := trail;
    if more {
      ghost var b := Spot(src.Stream(), buf[..woff'], a.sofar + w);
      assert b.sofar[|a.sofar|..] == w;
      TrailGrows(len, buf.Length, trail, b);
      trail' := trail + [b];
    }
  }

  method RawLoop(dst: Sink, src: ChunkReader, buf: array<byte>, len: nat)
    returns (res: RawResult, ghost trail: seq<Spot>, ghost w: seq<byte>)
    requires src.Valid() && buf != src.buf && HEADER_SIZE <= len <= buf.Length
    modifies dst, buf, src, src.buf, src.r
    ensures src.Valid()
    ensures Finished(len, buf.Length, trail, w, src.Stream(), res)
    ensures trail[0] == Spot(old(src.Stream()), [], []) && Trail(len, buf.Length, trail)
    ensures res.Raw? && !res.eof ==> dst.out == old(dst.out) + Written(trail) + w
    ensures res.RawFailed?
            ==> src.r.broken || dst.broken || Unusable(trail[|trail| - 1].s, len, buf.Length, trail[|trail| - 1].pend)
  {
    var woff: nat := 0;
    trail := [Spot(src.Stream(), [], [])];
    assert buf[..0] == [];
    while true
      invariant src.Valid() && (src.buf == old(src.buf) || fresh(src.buf)) && buf != src.buf
      invariant woff <= len <= buf.Length && Stands(trail, src.Stream(), buf[..woff])
      invariant dst.out == old(dst.out) + Written(trail)
      invariant trail[0] == Spot(old(src.Stream()), [], []) && Trail(len, buf.Length, trail)
      decreases |src.Stream()|
    {
      var more;
      woff, res, more, trail, w := TrailStep(dst, src, buf, len, woff, trail);
      if !more {
        return;
      }
    }
  }

  /** RawForwardAll: its result and its effects are the fast path's. */
  method RawForwardAll(dst: Sink, src: ChunkReader, given: array<byte>, givenLen: nat) returns (res: RawResult)
    requires src.Valid() && given != src.buf && givenLen <= given.Length
    modifies dst, given, src, src.buf, src.r
    ensures src.Valid()
    ensures var len := if givenLen < HEADER_SIZE then 8192 else givenLen;
            var cap := if givenLen < HEADER_SIZE then 8192 else given.Length;
            var d := FastPath(old(src.Stream()), len, cap, []);
            && (res.RawPanic? ==> d.Panics?)
            && (res.Raw? && res.eof ==> d.Starved?)
            && (res.Raw? && !res.eof ==>
                  d.Delivered? && dst.out == old(dst.out) + d.out && src.Stream() == d.rest && res.tag == d.tag &&
                  res.tx == d.tx &&
                  (res.copyIn <==> d.tag == TAG_COPY_IN))
            && (res.RawFailed? ==> src.r.broken || dst.broken || d.Starved? || d.Malformed?)
  {
    var buf, len := given, givenLen;
    if len < HEADER_SIZE {
      buf := new byte[8192](_ => 0);
      len := 8192;
    }
    ghost var trail, w;
    res, trail, w := RawLoop(dst, src, buf, len);
    ghost var last := trail[|trail| - 1];
    TrailIsFast(len, buf.Length, trail);
    assert last.sofar[0..] == last.sofar;
    EndIsFast(last.s, len, buf.Length, last.pend, w, src.Stream(), res);
    assert old(dst.out) + last.sofar + w == old(dst.out) + (last.sofar + w);
  }
}
