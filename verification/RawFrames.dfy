/** The decode loop on the messages a backend spells: what it delivers, and where it stops. */
module RawFrames {
  import opened ByteStream
  import opened Splice
  import opened WireFrames
  import opened RawForward

  /** Neither ReadyForQuery nor CopyInResponse. */
  predicate Passing(ps: seq<Packet>) { forall p :: p in ps ==> p.tag != 'Z' as int && p.tag != 'G' as int }

  /** A message that ends the drain: ReadyForQuery with its one status byte, or CopyInResponse. */
  predicate Ending(p: Packet) { p.tag == 'G' as int || (p.tag == 'Z' as int && |p.body| == 1) }

  /** What the client is told about the transaction: the status byte, if there is one. */
  function Status(p: Packet): byte
    requires Ending(p)
  {
    if p.tag == 'Z' as int then p.body[0] else 0
  }

  lemma SlowStep(p: Packet, rest: seq<byte>)
    requires Spellable(p) && p.tag != 'Z' as int && p.tag != 'G' as int
    ensures SlowPath(Spell(p) + rest) == Prepend(Spell(p), SlowPath(rest))
  {
    SpelledIsRead(p, rest);
  }

  lemma {:induction false} PassesOver(ps: seq<Packet>, tail: seq<byte>)
    requires AllSpellable(ps) && Passing(ps)
    ensures SlowPath(SpellAll(ps) + tail) == Prepend(SpellAll(ps), SlowPath(tail))
    decreases |ps|
  {
    if ps == [] {
      assert SpellAll(ps) + tail == tail;
      PrependNothing(SlowPath(tail));
    } else {
      FirstSpelled(ps, tail);
      PassesOver(ps[1..], tail);
      SlowStep(ps[0], SpellAll(ps[1..]) + tail);
      PrependTwice(Spell(ps[0]), SpellAll(ps[1..]), SlowPath(tail));
    }
  }

  lemma StopsAt(p: Packet, rest: seq<byte>)
    requires Spellable(p) && Ending(p)
    ensures SlowPath(Spell(p) + rest) == Delivered(Spell(p), rest, p.tag, Status(p))
  {
    SpelledIsRead(p, rest);
    var s := Spell(p) + rest;
    if p.tag == 'Z' as int { assert s[HEADER_SIZE] == s[HEADER_SIZE..FrameLen(s)][0]; }
  }

  /** Whatever messages a backend sends before ReadyForQuery or CopyInResponse, and whatever it sends
      afterwards, the client gets exactly those messages' bytes and the ending one's, its status
      is reported, and what comes afterwards stays unread. */
  lemma DeliversMessages(ps: seq<Packet>, end: Packet, rest: seq<byte>)
    requires AllSpellable(ps) && Passing(ps) && Spellable(end) && Ending(end)
    ensures SlowPath(SpellAll(ps) + (Spell(end) + rest))
            == Delivered(SpellAll(ps) + Spell(end), rest, end.tag, Status(end))
  {
    PassesOver(ps, Spell(end) + rest);
    StopsAt(end, rest);
  }

  /** The raw loop does the same while the response fits its buffer. */
  lemma FastDeliversMessages(ps: seq<Packet>, end: Packet, rest: seq<byte>, len: nat, cap: nat)
    requires AllSpellable(ps) && Passing(ps) && Spellable(end) && Ending(end)
    requires |SpellAll(ps)| + |Spell(end)| <= len <= cap
    ensures FastPath(SpellAll(ps) + (Spell(end) + rest), len, cap, [])
            == Delivered(SpellAll(ps) + Spell(end), rest, end.tag, Status(end))
  {
    DeliversMessages(ps, end, rest);
    FastRefinesSlow(SpellAll(ps) + (Spell(end) + rest), len, cap, false, false);
  }

  /** The first message of a stream that is delivered, and the rest of it. */
  lemma FirstMessage(s: seq<byte>) returns (p: Packet, rest: seq<byte>)
    requires SlowPath(s).Delivered?
    ensures Spellable(p) && s == Spell(p) + rest && |rest| < |s|
    ensures Ending(p) || (p.tag != 'Z' as int && p.tag != 'G' as int)
  {
    p, rest := Packet(s[0], s[HEADER_SIZE..FrameLen(s)]), s[FrameLen(s)..];
    ReadIsSpelled(s);
  }

  /** And nothing else is ever delivered: the bytes are those of such messages. */
  lemma {:induction false} DeliveredAreMessages(s: seq<byte>) returns (ps: seq<Packet>, end: Packet, rest: seq<byte>)
    requires SlowPath(s).Delivered?
    ensures AllSpellable(ps) && Passing(ps) && Spellable(end) && Ending(end)
    ensures s == SpellAll(ps) + (Spell(end) + rest)
    decreases |s|
  {
    var p;
    p, rest := FirstMessage(s);
    if Ending(p) {
      ps, end := [], p;
      assert SpellAll(ps) + (Spell(end) + rest) == Spell(end) + rest;
    } else {
      SlowStep(p, rest);
      var tail;
      tail, end, rest := DeliveredAreMessages(rest);
      ps := [p] + tail;
      assert ps[1..] == tail;
      FirstSpelled(ps, Spell(end) + rest);
    }
  }

  /** A splice that runs ahead of the decode loop leaves it every message it must see: the cut is not
      past the message at which the loop ends, and what the two deliver together is the same. */
  lemma SpliceLeavesTheEnd(ps: seq<Packet>, end: Packet, rest: seq<byte>)
    requires AllSpellable(ps) && Passing(ps) && Spellable(end) && Ending(end)
    ensures var s := SpellAll(ps) + (Spell(end) + rest);
            && Cut(s) <= |SpellAll(ps)| && SlowPath(s) == Prepend(s[..Cut(s)], SlowPath(s[Cut(s)..]))
  {
    CutNeverPasses(ps, end, rest);
    CutThenSlow(SpellAll(ps) + (Spell(end) + rest));
  }

  lemma BoringSlow(s: seq<byte>)
    requires BoringFrame(s)
    ensures var n := FrameLen(s);
            SlowPath(s) == Prepend(s[..n], SlowPath(s[n..])) && Cut(s) == n + Cut(s[n..])
  {
  }

  lemma SliceTwice(s: seq<byte>, n: nat, k: nat)
    requires n + k <= |s|
    ensures Prepend(s[..n], Prepend(s[n..][..k], SlowPath(s[n..][k..]))) == Prepend(s[..n + k], SlowPath(s[n + k..]))
  {
    assert s[n..][k..] == s[n + k..] && s[..n] + s[n..][..k] == s[..n + k];
    PrependTwice(s[..n], s[n..][..k], SlowPath(s[n..][k..]));
  }

  lemma {:induction false} CutThenSlow(s: seq<byte>)
    ensures SlowPath(s) == Prepend(s[..Cut(s)], SlowPath(s[Cut(s)..]))
    decreases |s|
  {
    if BoringFrame(s) {
      var n := FrameLen(s);
      CutThenSlow(s[n..]);
      BoringSlow(s);
      SliceTwice(s, n, Cut(s[n..]));
    } else {
      assert s[..0] == [] && s[0..] == s;
      PrependNothing(SlowPath(s));
    }
  }

  lemma PrependNothing(d: Drained)
    ensures Prepend([], d) == d
  {
    if d.Delivered? { assert [] + d.out == d.out; }
  }
}
