/** The backend's messages as it spells them on the wire: a tag, a four-byte length in base 256 that
    counts itself, and the body; and where the splice cuts a stream of such messages. */
module WireFrames {
  import opened ByteStream
  import opened Splice

  datatype Packet = Packet(tag: byte, body: seq<byte>)

  /** The last `k` digits of `n` in base 256, most significant first. */
  function Digits(n: nat, k: nat): (ds: seq<byte>)
    ensures |ds| == k
  {
    if k == 0 then [] else Digits(n / 256, k - 1) + [n % 256]
  }

  /** The length fits its four bytes. */
  predicate Spellable(p: Packet) { |p.body| + 4 < 0x1_0000_0000 }

  function Spell(p: Packet): (s: seq<byte>)
    ensures |s| == 1 + 4 + |p.body|
  {
    [p.tag] + Digits(|p.body| + 4, 4) + p.body
  }

  function SpellAll(ps: seq<Packet>): seq<byte> {
    if ps == [] then [] else Spell(ps[0]) + SpellAll(ps[1..])
  }

  predicate AllSpellable(ps: seq<Packet>) { forall p :: p in ps ==> Spellable(p) }

  lemma FourDigits(n: nat)
    ensures Digits(n, 4) == [n / 0x100_0000 % 256, n / 0x1_0000 % 256, n / 0x100 % 256, n % 256]
  {
    assert n / 256 / 256 == n / 0x1_0000 && n / 256 / 256 / 256 == n / 0x100_0000;
    assert Digits(n, 4) == Digits(n / 256, 3) + [n % 256];
    assert Digits(n / 256, 3) == Digits(n / 256 / 256, 2) + [n / 256 % 256];
    assert Digits(n / 256 / 256, 2) == Digits(n / 256 / 256 / 256, 1) + [n / 256 / 256 % 256];
    assert Digits(n / 256 / 256 / 256, 1) == [n / 256 / 256 / 256 % 256];
  }

  lemma SpelledSmall(p: Packet)
    requires |p.body| + 4 < 256
    ensures Spell(p) == [p.tag, 0, 0, 0, |p.body| + 4] + p.body
  {
    FourDigits(|p.body| + 4);
  }

  lemma DigitsAdd(n: nat)
    requires n < 0x1_0000_0000
    ensures (n / 0x100_0000 % 256) * 0x100_0000 + (n / 0x1_0000 % 256) * 0x1_0000 + (n / 0x100 % 256) * 0x100 + n % 256
            == n
  {
    var p := n / 256;
    var q := p / 256;
    var r := q / 256;
    assert n / 0x1_0000 == q && n / 0x100_0000 == r;
    assert r % 256 == r && q % 256 == q - 256 * r && p % 256 == p - 256 * q && n % 256 == n - 256 * p;
  }

  lemma LengthIsRead(p: Packet, rest: seq<byte>)
    requires Spellable(p)
    ensures var s := Spell(p) + rest; |s| >= HEADER_SIZE && s[0] == p.tag && BodyLen(s) == |p.body|
  {
    var n := |p.body| + 4;
    var s := Spell(p) + rest;
    FourDigits(n);
    DigitsAdd(n);
    assert s[1..5] == Digits(n, 4);
    assert s[1] == s[1..5][0] && s[2] == s[1..5][1] && s[3] == s[1..5][2] && s[4] == s[1..5][3];
  }

  /** The header the proxy reads is the header the backend wrote: the length it finds is the body's. */
  lemma SpelledIsRead(p: Packet, rest: seq<byte>)
    requires Spellable(p)
    ensures var s := Spell(p) + rest;
            && s[0] == p.tag && BodyLen(s) == |p.body| && FrameLen(s) == |Spell(p)| && WholeFrame(s)
            && s[..FrameLen(s)] == Spell(p) && s[HEADER_SIZE..FrameLen(s)] == p.body && s[FrameLen(s)..] == rest
  {
    var n := |p.body| + 4;
    var s := Spell(p) + rest;
    LengthIsRead(p, rest);
    assert s[..|Spell(p)|] == Spell(p) && s[|Spell(p)|..] == rest && s[HEADER_SIZE..|Spell(p)|] == p.body;
  }

  lemma DigitsOf(a: byte, b: byte, c: byte, d: byte)
    ensures Digits(a * 0x100_0000 + b * 0x1_0000 + c * 0x100 + d, 4) == [a, b, c, d]
  {
    var p: int, q: int, r: int := a, b, c;
    var n := p * 0x100_0000 + q * 0x1_0000 + r * 0x100 + d;
    FourDigits(n);
    assert n / 0x100 == p * 0x1_0000 + q * 0x100 + r && n / 0x1_0000 == p * 0x100 + q && n / 0x100_0000 == p;
  }

  /** Any frame is spelled so: the four bytes are the digits of what they are read as. */
  lemma ReadIsSpelled(s: seq<byte>)
    requires WholeFrame(s)
    ensures var p := Packet(s[0], s[HEADER_SIZE..FrameLen(s)]); Spellable(p) && Spell(p) == s[..FrameLen(s)]
  {
    DigitsOf(s[1], s[2], s[3], s[4]);
    assert s[1..HEADER_SIZE] == [s[1], s[2], s[3], s[4]];
    assert s[..FrameLen(s)] == [s[0]] + s[1..HEADER_SIZE] + s[HEADER_SIZE..FrameLen(s)];
  }

  /** The messages the proxy looks at: parameter and key data, notifications and notices, copy
      responses, protocol negotiation, errors and ReadyForQuery. */
  predicate Watched(tag: byte) { tag as char in "SKANWvHEZG" }

  predicate NoneWatched(ps: seq<Packet>) { forall p :: p in ps ==> !Watched(p.tag) }

  lemma WatchedIff(tag: byte)
    ensures Watched(tag) <==> !Classify(tag).ClassBoring?
  {
    assert "SKANWvHEZG" == ['S', 'K', 'A', 'N', 'W', 'v', 'H', 'E', 'Z', 'G'];
    assert (tag as char) as int == tag;
  }

  lemma FirstSpelled(ps: seq<Packet>, tail: seq<byte>)
    requires ps != []
    ensures SpellAll(ps) + tail == Spell(ps[0]) + (SpellAll(ps[1..]) + tail)
    ensures forall p :: p in ps[1..] ==> p in ps
  {
  }

  lemma CutStep(p: Packet, rest: seq<byte>)
    requires Spellable(p)
    ensures Cut(Spell(p) + rest) == if Watched(p.tag) then 0 else |Spell(p)| + Cut(rest)
  {
    WatchedIff(p.tag);
    SpelledIsRead(p, rest);
  }

  lemma {:induction false} CutOfUnwatched(ps: seq<Packet>, tail: seq<byte>)
    requires AllSpellable(ps) && NoneWatched(ps) && Cut(tail) == 0
    ensures Cut(SpellAll(ps) + tail) == |SpellAll(ps)|
    decreases |ps|
  {
    if ps == [] {
      assert SpellAll(ps) + tail == tail;
    } else {
      FirstSpelled(ps, tail);
      CutOfUnwatched(ps[1..], tail);
      CutStep(ps[0], SpellAll(ps[1..]) + tail);
    }
  }

  /** The splice forwards messages whole, up to the first one the proxy looks at. */
  lemma CutIsTotalLength(ps: seq<Packet>, stop: Packet, rest: seq<byte>)
    requires AllSpellable(ps) && NoneWatched(ps) && Spellable(stop) && Watched(stop.tag)
    ensures Cut(SpellAll(ps) + (Spell(stop) + rest)) == |SpellAll(ps)|
  {
    CutStep(stop, rest);
    CutOfUnwatched(ps, Spell(stop) + rest);
  }

  /** It never passes a message the proxy looks at, whatever surrounds it. */
  lemma {:induction false} CutNeverPasses(ps: seq<Packet>, stop: Packet, rest: seq<byte>)
    requires AllSpellable(ps) && Spellable(stop) && Watched(stop.tag)
    ensures Cut(SpellAll(ps) + (Spell(stop) + rest)) <= |SpellAll(ps)|
    decreases |ps|
  {
    var tail := Spell(stop) + rest;
    if ps == [] {
      assert SpellAll(ps) + tail == tail;
      CutStep(stop, rest);
    } else {
      FirstSpelled(ps, tail);
      CutNeverPasses(ps[1..], stop, rest);
      CutStep(ps[0], SpellAll(ps[1..]) + tail);
    }
  }
}
