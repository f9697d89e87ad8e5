/** Replica routing: a candidate ring cached across health and lag events, and the round robin over
    it. Replicas are numbered in configuration order and each event is one step. */
module Replicas {
  import opened Counting
  import opened Options

  const WORD: int := 0x1_0000_0000_0000_0000
  const SIGN_BIT: int := 0x8000_0000_0000_0000

  function Norm(w: int): (n: nat)
    ensures n == if w < 1 then 1 else w
  {
    if w < 1 then 1 else w
  }

  predicate Eligible(healthy: seq<bool>, lag: seq<int>, maxLag: int, r: nat)
    requires r < |healthy| == |lag|
  {
    healthy[r] && !(maxLag > 0 && lag[r] > maxLag)
  }

  /** The eligible replicas among the first n, in order. */
  function Cands(healthy: seq<bool>, lag: seq<int>, maxLag: int, n: nat): (r: seq<nat>)
    requires n <= |healthy| == |lag|
    ensures forall i :: 0 <= i < |r| ==> r[i] < n
  {
    if n == 0 then []
    else Cands(healthy, lag, maxLag, n - 1) + (if Eligible(healthy, lag, maxLag, n - 1) then [n - 1] else [])
  }

  function Repeat(r: nat, k: nat): seq<nat> { seq(k, _ => r) }

  /** Every candidate as often as its weight says. */
  function Ring(weight: seq<int>, cands: seq<nat>): seq<nat>
    requires forall i :: 0 <= i < |cands| ==> cands[i] < |weight|
  {
    if cands == [] then []
    else Ring(weight, cands[..|cands| - 1]) + Repeat(cands[|cands| - 1], Norm(weight[cands[|cands| - 1]]))
  }

  // ---------------------------------------------------------------- what the ring holds

  lemma {:induction false} CountRepeat(x: nat, k: nat, r: nat)
    ensures Count(Repeat(x, k), r) == if x == r then k else 0
  {
    if k > 0 {
      CountRepeat(x, k - 1, r);
      assert Repeat(x, k)[1..] == Repeat(x, k - 1);
    }
  }

  predicate Ascending(s: seq<nat>) { forall i, j :: 0 <= i < j < |s| ==> s[i] < s[j] }

  /** Exactly the eligible replicas, each once, in ascending order. */
  lemma {:induction false} CandsExact(healthy: seq<bool>, lag: seq<int>, maxLag: int, n: nat)
    requires n <= |healthy| == |lag|
    ensures forall r :: r in Cands(healthy, lag, maxLag, n) <==> 0 <= r < n && Eligible(healthy, lag, maxLag, r)
    ensures Ascending(Cands(healthy, lag, maxLag, n))
  {
    if n > 0 {
      CandsExact(healthy, lag, maxLag, n - 1);
      var before := Cands(healthy, lag, maxLag, n - 1);
      forall i | 0 <= i < |before| ensures before[i] < n - 1 { assert before[i] in before; }
    }
  }

  lemma {:induction false} RingCounts(weight: seq<int>, cands: seq<nat>, r: nat)
    requires forall i :: 0 <= i < |cands| ==> cands[i] < |weight|
    requires Ascending(cands)
    ensures Count(Ring(weight, cands), r) == if r in cands then Norm(weight[r]) else 0
  {
    if cands != [] {
      var init, last := cands[..|cands| - 1], cands[|cands| - 1];
      RingCounts(weight, init, r);
      CountAppend(Ring(weight, init), Repeat(last, Norm(weight[last])), r);
      CountRepeat(last, Norm(weight[last]), r);
      assert cands == init + [last];
      assert last !in init;
    }
  }

  /** The candidates depend only on who is eligible, so an event that changes nobody's eligibility
      needs no rebuild. */
  lemma {:induction false} SameEligible(h1: seq<bool>, l1: seq<int>, m1: int, h2: seq<bool>, l2: seq<int>, m2: int,
                                        n: nat)
    requires n <= |h1| == |l1| == |h2| == |l2|
    requires forall r :: 0 <= r < n ==> Eligible(h1, l1, m1, r) == Eligible(h2, l2, m2, r)
    ensures Cands(h1, l1, m1, n) == Cands(h2, l2, m2, n)
  {
    if n > 0 { SameEligible(h1, l1, m1, h2, l2, m2, n - 1); }
  }

  datatype Outcome = NoReplica | Picked(replica: nat) | Panic

  /** The index Go computes from the 64-bit counter: the conversion to a signed integer turns the
      upper half negative, and a negative remainder indexes out of range. */
  function Choose(ring: seq<nat>, counter: nat): Outcome
    requires counter < WORD
  {
    if ring == [] then NoReplica
    else if counter < SIGN_BIT then Picked(ring[counter % |ring|])
    else if (WORD - counter) % |ring| == 0 then Picked(ring[0])
    else Panic
  }

  class Manager {
    const weight: seq<int>
    var healthy: seq<bool>
    var lag: seq<int>
    var maxLag: int
    var rr: nat
    var cands: seq<nat>
    var expanded: seq<nat>

    predicate Sized()
      reads this
    {
      |healthy| == |lag| == |weight| && rr < WORD
    }

    /** The cached snapshot is the one a rebuild would produce now. */
    ghost predicate Valid()
      reads this
    {
      && Sized() && cands == Cands(healthy, lag, maxLag, |weight|)
      && expanded == Ring(weight, Cands(healthy, lag, maxLag, |weight|))
    }

    constructor (weight: seq<int>, healthy: seq<bool>, lag: seq<int>)
      requires |weight| == |healthy| == |lag|
      ensures Valid() && this.weight == weight && this.healthy == healthy && this.lag == lag && maxLag == 0 && rr == 0
    {
      this.weight, this.healthy, this.lag := weight, healthy, lag;
      maxLag, rr, cands, expanded := 0, 0, [], [];
      new;
      RebuildSnapshot();
    }

    method RebuildSnapshot()
      requires Sized()
      modifies this`cands, this`expanded
      ensures Valid()
    {
      cands := [];
      var i := 0;
      while i < |weight|
        invariant 0 <= i <= |weight| && cands == Cands(healthy, lag, maxLag, i)
      {
        if healthy[i] && !(maxLag > 0 && lag[i] > maxLag) {
          cands := cands + [i];
        }
        i := i + 1;
      }
      expanded := Expand(cands);
    }

    method Expand(found: seq<nat>) returns (ring: seq<nat>)
      requires forall k :: 0 <= k < |found| ==> found[k] < |weight|
      ensures ring == Ring(weight, found)
    {
      ring := [];
      var j := 0;
      while j < |found|
        invariant 0 <= j <= |found| && ring == Ring(weight, found[..j])
      {
        assert found[..j + 1][..j] == found[..j];
        ring := ring + Repeat(found[j], Norm(weight[found[j]]));
        j := j + 1;
      }
      assert found[..j] == found;
    }

    method Start()
      requires Valid()
      modifies this`healthy, this`cands, this`expanded
      ensures Valid() && forall r :: 0 <= r < |healthy| ==> healthy[r]
    {
      var i := 0;
      while i < |healthy|
        invariant 0 <= i <= |healthy| && Sized() && forall r :: 0 <= r < i ==> healthy[r]
      {
        healthy := healthy[i := true];
        i := i + 1;
      }
      RebuildSnapshot();
    }

    /** A health check that ended in `ok`; only a change of the flag rebuilds. */
    method Probe(r: nat, ok: bool)
      requires Valid() && r < |weight|
      modifies this`healthy, this`cands, this`expanded
      ensures Valid() && healthy == old(healthy)[r := ok]
    {
      var was := healthy[r];
      healthy := healthy[r := ok];
      if was != ok {
        RebuildSnapshot();
      } else {
        assert healthy == old(healthy);
      }
    }

    /** A lag reading, none when the probe failed; only a crossing of the threshold rebuilds. */
    method LagProbe(r: nat, val: Option<int>)
      requires Valid() && r < |weight|
      modifies this`lag, this`cands, this`expanded
      ensures Valid() && lag == if old(healthy)[r] && val.Some? then old(lag)[r := val.value] else old(lag)
    {
      if !healthy[r] || val.None? { return; }
      var prev := lag[r];
      lag := lag[r := val.value];
      if maxLag > 0 && (prev <= maxLag) != (val.value <= maxLag) {
        RebuildSnapshot();
      } else {
        SameEligible(healthy, old(lag), maxLag, healthy, lag, maxLag, |weight|);
      }
    }

    method SetMaxLag(n: int)
      requires Valid()
      modifies this`maxLag, this`cands, this`expanded
      ensures Valid() && maxLag == n
    {
      maxLag := n;
      RebuildSnapshot();
    }

    method Pick() returns (o: Outcome)
      requires Valid()
      modifies this`rr
      ensures Valid() && o == Choose(expanded, old(rr))
      ensures rr == if expanded == [] then old(rr) else (old(rr) + 1) % WORD
    {
      if |expanded| == 0 { return NoReplica; }
      var counter := rr;
      rr := (rr + 1) % WORD;
      if counter < SIGN_BIT {
        o := Picked(expanded[counter % |expanded|]);
      } else {
        var below := (WORD - counter) % |expanded|;
        o := if below == 0 then Picked(expanded[0]) else Panic;
      }
    }
  }

  // ---------------------------------------------------------------- fairness

  /** The replicas chosen by n picks on one ring, the counter starting at a. */
  function Picks(ring: seq<nat>, a: nat, n: nat): seq<nat>
    requires ring != []
  {
    seq(n, k requires 0 <= k => ring[(a + k) % |ring|])
  }

  lemma TurnOver(a: nat, k: nat, w: nat)
    requires 0 <= k < w
    ensures (a + k) % w == if a % w + k < w then a % w + k else a % w + k - w
  {
    var q, s := a / w, a % w;
    assert a == w * q + s;
    if s + k < w { Remainder(a + k, w, q, s + k); } else {
      assert w * (q + 1) == w * q + w;
      Remainder(a + k, w, q + 1, s + k - w);
    }
  }

  lemma MultipleIsFar(w: int, d: int)
    requires w > 0
    ensures (d > 0 ==> w * d >= w) && (d < 0 ==> w * d <= -w)
  {
  }

  lemma Remainder(x: nat, w: nat, q: nat, s: nat)
    requires w > 0 && s < w && x == w * q + s
    ensures x % w == s
  {
    var d := x / w - q;
    assert w * (x / w) + x % w == w * q + s;
    assert w * d == s - x % w;
    MultipleIsFar(w, d);
  }

  lemma PicksRotate(ring: seq<nat>, a: nat)
    requires ring != []
    ensures Picks(ring, a, |ring|) == ring[a % |ring|..] + ring[..a % |ring|]
  {
    forall k | 0 <= k < |ring| ensures Picks(ring, a, |ring|)[k] == (ring[a % |ring|..] + ring[..a % |ring|])[k] {
      TurnOver(a, k, |ring|);
    }
  }

  lemma RotationCounts(ring: seq<nat>, a: nat, r: nat)
    requires ring != []
    ensures Count(Picks(ring, a, |ring|), r) == Count(ring, r)
  {
    var s := a % |ring|;
    PicksRotate(ring, a);
    CountAppend(ring[s..], ring[..s], r);
    CountAppend(ring[..s], ring[s..], r);
    assert ring[..s] + ring[s..] == ring;
  }

  /** Any window of as many picks as the ring is long chooses every replica that is healthy and, if there
      is a limit, not behind by more, exactly as often as its weight, at least once; any other never. */
  lemma WindowIsFair(healthy: seq<bool>, lag: seq<int>, maxLag: int, weight: seq<int>, a: nat, r: nat)
    requires |healthy| == |lag| == |weight| && r < |weight|
    requires Ring(weight, Cands(healthy, lag, maxLag, |weight|)) != []
    ensures var ring := Ring(weight, Cands(healthy, lag, maxLag, |weight|));
            Count(Picks(ring, a, |ring|), r)
            == if !healthy[r] || (maxLag > 0 && lag[r] > maxLag) then 0
               else if weight[r] < 1 then 1
               else weight[r]
  {
    var cands := Cands(healthy, lag, maxLag, |weight|);
    RotationCounts(Ring(weight, cands), a, r);
    CandsExact(healthy, lag, maxLag, |weight|);
    RingCounts(weight, cands, r);
  }

  /** There is nothing to pick from if and only if no replica is healthy and within the limit. */
  lemma NoneToPickIff(healthy: seq<bool>, lag: seq<int>, maxLag: int, weight: seq<int>)
    requires |healthy| == |lag| == |weight|
    ensures Ring(weight, Cands(healthy, lag, maxLag, |weight|)) == []
            <==> forall r :: 0 <= r < |weight| && healthy[r] ==> maxLag > 0 && lag[r] > maxLag
  {
    NoSlotsIff(weight, Cands(healthy, lag, maxLag, |weight|));
    NoCandsIff(healthy, lag, maxLag, |weight|);
  }

  lemma {:induction false} NoCandsIff(healthy: seq<bool>, lag: seq<int>, maxLag: int, n: nat)
    requires n <= |healthy| == |lag|
    ensures Cands(healthy, lag, maxLag, n) == []
            <==> forall r :: 0 <= r < n && healthy[r] ==> maxLag > 0 && lag[r] > maxLag
  {
    if n > 0 { NoCandsIff(healthy, lag, maxLag, n - 1); }
  }

  lemma NoSlotsIff(weight: seq<int>, cands: seq<nat>)
    requires forall i :: 0 <= i < |cands| ==> cands[i] < |weight|
    ensures Ring(weight, cands) == [] <==> cands == []
  {
    if cands != [] {
      var last := cands[|cands| - 1];
      assert |Repeat(last, Norm(weight[last]))| >= 1;
    }
  }

  /** With two or more slots the counter cannot pass the sign bit by two without a panic. */
  lemma HalfwayPanics(ring: seq<nat>, counter: nat)
    requires |ring| >= 2 && SIGN_BIT <= counter && counter + 1 < WORD
    ensures Choose(ring, counter) == Panic || Choose(ring, counter + 1) == Panic
  {
    var w, x := |ring|, WORD - counter;
    if x % w == 0 {
      var p := x / w;
      assert x == w * p && w * (p - 1) == w * p - w;
      Remainder(x - 1, w, p - 1, w - 1);
      assert WORD - (counter + 1) == x - 1;
    }
  }

  /** What n picks on one ring give, the 64-bit counter starting at a and wrapping around. */
  function Outcomes(ring: seq<nat>, a: nat, n: nat): seq<Outcome>
    requires a < WORD
  {
    seq(n, k requires 0 <= k => Choose(ring, (a + k) % WORD))
  }

  predicate Fair(ring: seq<nat>, out: seq<Outcome>) {
    Panic !in out && forall r: nat :: r in ring ==> Count(out, Picked(r)) == Count(ring, r)
  }

  /** The counter stays below the sign bit, or meets it with the last pick at a multiple of the ring. */
  predicate Untroubled(w: nat, a: nat)
    requires w > 0
  {
    w == 1 || a + w <= 0x8000_0000_0000_0000 || (a + w == 0x8000_0000_0000_0001 && 0x8000_0000_0000_0000 % w == 0)
  }

  lemma {:induction false} CountPicked(picks: seq<nat>, out: seq<Outcome>, r: nat)
    requires |out| == |picks| && forall k :: 0 <= k < |picks| ==> out[k] == Picked(picks[k])
    ensures Count(out, Picked(r)) == Count(picks, r)
  {
    if picks != [] { CountPicked(picks[1..], out[1..], r); }
  }

  lemma UntroubledPick(ring: seq<nat>, a: nat, k: nat)
    requires ring != [] && |ring| <= SIGN_BIT && a < WORD && k < |ring| && Untroubled(|ring|, a)
    ensures Choose(ring, (a + k) % WORD) == Picked(ring[(a + k) % |ring|])
  {
    if |ring| > 1 {
      Remainder(a + k, WORD, 0, a + k);
      if a + k == SIGN_BIT { assert WORD - SIGN_BIT == SIGN_BIT; }
    } else {
      Remainder(a + k, 1, a + k, 0);
    }
  }

  lemma TroubledPanics(ring: seq<nat>, a: nat) returns (k: nat)
    requires ring != [] && |ring| <= SIGN_BIT && a < WORD && !Untroubled(|ring|, a)
    ensures k < |ring| && Choose(ring, (a + k) % WORD) == Panic
  {
    var first := if a < SIGN_BIT then SIGN_BIT else a;
    k := first - a;
    Remainder(first, WORD, 0, first);
    if Choose(ring, first) != Panic {
      if first == WORD - 1 { Remainder(1, |ring|, 0, 1); }
      HalfwayPanics(ring, first);
      k := k + 1;
      Remainder(first + 1, WORD, 0, first + 1);
    }
  }

  /** As many picks as the ring is long, made by the code, choose every replica as often as the ring
      holds it, without a panic, if and only if the counter is untroubled. */
  lemma WindowFairIff(ring: seq<nat>, a: nat)
    requires ring != [] && |ring| <= SIGN_BIT && a < WORD
    ensures Fair(ring, Outcomes(ring, a, |ring|)) <==> Untroubled(|ring|, a)
  {
    var out, picks := Outcomes(ring, a, |ring|), Picks(ring, a, |ring|);
    if Untroubled(|ring|, a) {
      forall k | 0 <= k < |ring| ensures out[k] == Picked(picks[k]) { UntroubledPick(ring, a, k); }
      forall r: nat | r in ring ensures Count(out, Picked(r)) == Count(ring, r) {
        CountPicked(picks, out, r);
        RotationCounts(ring, a, r);
      }
    } else {
      var k := TroubledPanics(ring, a);
      assert out[k] == Panic;
    }
  }
}
