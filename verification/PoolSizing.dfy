/** The pool's owner operations that rebuild the idle channel: Resize and EvictIdleOnce. */
module PoolSizing {
  type Backend = nat

  function Max(a: int, b: int): int { if a < b then b else a }
  function Min(a: int, b: int): int { if a < b then a else b }

  /** How many idle backends Resize closes: it keeps as many as fit beside the active ones. */
  function ResizeCut(idle: nat, active: int, newSize: int): (cut: nat)
    ensures cut <= idle && idle - cut == Max(0, Min(idle, newSize - active))
  {
    var excess := active + idle - newSize;
    if excess <= 0 then 0 else if excess < idle then excess else idle
  }

  datatype LifeState = New | Active | Idle | Closed

  /** A pooled connection with its lifecycle marker; times are in nanoseconds. */
  datatype PooledConn = PooledConn(id: Backend, createdAt: int, lastActive: int, state: LifeState) {
    predicate ShouldRecycle(now: int, maxLifetime: int) {
      maxLifetime > 0 && now - createdAt >= maxLifetime
    }

    predicate ShouldEvict(now: int, maxIdle: int) {
      maxIdle > 0 && state.Idle? && now - lastActive >= maxIdle
    }
  }

  /** The connections of `all` that `mask` keeps (or drops), in order. */
  function Select(all: seq<PooledConn>, mask: seq<bool>, keep: bool): (r: seq<PooledConn>)
    requires |all| == |mask|
  {
    if all == [] then [] else
      (if mask[0] == keep then [all[0]] else []) + Select(all[1..], mask[1..], keep)
  }

  lemma {:induction false} SelectAppend(all: seq<PooledConn>, mask: seq<bool>, x: PooledConn, m: bool, keep: bool)
    requires |all| == |mask|
    ensures Select(all + [x], mask + [m], keep) == Select(all, mask, keep) + if m == keep then [x] else []
  {
    if all == [] {
      assert (all + [x])[1..] == [] && (mask + [m])[1..] == [];
    } else {
      SelectAppend(all[1..], mask[1..], x, m, keep);
      assert (all + [x])[1..] == all[1..] + [x] && (mask + [m])[1..] == mask[1..] + [m];
    }
  }

  /** Nothing is lost and nothing is duplicated by a mask. */
  lemma {:induction false} SelectPartitions(all: seq<PooledConn>, mask: seq<bool>)
    requires |all| == |mask|
    ensures multiset(all) == multiset(Select(all, mask, true)) + multiset(Select(all, mask, false))
  {
    if all != [] {
      SelectPartitions(all[1..], mask[1..]);
      assert all == [all[0]] + all[1..];
    }
  }

  lemma {:induction false} SelectSizes(all: seq<PooledConn>, mask: seq<bool>)
    requires |all| == |mask|
    ensures |Select(all, mask, true)| + |Select(all, mask, false)| == |all|
  {
    if all != [] { SelectSizes(all[1..], mask[1..]); }
  }

  /** Connections past their lifetime, which no floor protects. */
  function Recyclable(all: seq<PooledConn>, now: int, maxLife: int): (n: nat)
    ensures n <= |all|
  {
    if all == [] then 0 else
      Recyclable(all[..|all| - 1], now, maxLife) + if all[|all| - 1].ShouldRecycle(now, maxLife) then 1 else 0
  }

  datatype Sweep = Sweep(now: int, maxIdle: int, maxLife: int, floor: nat)

  predicate Keeps(w: Sweep, pc: PooledConn, keptBefore: nat) {
    !pc.ShouldRecycle(w.now, w.maxLife) && (pc.ShouldEvict(w.now, w.maxIdle) ==> keptBefore < w.floor)
  }

  /** Which connections a sweep keeps, decided front to back. */
  function SweepMask(w: Sweep, all: seq<PooledConn>): (mask: seq<bool>)
    ensures |mask| == |all|
  {
    if all == [] then [] else
      var rest := all[..|all| - 1];
      var m := SweepMask(w, rest);
      m + [Keeps(w, all[|all| - 1], |Select(rest, m, true)|)]
  }

  lemma {:induction false} SweepPrefix(w: Sweep, all: seq<PooledConn>, i: nat)
    requires i <= |all|
    ensures SweepMask(w, all)[..i] == SweepMask(w, all[..i])
  {
    if i == |all| {
      assert all[..i] == all;
    } else {
      SweepPrefix(w, all[..|all| - 1], i);
      assert all[..|all| - 1][..i] == all[..i];
    }
  }

  /** A sweep keeps a connection if and only if it has not lived for the lifetime, if there is one, and
      if it has been idle for the idle limit, if there is one, fewer than the floor were kept before it. */
  lemma SweepDecides(w: Sweep, all: seq<PooledConn>, i: nat)
    requires i < |all|
    ensures var mask, pc := SweepMask(w, all), all[i];
            var aged := w.maxLife > 0 && pc.createdAt + w.maxLife <= w.now;
            var stale := w.maxIdle > 0 && pc.state == Idle && pc.lastActive + w.maxIdle <= w.now;
            mask[i] <==> !aged && (stale ==> |Select(all[..i], mask[..i], true)| < w.floor)
  {
    SweepPrefix(w, all, i);
    SweepPrefix(w, all, i + 1);
    assert all[..i + 1][..i] == all[..i];
    assert SweepMask(w, all)[i] == SweepMask(w, all)[..i + 1][i];
  }

  /** A sweep leaves at least the floor, or everything that is not past its lifetime. */
  lemma {:induction false} SweepFloor(w: Sweep, all: seq<PooledConn>)
    ensures |Select(all, SweepMask(w, all), true)| >= Min(w.floor, |all| - Recyclable(all, w.now, w.maxLife))
  {
    if all != [] {
      var rest, x := all[..|all| - 1], all[|all| - 1];
      SweepFloor(w, rest);
      var m := SweepMask(w, rest);
      assert all == rest + [x];
      SelectAppend(rest, m, x, Keeps(w, x, |Select(rest, m, true)|), true);
    }
  }

  /** Evicted and kept connections together are the idle queue, each in queue order. */
  lemma SweepPartitions(w: Sweep, all: seq<PooledConn>)
    ensures var mask := SweepMask(w, all);
            multiset(all) == multiset(Select(all, mask, true)) + multiset(Select(all, mask, false))
  {
    SelectPartitions(all, SweepMask(w, all));
  }

  /** With both thresholds off nothing is evicted, which is why the janitor may return early. */
  lemma {:induction false} SweepOff(w: Sweep, all: seq<PooledConn>)
    requires w.maxIdle <= 0 && w.maxLife <= 0
    ensures Select(all, SweepMask(w, all), true) == all && Select(all, SweepMask(w, all), false) == []
  {
    if all != [] {
      var rest, x := all[..|all| - 1], all[|all| - 1];
      SweepOff(w, rest);
      assert all == rest + [x];
      SelectAppend(rest, SweepMask(w, rest), x, true, true);
      SelectAppend(rest, SweepMask(w, rest), x, true, false);
    }
  }

  /** The eviction loop. */
  method RunSweep(w: Sweep, all: seq<PooledConn>) returns (kept: seq<PooledConn>, evicted: seq<PooledConn>)
    ensures kept == Select(all, SweepMask(w, all), true)
    ensures evicted == Select(all, SweepMask(w, all), false)
  {
    kept, evicted := [], [];
    var i := 0;
    while i < |all|
      invariant 0 <= i <= |all|
      invariant kept == Select(all[..i], SweepMask(w, all[..i]), true)
      invariant evicted == Select(all[..i], SweepMask(w, all[..i]), false)
    {
      var pc := all[i];
      var expiredLifetime := w.maxLife > 0 && pc.ShouldRecycle(w.now, w.maxLife);
      var expiredIdle := w.maxIdle > 0 && pc.ShouldEvict(w.now, w.maxIdle);
      assert all[..i + 1] == all[..i] + [pc] && all[..i + 1][..i] == all[..i];
      ghost var m := SweepMask(w, all[..i]);
      SelectAppend(all[..i], m, pc, Keeps(w, pc, |kept|), true);
      SelectAppend(all[..i], m, pc, Keeps(w, pc, |kept|), false);
      if !expiredLifetime && !expiredIdle {
        kept := kept + [pc];
      } else if expiredIdle && !expiredLifetime && |kept| < w.floor {
        kept := kept + [pc];
      } else {
        evicted := evicted + [pc];
      }
      i := i + 1;
    }
    assert all[..i] == all;
  }

  /** Resize's trimming loop: drops from the front while there is an excess. */
  method Trim(conns: seq<PooledConn>, active: int, size: int) returns (dropped: seq<PooledConn>, kept: seq<PooledConn>)
    ensures var cut := ResizeCut(|conns|, active, size); dropped == conns[..cut] && kept == conns[cut..]
  {
    dropped, kept := [], conns;
    var excess := active + |conns| - size;
    while excess > 0 && kept != []
      invariant |dropped| <= |conns| && dropped == conns[..|dropped|] && kept == conns[|dropped|..]
      invariant excess == active + |kept| - size && |dropped| <= ResizeCut(|conns|, active, size)
      decreases |kept|
    {
      dropped, kept, excess := dropped + [kept[0]], kept[1..], excess - 1;
    }
  }

  /** Five seconds, in nanoseconds. */
  const DEFAULT_RESERVE_TIMEOUT: int := 5_000_000_000

  class Pool {
    var size: int          // DefaultPoolSize: the regular slots, and the idle channel's capacity
    var minSize: int       // MinPoolSize
    const reserveSize: int // ReservePoolSize
    const reserveTimeout: int   // ReservePoolTimeout, in nanoseconds
    var maxIdle: int       // ServerIdle
    var maxLife: int       // ServerLifetime
    var active: int
    var idle: seq<PooledConn>
    var closed: seq<PooledConn>   // connections this pool has closed, in order
    var totalEvicted: nat

    ghost predicate Valid()
      reads this
    {
      && 1 <= size && 0 <= minSize <= size && 0 <= active && |idle| <= size
      && 0 <= reserveSize && 0 < reserveTimeout
    }

    /** Configured values out of range are brought into it, whatever they are. */
    constructor (size: int, minSize: int, reserveSize: int, reserveTimeout: int, maxIdle: int, maxLife: int)
      ensures Valid() && active == 0 && idle == [] && closed == [] && totalEvicted == 0
      ensures this.size == Max(1, size) && this.minSize == Min(Max(0, minSize), Max(1, size))
      ensures this.reserveSize == Max(0, reserveSize)
      ensures this.reserveTimeout == if reserveTimeout > 0 then reserveTimeout else 5_000_000_000
      ensures this.maxIdle == maxIdle && this.maxLife == maxLife
    {
      var n := if size < 1 then 1 else size;
      this.size := n;
      this.minSize := if minSize < 0 then 0 else if minSize > n then n else minSize;
      this.reserveSize := if reserveSize < 0 then 0 else reserveSize;
      this.reserveTimeout := if reserveTimeout <= 0 then DEFAULT_RESERVE_TIMEOUT else reserveTimeout;
      this.maxIdle, this.maxLife, this.active := maxIdle, maxLife, 0;
      this.idle, this.closed, this.totalEvicted := [], [], 0;
    }

    /** Receives from the idle channel until it is empty. */
    method DrainIdle() returns (conns: seq<PooledConn>)
      modifies this`idle
      ensures idle == [] && conns == old(idle)
    {
      conns := [];
      while idle != []
        invariant conns + idle == old(idle)
        decreases |idle|
      {
        conns, idle := conns + [idle[0]], idle[1..];
      }
    }

    /** Sends `conns` to the idle channel; a send past the capacity would block forever. */
    method Refill(conns: seq<PooledConn>)
      requires idle == [] && |conns| <= size
      modifies this`idle
      ensures idle == conns
    {
      var i := 0;
      while i < |conns|
        invariant 0 <= i <= |conns| && idle == conns[..i]
      {
        assert |idle| < size;
        idle := idle + [conns[i]];
        i := i + 1;
      }
      assert conns[..i] == conns;
    }

    /** Closes the oldest idle connections until the pool fits, and refills the new channel
        without blocking. */
    method Resize(newSize: int) returns (prev: int)
      requires Valid()
      modifies this
      ensures Valid()
      ensures prev == old(size) && size == Max(1, newSize) && minSize == Min(old(minSize), size)
      ensures active == old(active) && maxIdle == old(maxIdle) && maxLife == old(maxLife)
      ensures var cut := ResizeCut(|old(idle)|, active, size);
              idle == old(idle)[cut..] && closed == old(closed) + old(idle)[..cut]
                && totalEvicted == old(totalEvicted) + cut
      ensures |idle| == Max(0, Min(|old(idle)|, size - active)) && active + |idle| <= Max(size, active)
      ensures active + |old(idle)| <= size ==> idle == old(idle)
    {
      prev := size;
      size := if newSize < 1 then 1 else newSize;
      if minSize > size { minSize := size; }
      var all := DrainIdle();
      var dropped, kept := Trim(all, active, size);
      closed, totalEvicted := closed + dropped, totalEvicted + |dropped|;
      Refill(kept);
    }

    function SweepAt(now: int): Sweep
      reads this
    {
      Sweep(now, maxIdle, maxLife, if minSize - active < 0 then 0 else minSize - active)
    }

    /** One janitor sweep over the idle channel. */
    method EvictIdleOnce(now: int) returns (n: nat)
      requires Valid()
      modifies this
      ensures Valid()
      ensures size == old(size) && minSize == old(minSize) && active == old(active)
      ensures maxIdle == old(maxIdle) && maxLife == old(maxLife)
      ensures idle == Select(old(idle), SweepMask(SweepAt(now), old(idle)), true)
      ensures closed == old(closed) + Select(old(idle), SweepMask(SweepAt(now), old(idle)), false)
      ensures n == |old(idle)| - |idle| && totalEvicted == old(totalEvicted) + n
      ensures |idle| >= Min(Max(0, minSize - active), |old(idle)| - Recyclable(old(idle), now, maxLife))
    {
      ghost var w := SweepAt(now);
      SweepFloor(w, idle);
      SelectSizes(idle, SweepMask(w, idle));
      if maxIdle <= 0 && maxLife <= 0 {
        SweepOff(w, idle);
        return 0;
      }
      var keepCount := minSize - active;
      if keepCount < 0 { keepCount := 0; }
      var all := DrainIdle();
      var kept, evicted := RunSweep(Sweep(now, maxIdle, maxLife, keepCount), all);
      Refill(kept);
      totalEvicted, closed := totalEvicted + |evicted|, closed + evicted;
      return |evicted|;
    }
  }
}
