/** When the checkouts of all pools can end and give their tokens back by themselves, and when nothing
    moves any more. */
module PermitsDrain {
  import opened Options
  import opened PoolPermits
  import PT = PoolTheorems
  import PD = PoolDrain
  import PS = PoolShortage
  import PE = PoolEnds

  /** A step of a call that is in a pool or at a semaphore, without a newcomer or a cancel. */
  predicate Forth(step: Step) {
    match step
    case OnCaps(cap) => !cap.Start? && !cap.CancelDb? && !cap.CancelUser?
    case InPool(_, st) => PD.Onward(st)
    case _ => false
  }

  predicate AllForth(steps: seq<Step>) { forall i :: 0 <= i < |steps| ==> Forth(steps[i]) }

  ghost predicate SoundAt(s: State, p: nat) { p < |s.pools| ==> PD.Sound(s.pools[p].state) }

  ghost predicate Sound(s: State) { Inv(s) && forall p: nat :: SoundAt(s, p) }

  lemma StepKeepsSound(s: State, step: Step)
    requires Sound(s) && Enabled(s, step)
    ensures Sound(Do(s, step))
  {
    StepKeepsInv(s, step);
    forall p: nat ensures SoundAt(Do(s, step), p) { StepKeepsSoundAt(s, step, p); }
  }

  lemma StepKeepsSoundAt(s: State, step: Step, p: nat)
    requires Enabled(s, step) && SoundAt(s, p)
    ensures SoundAt(Do(s, step), p)
  {
    PoolAfter(s, step, p);
    match step
    case OnCaps(_) =>
    case Open(_, _, size, reserve) => PT.InitInv(size, reserve);
    case Enter(_, q) => if q == p { PD.StepKeepsSound(s.pools[p].state, PP.Start); }
    case InPool(q, st) => if q == p { PD.StepKeepsSound(s.pools[p].state, st); }
  }

  /** What a step does to one of the pools. */
  lemma PoolAfter(s: State, step: Step, p: nat)
    requires Enabled(s, step)
    ensures var pools := Do(s, step).pools;
            p < |pools| ==>
              if p == |s.pools| then step.Open? && pools[p].state == PP.Init(step.size, step.reserve)
              else if step.Enter? && step.p == p then pools[p].state == PP.Do(s.pools[p].state, PP.Start)
              else if step.InPool? && step.p == p then pools[p].state == PP.Do(s.pools[p].state, step.st)
              else pools[p].state == s.pools[p].state
  {
  }

  lemma {:induction false} RunKeepsSound(s: State, steps: seq<Step>)
    requires Sound(s) && Runs(s, steps)
    ensures Sound(Exec(s, steps))
    decreases |steps|
  {
    if steps != [] {
      StepKeepsSound(s, steps[0]);
      RunKeepsSound(Do(s, steps[0]), steps[1..]);
    }
  }

  lemma InitSound(maxDb: int, maxUser: int)
    ensures Sound(Init(maxDb, maxUser))
  {
    GC.InitInv(maxDb, maxUser);
  }

  lemma {:induction false} Joined(s: State, a: seq<Step>, b: seq<Step>)
    requires Runs(s, a) && Runs(Exec(s, a), b)
    ensures Runs(s, a + b) && Exec(s, a + b) == Exec(Exec(s, a), b)
    decreases |a|
  {
    if a == [] {
      assert a + b == b;
    } else {
      assert (a + b)[1..] == a[1..] + b;
      Joined(Do(s, a[0]), a[1..], b);
    }
  }

  // ---------------------------------------------------------------- a pool's run, with the caps around it

  function InPools(p: nat, steps: seq<PP.Step>): seq<Step> {
    seq(|steps|, i requires 0 <= i < |steps| => InPool(p, steps[i]))
  }

  /** The pool call behind each step runs alone: other pools and the links stay. */
  lemma {:induction false} Lifted(s: State, p: nat, steps: seq<PP.Step>)
    requires Alive(s) && p < |s.pools| && PP.Runs(s.pools[p].state, steps) && PD.AllOnward(steps)
    requires !PP.Exec(s.pools[p].state, steps).dead
    ensures Runs(s, InPools(p, steps)) && AllForth(InPools(p, steps))
    ensures var t := Exec(s, InPools(p, steps));
            && t.links == s.links && Alive(t)
            && t.pools == s.pools[p := s.pools[p].(state := PP.Exec(s.pools[p].state, steps))]
    decreases |steps|
  {
    var all := InPools(p, steps);
    if steps != [] {
      assert PD.Onward(steps[0]);
      assert forall i :: 0 <= i < |steps| - 1 ==> steps[1..][i] == steps[i + 1];
      assert all[1..] == InPools(p, steps[1..]);
      StaysAlive(s.pools[p].state, steps);
      var u := Do(s, all[0]);
      Lifted(u, p, steps[1..]);
    } else {
      assert s.pools == s.pools[p := s.pools[p]];
    }
  }

  /** A run that goes on has not crashed. */
  lemma {:induction false} StaysAlive(s: PP.State, steps: seq<PP.Step>)
    requires steps != [] && PP.Runs(s, steps) && !PP.Exec(s, steps).dead
    ensures !PP.Do(s, steps[0]).dead
  {
    if |steps| > 1 { assert PP.Enabled(PP.Do(s, steps[0]), steps[1..][0]); }
  }

  predicate Ended(s: State, p: nat) { p < |s.pools| && PD.AllDone(s.pools[p].state) }

  ghost predicate Willing(s: State, p: nat) { p < |s.pools| && !PS.Jammed(s.pools[p].state) }

  /** A run of the calls that are there. */
  ghost predicate Reaches(s: State, steps: seq<Step>, t: State) {
    Runs(s, steps) && AllForth(steps) && Exec(s, steps) == t && Sound(t) && Alive(t) && t.links == s.links
  }

  lemma ReachesOn(s: State, a: seq<Step>, t: State, b: seq<Step>, u: State)
    requires Reaches(s, a, t) && Reaches(t, b, u)
    ensures Reaches(s, a + b, u)
  {
    Joined(s, a, b);
  }

  lemma PoolEnds(s: State, p: nat) returns (steps: seq<Step>, t: State)
    requires Sound(s) && Alive(s) && Willing(s, p)
    ensures Reaches(s, steps, t) && Ended(t, p) && |t.pools| == |s.pools|
    ensures forall q :: 0 <= q < |s.pools| && q != p ==> t.pools[q] == s.pools[q]
  {
    assert SoundAt(s, p);
    var run := PE.Finish(s.pools[p].state);
    Lifted(s, p, run);
    steps, t := InPools(p, run), Exec(s, InPools(p, run));
    RunKeepsSound(s, steps);
  }

  /** One pool after the other. */
  lemma {:induction false} PoolsEnd(s: State, n: nat) returns (steps: seq<Step>, t: State)
    requires Sound(s) && Alive(s) && n <= |s.pools| && forall p :: 0 <= p < |s.pools| ==> Willing(s, p)
    ensures Reaches(s, steps, t) && |t.pools| == |s.pools|
    ensures forall p :: n <= p < |s.pools| ==> t.pools[p] == s.pools[p]
    ensures forall p :: 0 <= p < n ==> Ended(t, p)
  {
    if n == 0 {
      steps, t := [], s;
    } else {
      var some, u := PoolsEnd(s, n - 1);
      assert Willing(s, n - 1) && Willing(u, n - 1);
      var more, v := PoolEnds(u, n - 1);
      ReachesOn(s, some, u, more, v);
      forall p | 0 <= p < n ensures Ended(v, p) { assert p < n - 1 ==> Ended(u, p); }
      steps, t := some + more, v;
    }
  }

  // ---------------------------------------------------------------- the tokens come back

  predicate Owing(x: GC.Call) { x.phase.OwesUser? || x.phase.OwesDb? }

  lemma {:induction false} TokensBack(s: State) returns (steps: seq<Step>, t: State)
    requires Sound(s) && Alive(s)
    ensures Reaches(s, steps, t) && t.pools == s.pools
    ensures forall c :: 0 <= c < |t.caps.calls| ==> !Owing(t.caps.calls[c])
    decreases GC.Work(s.caps.calls)
  {
    if c :| 0 <= c < |s.caps.calls| && Owing(s.caps.calls[c]) {
      var cap := GC.Forward(s.caps, c);
      GC.ReceivesNeverBlock(s.caps, c);
      GC.ForwardProgress(s.caps, c);
      StepKeepsSound(s, OnCaps(cap));
      var u := Do(s, OnCaps(cap));
      var more, v := TokensBack(u);
      assert ([OnCaps(cap)] + more)[1..] == more;
      steps, t := [OnCaps(cap)] + more, v;
    } else {
      steps, t := [], s;
    }
  }

  // ---------------------------------------------------------------- a jammed pool

  lemma HopelessStep(s: State, step: Step, p: nat)
    requires Sound(s) && Enabled(s, step) && Forth(step) && p < |s.pools| && PS.Hopeless(s.pools[p].state)
    ensures var t := Do(s, step); Sound(t) && p < |t.pools| && PS.Hopeless(t.pools[p].state) && t.links == s.links
  {
    StepKeepsSound(s, step);
    assert SoundAt(s, p);
    if step.InPool? && step.p == p { PS.HopelessStays(s.pools[p].state, step.st); }
  }

  lemma {:induction false} HopelessForGood(s: State, steps: seq<Step>, p: nat)
    requires Sound(s) && Runs(s, steps) && AllForth(steps) && p < |s.pools| && PS.Hopeless(s.pools[p].state)
    ensures var t := Exec(s, steps);
            Sound(t) && p < |t.pools| && PS.Hopeless(t.pools[p].state) && t.links == s.links
    decreases |steps|
  {
    if steps != [] {
      assert Forth(steps[0]);
      assert forall i :: 0 <= i < |steps| - 1 ==> steps[1..][i] == steps[i + 1];
      HopelessStep(s, steps[0], p);
      HopelessForGood(Do(s, steps[0]), steps[1..], p);
    }
  }

  /** Somebody in such a pool has not given its tokens back. */
  lemma HopelessHolds(s: State, p: nat) returns (c: nat)
    requires Sound(s) && p < |s.pools| && PS.Hopeless(s.pools[p].state)
    ensures c < |s.links| == |s.caps.calls| && s.links[c].Some? && s.caps.calls[c].phase.Admitted?
  {
    var pool := s.pools[p];
    assert SoundAt(s, p) && OwnersOk(s, p);
    PS.HopelessIsNotDone(pool.state);
    var pc :| 0 <= pc < |pool.state.calls| && !pool.state.calls[pc].phase.Done?;
    c := pool.owners[pc];
    assert LinkOk(s, c);
  }

  // ---------------------------------------------------------------- theorems

  /** Every call that had entered a pool is over and has given its tokens back. */
  predicate AllBack(s: State, t: State) {
    |t.caps.calls| >= |s.links| && forall c :: 0 <= c < |s.links| && s.links[c].Some? ==> t.caps.calls[c].phase.Done?
  }

  ghost predicate CanDrain(s: State) { exists steps :: Runs(s, steps) && AllForth(steps) && AllBack(s, Exec(s, steps)) }

  ghost predicate NoneJammed(s: State) { forall p :: 0 <= p < |s.pools| ==> Willing(s, p) }

  /** In every reachable state of pools and semaphores all calls that have entered a pool can end and give
      their tokens back, without a newcomer, a cancel, a Close, a Resize or a sweep, if and only if no pool
      is jammed. */
  lemma DrainsIff(maxDb: int, maxUser: int, steps: seq<Step>)
    requires Runs(Init(maxDb, maxUser), steps) && Alive(Exec(Init(maxDb, maxUser), steps))
    ensures CanDrain(Exec(Init(maxDb, maxUser), steps)) <==> NoneJammed(Exec(Init(maxDb, maxUser), steps))
  {
    InitSound(maxDb, maxUser);
    RunKeepsSound(Init(maxDb, maxUser), steps);
    var s := Exec(Init(maxDb, maxUser), steps);
    if NoneJammed(s) { Drain(s); } else { NeverDrains(s); }
  }

  lemma NeverDrains(s: State)
    requires Sound(s) && Alive(s) && !NoneJammed(s)
    ensures !CanDrain(s)
  {
    var p :| 0 <= p < |s.pools| && !Willing(s, p);
    forall more | Runs(s, more) && AllForth(more) ensures !AllBack(s, Exec(s, more)) {
      HopelessForGood(s, more, p);
      var c := HopelessHolds(Exec(s, more), p);
    }
  }

  lemma Drain(s: State)
    requires Sound(s) && Alive(s) && NoneJammed(s)
    ensures CanDrain(s)
  {
    var a, u := PoolsEnd(s, |s.pools|);
    var b, t := TokensBack(u);
    ReachesOn(s, a, u, b, t);
    forall c | 0 <= c < |s.links| && s.links[c].Some? ensures t.caps.calls[c].phase.Done? {
      assert LinkOk(t, c) && Ended(u, t.links[c].value.0);
    }
  }

  // ---------------------------------------------------------------- when nothing moves

  predicate Closing(closer: PP.Closer) {
    closer.Marked? || closer.Drained? || (closer.Waking? && closer.todo != [])
  }

  /** Over, or parked with its reserve timer spent. */
  predicate AtRest(x: PP.Call) { x.phase.Done? || (PD.Parked(x) && !x.phase.timerArmed) }

  function NextStep(s: PP.State, c: nat): PP.Step
    requires c < |s.calls| && !AtRest(s.calls[c])
  {
    match s.calls[c].phase
    case Polling => PP.CheckClosed(c)
    case Checked => PP.PollIdle(c)
    case Popped(_) => PP.CountPopped(c)
    case PolledEmpty => PP.LoadActive(c)
    case Loaded(cur) => if cur < s.size then PP.TryCas(c) else PP.Park(c)
    case Dialing => PP.DialOk(c)
    case Waiting(_) => if s.calls[c].ch.Empty? then PP.ReserveTimer(c) else PP.Receive(c)
    case ReserveWon => PP.ReserveCount(c)
    case CancelMarked => PP.CancelDequeue(c)
    case CancelDequeued => PP.CancelDrain(c)
    case CancelTook(_) => PP.CancelCheck(c)
    case CancelKeeps(_) => PP.CancelPush(c)
    case Holding(_) => PP.Discard(c)
    case Returning(_) => PP.ReleaseCheckClosed(c)
    case Handing(_) => PP.ReleaseTakeWaiter(c)
    case Sending(_, _) => PP.ReleaseSend(c)
    case ToIdle(_) => PP.ReleasePush(c)
    case _ => PP.ReleaseUncount(c)
  }

  lemma NextPossible(s: PP.State, c: nat)
    requires PL.QueueInv(s) && !s.dead && c < |s.calls| && !AtRest(s.calls[c])
    ensures PP.Enabled(s, NextStep(s, c)) && PD.Onward(NextStep(s, c))
  {
    if s.calls[c].phase.Sending? { assert PL.TakenOk(s.waiters, PL.Todo(s.closer), s.calls, s.calls[c].phase.to); }
  }

  lemma ClosePossible(s: PP.State) returns (st: PP.Step)
    requires PL.QueueInv(s) && !s.dead && Closing(s.closer)
    ensures PP.Enabled(s, st) && PD.Onward(st)
  {
    st := if s.closer.Marked? then PP.CloseDrain else if s.closer.Drained? then PP.CloseTake else PP.CloseOne;
    if st.CloseOne? { assert s.closer.todo[0] in PL.Todo(s.closer); }
  }

  lemma OnlyTheRestless(s: PP.State, st: PP.Step)
    requires PP.Enabled(s, st) && PD.Onward(st)
    ensures Closing(s.closer) || (0 <= PL.Actor(st) < |s.calls| && !AtRest(s.calls[PL.Actor(st)]))
  {
  }

  /** A step of anything but a newcomer, a cancel, or somebody who opens, closes, resizes or sweeps. */
  predicate Moving(step: Step) { Forth(step) || step.Enter? }

  ghost predicate Stalled(s: State) { forall step :: Moving(step) ==> !Enabled(s, step) }

  predicate NoPool(s: State, x: GC.Call) {
    forall p :: 0 <= p < |s.pools| ==> s.pools[p].db != x.db || s.pools[p].user != x.user
  }

  /** Over, before a full semaphore, without a pool, or parked in one with its reserve timer spent. */
  predicate Resting(s: State, c: nat)
    requires c < |s.links| == |s.caps.calls|
  {
    var x := s.caps.calls[c];
    || x.phase.Done?
    || GC.Blocked(s.caps, c)
    || (x.phase.Admitted? && (match s.links[c]
                              case None => NoPool(s, x)
                              case Some((p, pc)) =>
                                p < |s.pools| && pc < |s.pools[p].state.calls| && AtRest(s.pools[p].state.calls[pc])))
  }

  lemma RestlessMoves(s: State, c: nat) returns (step: Step)
    requires Sound(s) && Alive(s) && c < |s.links| && !Resting(s, c)
    ensures Moving(step) && Enabled(s, step)
  {
    var x := s.caps.calls[c];
    assert LinkOk(s, c);
    if !x.phase.Admitted? {
      GC.ReceivesNeverBlock(s.caps, c);
      step := OnCaps(GC.Forward(s.caps, c));
    } else if s.links[c].None? {
      var p :| 0 <= p < |s.pools| && s.pools[p].db == x.db && s.pools[p].user == x.user;
      step := Enter(c, p);
    } else {
      var (p, pc) := s.links[c].value;
      assert SoundAt(s, p);
      NextPossible(s.pools[p].state, pc);
      step := InPool(p, NextStep(s.pools[p].state, pc));
    }
  }

  /** Behind every move there is a call that does not rest, or a Close under way. */
  lemma MoverIsRestless(s: State, step: Step) returns (c: nat, p: nat)
    requires Sound(s) && Enabled(s, step) && Moving(step)
    ensures (c < |s.links| && !Resting(s, c)) || (p < |s.pools| && Closing(s.pools[p].state.closer))
  {
    c, p := 0, 0;
    match step
    case OnCaps(cap) => c := cap.c;
    case Enter(d, _) => c := d;
    case InPool(q, st) =>
      p := q;
      OnlyTheRestless(s.pools[p].state, st);
      if !Closing(s.pools[p].state.closer) {
        assert OwnersOk(s, p);
        c := s.pools[p].owners[PL.Actor(st)];
        assert LinkOk(s, c);
      }
  }

  /** Every call rests and no Close is under way. */
  predicate AllRest(s: State)
    requires |s.links| == |s.caps.calls|
  {
    && (forall c :: 0 <= c < |s.links| ==> Resting(s, c))
    && (forall p :: 0 <= p < |s.pools| ==> !Closing(s.pools[p].state.closer))
  }

  lemma RestIsStall(s: State)
    requires Sound(s) && Alive(s)
    ensures Stalled(s) <==> AllRest(s)
  {
    if c :| 0 <= c < |s.links| && !Resting(s, c) {
      var step := RestlessMoves(s, c);
    } else if p :| 0 <= p < |s.pools| && Closing(s.pools[p].state.closer) {
      assert SoundAt(s, p);
      var st := ClosePossible(s.pools[p].state);
      assert Moving(InPool(p, st)) && Enabled(s, InPool(p, st));
    } else {
      forall step | Moving(step) ensures !Enabled(s, step) {
        if Enabled(s, step) { var d, q := MoverIsRestless(s, step); }
      }
    }
  }

  /** In every reachable state nothing moves but newcomers, cancels, and whoever opens, closes, resizes or
      sweeps a pool, if and only if no Close is under way and every call rests. */
  lemma StalledIff(maxDb: int, maxUser: int, steps: seq<Step>)
    requires Runs(Init(maxDb, maxUser), steps) && Alive(Exec(Init(maxDb, maxUser), steps))
    ensures var s := Exec(Init(maxDb, maxUser), steps);
            |s.links| == |s.caps.calls| && (Stalled(s) <==> AllRest(s))
  {
    InitSound(maxDb, maxUser);
    RunKeepsSound(Init(maxDb, maxUser), steps);
    RestIsStall(Exec(Init(maxDb, maxUser), steps));
  }

  /** The semaphores alone never deadlock: where nothing moves and a call waits for a token, another call
      that rests inside a pool, or has none to enter, holds one. */
  lemma BlockedBehindParked(s: State, c: nat) returns (d: nat)
    requires Sound(s) && Alive(s) && Stalled(s) && c < |s.links| && GC.Blocked(s.caps, c)
    ensures d < |s.links| && d != c && s.caps.calls[d].phase.Admitted? && Resting(s, d)
  {
    d := GC.NoDeadlock(s.caps, c);
    var step := OnCaps(GC.Forward(s.caps, d));
    assert GC.Forward(s.caps, d).Finish? || (Moving(step) && Enabled(s, step));
    if !Resting(s, d) { var other := RestlessMoves(s, d); }
  }

  // ---------------------------------------------------------------- every run of a pool is a run of the product

  /** Every call has entered a pool. */
  predicate AllIn(s: State) { forall c :: 0 <= c < |s.links| ==> s.links[c].Some? }

  /** One pool, no cap, and every call inside the pool. */
  ghost predicate Plain(s: State) {
    Sound(s) && Alive(s) && |s.pools| == 1 && s.caps.maxDb <= 0 && s.caps.maxUser <= 0 && AllIn(s)
  }

  lemma OneStep(s: State, step: Step)
    requires Enabled(s, step)
    ensures Runs(s, [step]) && Exec(s, [step]) == Do(s, step)
  {
    assert [step][1..] == [];
  }

  lemma Follow(s: State, steps: seq<Step>, t: State, step: Step) returns (more: seq<Step>, t': State)
    requires Runs(s, steps) && Exec(s, steps) == t && Enabled(t, step)
    ensures Runs(s, more) && Exec(s, more) == t' == Do(t, step)
  {
    OneStep(t, step);
    Joined(s, steps, [step]);
    more, t' := steps + [step], Do(t, step);
  }

  /** A newcomer at the semaphores. */
  lemma Comes(s: State) returns (steps: seq<Step>, t: State)
    requires Alive(s) && |s.pools| == 1
    ensures Runs(s, steps) && Exec(s, steps) == t && t.pools == s.pools && t.links == s.links + [None]
    ensures t.caps == s.caps.(calls := s.caps.calls + [GC.Call(s.pools[0].db, s.pools[0].user, GC.WantDb, 0, 0)])
  {
    var step := OnCaps(GC.Start(s.pools[0].db, s.pools[0].user));
    OneStep(s, step);
    steps, t := [step], Do(s, step);
  }

  /** The semaphores are off: it passes. */
  lemma Admitted(s: State) returns (steps: seq<Step>, t: State)
    requires Alive(s) && |s.pools| == 1 && s.caps.maxDb <= 0 && s.caps.maxUser <= 0
    ensures Runs(s, steps) && Exec(s, steps) == t && t.pools == s.pools && t.links == s.links + [None]
    ensures t.caps == s.caps.(calls := s.caps.calls + [GC.Call(s.pools[0].db, s.pools[0].user, GC.Admitted, 1, 0)])
  {
    var c, u := |s.caps.calls|, s;
    steps, u := Comes(s);
    var x := u.caps.calls[c];
    steps, t := Follow(s, steps, u, OnCaps(GC.TakeDb(c)));
    assert t.caps == u.caps.(calls := u.caps.calls[c := x.(phase := GC.WantUser)]);
    steps, t := Follow(s, steps, t, OnCaps(GC.TakeUser(c)));
  }

  /** And enters the only pool. */
  lemma Arrives(s: State) returns (steps: seq<Step>, t: State)
    requires Plain(s)
    ensures Runs(s, steps) && Exec(s, steps) == t && Plain(t)
    ensures t.pools[0].state == PP.Do(s.pools[0].state, PP.Start)
  {
    var u;
    steps, u := Admitted(s);
    steps, t := Follow(s, steps, u, Enter(|s.caps.calls|, 0));
    RunKeepsSound(s, steps);
  }

  /** One step of the pool, as a run of the product. */
  lemma EmbedsStep(s: State, st: PP.Step) returns (steps: seq<Step>, t: State)
    requires Plain(s) && PP.Enabled(s.pools[0].state, st) && !PP.Do(s.pools[0].state, st).dead
    ensures Runs(s, steps) && Exec(s, steps) == t && Plain(t) && t.pools[0].state == PP.Do(s.pools[0].state, st)
  {
    if st.Start? {
      steps, t := Arrives(s);
    } else {
      steps, t := [InPool(0, st)], Do(s, InPool(0, st));
      OneStep(s, InPool(0, st));
      StepKeepsSound(s, InPool(0, st));
    }
  }

  lemma {:induction false} EmbedsFrom(s: State, steps: seq<PP.Step>) returns (more: seq<Step>, t: State)
    requires Plain(s) && PP.Runs(s.pools[0].state, steps) && !PP.Exec(s.pools[0].state, steps).dead
    ensures Runs(s, more) && Exec(s, more) == t && Plain(t)
    ensures t.pools[0].state == PP.Exec(s.pools[0].state, steps)
    decreases |steps|
  {
    if steps == [] {
      more, t := [], s;
    } else {
      StaysAlive(s.pools[0].state, steps);
      var some, u := EmbedsStep(s, steps[0]);
      var rest;
      rest, t := EmbedsFrom(u, steps[1..]);
      Joined(s, some, rest);
      more := some + rest;
    }
  }

  /** Whatever state the calls of one pool can bring about, they bring about under the semaphores too. */
  lemma Embeds(size: nat, reserve: nat, steps: seq<PP.Step>) returns (more: seq<Step>)
    requires size >= 1 && PP.Runs(PP.Init(size, reserve), steps) && !PP.Exec(PP.Init(size, reserve), steps).dead
    ensures Runs(Init(0, 0), more) && Plain(Exec(Init(0, 0), more))
    ensures Exec(Init(0, 0), more).pools[0].state == PP.Exec(PP.Init(size, reserve), steps)
  {
    var open := Open("db", "user", size, reserve);
    InitSound(0, 0);
    OneStep(Init(0, 0), open);
    StepKeepsSound(Init(0, 0), open);
    var rest, t := EmbedsFrom(Do(Init(0, 0), open), steps);
    Joined(Init(0, 0), [open], rest);
    more := [open] + rest;
  }
}
