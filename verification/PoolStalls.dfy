/** Runs after which a parked call stays parked, with nobody to wake it, in a pool and under the
    semaphores. */
module PoolStalls {
  import opened PoolProtocol
  import opened PoolRaces
  import PP = PoolPermits
  import Drain = PermitsDrain

  /** Every call is over or parked for good, some are parked, and no Close is under way. */
  predicate Stalls(s: State) {
    && !s.dead && !Drain.Closing(s.closer)
    && (forall c :: 0 <= c < |s.calls| ==> Drain.AtRest(s.calls[c]))
    && (exists c :: 0 <= c < |s.calls| && PD.Parked(s.calls[c]))
  }

  /** The client of the only backend discards it: the slot is free, and the parked call is not told. */
  lemma DiscardLeavesParked() returns (steps: seq<Step>)
    ensures Runs(Init(1, 0), steps)
    ensures var t := Exec(Init(1, 0), steps); Stalls(t) && t.active == 0 && t.closer.Open?
  {
    var s, t := Init(1, 0), Init(1, 0);
    steps, t := SecondParks(0);
    steps, t := Next(s, steps, t, Discard(0));
    assert t.calls == [Call(Done, Empty, false), Call(Waiting(false), Empty, false)];
    assert PD.Parked(t.calls[1]);
  }

  lemma SecondLoads() returns (steps: seq<Step>, t: State)
    ensures Reached(Init(1, 0), steps, t)
    ensures t == State(1, 0, [], 1, Open, [], [Call(Holding(0), Empty, false), Call(Loaded(1), Empty, false)], false,
                       1, [], 0, [], [], {})
  {
    var s := Init(1, 0);
    steps, t := HoldsFirst(0);
    steps, t := Next(s, steps, t, Start);
    steps, t := Next(s, steps, t, CheckClosed(1));
    steps, t := Next(s, steps, t, PollIdle(1));
    steps, t := Next(s, steps, t, LoadActive(1));
  }

  lemma FirstFindsNobody() returns (steps: seq<Step>, t: State)
    ensures Reached(Init(1, 0), steps, t)
    ensures t == State(1, 0, [], 1, Open, [], [Call(ToIdle(0), Empty, false), Call(Loaded(1), Empty, false)], false,
                       1, [], 0, [], [], {})
  {
    var s := Init(1, 0);
    steps, t := SecondLoads();
    steps, t := Next(s, steps, t, ReleaseReset(0, true));
    steps, t := Next(s, steps, t, ReleaseCheckClosed(0));
    steps, t := Next(s, steps, t, ReleaseTakeWaiter(0));
  }

  /** A call that parks after the release has looked at the queue waits beside an idle backend. */
  lemma ParksAfterTheLook() returns (steps: seq<Step>)
    ensures Runs(Init(1, 0), steps)
    ensures var t := Exec(Init(1, 0), steps); Stalls(t) && t.idle == [0] && t.active == 0 && t.closer.Open?
  {
    var s, t := Init(1, 0), Init(1, 0);
    steps, t := FirstFindsNobody();
    steps, t := Next(s, steps, t, Park(1));
    steps, t := Next(s, steps, t, ReleasePush(0));
    steps, t := Next(s, steps, t, ReleaseUncount(0));
    assert t.calls == [Call(Done, Empty, false), Call(Waiting(false), Empty, false)];
    assert PD.Parked(t.calls[1]);
  }

  /** After a stranded slot: two calls are over, the backend is idle, and the count is full. */
  lemma StrandedSlot() returns (steps: seq<Step>, t: State)
    ensures Reached(Init(1, 0), steps, t)
    ensures t == Parked(0).(waiters := [], taken := [1], idle := [0], drained := 1,
                            calls := [Call(Done, Empty, false), Call(Done, Empty, true)])
  {
    var s := Init(1, 0);
    steps, t := CancelTakesBack();
    steps, t := Next(s, steps, t, CancelCheck(1));
    steps, t := Next(s, steps, t, CancelPush(1));
  }

  lemma ThirdDiscards() returns (steps: seq<Step>, t: State)
    ensures Reached(Init(1, 0), steps, t)
    ensures t == Parked(0).(waiters := [], taken := [1], gone := [0], drained := 1,
                            calls := [Call(Done, Empty, false), Call(Done, Empty, true), Call(Done, Empty, false)])
  {
    var s := Init(1, 0);
    steps, t := StrandedSlot();
    steps, t := Next(s, steps, t, Start);
    steps, t := Next(s, steps, t, CheckClosed(2));
    steps, t := Next(s, steps, t, PollIdle(2));
    steps, t := Next(s, steps, t, CountPopped(2));
    steps, t := Next(s, steps, t, Discard(2));
  }

  /** With every slot stranded whoever comes parks, and no newcomer can ever help. */
  lemma StrandedSlotsStall() returns (steps: seq<Step>)
    ensures Runs(Init(1, 0), steps)
    ensures var t := Exec(Init(1, 0), steps); Stalls(t) && t.active == t.size == 1 && t.idle == [] && t.closer.Open?
  {
    var s, t := Init(1, 0), Init(1, 0);
    steps, t := ThirdDiscards();
    steps, t := Next(s, steps, t, Start);
    steps, t := Next(s, steps, t, CheckClosed(3));
    steps, t := Next(s, steps, t, PollIdle(3));
    steps, t := Next(s, steps, t, LoadActive(3));
    steps, t := Next(s, steps, t, Park(3));
    assert t.calls == [Call(Done, Empty, false), Call(Done, Empty, true), Call(Done, Empty, false),
                       Call(Waiting(false), Empty, false)];
    assert PD.Parked(t.calls[3]);
  }

  lemma ClosesUnderLoaded() returns (steps: seq<Step>, t: State)
    ensures Reached(Init(1, 0), steps, t)
    ensures t == State(1, 0, [], 1, Waking([]), [], [Call(Holding(0), Empty, false), Call(Loaded(1), Empty, false)],
                       false, 1, [], 0, [], [], {})
  {
    var s := Init(1, 0);
    steps, t := DrainsUnderLoaded();
    steps, t := Next(s, steps, t, CloseTake);
    assert (set w: CallId | w in []) == {};
  }

  lemma DrainsUnderLoaded() returns (steps: seq<Step>, t: State)
    ensures Reached(Init(1, 0), steps, t)
    ensures t == State(1, 0, [], 1, Drained, [], [Call(Holding(0), Empty, false), Call(Loaded(1), Empty, false)],
                       false, 1, [], 0, [], [], {})
  {
    var s := Init(1, 0);
    steps, t := SecondLoads();
    steps, t := Next(s, steps, t, CloseMark);
    steps, t := Next(s, steps, t, CloseDrain);
  }

  /** A call that was past its look at the closed flag parks after Close has taken the queue. */
  lemma ParksAfterClose() returns (steps: seq<Step>)
    ensures Runs(Init(1, 0), steps)
    ensures var t := Exec(Init(1, 0), steps); Stalls(t) && t.closer.Waking?
  {
    var s, t := Init(1, 0), Init(1, 0);
    steps, t := ClosesUnderLoaded();
    steps, t := Next(s, steps, t, Park(1));
    steps, t := Next(s, steps, t, Discard(0));
    assert t.calls == [Call(Done, Empty, false), Call(Waiting(false), Empty, false)];
    assert PD.Parked(t.calls[1]);
  }

  /** Under the semaphores: such a pool stops everything but newcomers, cancels, and whoever closes, resizes
      or sweeps, and the parked call keeps its tokens. */
  lemma StallsUnderCaps(size: nat, reserve: nat, steps: seq<Step>) returns (more: seq<PP.Step>, c: nat)
    requires size >= 1 && Runs(Init(size, reserve), steps) && Stalls(Exec(Init(size, reserve), steps))
    ensures PP.Runs(PP.Init(0, 0), more)
    ensures var t := PP.Exec(PP.Init(0, 0), more);
            Drain.Stalled(t) && c < |t.caps.calls| && t.caps.calls[c].phase.Admitted?
  {
    var t;
    more, t := Settles(size, reserve, steps);
    c := StalledThere(t);
  }

  /** The pool's run under the semaphores, with every token given back that can be. */
  lemma Settles(size: nat, reserve: nat, steps: seq<Step>) returns (more: seq<PP.Step>, t: PP.State)
    requires size >= 1 && Runs(Init(size, reserve), steps) && !Exec(Init(size, reserve), steps).dead
    ensures PP.Runs(PP.Init(0, 0), more) && t == PP.Exec(PP.Init(0, 0), more)
    ensures Drain.Sound(t) && PP.Alive(t) && |t.pools| == 1 && Drain.AllIn(t)
    ensures t.pools[0].state == Exec(Init(size, reserve), steps)
    ensures forall d :: 0 <= d < |t.caps.calls| ==> !Drain.Owing(t.caps.calls[d])
  {
    var a := Drain.Embeds(size, reserve, steps);
    var b;
    b, t := Drain.TokensBack(PP.Exec(PP.Init(0, 0), a));
    Drain.Joined(PP.Init(0, 0), a, b);
    more := a + b;
  }

  lemma StalledThere(t: PP.State) returns (c: nat)
    requires Drain.Sound(t) && PP.Alive(t) && |t.pools| == 1 && Drain.AllIn(t) && Stalls(t.pools[0].state)
    requires forall d :: 0 <= d < |t.caps.calls| ==> !Drain.Owing(t.caps.calls[d])
    ensures Drain.Stalled(t) && c < |t.caps.calls| && t.caps.calls[c].phase.Admitted?
  {
    forall d | 0 <= d < |t.links| ensures Drain.Resting(t, d) { RestsThere(t, d); }
    Drain.RestIsStall(t);
    var pc :| 0 <= pc < |t.pools[0].state.calls| && PD.Parked(t.pools[0].state.calls[pc]);
    assert PP.OwnersOk(t, 0);
    c := t.pools[0].owners[pc];
    assert PP.LinkOk(t, c);
  }

  lemma RestsThere(t: PP.State, d: nat)
    requires Drain.Sound(t) && |t.pools| == 1 && Drain.AllIn(t) && d < |t.links| && !Drain.Owing(t.caps.calls[d])
    requires forall pc :: 0 <= pc < |t.pools[0].state.calls| ==> Drain.AtRest(t.pools[0].state.calls[pc])
    ensures Drain.Resting(t, d)
  {
    assert PP.LinkOk(t, d);
  }
}
