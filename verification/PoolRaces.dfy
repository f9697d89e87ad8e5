/** The pool's races, each in a run from the start: a hand-off that loses to a cancel or to a reserve
    timer, and a cancel that loses to Close. */
module PoolRaces {
  import opened PoolProtocol
  import opened PoolLedger
  import opened PoolTheorems
  import PB = PoolBounds
  import PD = PoolDrain

  lemma {:induction false} Extend(s: State, steps: seq<Step>, st: Step)
    requires Runs(s, steps) && Enabled(Exec(s, steps), st)
    ensures Runs(s, steps + [st]) && Exec(s, steps + [st]) == Do(Exec(s, steps), st)
    decreases |steps|
  {
    if steps == [] {
      assert [st][1..] == [] && steps + [st] == [st];
    } else {
      Extend(Do(s, steps[0]), steps[1..], st);
      assert (steps + [st])[1..] == steps[1..] + [st];
    }
  }

  predicate Reached(s: State, steps: seq<Step>, t: State) { Runs(s, steps) && Exec(s, steps) == t }

  lemma Next(s: State, steps: seq<Step>, t: State, st: Step) returns (more: seq<Step>, t': State)
    requires Reached(s, steps, t) && Enabled(t, st)
    ensures t' == Do(t, st) && Reached(s, more, t')
  {
    Extend(s, steps, st);
    more, t' := steps + [st], Do(t, st);
  }

  /** A pool of size one: call 0 holds backend 0, call 1 is parked. */
  function Parked(reserve: nat): State {
    State(1, reserve, [], 1, Open, [1],
          [Call(Holding(0), Empty, false), Call(Waiting(reserve > 0), Empty, false)], false, 1, [], 0, [1], [], {})
  }

  lemma HoldsFirst(reserve: nat) returns (steps: seq<Step>, t: State)
    ensures Reached(Init(1, reserve), steps, t)
    ensures t == State(1, reserve, [], 1, Open, [], [Call(Holding(0), Empty, false)], false, 1, [], 0, [], [], {})
  {
    var s := Init(1, reserve);
    steps, t := [], s;
    steps, t := Next(s, steps, t, Start);
    steps, t := Next(s, steps, t, CheckClosed(0));
    steps, t := Next(s, steps, t, PollIdle(0));
    steps, t := Next(s, steps, t, LoadActive(0));
    steps, t := Next(s, steps, t, TryCas(0));
    steps, t := Next(s, steps, t, DialOk(0));
  }

  lemma SecondParks(reserve: nat) returns (steps: seq<Step>, t: State)
    ensures Reached(Init(1, reserve), steps, t) && t == Parked(reserve)
  {
    var s := Init(1, reserve);
    steps, t := HoldsFirst(reserve);
    steps, t := Next(s, steps, t, Start);
    steps, t := Next(s, steps, t, CheckClosed(1));
    steps, t := Next(s, steps, t, PollIdle(1));
    steps, t := Next(s, steps, t, LoadActive(1));
    steps, t := Next(s, steps, t, Park(1));
  }

  /** Call 0 has taken the parked call and is about to send. */
  lemma FirstTakesSecond(reserve: nat) returns (steps: seq<Step>, t: State)
    ensures Reached(Init(1, reserve), steps, t)
    ensures t == Parked(reserve).(waiters := [], taken := [1],
                                  calls := [Call(Sending(0, 1), Empty, false),
                                            Call(Waiting(reserve > 0), Empty, false)])
  {
    var s := Init(1, reserve);
    steps, t := SecondParks(reserve);
    steps, t := Next(s, steps, t, ReleaseReset(0, true));
    steps, t := Next(s, steps, t, ReleaseCheckClosed(0));
    steps, t := Next(s, steps, t, ReleaseTakeWaiter(0));
  }

  lemma SumOfTwo(x: Call, y: Call, f: Call -> nat)
    ensures Sum([x, y], f) == f(x) + f(y)
  {
    assert [x, y][1..] == [y] && [y][1..] == [];
    assert Sum([y], f) == f(y) + Sum([], f);
  }

  lemma CancelMeetsSend() returns (steps: seq<Step>, t: State)
    ensures Reached(Init(1, 0), steps, t)
    ensures t == Parked(0).(waiters := [], taken := [1],
                            calls := [Call(Done, Empty, false), Call(CancelMarked, Full(0), true)])
  {
    var s := Init(1, 0);
    steps, t := FirstTakesSecond(0);
    steps, t := Next(s, steps, t, Cancel(1));
    steps, t := Next(s, steps, t, ReleaseSend(0));
  }

  /** The cancelled call finds the backend in its channel. */
  lemma CancelTakesBack() returns (steps: seq<Step>, t: State)
    ensures Reached(Init(1, 0), steps, t)
    ensures t == Parked(0).(waiters := [], taken := [1],
                            calls := [Call(Done, Empty, false), Call(CancelTook(0), Empty, true)])
  {
    var s := Init(1, 0);
    steps, t := CancelMeetsSend();
    steps, t := Next(s, steps, t, CancelDequeue(1));
    steps, t := Next(s, steps, t, CancelDrain(1));
  }

  /** A cancel between the taking and the sending: every call ends, the backend is idle again, and a
      slot stays counted for good. */
  lemma CancelStrands() returns (steps: seq<Step>)
    ensures Runs(Init(1, 0), steps)
    ensures var t := Exec(Init(1, 0), steps); PD.AllDone(t) && t.active == 1 && Stranded(t) == 1 && t.idle == [0]
  {
    var s, t := Init(1, 0), Init(1, 0);
    steps, t := CancelTakesBack();
    steps, t := Next(s, steps, t, CancelCheck(1));
    steps, t := Next(s, steps, t, CancelPush(1));
    assert t.calls == [Call(Done, Empty, false), Call(Done, Empty, true)];
    SumOfTwo(t.calls[0], t.calls[1], OrphanOf);
  }

  lemma TimerMeetsSend() returns (steps: seq<Step>, t: State)
    ensures Reached(Init(1, 1), steps, t)
    ensures t == Parked(1).(waiters := [], taken := [1],
                            calls := [Call(Done, Empty, false), Call(ReserveWon, Full(0), false)])
  {
    var s := Init(1, 1);
    steps, t := FirstTakesSecond(1);
    steps, t := Next(s, steps, t, ReserveTimer(1));
    steps, t := Next(s, steps, t, ReleaseSend(0));
  }

  lemma TimerDials() returns (steps: seq<Step>, t: State)
    ensures Reached(Init(1, 1), steps, t)
    ensures t == Parked(1).(waiters := [], taken := [1], active := 2, dialed := 2,
                            calls := [Call(Done, Empty, false), Call(Holding(1), Full(0), false)])
  {
    var s := Init(1, 1);
    steps, t := TimerMeetsSend();
    steps, t := Next(s, steps, t, ReserveCount(1));
    steps, t := Next(s, steps, t, DialOk(1));
  }

  /** A reserve timer between the taking and the sending: the waiter dials for itself, and the backend
      sent to it stays in its channel, open and counted, when every call has ended. */
  lemma TimerStrands() returns (steps: seq<Step>)
    ensures Runs(Init(1, 1), steps)
    ensures var t := Exec(Init(1, 1), steps);
            PD.AllDone(t) && t.active == 1 && Stranded(t) == 1 && t.idle == [] && 0 !in t.gone
  {
    var s, t := Init(1, 1), Init(1, 1);
    steps, t := TimerDials();
    steps, t := Next(s, steps, t, Discard(1));
    assert t.calls == [Call(Done, Empty, false), Call(Done, Full(0), false)];
    SumOfTwo(t.calls[0], t.calls[1], OrphanOf);
  }

  // ---------------------------------------------------------------- a cancel against Close

  /** Close has closed the call's channel. */
  predicate Woken(s: State, steps: seq<Step>, c: CallId)
    requires Runs(s, steps)
    decreases |steps|
  {
    steps != [] &&
    ((steps[0].CloseOne? && c == s.closer.todo[0]) || Woken(Do(s, steps[0]), steps[1..], c))
  }

  predicate ChanClosed(s: State, c: CallId) { c < |s.calls| && s.calls[c].ch.Closed? }

  lemma OwnChan(s: State, st: Step)
    requires Enabled(s, st) && Actor(st) >= 0
    ensures Do(s, st).calls[Actor(st)].ch.Closed? <==> s.calls[Actor(st)].ch.Closed?
  {
  }

  lemma StepCloses(s: State, st: Step, c: CallId)
    requires QueueInv(s) && Enabled(s, st)
    ensures ChanClosed(Do(s, st), c) <==> ChanClosed(s, c) || (st.CloseOne? && c == s.closer.todo[0])
  {
    if c < |s.calls| {
      if c == Actor(st) { OwnChan(s, st); } else { PB.OthersChan(s, st, c); }
    }
  }

  lemma {:induction false} ClosedIffWoken(s: State, steps: seq<Step>, c: CallId)
    requires Inv(s) && Runs(s, steps)
    ensures ChanClosed(Exec(s, steps), c) <==> ChanClosed(s, c) || Woken(s, steps, c)
    decreases |steps|
  {
    if steps != [] {
      StepCloses(s, steps[0], c);
      StepKeepsInv(s, steps[0]);
      ClosedIffWoken(Do(s, steps[0]), steps[1..], c);
    }
  }

  lemma OnlyDrainCrashes(s: State, st: Step)
    requires Enabled(s, st)
    ensures Do(s, st).dead <==> st.CancelDrain? && s.calls[st.c].ch.Closed?
  {
  }

  /** In every run a step crashes the process if and only if it is the end of a call's cancellation and
      Close has closed that call's channel by then. */
  lemma CrashesIff(size: nat, reserve: nat, steps: seq<Step>, st: Step)
    requires Runs(Init(size, reserve), steps) && Enabled(Exec(Init(size, reserve), steps), st)
    ensures Do(Exec(Init(size, reserve), steps), st).dead
            <==> st.CancelDrain? && Woken(Init(size, reserve), steps, st.c)
  {
    InitInv(size, reserve);
    if st.CancelDrain? { ClosedIffWoken(Init(size, reserve), steps, st.c); }
    OnlyDrainCrashes(Exec(Init(size, reserve), steps), st);
  }

  lemma ClosesOverParked() returns (steps: seq<Step>, t: State)
    ensures Reached(Init(1, 0), steps, t) && t == Parked(0).(closer := Waking([1]), waiters := [], left := {1})
  {
    var s := Init(1, 0);
    steps, t := DrainsOverParked();
    steps, t := Next(s, steps, t, CloseTake);
    assert (set w | w in [1]) == {1};
  }

  lemma DrainsOverParked() returns (steps: seq<Step>, t: State)
    ensures Reached(Init(1, 0), steps, t) && t == Parked(0).(closer := Drained)
  {
    var s := Init(1, 0);
    steps, t := SecondParks(0);
    steps, t := Next(s, steps, t, CloseMark);
    steps, t := Next(s, steps, t, CloseDrain);
  }

  /** The parked call, its cancel as good as done, before Close has come to its channel. */
  lemma CancelsUnwoken() returns (steps: seq<Step>, t: State)
    ensures Reached(Init(1, 0), steps, t)
    ensures t == Parked(0).(closer := Waking([1]), waiters := [], left := {1},
                            calls := [Call(Holding(0), Empty, false), Call(CancelDequeued, Empty, true)])
  {
    var s := Init(1, 0);
    steps, t := ClosesOverParked();
    steps, t := Next(s, steps, t, Cancel(1));
    steps, t := Next(s, steps, t, CancelDequeue(1));
  }

  /** A parked call whose channel is closed before its cancel is complete. */
  lemma CancelRacingCloseCrashes() returns (steps: seq<Step>)
    ensures Runs(Init(1, 0), steps) && Exec(Init(1, 0), steps).dead
  {
    var s, t := Init(1, 0), Init(1, 0);
    steps, t := CancelsUnwoken();
    steps, t := Next(s, steps, t, CloseOne);
    steps, t := Next(s, steps, t, CancelDrain(1));
  }

  /** The same call, its cancel complete after Close took the queue and before it closed the channel: it
      ends, and so does Close. */
  lemma CancelBeforeWakeEnds() returns (steps: seq<Step>)
    ensures Runs(Init(1, 0), steps)
    ensures var t := Exec(Init(1, 0), steps);
            !t.dead && t.closer == Waking([]) && |t.calls| == 2 && t.calls[1] == Call(Done, Chan.Closed, true)
  {
    var s, t := Init(1, 0), Init(1, 0);
    steps, t := CancelsUnwoken();
    steps, t := Next(s, steps, t, CancelDrain(1));
    steps, t := Next(s, steps, t, CloseOne);
  }
  // ---------------------------------------------------------------- two reserve timers

  /** Call 0 holds the one regular backend; calls 1 and 2 are parked with their timers armed. */
  lemma TwoPark() returns (steps: seq<Step>, t: State)
    ensures Reached(Init(1, 1), steps, t)
    ensures t == Parked(1).(waiters := [1, 2], parked := [1, 2],
                            calls := [Call(Holding(0), Empty, false), Call(Waiting(true), Empty, false),
                                      Call(Waiting(true), Empty, false)])
  {
    var s := Init(1, 1);
    steps, t := SecondParks(1);
    steps, t := Next(s, steps, t, Start);
    steps, t := Next(s, steps, t, CheckClosed(2));
    steps, t := Next(s, steps, t, PollIdle(2));
    steps, t := Next(s, steps, t, LoadActive(2));
    steps, t := Next(s, steps, t, Park(2));
  }

  /** Both timers see room for one reserve backend before either is counted. */
  lemma BothTimersFire() returns (steps: seq<Step>, t: State)
    ensures Reached(Init(1, 1), steps, t)
    ensures t.active == 1 && !t.dead
    ensures t.calls == [Call(Holding(0), Empty, false), Call(ReserveWon, Empty, false), Call(ReserveWon, Empty, false)]
  {
    var s := Init(1, 1);
    steps, t := TwoPark();
    steps, t := Next(s, steps, t, ReserveTimer(1));
    steps, t := Next(s, steps, t, ReserveTimer(2));
  }

  /** Two reserve timers that fire before either dial is counted: a pool of size one with a reserve of
      one has three live backends. */
  lemma TwoTimersExceedReserve() returns (steps: seq<Step>)
    ensures Runs(Init(1, 1), steps)
    ensures Exec(Init(1, 1), steps).active == 3 && PB.Live(Exec(Init(1, 1), steps)) >= 3
  {
    var s, t := Init(1, 1), Init(1, 1);
    steps, t := BothTimersFire();
    steps, t := Next(s, steps, t, ReserveCount(1));
    steps, t := Next(s, steps, t, ReserveCount(2));
    var x, d := Call(Holding(0), Empty, false), Call(Dialing, Empty, false);
    assert t.calls == [x, d, d] && [x, d, d][1..] == [d, d];
    SumOfTwo(d, d, PB.LiveOf);
  }
}
