/** Towards the end of an open pool's calls: while it is not stuck, some call can be brought a step nearer
    to its end and leave it so. */
module PoolFinish {
  import opened Counting
  import opened PoolProtocol
  import opened PoolLedger
  import opened PoolDrain

  // ---------------------------------------------------------------- how far there is to go

  function PollerOf(x: Call): nat { Indicator(Poller(x.phase)) }

  function RankOf(x: Call): nat {
    match x.phase
    case Done => 0
    case Pushed => 1
    case Rejected(_) => 1
    case CancelKeeps(_) => 1
    case CancelTook(_) => 2
    case CancelDequeued => 3
    case ToIdle(_) => 2
    case CancelMarked => 4
    case Handing(_) => 3
    case Sending(_, _) => 4
    case Returning(_) => 5
    case Holding(_) => 6
    case Popped(_) => 7
    case Dialing => 7
    case ReserveWon => 8
    case Waiting(armed) => if !x.ch.Empty? then 7 else if armed then 10 else 9
    case PolledEmpty => 11
    case Checked => 12
    case Polling => 13
    case Loaded(_) => 14
  }

  function CloserRank(closer: Closer): nat {
    match closer
    case Open => 0
    case Marked => 2
    case Drained => 1
    case Waking(_) => 0
  }

  function Pollers(s: State): nat { Sum(s.calls, PollerOf) }
  function Ranks(s: State): nat { Sum(s.calls, RankOf) }

  /** Closer to the end: fewer calls that have yet to park, or a Close further on, or a shorter queue, or
      fewer waiters for Close to wake, or calls further on. */
  predicate Nearer(t: State, s: State) {
    || Pollers(t) < Pollers(s)
    || (Pollers(t) == Pollers(s)
        && (|| CloserRank(t.closer) < CloserRank(s.closer)
            || (CloserRank(t.closer) == CloserRank(s.closer)
                && (|| |t.waiters| < |s.waiters|
                    || (|t.waiters| == |s.waiters|
                        && (|| |Todo(t.closer)| < |Todo(s.closer)|
                            || (|Todo(t.closer)| == |Todo(s.closer)| && Ranks(t) < Ranks(s))))))))
  }

  lemma OneCallUpdate(s: State, st: Step)
    requires Enabled(s, st) && OneCallStep(st)
    ensures var s', c := Do(s, st), Actor(st);
            0 <= c < |s.calls| && s'.calls == s.calls[c := s'.calls[c]] && s'.closer == s.closer
  {
  }

  /** What a step that changes one call does to its own call and to the queue brings the end nearer. */
  predicate Down(s: State, st: Step)
    requires Enabled(s, st) && OneCallStep(st)
  {
    OneCallUpdate(s, st);
    var x, x', w, w' := s.calls[Actor(st)], Do(s, st).calls[Actor(st)], |s.waiters|, |Do(s, st).waiters|;
    || PollerOf(x') < PollerOf(x)
    || (PollerOf(x') == PollerOf(x) && (w' < w || (w' == w && RankOf(x') < RankOf(x))))
  }

  lemma DownIsNearer(s: State, st: Step)
    requires Enabled(s, st) && OneCallStep(st) && Down(s, st)
    ensures Nearer(Do(s, st), s)
  {
    OneCallUpdate(s, st);
    SumUpdate(s.calls, Actor(st), Do(s, st).calls[Actor(st)], PollerOf);
    SumUpdate(s.calls, Actor(st), Do(s, st).calls[Actor(st)], RankOf);
  }

  lemma SendIsNearer(s: State, c: CallId)
    requires Enabled(s, ReleaseSend(c))
    ensures Nearer(Do(s, ReleaseSend(c)), s)
  {
    var to, x := s.calls[c].phase.to, s.calls[c].(phase := Done);
    var t := s.calls[c := x];
    HandOffSplits(s.calls, c, PollerOf, 0);
    SumUpdate(s.calls, c, x, RankOf);
    SumUpdate(t, to, t[to].(ch := Full(s.calls[c].phase.b)), RankOf);
  }

  // ---------------------------------------------------------------- runs of one or two steps

  /** A short run that brings the end nearer and leaves the pool sound. */
  ghost predicate Gains(s: State, steps: seq<Step>, t: State) {
    Runs(s, steps) && AllOnward(steps) && Exec(s, steps) == t && Sound(t) && !t.dead && Nearer(t, s)
  }

  lemma Single(s: State, st: Step)
    requires Enabled(s, st)
    ensures Runs(s, [st]) && Exec(s, [st]) == Do(s, st)
  {
    assert [st][1..] == [];
  }

  lemma One(s: State, st: Step)
    requires Sound(s) && Enabled(s, st) && Onward(st) && !Do(s, st).dead && Nearer(Do(s, st), s)
    ensures Gains(s, [st], Do(s, st))
  {
    Single(s, st);
    StepKeepsSound(s, st);
  }

  lemma Two(s: State, a: Step, b: Step)
    requires Sound(s) && Enabled(s, a) && Onward(a) && Onward(b) && Enabled(Do(s, a), b)
    requires !Do(Do(s, a), b).dead && Nearer(Do(Do(s, a), b), s)
    ensures Gains(s, [a, b], Do(Do(s, a), b))
  {
    var u := Do(s, a);
    assert [a, b][1..] == [b];
    Single(u, b);
    StepKeepsSound(s, a);
    StepKeepsSound(u, b);
  }

  /** Nothing but the call, the queue, the idle channel and the counts has changed. */
  predicate OnlyCall(s: State, t: State, c: CallId) {
    && |t.calls| == |s.calls| && c < |s.calls| && t.calls == s.calls[c := t.calls[c]]
    && t.size == s.size && t.reserve == s.reserve && t.closer == s.closer
  }

  // ---------------------------------------------------------------- a call that has yet to park

  function PollerStep(s: State, c: CallId): Step
    requires c < |s.calls| && Poller(s.calls[c].phase)
  {
    match s.calls[c].phase
    case Polling => CheckClosed(c)
    case Checked => PollIdle(c)
    case PolledEmpty => LoadActive(c)
    case Loaded(cur) => if cur < s.size then TryCas(c) else Park(c)
  }

  lemma EmptyPollerMoves(s: State, c: CallId) returns (steps: seq<Step>, t: State)
    requires Sound(s) && !s.dead && c < |s.calls| && s.calls[c].phase.PolledEmpty?
    ensures Gains(s, steps, t) && OnlyCall(s, t, c)
    ensures if s.active < s.size then t.calls[c].phase.Dialing?
            else t.calls[c].phase == Waiting(s.reserve > 0) && t.active == s.active && t.calls[c].ch == s.calls[c].ch
  {
    var u := Do(s, LoadActive(c));
    var next := if s.active < s.size then TryCas(c) else Park(c);
    t := Do(u, next);
    assert t.calls == s.calls[c := t.calls[c]];
    SumUpdate(s.calls, c, t.calls[c], PollerOf);
    Two(s, LoadActive(c), next);
    steps := [LoadActive(c), next];
  }

  lemma OtherPollerMoves(s: State, c: CallId) returns (steps: seq<Step>, t: State)
    requires Sound(s) && !s.dead && c < |s.calls| && Poller(s.calls[c].phase) && !s.calls[c].phase.PolledEmpty?
    ensures Gains(s, steps, t) && OnlyCall(s, t, c) && t == Do(s, PollerStep(s, c))
  {
    var st := PollerStep(s, c);
    OneCallUpdate(s, st);
    assert Down(s, st);
    DownIsNearer(s, st);
    One(s, st);
    steps, t := [st], Do(s, st);
  }

  lemma PollerMoves(s: State, c: CallId) returns (steps: seq<Step>, t: State)
    requires Sound(s) && !s.dead && c < |s.calls| && Poller(s.calls[c].phase)
    ensures Gains(s, steps, t) && OnlyCall(s, t, c)
  {
    if s.calls[c].phase.PolledEmpty? {
      steps, t := EmptyPollerMoves(s, c);
    } else {
      steps, t := OtherPollerMoves(s, c);
    }
  }

  // ---------------------------------------------------------------- a call that only has to end

  /** Past the queue, or cancelled, or about to send to somebody who is not waiting any more. */
  predicate Finishing(calls: seq<Call>, x: Call) {
    || x.phase.ToIdle? || x.phase.Pushed? || x.phase.Rejected?
    || x.phase.CancelMarked? || x.phase.CancelDequeued? || x.phase.CancelTook? || x.phase.CancelKeeps?
    || (x.phase.Sending? && !Supplies(calls, x))
  }

  function FinishStep(s: State, c: CallId): Step
    requires c < |s.calls| && Finishing(s.calls, s.calls[c])
  {
    match s.calls[c].phase
    case ToIdle(_) => ReleasePush(c)
    case CancelMarked => CancelDequeue(c)
    case CancelDequeued => CancelDrain(c)
    case CancelTook(_) => CancelCheck(c)
    case CancelKeeps(_) => CancelPush(c)
    case Sending(_, _) => ReleaseSend(c)
    case _ => ReleaseUncount(c)
  }

  lemma FinishPossible(s: State, c: CallId)
    requires QueueInv(s) && !s.dead && !s.closer.Waking? && c < |s.calls| && Finishing(s.calls, s.calls[c])
    ensures var st := FinishStep(s, c);
            Enabled(s, st) && Onward(st) && Idles(s, st) && Actor(st) == c && !Do(s, st).dead
  {
    assert CallOk(s.calls[c], s.closer);
    if s.calls[c].phase.Sending? { assert TakenOk(s.waiters, Todo(s.closer), s.calls, s.calls[c].phase.to); }
  }

  lemma WithoutShorter(q: seq<CallId>, c: CallId)
    ensures |Without(q, c)| <= |q|
  {
  }

  lemma FinishNearer(s: State, c: CallId)
    requires QueueInv(s) && !s.dead && !s.closer.Waking? && c < |s.calls| && Finishing(s.calls, s.calls[c])
    ensures Enabled(s, FinishStep(s, c)) && Nearer(Do(s, FinishStep(s, c)), s)
  {
    var st := FinishStep(s, c);
    FinishPossible(s, c);
    if st.ReleaseSend? {
      SendIsNearer(s, c);
    } else {
      FinishDown(s, c);
      DownIsNearer(s, st);
    }
  }

  lemma FinishDown(s: State, c: CallId)
    requires c < |s.calls| && Finishing(s.calls, s.calls[c]) && !s.calls[c].phase.Sending?
    requires Enabled(s, FinishStep(s, c)) && !Do(s, FinishStep(s, c)).dead && OneCallStep(FinishStep(s, c))
    ensures Down(s, FinishStep(s, c))
  {
    WithoutShorter(s.waiters, c);
  }

  lemma FinishMoves(s: State, c: CallId) returns (steps: seq<Step>, t: State)
    requires Sound(s) && !s.dead && !s.closer.Waking? && c < |s.calls| && Finishing(s.calls, s.calls[c])
    ensures Enabled(s, FinishStep(s, c)) && t == Do(s, FinishStep(s, c))
    ensures Gains(s, steps, t)
  {
    FinishPossible(s, c);
    FinishNearer(s, c);
    One(s, FinishStep(s, c));
    steps, t := [FinishStep(s, c)], Do(s, FinishStep(s, c));
  }

  /** What is in the idle channel, or on its way there, is still so. */
  lemma FinishKeepsStock(s: State, c: CallId)
    requires Sound(s) && !s.dead && s.closer.Open? && c < |s.calls| && Finishing(s.calls, s.calls[c]) && Stock(s)
    requires Enabled(s, FinishStep(s, c))
    ensures Stock(Do(s, FinishStep(s, c)))
  {
    var st := FinishStep(s, c);
    var t := Do(s, st);
    if t.idle == [] {
      var d :| 0 <= d < |s.calls| && Refills(s.calls[d]);
      if d != c {
        FinishPossible(s, c);
        PB.OthersStay(s, st, d);
        PB.OthersChan(s, st, d);
        assert Refills(t.calls[d]);
      } else {
        assert Refills(t.calls[c]);
      }
    }
  }

  /** A call that helps still does after another call has finished a bit more. */
  lemma FinishKeepsHelp(s: State, c: CallId, h: CallId)
    requires Sound(s) && !s.dead && s.closer.Open? && c < |s.calls| && Finishing(s.calls, s.calls[c])
    requires Enabled(s, FinishStep(s, c)) && h != c && Helps(s, h)
    ensures Helps(Do(s, FinishStep(s, c)), h)
  {
    var st := FinishStep(s, c);
    var t := Do(s, st);
    FinishPossible(s, c);
    PB.OthersStay(s, st, h);
    PB.OthersChan(s, st, h);
    if Supplies(s.calls, s.calls[h]) {
      FinishKeepsSupply(s, c, h);
    } else {
      IdlingKeepsFloor(s, st);
      FixedSizes(s, st);
      if Stock(s) { FinishKeepsStock(s, c); }
    }
  }

  lemma FinishKeepsSupply(s: State, c: CallId, h: CallId)
    requires QueueInv(s) && !s.dead && s.closer.Open? && c < |s.calls| && Finishing(s.calls, s.calls[c])
    requires Enabled(s, FinishStep(s, c)) && h != c && h < |s.calls| && Supplies(s.calls, s.calls[h])
    ensures h < |Do(s, FinishStep(s, c)).calls|
    ensures Supplies(Do(s, FinishStep(s, c)).calls, Do(s, FinishStep(s, c)).calls[h])
  {
    var st := FinishStep(s, c);
    FinishPossible(s, c);
    PB.OthersStay(s, st, h);
    PB.OthersChan(s, st, h);
    if s.calls[h].phase.Sending? {
      var to := s.calls[h].phase.to;
      if to != c { PB.OthersStay(s, st, to); CanceledStays(s, st, to); }
    }
  }

  /** A call that finishes does not become one that needs a backend. */
  lemma FinishKeepsEase(s: State, c: CallId)
    requires QueueInv(s) && !s.dead && !s.closer.Waking? && c < |s.calls| && Finishing(s.calls, s.calls[c])
    requires Enabled(s, FinishStep(s, c)) && forall d :: 0 <= d < |s.calls| ==> !Needy(s.calls[d])
    ensures forall d :: 0 <= d < |Do(s, FinishStep(s, c)).calls| ==> !Needy(Do(s, FinishStep(s, c)).calls[d])
  {
    var st := FinishStep(s, c);
    var t := Do(s, st);
    FinishPossible(s, c);
    forall d | 0 <= d < |t.calls| ensures !Needy(t.calls[d]) {
      if d != c {
        PB.OthersStay(s, st, d);
        PB.OthersChan(s, st, d);
      }
    }
  }

  // ---------------------------------------------------------------- a call that comes by a backend itself

  predicate NoneFinishing(s: State) { forall c :: 0 <= c < |s.calls| ==> !Finishing(s.calls, s.calls[c]) }

  predicate NoPollers(s: State) { forall c :: 0 <= c < |s.calls| ==> !Poller(s.calls[c].phase) }

  lemma FloorIsActive(s: State)
    requires NoneFinishing(s)
    ensures Floor(s) == s.active && (Stock(s) ==> s.idle != [])
  {
    SumZero(s.calls, LeavingOf);
  }

  lemma TimerMoves(s: State, c: CallId) returns (steps: seq<Step>, t: State)
    requires Sound(s) && !s.dead && s.closer.Open? && c < |s.calls| && Parked(s.calls[c]) && s.calls[c].phase.timerArmed
    requires s.active < s.size + s.reserve
    ensures Gains(s, steps, t) && Helps(t, c)
  {
    var st := ReserveTimer(c);
    WithoutShorter(s.waiters, c);
    OneCallUpdate(s, st);
    assert Down(s, st);
    DownIsNearer(s, st);
    One(s, st);
    steps, t := [st], Do(s, st);
  }

  lemma LookerKeepsHelp(s: State, c: CallId)
    requires Sound(s) && !s.dead && s.closer.Open? && c < |s.calls| && Poller(s.calls[c].phase)
    requires !s.calls[c].phase.PolledEmpty? && Floor(s) == s.active && (Stock(s) ==> s.idle != [])
    requires Rescues(s, s.calls[c]) && Enabled(s, PollerStep(s, c))
    ensures Helps(Do(s, PollerStep(s, c)), c)
  {
    assert CallOk(s.calls[c], s.closer);
    FloorBelow(Do(s, PollerStep(s, c)));
  }

  /** A call that can come by a backend is a step nearer to it. */
  lemma RescuerMoves(s: State, c: CallId) returns (steps: seq<Step>, t: State)
    requires Sound(s) && !s.dead && s.closer.Open? && c < |s.calls| && NoneFinishing(s) && Rescues(s, s.calls[c])
    ensures Gains(s, steps, t) && Helps(t, c)
  {
    FloorIsActive(s);
    if !Poller(s.calls[c].phase) {
      steps, t := TimerMoves(s, c);
    } else if s.calls[c].phase.PolledEmpty? {
      assert CallOk(s.calls[c], s.closer);
      steps, t := EmptyPollerMoves(s, c);
      FloorBelow(t);
    } else {
      steps, t := OtherPollerMoves(s, c);
      LookerKeepsHelp(s, c);
    }
  }

  // ---------------------------------------------------------------- a call that has a backend

  function SupplierStep(s: State, h: CallId): Step
    requires h < |s.calls| && Supplies(s.calls, s.calls[h])
  {
    match s.calls[h].phase
    case Popped(_) => CountPopped(h)
    case Dialing => DialOk(h)
    case ReserveWon => ReserveCount(h)
    case Holding(_) => ReleaseReset(h, true)
    case Returning(_) => ReleaseCheckClosed(h)
    case Handing(_) => ReleaseTakeWaiter(h)
    case Sending(_, to) => if s.calls[to].canceled then ReleaseSkip(h) else ReleaseSend(h)
    case _ => Receive(h)
  }

  lemma SupplierNearer(s: State, h: CallId)
    requires QueueInv(s) && !s.dead && s.closer.Open? && h < |s.calls| && Supplies(s.calls, s.calls[h])
    ensures var st := SupplierStep(s, h);
            Enabled(s, st) && Onward(st) && !Do(s, st).dead && Nearer(Do(s, st), s)
  {
    var st := SupplierStep(s, h);
    if s.calls[h].phase.Sending? { assert TakenOk(s.waiters, Todo(s.closer), s.calls, s.calls[h].phase.to); }
    if st.ReleaseSend? {
      SendIsNearer(s, h);
    } else {
      assert Down(s, st);
      DownIsNearer(s, st);
    }
  }

  /** The backend moves on, and somebody still has it. */
  lemma SupplyMovesOn(s: State, h: CallId)
    requires Sound(s) && !s.dead && s.closer.Open? && h < |s.calls| && Supplies(s.calls, s.calls[h])
    requires Enabled(s, SupplierStep(s, h)) && !(s.calls[h].phase.Handing? && s.waiters == [])
    ensures var t := Do(s, SupplierStep(s, h));
            Helps(t, h) || (s.calls[h].phase.Sending? && Helps(t, s.calls[h].phase.to))
  {
    if s.calls[h].phase.Handing? {
      var w := s.waiters[0];
      assert w in s.waiters && QueuedOk(s.calls[w], s.closer) && Remembered(s, w);
    }
  }

  /** The queue is empty: whoever is parked still is about to be sent to. */
  lemma LastLook(s: State, h: CallId)
    requires Sound(s) && !s.dead && s.closer.Open? && h < |s.calls| && s.calls[h].phase.Handing? && s.waiters == []
    requires NoPollers(s)
    ensures !Stuck(Do(s, ReleaseTakeWaiter(h)))
  {
    var t := Do(s, ReleaseTakeWaiter(h));
    forall d | 0 <= d < |t.calls| && Needy(t.calls[d]) ensures exists e :: 0 <= e < |t.calls| && Helps(t, e) {
      assert Remembered(s, d) && Parked(s.calls[d]);
      var e :| 0 <= e < |s.calls| && s.calls[e].phase.Sending? && s.calls[e].phase.to == d;
      assert t.calls[e] == s.calls[e] && t.calls[d] == s.calls[d];
      assert Helps(t, e);
    }
  }

  lemma SupplierMoves(s: State, h: CallId) returns (steps: seq<Step>, t: State)
    requires Sound(s) && !s.dead && s.closer.Open? && h < |s.calls| && Supplies(s.calls, s.calls[h]) && NoPollers(s)
    ensures Gains(s, steps, t) && !Stuck(t)
  {
    var st := SupplierStep(s, h);
    SupplierNearer(s, h);
    One(s, st);
    steps, t := [st], Do(s, st);
    if s.calls[h].phase.Handing? && s.waiters == [] { LastLook(s, h); } else { SupplyMovesOn(s, h); }
  }

  // ---------------------------------------------------------------- an open pool

  lemma PollerKeepsSupply(s: State, t: State, c: CallId, h: CallId)
    requires QueueInv(s) && OnlyCall(s, t, c) && Poller(s.calls[c].phase)
    requires h < |s.calls| && Supplies(s.calls, s.calls[h])
    ensures Helps(t, h)
  {
    if s.calls[h].phase.Sending? { assert TakenOk(s.waiters, Todo(s.closer), s.calls, s.calls[h].phase.to); }
  }

  lemma OpenMoves(s: State) returns (steps: seq<Step>, t: State)
    requires Sound(s) && !s.dead && s.closer.Open? && !Stuck(s) && !AllDone(s)
    ensures Gains(s, steps, t) && !Stuck(t)
  {
    if h :| 0 <= h < |s.calls| && Supplies(s.calls, s.calls[h]) {
      if c :| 0 <= c < |s.calls| && Poller(s.calls[c].phase) {
        steps, t := PollerMoves(s, c);
        PollerKeepsSupply(s, t, c, h);
      } else if f :| 0 <= f < |s.calls| && Finishing(s.calls, s.calls[f]) {
        steps, t := FinishMoves(s, f);
        FinishKeepsHelp(s, f, h);
      } else {
        steps, t := SupplierMoves(s, h);
      }
    } else {
      steps, t := UnsuppliedMoves(s);
    }
  }

  lemma UnsuppliedFinishes(s: State, f: CallId) returns (steps: seq<Step>, t: State)
    requires Sound(s) && !s.dead && s.closer.Open? && !Stuck(s)
    requires f < |s.calls| && Finishing(s.calls, s.calls[f])
    ensures Gains(s, steps, t) && !Stuck(t)
  {
    if h :| 0 <= h < |s.calls| && Helps(s, h) {
      steps, t := FinishesWithHelp(s, f, h);
    } else {
      steps, t := FinishMoves(s, f);
      FinishKeepsEase(s, f);
    }
  }

  lemma FinishesWithHelp(s: State, f: CallId, h: CallId) returns (steps: seq<Step>, t: State)
    requires Sound(s) && !s.dead && s.closer.Open? && h < |s.calls| && Helps(s, h)
    requires f < |s.calls| && Finishing(s.calls, s.calls[f])
    ensures Gains(s, steps, t) && !Stuck(t)
  {
    steps, t := FinishMoves(s, f);
    FinishKeepsHelp(s, f, h);
  }

  lemma UnsuppliedMoves(s: State) returns (steps: seq<Step>, t: State)
    requires Sound(s) && !s.dead && s.closer.Open? && !Stuck(s) && !AllDone(s)
    requires forall h :: 0 <= h < |s.calls| ==> !Supplies(s.calls, s.calls[h])
    ensures Gains(s, steps, t) && !Stuck(t)
  {
    var c :| 0 <= c < |s.calls| && !s.calls[c].phase.Done?;
    assert CallOk(s.calls[c], s.closer);
    if f :| 0 <= f < |s.calls| && Finishing(s.calls, s.calls[f]) {
      steps, t := UnsuppliedFinishes(s, f);
    } else if h :| 0 <= h < |s.calls| && Helps(s, h) {
      steps, t := RescuerMoves(s, h);
    } else {
      assert false;
    }
  }
}
