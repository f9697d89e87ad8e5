/** When the calls inside a pool can all end by themselves: with no new call, no cancel, and nobody
    who closes, resizes or sweeps the pool. */
module PoolDrain {
  import opened PoolProtocol
  import opened PoolLedger
  import opened PoolTheorems
  import PB = PoolBounds

  /** The steps of the calls that are there, their clients, their reserve timers, and of a Close under way. */
  predicate Onward(st: Step) { !st.Start? && !st.Cancel? && !st.Resize? && !st.Evict? && !st.CloseMark? }

  predicate AllOnward(steps: seq<Step>) { forall i :: 0 <= i < |steps| ==> Onward(steps[i]) }

  predicate AllDone(s: State) { forall c :: 0 <= c < |s.calls| ==> s.calls[c].phase.Done? }

  // ---------------------------------------------------------------- who can help whom

  predicate Poller(p: Phase) { p.Polling? || p.Checked? || p.PolledEmpty? || p.Loaded? }

  predicate Parked(x: Call) { x.phase.Waiting? && x.ch.Empty? }

  /** Has no backend and will need one. */
  predicate Needy(x: Call) { Poller(x.phase) || Parked(x) }

  /** Has a backend, or is about to have one, that it can hand to a parked call. */
  predicate Supplies(calls: seq<Call>, x: Call) {
    match x.phase
    case Popped(_) => true
    case Dialing => true
    case ReserveWon => true
    case Holding(_) => true
    case Returning(_) => true
    case Handing(_) => true
    case Waiting(_) => x.ch.Full?
    case Sending(_, to) => to < |calls| && (calls[to].canceled || calls[to].phase.Waiting?)
    case _ => false
  }

  function LeavingOf(x: Call): nat { Indicator(x.phase.ToIdle? || x.phase.Pushed? || x.phase.Rejected?) }

  /** The active count once the releases that are past the queue have given their slots back. */
  function Floor(s: State): int { s.active - Sum(s.calls, LeavingOf) }

  /** Will put a backend into the idle channel. */
  predicate Refills(x: Call) {
    || x.phase.ToIdle? || x.phase.CancelTook? || x.phase.CancelKeeps?
    || ((x.phase.CancelMarked? || x.phase.CancelDequeued?) && x.ch.Full?)
  }

  predicate Stock(s: State) { s.idle != [] || exists c :: 0 <= c < |s.calls| && Refills(s.calls[c]) }

  /** Will look at the idle channel before it parks. */
  predicate Looks(s: State, p: Phase) { p.Polling? || p.Checked? || (p.Loaded? && p.cur < s.size) }

  /** Can come by a backend without help from another call: an armed timer with room in the reserve, or
      a call that has not parked and will find something idle, a free slot, or a timer with room. */
  predicate Rescues(s: State, x: Call) {
    || (Parked(x) && x.phase.timerArmed && Floor(s) < s.size + s.reserve)
    || (Poller(x.phase) && s.reserve > 0 && Floor(s) < s.size + s.reserve)
    || ((Looks(s, x.phase) || x.phase.PolledEmpty?) && Floor(s) < s.size)
    || (Looks(s, x.phase) && Stock(s))
  }

  predicate Helps(s: State, c: CallId) { c < |s.calls| && (Supplies(s.calls, s.calls[c]) || Rescues(s, s.calls[c])) }

  /** Somebody needs a backend and nobody can come by one. */
  predicate Stuck(s: State) {
    && s.closer.Open?
    && (exists c :: 0 <= c < |s.calls| && Needy(s.calls[c]))
    && (forall c :: 0 <= c < |s.calls| ==> !Helps(s, c))
  }

  // ---------------------------------------------------------------- nobody is forgotten

  predicate Awaited(calls: seq<Call>, c: CallId) {
    exists d :: 0 <= d < |calls| && calls[d].phase.Sending? && calls[d].phase.to == c
  }

  /** A parked call is queued, taken by Close, or about to be sent to. */
  predicate Remembered(s: State, c: CallId)
    requires c < |s.calls|
  {
    && (Parked(s.calls[c]) ==> c in s.waiters || c in Todo(s.closer) || Awaited(s.calls, c))
    && (s.calls[c].phase.CancelMarked? || s.calls[c].phase.CancelDequeued? ==> s.calls[c].canceled)
    && (c in s.waiters && s.calls[c].phase.Done? ==> !s.calls[c].canceled)
  }

  ghost predicate AllRemembered(s: State) { forall c :: 0 <= c < |s.calls| ==> Remembered(s, c) }

  lemma CanceledStays(s: State, st: Step, d: CallId)
    requires Enabled(s, st) && d < |s.calls| && d != Actor(st)
    ensures Do(s, st).calls[d].canceled == s.calls[d].canceled
  {
  }

  /** A queued or taken waiter leaves only by its own step, or into a Release's or Close's hands. */
  lemma PlaceStays(s: State, st: Step, d: CallId)
    requires QueueInv(s) && Enabled(s, st) && d < |s.calls| && d != Actor(st)
    ensures d in s.waiters ==>
              || d in Do(s, st).waiters || d in Todo(Do(s, st).closer)
              || (st.ReleaseTakeWaiter? && Do(s, st).calls[st.c].phase.Sending? && Do(s, st).calls[st.c].phase.to == d)
    ensures d in Todo(s.closer) ==> d in Todo(Do(s, st).closer) || Do(s, st).calls[d].ch.Closed?
  {
    TodoStays(s, st, d);
    if QueueSilent(st) {
      SilentKeepsHistory(s, st);
    } else if st.CancelDequeue? || st.ReserveTimer? {
      WithoutFacts(s.waiters, Actor(st));
    }
  }

  lemma TodoStays(s: State, st: Step, d: CallId)
    requires Enabled(s, st) && d < |s.calls|
    ensures d in Todo(s.closer) ==> d in Todo(Do(s, st).closer) || Do(s, st).calls[d].ch.Closed?
  {
  }

  /** Nobody joins the queue but a call that parks. */
  lemma NoneJoins(s: State, st: Step, d: CallId)
    requires QueueInv(s) && Enabled(s, st) && d != Actor(st)
    ensures d in Do(s, st).waiters ==> d in s.waiters
  {
    if QueueSilent(st) {
      SilentKeepsHistory(s, st);
    } else if st.CancelDequeue? || st.ReserveTimer? {
      WithoutFacts(s.waiters, Actor(st));
    }
  }

  lemma OtherRemembered(s: State, st: Step, d: CallId)
    requires QueueInv(s) && AllRemembered(s) && Enabled(s, st) && d < |s.calls| && d != Actor(st)
    ensures Remembered(Do(s, st), d)
  {
    var s' := Do(s, st);
    assert Remembered(s, d) && CallOk(s.calls[d], s.closer);
    PB.OthersStay(s, st, d);
    PB.OthersChan(s, st, d);
    CanceledStays(s, st, d);
    PlaceStays(s, st, d);
    NoneJoins(s, st, d);
    if Parked(s'.calls[d]) && Awaited(s.calls, d) {
      var e :| 0 <= e < |s.calls| && s.calls[e].phase.Sending? && s.calls[e].phase.to == d;
      if e != Actor(st) { PB.OthersStay(s, st, e); }
    }
  }

  /** Whoever is queued and over gave up on a closed pool. */
  lemma OwnPlace(s: State, st: Step)
    requires QueueInv(s) && Enabled(s, st) && Actor(st) >= 0 && Remembered(s, Actor(st))
    ensures var c, s' := Actor(st), Do(s, st); c in s'.waiters && s'.calls[c].phase.Done? ==> !s'.calls[c].canceled
  {
    var c := Actor(st);
    assert CallOk(s.calls[c], s.closer);
    if c in s.waiters { assert QueuedOk(s.calls[c], s.closer); }
    if QueueSilent(st) {
      SilentKeepsHistory(s, st);
    } else if st.CancelDequeue? || st.ReserveTimer? {
      WithoutFacts(s.waiters, c);
    }
  }

  lemma OwnRemembered(s: State, st: Step)
    requires QueueInv(s) && AllRemembered(s) && Enabled(s, st) && Actor(st) >= 0
    ensures Remembered(Do(s, st), Actor(st))
  {
    var c, s' := Actor(st), Do(s, st);
    assert Remembered(s, c) && CallOk(s.calls[c], s.closer);
    OwnPlace(s, st);
    if st.ReserveTimer? && Parked(s'.calls[c]) && Awaited(s.calls, c) {
      var e :| 0 <= e < |s.calls| && s.calls[e].phase.Sending? && s.calls[e].phase.to == c;
      PB.OthersStay(s, st, e);
    }
  }

  lemma StepKeepsRemembered(s: State, st: Step)
    requires QueueInv(s) && AllRemembered(s) && Enabled(s, st)
    ensures AllRemembered(Do(s, st))
  {
    forall d | 0 <= d < |Do(s, st).calls| ensures Remembered(Do(s, st), d) {
      if d == Actor(st) { OwnRemembered(s, st); } else if d < |s.calls| { OtherRemembered(s, st, d); }
    }
  }

  // ---------------------------------------------------------------- without a reserve

  /** Nobody has a timer, nobody in the queue is over, and a Release that took a waiter finds it waiting
      or cancelled. */
  predicate CallPlain(s: State, c: CallId)
    requires c < |s.calls|
  {
    var x := s.calls[c];
    && !x.phase.ReserveWon? && (x.phase.Waiting? ==> !x.phase.timerArmed) && (c in s.waiters ==> !x.phase.Done?)
    && (x.phase.Sending? ==>
          && x.phase.to < |s.calls|
          && (s.calls[x.phase.to].phase.Waiting? || s.calls[x.phase.to].canceled))
  }

  ghost predicate AllPlain(s: State) { s.reserve == 0 ==> forall c :: 0 <= c < |s.calls| ==> CallPlain(s, c) }

  lemma ReserveFixed(s: State, st: Step)
    requires Enabled(s, st)
    ensures Do(s, st).reserve == s.reserve
  {
  }

  /** A taken waiter can only be cancelled. */
  lemma TargetWaits(s: State, st: Step, to: CallId)
    requires Enabled(s, st) && to < |s.calls| && s.calls[to].ch.Empty?
    requires s.calls[to].phase.Waiting? ==> !s.calls[to].phase.timerArmed
    requires s.calls[to].phase.Waiting? || s.calls[to].canceled
    ensures to < |Do(s, st).calls| && (Do(s, st).calls[to].phase.Waiting? || Do(s, st).calls[to].canceled)
  {
    if to != Actor(st) {
      PB.OthersStay(s, st, to);
      CanceledStays(s, st, to);
    }
  }

  lemma OtherPlain(s: State, st: Step, d: CallId)
    requires QueueInv(s) && AllPlain(s) && s.reserve == 0 && Enabled(s, st) && d < |s.calls| && d != Actor(st)
    ensures d < |Do(s, st).calls| && CallPlain(Do(s, st), d)
  {
    PB.OthersStay(s, st, d);
    NoneJoins(s, st, d);
    assert CallPlain(s, d);
    if s.calls[d].phase.Sending? {
      var to := s.calls[d].phase.to;
      assert TakenOk(s.waiters, Todo(s.closer), s.calls, to) && CallPlain(s, to);
      TargetWaits(s, st, to);
    }
  }

  lemma OwnPollPlain(s: State, st: Step)
    requires QueueInv(s) && s.reserve == 0 && Enabled(s, st) && PollStep(st)
    ensures CallPlain(Do(s, st), Actor(st))
  {
    if Actor(st) in s.waiters { assert QueuedOk(s.calls[Actor(st)], s.closer); }
  }

  lemma OwnCancelPlain(s: State, st: Step)
    requires QueueInv(s) && Enabled(s, st) && CancelStep(st) && CallPlain(s, Actor(st))
    ensures CallPlain(Do(s, st), Actor(st))
  {
    if Actor(st) in s.waiters { assert QueuedOk(s.calls[Actor(st)], s.closer); }
    if st.CancelDequeue? { WithoutFacts(s.waiters, Actor(st)); }
  }

  lemma OwnWaitPlain(s: State, st: Step)
    requires QueueInv(s) && Enabled(s, st) && WaitStep(st) && CallPlain(s, Actor(st))
    ensures CallPlain(Do(s, st), Actor(st))
  {
    if CancelStep(st) { OwnCancelPlain(s, st); }
  }

  lemma OwnHandingPlain(s: State, st: Step)
    requires QueueInv(s) && AllRemembered(s) && AllPlain(s) && s.reserve == 0
    requires Enabled(s, st) && HandingStep(st)
    ensures CallPlain(Do(s, st), Actor(st))
  {
    ReleaserNotQueued(s, st);
    if st.ReleaseTakeWaiter? && s.waiters != [] { HeadPlain(s); }
  }

  lemma OwnReleasePlain(s: State, st: Step)
    requires QueueInv(s) && AllRemembered(s) && AllPlain(s) && s.reserve == 0
    requires Enabled(s, st) && (ReleaseStep(st) || st.ReleaseSend?)
    ensures CallPlain(Do(s, st), Actor(st))
  {
    if HandingStep(st) { OwnHandingPlain(s, st); } else { ReleaserNotQueued(s, st); }
  }

  lemma ReleaserNotQueued(s: State, st: Step)
    requires QueueInv(s) && Enabled(s, st) && (ReleaseStep(st) || st.ReleaseSend?)
    ensures Actor(st) !in s.waiters
  {
  }

  lemma HeadPlain(s: State)
    requires QueueInv(s) && AllRemembered(s) && AllPlain(s) && s.reserve == 0 && s.waiters != []
    ensures var w := s.waiters[0]; w < |s.calls| && (s.calls[w].phase.Waiting? || s.calls[w].canceled)
  {
    var w := s.waiters[0];
    assert w in s.waiters && QueuedOk(s.calls[w], s.closer) && CallPlain(s, w) && Remembered(s, w);
  }

  lemma StepKeepsPlain(s: State, st: Step)
    requires QueueInv(s) && AllRemembered(s) && AllPlain(s) && Enabled(s, st)
    ensures AllPlain(Do(s, st))
  {
    ReserveFixed(s, st);
    if s.reserve == 0 {
      forall d | 0 <= d < |Do(s, st).calls| ensures CallPlain(Do(s, st), d) {
        if d == Actor(st) {
          assert CallPlain(s, d);
          if PollStep(st) { OwnPollPlain(s, st); } else if WaitStep(st) { OwnWaitPlain(s, st); }
          else { OwnReleasePlain(s, st); }
        } else if d < |s.calls| {
          OtherPlain(s, st, d);
        } else {
          NoneJoins(s, st, d);
        }
      }
    }
  }

  /** What every reachable state of a pool of size one or more is. */
  ghost predicate Sound(s: State) { Inv(s) && AllRemembered(s) && AllPlain(s) && s.size >= 1 }

  lemma StepKeepsSound(s: State, st: Step)
    requires Sound(s) && Enabled(s, st)
    ensures Sound(Do(s, st))
  {
    StepKeepsInv(s, st);
    StepKeepsRemembered(s, st);
    StepKeepsPlain(s, st);
    StepKeepsSize(s, st);
  }

  lemma StepKeepsSize(s: State, st: Step)
    requires s.size >= 1 && Enabled(s, st)
    ensures Do(s, st).size >= 1
  {
  }

  lemma {:induction false} RunKeepsSound(s: State, steps: seq<Step>)
    requires Sound(s) && Runs(s, steps)
    ensures Sound(Exec(s, steps))
    decreases |steps|
  {
    if steps != [] {
      StepKeepsSound(s, steps[0]);
      RunKeepsSound(Do(s, steps[0]), steps[1..]);
    }
  }

  // ---------------------------------------------------------------- a stuck pool stays stuck

  /** The steps that are left to a pool in which nobody can come by a backend. */
  predicate Idles(s: State, st: Step) {
    || st.CheckClosed? || st.Park? || st.CancelDequeue? || st.CancelDrain? || st.CancelCheck? || st.CancelPush?
    || st.ReleasePush? || st.ReleaseUncount?
    || (st.PollIdle? && s.idle == [])
    || (st.LoadActive? && s.active >= s.size)
    || (st.TryCas? && st.c < |s.calls| && s.calls[st.c].phase.Loaded? && s.active != s.calls[st.c].phase.cur)
    || (st.ReserveTimer? && s.active >= s.size + s.reserve)
    || (st.ReleaseSend? && st.c < |s.calls| && !Supplies(s.calls, s.calls[st.c]))
  }

  lemma HelplessIdles(s: State, st: Step)
    requires Enabled(s, st) && Onward(st) && s.closer.Open?
    requires Actor(st) >= 0 ==> !Helps(s, Actor(st)) && CallOk(s.calls[Actor(st)], s.closer)
    ensures Idles(s, st)
  {
    FloorBelow(s);
  }

  lemma FloorBelow(s: State)
    ensures Floor(s) <= s.active
  {
  }

  lemma StuckIdles(s: State, st: Step)
    requires Sound(s) && Stuck(s) && Enabled(s, st) && Onward(st)
    ensures Idles(s, st)
  {
    if Actor(st) >= 0 {
      ActorThere(s, st);
      assert !Helps(s, Actor(st));
      CallsOk(s, Actor(st));
    }
    HelplessIdles(s, st);
  }

  lemma ActorThere(s: State, st: Step)
    requires Enabled(s, st)
    ensures Actor(st) < |s.calls|
  {
  }

  lemma CallsOk(s: State, c: CallId)
    requires QueueInv(s) && c < |s.calls|
    ensures CallOk(s.calls[c], s.closer)
  {
  }

  lemma IdleBalance(s: State, st: Step)
    requires Enabled(s, st) && Idles(s, st) && !st.ReleaseSend?
    ensures var s', c := Do(s, st), Actor(st);
            && s'.calls == s.calls[c := s'.calls[c]]
            && s'.active - LeavingOf(s'.calls[c]) == s.active - LeavingOf(s.calls[c])
  {
  }

  lemma IdlingKeepsFloor(s: State, st: Step)
    requires Enabled(s, st) && Idles(s, st)
    ensures Floor(Do(s, st)) == Floor(s)
  {
    var c := Actor(st);
    if st.ReleaseSend? {
      HandOffSplits(s.calls, c, LeavingOf, 0);
    } else {
      IdleBalance(s, st);
      SumUpdate(s.calls, c, Do(s, st).calls[c], LeavingOf);
    }
  }

  lemma FixedSizes(s: State, st: Step)
    requires Enabled(s, st) && Idles(s, st)
    ensures Do(s, st).size == s.size && Do(s, st).reserve == s.reserve && Do(s, st).closer == s.closer
    ensures |Do(s, st).calls| == |s.calls|
  {
  }

  /** Nothing gets into the idle channel while somebody who looks at it is without help. */
  lemma IdlingKeepsStock(s: State, st: Step)
    requires Sound(s) && Stuck(s) && Enabled(s, st) && Idles(s, st)
    ensures Stock(Do(s, st)) ==> Stock(s)
  {
    var s', c := Do(s, st), Actor(st);
    OwnRefill(s, st);
    FixedSizes(s, st);
    if Stock(s') && s'.idle == [] {
      var d :| 0 <= d < |s'.calls| && Refills(s'.calls[d]);
      assert Remembered(s, d);
      if d != c { OthersRefill(s, st, d); }
    }
  }

  /** Who puts something into the idle channel was going to. */
  lemma OwnRefill(s: State, st: Step)
    requires Enabled(s, st) && Idles(s, st)
    ensures Refills(Do(s, st).calls[Actor(st)]) ==> Refills(s.calls[Actor(st)])
    ensures Do(s, st).idle != [] ==> s.idle != [] || Refills(s.calls[Actor(st)])
  {
  }

  lemma OthersRefill(s: State, st: Step, d: CallId)
    requires Enabled(s, st) && Idles(s, st) && d < |s.calls| && d != Actor(st) && Remembered(s, d)
    requires d < |Do(s, st).calls| && Refills(Do(s, st).calls[d])
    ensures Refills(s.calls[d])
  {
    PB.OthersStay(s, st, d);
    PB.OthersChan(s, st, d);
  }

  /** The floor, the stock and the sizes decide, with its own record, whether a call rescues. */
  lemma NoRescueStays(s: State, st: Step, x: Call, x': Call)
    requires Sound(s) && Stuck(s) && Enabled(s, st) && Idles(s, st) && !Rescues(s, x)
    requires x'.phase == x.phase && (x'.ch.Empty? ==> x.ch.Empty?)
    ensures !Rescues(Do(s, st), x')
  {
    IdlingKeepsFloor(s, st);
    IdlingKeepsStock(s, st);
    FixedSizes(s, st);
  }

  lemma NoSupplyStays(s: State, st: Step, d: CallId)
    requires QueueInv(s) && Enabled(s, st) && Idles(s, st) && d < |s.calls| && d != Actor(st)
    requires !Supplies(s.calls, s.calls[d]) && s.closer.Open?
    ensures !Supplies(Do(s, st).calls, Do(s, st).calls[d])
  {
    var s', c := Do(s, st), Actor(st);
    PB.OthersStay(s, st, d);
    PB.OthersChan(s, st, d);
    if s.calls[d].phase.Sending? {
      var to := s.calls[d].phase.to;
      assert TakenOk(s.waiters, Todo(s.closer), s.calls, to);
      if to != c { PB.OthersStay(s, st, to); CanceledStays(s, st, to); }
    }
  }

  lemma OthersStayHelpless(s: State, st: Step, d: CallId)
    requires Sound(s) && Stuck(s) && Enabled(s, st) && Idles(s, st) && d < |s.calls| && d != Actor(st)
    ensures !Helps(Do(s, st), d)
  {
    assert !Helps(s, d);
    PB.OthersStay(s, st, d);
    PB.OthersChan(s, st, d);
    NoSupplyStays(s, st, d);
    NoRescueStays(s, st, s.calls[d], Do(s, st).calls[d]);
  }

  lemma ActorStaysDry(s: State, st: Step)
    requires Enabled(s, st) && Idles(s, st) && s.closer.Open? && !Supplies(s.calls, s.calls[Actor(st)])
    requires CallOk(s.calls[Actor(st)], s.closer)
    ensures !Supplies(Do(s, st).calls, Do(s, st).calls[Actor(st)])
    ensures Needy(s.calls[Actor(st)]) ==> Needy(Do(s, st).calls[Actor(st)])
  {
  }

  lemma ActorStaysLost(s: State, st: Step)
    requires Enabled(s, st) && Idles(s, st) && s.closer.Open? && !Helps(s, Actor(st))
    requires CallOk(s.calls[Actor(st)], s.closer)
    requires Floor(Do(s, st)) == Floor(s) && (Stock(Do(s, st)) ==> Stock(s))
    ensures !Rescues(Do(s, st), Do(s, st).calls[Actor(st)])
  {
    FloorBelow(s);
    FixedSizes(s, st);
  }

  lemma ActorStaysHelpless(s: State, st: Step)
    requires Sound(s) && Stuck(s) && Enabled(s, st) && Idles(s, st)
    ensures !Helps(Do(s, st), Actor(st)) && (Needy(s.calls[Actor(st)]) ==> Needy(Do(s, st).calls[Actor(st)]))
  {
    assert !Helps(s, Actor(st)) && CallOk(s.calls[Actor(st)], s.closer);
    IdlingKeepsFloor(s, st);
    IdlingKeepsStock(s, st);
    ActorStaysDry(s, st);
    ActorStaysLost(s, st);
  }

  lemma OthersStayNeedy(s: State, st: Step, n: CallId)
    requires Enabled(s, st) && Idles(s, st) && n < |s.calls| && n != Actor(st) && Needy(s.calls[n])
    requires st.ReleaseSend? ==> !Helps(s, st.c)
    ensures n < |Do(s, st).calls| && Needy(Do(s, st).calls[n])
  {
    PB.OthersStay(s, st, n);
    PB.OthersChan(s, st, n);
  }

  lemma StuckStays(s: State, st: Step)
    requires Sound(s) && Stuck(s) && Enabled(s, st) && Onward(st)
    ensures Stuck(Do(s, st))
  {
    var s' := Do(s, st);
    StuckIdles(s, st);
    FixedSizes(s, st);
    ActorStaysHelpless(s, st);
    forall d | 0 <= d < |s'.calls| ensures !Helps(s', d) {
      if d != Actor(st) { OthersStayHelpless(s, st, d); }
    }
    var n :| 0 <= n < |s.calls| && Needy(s.calls[n]);
    if n != Actor(st) { OthersStayNeedy(s, st, n); }
  }
}
