/** The calls of a pool can all end if and only if the pool is not jammed: from every other state there is
    a run of the calls that are there, step by step towards the end. */
module PoolEnds {
  import opened PoolProtocol
  import opened PoolLedger
  import opened PoolTheorems
  import opened PoolDrain
  import opened PoolShortage
  import opened PoolFinish

  // ---------------------------------------------------------------- after Close has taken the queue

  /** Close has taken the queue and the calls can still all end. */
  ghost predicate Woken(s: State) { Sound(s) && !s.dead && s.closer.Waking? && !Doomed(s) && Short(s) <= 0 }

  /** No cancel begins, and only Close closes a channel. */
  lemma NotDoomed(s: State, st: Step)
    requires Enabled(s, st) && Onward(st) && !Doomed(s)
    requires st.CloseOne? ==> forall c :: 0 <= c < |s.calls| ==> !Cancelling(s.calls[c].phase)
    ensures !Doomed(Do(s, st))
  {
    var s' := Do(s, st);
    forall c | 0 <= c < |s'.calls| ensures !(Cancelling(s'.calls[c].phase) && s'.calls[c].ch.Closed?) {
      if c == Actor(st) { OwnNotDoomed(s, st); } else { OtherNotDoomed(s, st, c); }
    }
  }

  lemma OwnNotDoomed(s: State, st: Step)
    requires Enabled(s, st) && Onward(st) && Actor(st) >= 0
    requires !(Cancelling(s.calls[Actor(st)].phase) && s.calls[Actor(st)].ch.Closed?)
    ensures !(Cancelling(Do(s, st).calls[Actor(st)].phase) && Do(s, st).calls[Actor(st)].ch.Closed?)
  {
  }

  lemma OtherNotDoomed(s: State, st: Step, c: CallId)
    requires Enabled(s, st) && Onward(st) && !Doomed(s) && c < |Do(s, st).calls| && c != Actor(st)
    requires st.CloseOne? ==> forall d :: 0 <= d < |s.calls| ==> !Cancelling(s.calls[d].phase)
    ensures !(Cancelling(Do(s, st).calls[c].phase) && Do(s, st).calls[c].ch.Closed?)
  {
    PB.OthersStay(s, st, c);
    if c < |s.calls| { PB.OthersChan(s, st, c); }
  }

  /** A step that brings the end nearer and leaves enough hand-offs. */
  lemma WokenStep(s: State, st: Step) returns (steps: seq<Step>, t: State)
    requires Woken(s) && Enabled(s, st) && Onward(st)
    requires !Do(s, st).dead && Nearer(Do(s, st), s) && Short(Do(s, st)) <= 0
    requires st.CloseOne? ==> forall c :: 0 <= c < |s.calls| ==> !Cancelling(s.calls[c].phase)
    ensures Gains(s, steps, t) && Woken(t)
  {
    NotDoomed(s, st);
    StillWaking(s, st);
    One(s, st);
    steps, t := [st], Do(s, st);
  }

  /** Whether enough hand-offs are left, by the change in the tally. */
  lemma GapIs(s: State, st: Step)
    requires Sound(s) && s.closer.Waking? && Enabled(s, st) && Onward(st) && !st.Park? && !st.ReleaseTakeWaiter?
    ensures var t, t' := TallyOf(s), TallyOf(Do(s, st));
            && t'.need == t.need && Added(t, t', Change(s, st))
            && Short(Do(s, st)) == Gap(t', s.reserve == 0, s.size)
  {
    StepChange(s, st);
    StepNeed(s, st);
    ReserveFixed(s, st);
    PB.SizesStay(s, st);
  }

  // ---------------------------------------------------------------- calls that only have to end

  predicate Leaving(x: Call) { Cancelling(x.phase) || x.phase.CancelTook? }

  function LeaveStep(x: Call, c: CallId): Step
    requires Leaving(x)
  {
    if x.phase.CancelMarked? then CancelDequeue(c)
    else if x.phase.CancelDequeued? then CancelDrain(c)
    else CancelCheck(c)
  }

  lemma LeaveDown(s: State, c: CallId)
    requires !s.dead && s.closer.Waking? && c < |s.calls| && Leaving(s.calls[c])
    requires Cancelling(s.calls[c].phase) ==> !s.calls[c].ch.Closed?
    ensures var st := LeaveStep(s.calls[c], c);
            && Enabled(s, st) && Onward(st) && OneCallStep(st) && !Do(s, st).dead && Down(s, st)
            && Change(s, st) == NOTHING
  {
    WithoutShorter(s.waiters, c);
  }

  lemma LeaverMoves(s: State, c: CallId) returns (steps: seq<Step>, t: State)
    requires Woken(s) && c < |s.calls| && Leaving(s.calls[c])
    ensures Gains(s, steps, t) && Woken(t)
  {
    var st := LeaveStep(s.calls[c], c);
    LeaveDown(s, c);
    DownIsNearer(s, st);
    GapIs(s, st);
    steps, t := WokenStep(s, st);
  }

  function PushStep(x: Call, c: CallId): Step
    requires x.phase.ToIdle? || x.phase.CancelKeeps?
  {
    if x.phase.ToIdle? then ReleasePush(c) else CancelPush(c)
  }

  lemma PushDown(s: State, c: CallId)
    requires !s.dead && c < |s.calls| && (s.calls[c].phase.ToIdle? || s.calls[c].phase.CancelKeeps?)
    ensures var st := PushStep(s.calls[c], c);
            && Enabled(s, st) && Onward(st) && OneCallStep(st) && !Do(s, st).dead && Down(s, st)
            && Change(s, st) == NOTHING.(refill := Minus(|s.idle| >= s.size))
  {
  }

  /** A push that finds room, or that nobody is looking for. */
  lemma PusherMoves(s: State, c: CallId) returns (steps: seq<Step>, t: State)
    requires Woken(s) && c < |s.calls| && (s.calls[c].phase.ToIdle? || s.calls[c].phase.CancelKeeps?)
    requires |s.idle| < s.size || Lookers(s) == 0
    ensures Gains(s, steps, t) && Woken(t)
  {
    var st := PushStep(s.calls[c], c);
    PushDown(s, c);
    DownIsNearer(s, st);
    GapIs(s, st);
    RefillCounts(Do(s, st));
    steps, t := WokenStep(s, st);
  }

  lemma RefillCounts(s: State)
    ensures Refill(s) >= |s.idle|
  {
  }

  // ---------------------------------------------------------------- calls that have yet to park

  /** Takes its next step whatever the others do. */
  predicate Ready(s: State, x: Call) {
    || x.phase.Polling? || x.phase.Loaded?
    || (x.phase.Checked? && (s.idle != [] || s.reserve > 0 || Refill(s) == 0 || Lost(s) < s.size))
  }

  lemma ReadyDown(s: State, c: CallId)
    requires !s.dead && c < |s.calls| && Ready(s, s.calls[c])
    ensures var st := PollerStep(s, c); Enabled(s, st) && Onward(st) && PollStep(st) && !Do(s, st).dead && Down(s, st)
  {
  }

  lemma ParkKeepsGap(s: State, c: CallId)
    requires Sound(s) && s.closer.Waking? && Enabled(s, Park(c))
    ensures Short(Do(s, Park(c))) == Short(s)
  {
    StepChange(s, Park(c));
    forall w | s.reserve == 0 && w in s.waiters ensures Hard(s.calls, w) || !Costs(s.calls, w) { EntryKinds(s, w); }
    ParkNeed(s, c);
  }

  lemma ReadyKeeps(s: State, c: CallId)
    requires Woken(s) && c < |s.calls| && Ready(s, s.calls[c])
    ensures Enabled(s, PollerStep(s, c)) && Onward(PollerStep(s, c)) && Woken(Do(s, PollerStep(s, c)))
  {
    var st := PollerStep(s, c);
    ReadyDown(s, c);
    if st.Park? {
      ParkKeepsGap(s, c);
    } else {
      GapIs(s, st);
      SumAtLeast(s.calls, c, LookOf);
    }
    NotDoomed(s, st);
    StepKeepsSound(s, st);
  }

  lemma ReadyMoves(s: State, c: CallId) returns (steps: seq<Step>, t: State)
    requires Woken(s) && c < |s.calls| && Ready(s, s.calls[c])
    ensures Gains(s, steps, t) && Woken(t)
  {
    ReadyKeeps(s, c);
    ReadyDown(s, c);
    DownIsNearer(s, PollerStep(s, c));
    One(s, PollerStep(s, c));
    steps, t := [PollerStep(s, c)], Do(s, PollerStep(s, c));
  }

  /** A call that found nothing idle can go on: there is a slot, or a timer, or there never will be one. */
  predicate Resolved(s: State) { s.reserve > 0 || Lost(s) >= s.size || s.active < s.size }

  lemma LoadKeeps(s: State, c: CallId)
    requires Woken(s) && c < |s.calls| && s.calls[c].phase.PolledEmpty? && Resolved(s)
    ensures Enabled(s, LoadActive(c)) && Woken(Do(s, LoadActive(c)))
  {
    LostIsActive(s);
    SumAtLeast(s.calls, c, EmptyOf);
    GapIs(s, LoadActive(c));
    NotDoomed(s, LoadActive(c));
    StepKeepsSound(s, LoadActive(c));
  }

  lemma LoadedNearer(s: State, c: CallId)
    requires !s.dead && c < |s.calls| && s.calls[c].phase.PolledEmpty?
    ensures var u := Do(s, LoadActive(c));
            && Enabled(s, LoadActive(c)) && u.calls[c].phase == Loaded(s.active)
            && Enabled(u, PollerStep(u, c)) && Nearer(Do(u, PollerStep(u, c)), s)
  {
    var u := Do(s, LoadActive(c));
    var t := Do(u, PollerStep(u, c));
    assert t.calls == s.calls[c := t.calls[c]];
    SumUpdate(s.calls, c, t.calls[c], PollerOf);
  }

  lemma EmptyMoves(s: State, c: CallId) returns (steps: seq<Step>, t: State)
    requires Woken(s) && c < |s.calls| && s.calls[c].phase.PolledEmpty? && Resolved(s)
    ensures Gains(s, steps, t) && Woken(t)
  {
    var u := Do(s, LoadActive(c));
    LoadKeeps(s, c);
    LoadedNearer(s, c);
    ReadyKeeps(u, c);
    Two(s, LoadActive(c), PollerStep(u, c));
    steps, t := [LoadActive(c), PollerStep(u, c)], Do(u, PollerStep(u, c));
  }

  // ---------------------------------------------------------------- calls that serve the queue

  lemma {:induction false} SomeOf(calls: seq<Call>, f: Call -> nat) returns (c: nat)
    requires Sum(calls, f) > 0
    ensures c < |calls| && f(calls[c]) > 0
  {
    if f(calls[0]) > 0 {
      c := 0;
    } else {
      c := SomeOf(calls[1..], f);
      c := c + 1;
    }
  }

  function ServeStep(x: Call, c: CallId): Step { if x.phase.Handing? then ReleaseTakeWaiter(c) else ReleaseSkip(c) }

  lemma ServeDown(s: State, c: CallId)
    requires !s.dead && c < |s.calls| && SupplyOf(Flags(s.calls))(s.calls[c]) > 0 && s.waiters != []
    ensures var st := ServeStep(s.calls[c], c);
            Enabled(s, st) && Onward(st) && OneCallStep(st) && !Do(s, st).dead && Down(s, st)
  {
  }

  /** The queue needs hand-offs, and there are enough: one is used where it is needed. */
  lemma ServerMoves(s: State) returns (steps: seq<Step>, t: State)
    requires Woken(s) && Need(s.waiters, s.calls) > 0
    ensures Gains(s, steps, t) && Woken(t)
  {
    var c := SomeOf(s.calls, SupplyOf(Flags(s.calls)));
    var st := ServeStep(s.calls[c], c);
    ServeDown(s, c);
    DownIsNearer(s, st);
    if st.ReleaseTakeWaiter? { TakeKeepsGap(s, c); } else { GapIs(s, st); }
    steps, t := WokenStep(s, st);
  }

  lemma TakeKeepsGap(s: State, c: CallId)
    requires Sound(s) && s.closer.Waking? && Enabled(s, ReleaseTakeWaiter(c)) && Need(s.waiters, s.calls) > 0
    ensures Short(Do(s, ReleaseTakeWaiter(c))) == Short(s)
  {
    StepChange(s, ReleaseTakeWaiter(c));
    TakeNeed(s, c);
    assert s.waiters[0] in s.waiters;
    EntryKinds(s, s.waiters[0]);
    assert Remembered(s, s.waiters[0]);
  }

  // ---------------------------------------------------------------- the rest

  /** Nobody cancels, pushes or is about to, the queue needs nothing, and whoever has yet to park waits for
      a slot that will come free. */
  ghost predicate Settled(s: State) {
    && Woken(s) && Need(s.waiters, s.calls) == 0
    && (forall c :: 0 <= c < |s.calls| ==> SettledCall(s, s.calls[c]))
  }

  predicate SettledCall(s: State, x: Call) {
    && !Leaving(x) && !x.phase.ToIdle? && !x.phase.CancelKeeps?
    && (Poller(x.phase) ==> x.phase.PolledEmpty? && !Resolved(s))
  }

  lemma SettledTally(s: State)
    requires Settled(s)
    ensures var t := TallyOf(s); t.need == 0 && t.forced == 0 && t.lookers == 0 && (t.empties == 0 || !Resolved(s))
  {
    forall c | 0 <= c < |s.calls|
      ensures ForcedOf(s.size)(s.calls[c]) == 0 && LookOf(s.calls[c]) == 0 && (Resolved(s) ==> EmptyOf(s.calls[c]) == 0)
    {
      assert SettledCall(s, s.calls[c]);
    }
    SumZero(s.calls, ForcedOf(s.size));
    SumZero(s.calls, LookOf);
    if Resolved(s) { SumZero(s.calls, EmptyOf); }
  }

  /** The next step of a call that is neither over, nor on its way to the queue, nor parked without a timer. */
  function EndStep(s: State, c: CallId): Step
    requires c < |s.calls|
  {
    var x := s.calls[c];
    match x.phase
    case Popped(_) => CountPopped(c)
    case Dialing => DialFail(c)
    case ReserveWon => ReserveCount(c)
    case Holding(_) => Discard(c)
    case Returning(_) => ReleaseCheckClosed(c)
    case Handing(_) => ReleaseTakeWaiter(c)
    case Sending(_, to) => if Canceled(s.calls, to) then ReleaseSkip(c) else ReleaseSend(c)
    case Waiting(_) => if x.ch.Empty? then ReserveTimer(c) else Receive(c)
    case _ => ReleaseUncount(c)
  }

  predicate CanStep(x: Call) { !x.phase.Done? && !Poller(x.phase) && (Parked(x) ==> x.phase.timerArmed) }

  lemma EndPossible(s: State, c: CallId)
    requires QueueInv(s) && !s.dead && s.closer.Waking?
    requires c < |s.calls| && SettledCall(s, s.calls[c]) && CanStep(s.calls[c])
    ensures var st := EndStep(s, c);
            && Enabled(s, st) && Onward(st) && Actor(st) == c && !Do(s, st).dead && (st.ReleaseSend? || OneCallStep(st))
            && !st.Park? && !st.CloseOne?
  {
    if s.calls[c].phase.Sending? { assert TakenOk(s.waiters, Todo(s.closer), s.calls, s.calls[c].phase.to); }
  }

  lemma EndDown(s: State, c: CallId)
    requires s.closer.Waking? && c < |s.calls| && SettledCall(s, s.calls[c]) && CanStep(s.calls[c])
    requires Enabled(s, EndStep(s, c)) && OneCallStep(EndStep(s, c))
    ensures Down(s, EndStep(s, c))
  {
    if s.calls[c].phase.Waiting? { ParkedDown(s, c); }
  }

  lemma ParkedDown(s: State, c: CallId)
    requires s.closer.Waking? && c < |s.calls| && s.calls[c].phase.Waiting? && CanStep(s.calls[c])
    requires Enabled(s, EndStep(s, c)) && OneCallStep(EndStep(s, c))
    ensures Down(s, EndStep(s, c))
  {
  }

  lemma EndNearer(s: State, c: CallId)
    requires QueueInv(s) && !s.dead && s.closer.Waking?
    requires c < |s.calls| && SettledCall(s, s.calls[c]) && CanStep(s.calls[c])
    ensures Enabled(s, EndStep(s, c)) && Nearer(Do(s, EndStep(s, c)), s)
  {
    EndPossible(s, c);
    if EndStep(s, c).ReleaseSend? {
      SendIsNearer(s, c);
    } else {
      EndDown(s, c);
      DownIsNearer(s, EndStep(s, c));
    }
  }

  /** Without a reserve such a step loses no slot. */
  lemma EndLosesNothing(s: State, c: CallId)
    requires Sound(s) && s.closer.Waking? && c < |s.calls| && SettledCall(s, s.calls[c]) && CanStep(s.calls[c])
    requires Enabled(s, EndStep(s, c)) && s.reserve == 0
    ensures var d := Change(s, EndStep(s, c)); d.lost == 0 && d.forced == 0 && d.empties == 0 && d.lookers == 0
  {
    assert CallPlain(s, c);
  }

  lemma EndKeepsGap(s: State, c: CallId)
    requires Settled(s) && c < |s.calls| && CanStep(s.calls[c]) && Enabled(s, EndStep(s, c)) && Onward(EndStep(s, c))
    requires EndStep(s, c).ReleaseSend? || OneCallStep(EndStep(s, c))
    ensures Short(Do(s, EndStep(s, c))) <= 0
  {
    var st := EndStep(s, c);
    assert SettledCall(s, s.calls[c]);
    SettledTally(s);
    StepChange(s, st);
    if s.reserve == 0 { EndLosesNothing(s, c); }
    if st.ReleaseTakeWaiter? {
      if s.waiters != [] { TakeNeed(s, c); }
    } else {
      GapIs(s, st);
    }
    ReserveFixed(s, st);
    PB.SizesStay(s, st);
  }

  lemma EnderMoves(s: State, c: CallId) returns (steps: seq<Step>, t: State)
    requires Settled(s) && c < |s.calls| && CanStep(s.calls[c])
    ensures Gains(s, steps, t) && Woken(t)
  {
    assert SettledCall(s, s.calls[c]);
    EndPossible(s, c);
    EndNearer(s, c);
    EndKeepsGap(s, c);
    steps, t := WokenStep(s, EndStep(s, c));
  }

  lemma CloserMoves(s: State) returns (steps: seq<Step>, t: State)
    requires Settled(s) && s.closer.todo != []
    ensures Gains(s, steps, t) && Woken(t)
  {
    var w := s.closer.todo[0];
    assert w in Todo(s.closer);
    SumUpdate(s.calls, w, Do(s, CloseOne).calls[w], PollerOf);
    GapIs(s, CloseOne);
    forall c | 0 <= c < |s.calls| ensures !Cancelling(s.calls[c].phase) { assert SettledCall(s, s.calls[c]); }
    steps, t := WokenStep(s, CloseOne);
  }

  // ---------------------------------------------------------------- somebody always can

  /** Nobody is left whose turn comes before the rest. */
  predicate Waited(s: State) {
    && (forall c :: 0 <= c < |s.calls| ==> !Leaving(s.calls[c]) && !Ready(s, s.calls[c]))
    && (forall c :: 0 <= c < |s.calls| && s.calls[c].phase.PolledEmpty? ==> !Resolved(s))
    && (|s.idle| < s.size || Lookers(s) == 0 ==>
          forall c :: 0 <= c < |s.calls| ==> !s.calls[c].phase.ToIdle? && !s.calls[c].phase.CancelKeeps?)
  }

  /** Whoever looks at the idle channel finds something, or there is nothing to wait for. */
  lemma LookerIsReady(s: State) returns (c: CallId)
    requires s.size >= 1 && Lookers(s) > 0
    requires |s.idle| < s.size ==>
               forall d :: 0 <= d < |s.calls| ==> !s.calls[d].phase.ToIdle? && !s.calls[d].phase.CancelKeeps?
    ensures c < |s.calls| && Ready(s, s.calls[c])
  {
    c := SomeOf(s.calls, LookOf);
    if |s.idle| < s.size { SumZero(s.calls, RefillOf); }
  }

  /** Then nobody looks at the idle channel. */
  lemma NobodyLooks(s: State)
    requires s.size >= 1 && Waited(s)
    ensures Lookers(s) == 0
  {
    if Lookers(s) > 0 { var c := LookerIsReady(s); }
  }

  lemma WaitedIsSettled(s: State)
    requires Woken(s) && Waited(s) && Need(s.waiters, s.calls) == 0
    ensures Settled(s)
  {
    NobodyLooks(s);
    forall c | 0 <= c < |s.calls| ensures SettledCall(s, s.calls[c]) {
      SumAtLeast(s.calls, c, LookOf);
    }
  }

  lemma NotQueued(q: seq<CallId>, calls: seq<Call>, c: CallId)
    requires Need(q, calls) == 0 && Hard(calls, c)
    ensures c !in q
  {
    NeedIsHard(q, calls);
  }

  /** Whoever is parked without a timer is about to be sent to. */
  lemma ParkedIsServed(s: State, c: CallId) returns (d: CallId)
    requires Settled(s) && s.closer.todo == [] && Hard(s.calls, c)
    ensures d < |s.calls| && CanStep(s.calls[d])
  {
    assert Remembered(s, c);
    NotQueued(s.waiters, s.calls, c);
    d :| 0 <= d < |s.calls| && s.calls[d].phase.Sending? && s.calls[d].phase.to == c;
  }

  /** With nobody left to move, only calls are there that are over or wait for a slot. */
  lemma OnlyWaiters(s: State, c: CallId)
    requires Settled(s) && s.closer.todo == [] && c < |s.calls|
    requires forall d :: 0 <= d < |s.calls| ==> !CanStep(s.calls[d])
    ensures s.calls[c].phase.Done? || s.calls[c].phase.PolledEmpty?
  {
    assert SettledCall(s, s.calls[c]) && !CanStep(s.calls[c]);
    if Hard(s.calls, c) { var d := ParkedIsServed(s, c); }
  }

  /** And then every counted slot is lost. */
  lemma {:induction false} SlotsAreLost(calls: seq<Call>)
    requires forall c :: 0 <= c < |calls| ==>
               calls[c].phase.Done? || (calls[c].phase.PolledEmpty? && calls[c].ch.Empty?)
    ensures Sum(calls, SlotOf) == Sum(calls, LostOf)
  {
    if calls != [] { SlotsAreLost(calls[1..]); }
  }

  /** So nobody waits. */
  lemma RestIsDone(s: State)
    requires Settled(s) && s.closer.todo == [] && forall d :: 0 <= d < |s.calls| ==> !CanStep(s.calls[d])
    ensures AllDone(s)
  {
    forall d | 0 <= d < |s.calls|
      ensures s.calls[d].phase.Done? || (s.calls[d].phase.PolledEmpty? && s.calls[d].ch.Empty?)
    {
      OnlyWaiters(s, d);
      CallsOk(s, d);
    }
    SlotsAreLost(s.calls);
    forall c | 0 <= c < |s.calls| ensures s.calls[c].phase.Done? { assert SettledCall(s, s.calls[c]); }
  }

  lemma SomebodyCan(s: State) returns (c: CallId)
    requires Settled(s) && s.closer.todo == [] && !AllDone(s)
    ensures c < |s.calls| && CanStep(s.calls[c])
  {
    if d :| 0 <= d < |s.calls| && CanStep(s.calls[d]) {
      c := d;
    } else {
      c := 0;
      RestIsDone(s);
    }
  }

  lemma SettledMoves(s: State) returns (steps: seq<Step>, t: State)
    requires Settled(s) && !AllDone(s)
    ensures Gains(s, steps, t) && Woken(t)
  {
    if s.closer.todo != [] {
      steps, t := CloserMoves(s);
    } else {
      var c := SomebodyCan(s);
      steps, t := EnderMoves(s, c);
    }
  }

  lemma WokenMoves(s: State) returns (steps: seq<Step>, t: State)
    requires Woken(s) && !AllDone(s)
    ensures Gains(s, steps, t) && Woken(t)
  {
    if c :| 0 <= c < |s.calls| && Leaving(s.calls[c]) {
      steps, t := LeaverMoves(s, c);
    } else if c :| 0 <= c < |s.calls| && (s.calls[c].phase.ToIdle? || s.calls[c].phase.CancelKeeps?)
                   && (|s.idle| < s.size || Lookers(s) == 0) {
      steps, t := PusherMoves(s, c);
    } else if c :| 0 <= c < |s.calls| && Ready(s, s.calls[c]) {
      steps, t := ReadyMoves(s, c);
    } else if c :| 0 <= c < |s.calls| && s.calls[c].phase.PolledEmpty? && Resolved(s) {
      steps, t := EmptyMoves(s, c);
    } else if Need(s.waiters, s.calls) > 0 {
      steps, t := ServerMoves(s);
    } else {
      WaitedIsSettled(s);
      steps, t := SettledMoves(s);
    }
  }

  // ---------------------------------------------------------------- while Close is on its way

  lemma NothingClosed(s: State)
    requires QueueInv(s) && !s.closer.Waking?
    ensures !Doomed(s)
  {
    forall c | 0 <= c < |s.calls| ensures !s.calls[c].ch.Closed? { assert CallOk(s.calls[c], s.closer); }
  }

  lemma DrainsOrTakes(s: State) returns (steps: seq<Step>, t: State)
    requires Sound(s) && !s.dead && (s.closer.Marked? || s.closer.Drained?) && NoPollers(s)
    ensures Gains(s, steps, t) && !t.closer.Open? && (t.closer.Waking? ==> Woken(t))
  {
    var st := if s.closer.Marked? then CloseDrain else CloseTake;
    t := Do(s, st);
    assert t.calls == s.calls;
    One(s, st);
    steps := [st];
    NothingClosed(s);
    SumZero(t.calls, ForcedOf(t.size));
    SumZero(t.calls, EmptyOf);
    SumZero(t.calls, LookOf);
  }

  /** Before Close takes the queue, whoever is on the way to it parks. */
  lemma ClosingMoves(s: State) returns (steps: seq<Step>, t: State)
    requires Sound(s) && !s.dead && (s.closer.Marked? || s.closer.Drained?)
    ensures Gains(s, steps, t) && Good(t)
  {
    if c :| 0 <= c < |s.calls| && Poller(s.calls[c].phase) {
      steps, t := PollerMoves(s, c);
    } else {
      steps, t := DrainsOrTakes(s);
    }
  }

  // ---------------------------------------------------------------- to the end

  ghost predicate Good(s: State) { Sound(s) && !s.dead && !Jammed(s) }

  lemma Advance(s: State) returns (steps: seq<Step>, t: State)
    requires Good(s) && !AllDone(s)
    ensures Gains(s, steps, t) && Good(t)
  {
    if s.closer.Open? {
      steps, t := OpenMoves(s);
      OpenStays(s, steps);
    } else if s.closer.Waking? {
      steps, t := WokenMoves(s);
    } else {
      steps, t := ClosingMoves(s);
    }
  }

  /** Nobody closes the pool on the way. */
  lemma {:induction false} OpenStays(s: State, steps: seq<Step>)
    requires Runs(s, steps) && AllOnward(steps) && s.closer.Open?
    ensures Exec(s, steps).closer.Open?
    decreases |steps|
  {
    if steps != [] {
      assert Onward(steps[0]);
      assert forall i :: 0 <= i < |steps| - 1 ==> steps[1..][i] == steps[i + 1];
      OpenStays(Do(s, steps[0]), steps[1..]);
    }
  }

  lemma {:induction false} Joined(s: State, a: seq<Step>, b: seq<Step>)
    requires Runs(s, a) && Runs(Exec(s, a), b)
    ensures Runs(s, a + b) && Exec(s, a + b) == Exec(Exec(s, a), b)
    decreases |a|
  {
    if a == [] {
      assert a + b == b;
    } else {
      assert (a + b)[1..] == a[1..] + b;
      Joined(Do(s, a[0]), a[1..], b);
    }
  }

  lemma {:induction false} Finish(s: State) returns (steps: seq<Step>)
    requires Good(s)
    ensures Runs(s, steps) && AllOnward(steps) && AllDone(Exec(s, steps)) && !Exec(s, steps).dead
    decreases Pollers(s), CloserRank(s.closer), |s.waiters|, |Todo(s.closer)|, Ranks(s)
  {
    if AllDone(s) {
      steps := [];
    } else {
      var some, t := Advance(s);
      var more := Finish(t);
      Joined(s, some, more);
      steps := some + more;
    }
  }

  /** All the calls in the pool can end by their own steps. */
  ghost predicate CanEnd(s: State) { exists steps :: Runs(s, steps) && AllOnward(steps) && AllDone(Exec(s, steps)) }

  /** In every state that a pool can be in, the calls inside can all end without a newcomer, a cancel, or
      somebody who closes, resizes or sweeps the pool, if and only if it is not jammed: while it is open,
      nobody needs a backend or somebody has one or can still come by one; once Close has taken the queue,
      no cancel is bound to crash and there are hand-offs enough; and in between always. */
  lemma CanEndIff(size: nat, reserve: nat, steps: seq<Step>)
    requires size >= 1 && Runs(Init(size, reserve), steps) && !Exec(Init(size, reserve), steps).dead
    ensures CanEnd(Exec(Init(size, reserve), steps)) <==> !Jammed(Exec(Init(size, reserve), steps))
  {
    var s := Exec(Init(size, reserve), steps);
    InitInv(size, reserve);
    RunKeepsSound(Init(size, reserve), steps);
    if Jammed(s) {
      forall more | Runs(s, more) && AllOnward(more) ensures !AllDone(Exec(s, more)) { HopelessForGood(s, more); }
    } else {
      var more := Finish(s);
    }
  }
}
