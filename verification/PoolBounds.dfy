/** How many backends can be live at once: the bound holds while the pool's windows are not
    interleaved, and fails otherwise. */
module PoolBounds {
  import opened PoolSizing
  import opened PoolProtocol
  import opened PoolLedger
  import opened PoolTheorems

  function LiveOf(x: Call): nat { |Hands(x.phase)| + |InChan(x.ch)| + DialingOf(x) }

  /** Backends that are open or being opened: idle, in hands, in a channel, or dialing. */
  function Live(s: State): nat { |s.idle| + Sum(s.calls, LiveOf) }

  lemma {:induction false} LiveSlots(calls: seq<Call>)
    ensures Sum(calls, LiveOf) + Sum(calls, PushedOf) == Sum(calls, SlotOf) + Sum(calls, PoppedOf)
  {
    if calls != [] {
      LiveSlots(calls[1..]);
      assert LiveOf(calls[0]) + PushedOf(calls[0]) == SlotOf(calls[0]) + PoppedOf(calls[0]);
    }
  }

  /** Live backends against the slot count, in every state. */
  lemma LiveEquation(s: State)
    requires SlotInv(s)
    ensures Live(s) + PushedNotCounted(s) + s.drained == s.active + |s.idle| + Popping(s)
  {
    LiveSlots(s.calls);
  }

  // ---------------------------------------------------------------- windows

  /** Phases in which a call has looked at the pool but not yet acted on what it saw: the poll, load
      and swap of an acquire, and, where a reserve is in play (`wide`), also a reserve dial not yet
      counted, a release about to push, and a cancel not yet dequeued. */
  predicate InWindow(p: Phase, wide: bool) {
    p.Popped? || p.PolledEmpty? || p.Loaded? || (wide && (p.ReserveWon? || p.ToIdle? || p.CancelMarked?))
  }

  /** While some call is inside a window, only that call moves. */
  ghost predicate Calm(s: State, st: Step, wide: bool) {
    forall c :: 0 <= c < |s.calls| && InWindow(s.calls[c].phase, wide) ==> Actor(st) == c
  }

  ghost predicate CalmRun(s: State, steps: seq<Step>)
    decreases |steps|
  {
    steps == [] ||
    (Enabled(s, steps[0]) && Calm(s, steps[0], false) && !steps[0].Resize? && CalmRun(Do(s, steps[0]), steps[1..]))
  }

  /** What a call inside its window still knows. */
  predicate SightOk(s: State, p: Phase) {
    && (p.PolledEmpty? ==> s.idle == [])
    && (p.Loaded? ==> s.idle == [] && p.cur == s.active)
  }

  ghost predicate CalmInv(s: State, wide: bool) {
    && (forall c, d | 0 <= c < |s.calls| && 0 <= d < |s.calls|
                      && InWindow(s.calls[c].phase, wide) && InWindow(s.calls[d].phase, wide)
          :: c == d)
    && (forall c :: 0 <= c < |s.calls| ==> SightOk(s, s.calls[c].phase))
  }

  /** A step changes the phase of its own call only. */
  lemma OneCallOthersStay(s: State, st: Step, d: CallId)
    requires Enabled(s, st) && OneCallStep(st) && d != Actor(st)
    ensures |Do(s, st).calls| == |s.calls| && (d < |s.calls| ==> Do(s, st).calls[d].phase == s.calls[d].phase)
  {
    if PollStep(st) {
      PollOthersStay(s, st);
    } else if WaitStep(st) {
      WaitBalance(s, st);
    } else {
      ReleaseBalance(s, st);
    }
  }

  lemma PollOthersStay(s: State, st: Step)
    requires Enabled(s, st) && PollStep(st)
    ensures |Do(s, st).calls| == |s.calls|
    ensures forall d :: 0 <= d < |s.calls| && d != Actor(st) ==> Do(s, st).calls[d] == s.calls[d]
  {
  }

  lemma OthersStay(s: State, st: Step, d: CallId)
    requires Enabled(s, st) && d < |Do(s, st).calls| && d != Actor(st)
    ensures if d < |s.calls| then Do(s, st).calls[d].phase == s.calls[d].phase
            else Do(s, st).calls[d].phase == Polling
  {
    if OneCallStep(st) { OneCallOthersStay(s, st, d); }
  }

  lemma PollSight(s: State, st: Step)
    requires Enabled(s, st) && PollStep(st) && SightOk(s, s.calls[Actor(st)].phase)
    ensures SightOk(Do(s, st), Do(s, st).calls[Actor(st)].phase)
  {
  }

  lemma ParkedSight(s: State, st: Step)
    requires Enabled(s, st) && Actor(st) >= 0 && !PollStep(st)
    ensures SightOk(Do(s, st), Do(s, st).calls[Actor(st)].phase)
  {
    NeverUnparks(s, st, Actor(st));
  }

  lemma OwnSight(s: State, st: Step)
    requires Enabled(s, st) && Actor(st) >= 0 && SightOk(s, s.calls[Actor(st)].phase)
    ensures SightOk(Do(s, st), Do(s, st).calls[Actor(st)].phase)
  {
    if PollStep(st) { PollSight(s, st); } else { ParkedSight(s, st); }
  }

  lemma StepKeepsCalm(s: State, st: Step, wide: bool)
    requires CalmInv(s, wide) && Enabled(s, st) && Calm(s, st, wide)
    ensures CalmInv(Do(s, st), wide)
  {
    var s' := Do(s, st);
    forall d | 0 <= d < |s'.calls| && d != Actor(st)
      ensures !InWindow(s'.calls[d].phase, wide) && SightOk(s', s'.calls[d].phase)
    {
      OthersStay(s, st, d);
    }
    if Actor(st) >= 0 { OwnSight(s, st); }
  }

  // ---------------------------------------------------------------- what a step adds

  /** Steps that count a new slot for a dial. */
  predicate StartsDial(s: State, st: Step)
    requires Enabled(s, st)
  {
    st.ReserveCount? || (st.TryCas? && s.active == s.calls[st.c].phase.cur)
  }

  predicate LiveBalance(s: State, st: Step, c: CallId)
    requires Enabled(s, st)
  {
    var s' := Do(s, st);
    && c < |s.calls| == |s'.calls|
    && s'.calls == s.calls[c := s'.calls[c]]
    && |s'.idle| + LiveOf(s'.calls[c]) <= |s.idle| + LiveOf(s.calls[c]) + Indicator(StartsDial(s, st))
  }

  lemma PollLive(s: State, st: Step)
    requires Enabled(s, st) && PollStep(st)
    ensures LiveBalance(s, st, Actor(st))
  {
  }

  lemma CancelLive(s: State, st: Step)
    requires Enabled(s, st) && CancelStep(st)
    ensures LiveBalance(s, st, Actor(st))
  {
  }

  lemma WakeLive(s: State, st: Step)
    requires Enabled(s, st) && WaitStep(st) && !CancelStep(st)
    ensures LiveBalance(s, st, Actor(st))
  {
  }

  lemma WaitLive(s: State, st: Step)
    requires Enabled(s, st) && WaitStep(st)
    ensures LiveBalance(s, st, Actor(st))
  {
    if CancelStep(st) { CancelLive(s, st); } else { WakeLive(s, st); }
  }

  lemma ReleaseLive(s: State, st: Step)
    requires Enabled(s, st) && ReleaseStep(st)
    ensures LiveBalance(s, st, Actor(st))
  {
  }

  lemma HandOffLive(calls: seq<Call>, c: CallId)
    requires c < |calls| && calls[c].phase.Sending? && calls[c].phase.to < |calls|
    requires calls[calls[c].phase.to].ch.Empty?
    ensures Sum(HandOff(calls, c), LiveOf) == Sum(calls, LiveOf)
  {
    HandOffSplits(calls, c, LiveOf, 1);
  }

  lemma {:induction false} KeptShorter(q: seq<Backend>, keep: set<Backend>, inside: bool)
    ensures |Kept(q, keep, inside)| <= |q|
  {
    if q != [] { KeptShorter(q[1..], keep, inside); }
  }

  /** Only a step that starts a dial adds a live backend, and it adds one. */
  lemma StepLive(s: State, st: Step)
    requires QueueInv(s) && Enabled(s, st)
    ensures Live(Do(s, st)) <= Live(s) + Indicator(StartsDial(s, st))
  {
    if OneCallStep(st) {
      var c := Actor(st);
      if PollStep(st) { PollLive(s, st); } else if WaitStep(st) { WaitLive(s, st); } else { ReleaseLive(s, st); }
      SumUpdate(s.calls, c, Do(s, st).calls[c], LiveOf);
    } else {
      match st
      case Start => SumAppend(s.calls, Call(Polling, Empty, false), LiveOf);
      case ReleaseSend(c) => HandOffLive(s.calls, c);
      case CloseOne => SumUpdate(s.calls, s.closer.todo[0], Do(s, st).calls[s.closer.todo[0]], LiveOf);
      case Evict(keep) => KeptShorter(s.idle, keep, true);
      case _ =>
    }
  }

  /** In a window, nobody else is between an idle pop and its count. */
  lemma NoPopping(s: State, c: CallId, wide: bool)
    requires CalmInv(s, wide) && c < |s.calls| && InWindow(s.calls[c].phase, wide) && !s.calls[c].phase.Popped?
    ensures Popping(s) == 0
  {
    forall d | 0 <= d < |s.calls| ensures PoppedOf(s.calls[d]) == 0 { }
    SumZero(s.calls, PoppedOf);
  }

  // ---------------------------------------------------------------- without a reserve

  ghost predicate NoReserve(s: State) {
    && s.reserve == 0
    && forall c :: 0 <= c < |s.calls| ==>
         !s.calls[c].phase.ReserveWon? && (s.calls[c].phase.Waiting? ==> !s.calls[c].phase.timerArmed)
  }

  lemma StepKeepsNoReserve(s: State, st: Step)
    requires NoReserve(s) && Enabled(s, st)
    ensures NoReserve(Do(s, st))
  {
    var s' := Do(s, st);
    forall d | 0 <= d < |s'.calls|
      ensures !s'.calls[d].phase.ReserveWon? && (s'.calls[d].phase.Waiting? ==> !s'.calls[d].phase.timerArmed)
    {
      if d != Actor(st) { OthersStay(s, st, d); }
    }
  }

  lemma StepKeepsSizeBound(s: State, st: Step)
    requires Inv(s) && CalmInv(s, false) && NoReserve(s) && Live(s) <= s.size
    requires Enabled(s, st) && Calm(s, st, false) && !st.Resize?
    ensures Live(Do(s, st)) <= s.size
  {
    StepLive(s, st);
    if StartsDial(s, st) {
      assert SightOk(s, s.calls[st.c].phase);
      NoPopping(s, st.c, false);
      LiveEquation(s);
    }
  }

  lemma {:induction false} CalmRunBound(s: State, steps: seq<Step>)
    requires Inv(s) && CalmInv(s, false) && NoReserve(s) && Live(s) <= s.size && CalmRun(s, steps)
    ensures Runs(s, steps) && Exec(s, steps).size == s.size && Live(Exec(s, steps)) <= s.size
    decreases |steps|
  {
    if steps != [] {
      StepKeepsInv(s, steps[0]);
      StepKeepsCalm(s, steps[0], false);
      StepKeepsNoReserve(s, steps[0]);
      StepKeepsSizeBound(s, steps[0]);
      CalmRunBound(Do(s, steps[0]), steps[1..]);
    }
  }

  /** With no reserve and a fixed size, no run in which the poll, load and swap of each acquire are
      uninterrupted ever has more than DefaultPoolSize live backends, whatever is cancelled, handed
      off, evicted or closed. */
  lemma SizeBound(size: nat, steps: seq<Step>)
    requires CalmRun(Init(size, 0), steps)
    ensures Runs(Init(size, 0), steps) && Live(Exec(Init(size, 0), steps)) <= size
  {
    InitInv(size, 0);
    CalmRunBound(Init(size, 0), steps);
  }

  // ---------------------------------------------------------------- with a reserve

  /** The waiter has not been taken by a Release: it is queued, or Close has taken or woken it. */
  predicate NotTaken(s: State, c: CallId)
    requires c < |s.calls|
  {
    c in s.waiters || c in Todo(s.closer) || s.calls[c].ch.Closed?
  }

  /** A waiter that a Release has taken takes its hand-off: cancels and reserve timers hit only others. */
  predicate Orderly(s: State, st: Step) {
    && (st.Cancel? && st.c < |s.calls| ==> NotTaken(s, st.c))
    && (st.ReserveTimer? && st.c < |s.calls| ==> NotTaken(s, st.c))
    && !st.Resize?
  }

  ghost predicate OrderlyRun(s: State, steps: seq<Step>)
    decreases |steps|
  {
    steps == [] ||
    (Enabled(s, steps[0]) && Calm(s, steps[0], true) && Orderly(s, steps[0]) && OrderlyRun(Do(s, steps[0]), steps[1..]))
  }

  /** A waiter that has not given up on a closed pool. */
  predicate Expecting(p: Phase, closer: Closer) { p.Waiting? || (!closer.Open? && p.Done?) }

  predicate OrderOk(s: State, c: CallId)
    requires c < |s.calls|
  {
    var x := s.calls[c];
    && (x.phase.ToIdle? ==> s.waiters == [])
    && (x.phase.ReserveWon? ==> s.idle == [] && s.active < s.size + s.reserve)
    && (x.phase.CancelMarked? ==> NotTaken(s, c))
    && (x.phase.CancelDequeued? ==> !x.ch.Full?) && !x.phase.CancelTook? && !x.phase.CancelKeeps?
    && (x.ch.Full? ==> Expecting(x.phase, s.closer))
    && (x.phase.Sending? ==> x.phase.to < |s.calls| && Expecting(s.calls[x.phase.to].phase, s.closer))
  }

  ghost predicate OrderInv(s: State) {
    && s.drained == 0
    && (s.waiters != [] ==> s.idle == [])
    && forall c :: 0 <= c < |s.calls| ==> OrderOk(s, c)
  }

  /** A waiter taken by a Release cannot move while the hand-off is pending. */
  lemma TargetStays(s: State, st: Step, d: CallId)
    requires QueueInv(s) && Enabled(s, st) && Orderly(s, st) && OrderInv(s)
    requires d < |s.calls| && s.calls[d].phase.Sending?
    ensures Actor(st) != s.calls[d].phase.to
  {
    assert OrderOk(s, d) && TakenOk(s.waiters, Todo(s.closer), s.calls, s.calls[d].phase.to);
  }

  lemma OthersChan(s: State, st: Step, d: CallId)
    requires Enabled(s, st) && d < |s.calls| && d != Actor(st)
    ensures || Do(s, st).calls[d].ch == s.calls[d].ch
            || (st.ReleaseSend? && d == s.calls[st.c].phase.to && Do(s, st).calls[d].ch.Full?)
            || (st.CloseOne? && d == s.closer.todo[0] && Do(s, st).calls[d].ch.Closed?)
  {
  }

  lemma CloserMonotone(s: State, st: Step)
    requires Enabled(s, st)
    ensures !s.closer.Open? ==> !Do(s, st).closer.Open?
  {
  }

  lemma OtherOrder(s: State, st: Step, d: CallId)
    requires QueueInv(s) && OrderInv(s) && Enabled(s, st) && Calm(s, st, true) && Orderly(s, st)
    requires d < |Do(s, st).calls| && d != Actor(st)
    ensures OrderOk(Do(s, st), d)
  {
    OthersStay(s, st, d);
    CloserMonotone(s, st);
    if d < |s.calls| {
      OthersChan(s, st, d);
      assert OrderOk(s, d);
      if st.ReleaseSend? { assert OrderOk(s, st.c); }
      if s.calls[d].phase.Sending? {
        TargetStays(s, st, d);
        OthersStay(s, st, s.calls[d].phase.to);
      }
    }
  }

  /** What the acting call's own record can look like afterwards. */
  lemma OwnPollOrder(s: State, st: Step)
    requires OrderInv(s) && Enabled(s, st) && PollStep(st) && CallOk(s.calls[Actor(st)], s.closer)
    ensures OrderOk(Do(s, st), Actor(st))
  {
    assert OrderOk(s, Actor(st));
  }

  lemma OwnWaitOrder(s: State, st: Step)
    requires QueueInv(s) && OrderInv(s) && Enabled(s, st) && WaitStep(st) && Orderly(s, st)
    ensures OrderOk(Do(s, st), Actor(st)) && Do(s, st).drained == 0
  {
    assert OrderOk(s, Actor(st)) && CallOk(s.calls[Actor(st)], s.closer);
    if Actor(st) in s.waiters { assert QueuedOk(s.calls[Actor(st)], s.closer); }
  }

  lemma OwnReleaseOrder(s: State, st: Step)
    requires QueueInv(s) && OrderInv(s) && Enabled(s, st) && Calm(s, st, true) && ReleaseStep(st)
    ensures OrderOk(Do(s, st), Actor(st))
  {
    assert OrderOk(s, Actor(st));
    if st.ReleaseTakeWaiter? && s.waiters != [] {
      assert s.waiters[0] in s.waiters && QueuedOk(s.calls[s.waiters[0]], s.closer);
      OthersStay(s, st, s.waiters[0]);
    }
  }

  lemma OwnSendOrder(s: State, c: CallId)
    requires QueueInv(s) && OrderInv(s) && Enabled(s, ReleaseSend(c))
    ensures OrderOk(Do(s, ReleaseSend(c)), c)
  {
    assert OrderOk(s, c);
  }

  lemma QueueKeepsIdleEmpty(s: State, st: Step)
    requires QueueInv(s) && CalmInv(s, true) && OrderInv(s) && Enabled(s, st) && Orderly(s, st)
    ensures Do(s, st).waiters != [] ==> Do(s, st).idle == []
  {
    if WaitStep(st) {
      WaitKeepsIdleEmpty(s, st);
    } else if Actor(st) >= 0 {
      assert OrderOk(s, Actor(st)) && SightOk(s, s.calls[Actor(st)].phase);
    }
  }

  lemma WaitKeepsIdleEmpty(s: State, st: Step)
    requires QueueInv(s) && CalmInv(s, true) && OrderInv(s) && Enabled(s, st) && Orderly(s, st) && WaitStep(st)
    ensures Do(s, st).waiters != [] ==> Do(s, st).idle == []
  {
    assert OrderOk(s, Actor(st)) && SightOk(s, s.calls[Actor(st)].phase);
    if st.CancelDequeue? || st.ReserveTimer? { WithoutFacts(s.waiters, Actor(st)); }
  }

  lemma StepKeepsOrder(s: State, st: Step)
    requires QueueInv(s) && CalmInv(s, true) && OrderInv(s) && Enabled(s, st) && Calm(s, st, true) && Orderly(s, st)
    ensures OrderInv(Do(s, st))
  {
    QueueKeepsIdleEmpty(s, st);
    if Actor(st) >= 0 {
      assert CallOk(s.calls[Actor(st)], s.closer);
      if PollStep(st) { OwnPollOrder(s, st); } else if WaitStep(st) { OwnWaitOrder(s, st); }
      else if ReleaseStep(st) { OwnReleaseOrder(s, st); } else { OwnSendOrder(s, st.c); }
    }
    forall d | 0 <= d < |Do(s, st).calls| && d != Actor(st) ensures OrderOk(Do(s, st), d) { OtherOrder(s, st, d); }
  }

  lemma StepKeepsReserveBound(s: State, st: Step)
    requires Inv(s) && CalmInv(s, true) && OrderInv(s) && Live(s) <= s.size + s.reserve
    requires Enabled(s, st) && Calm(s, st, true) && Orderly(s, st)
    ensures Live(Do(s, st)) <= s.size + s.reserve
  {
    StepLive(s, st);
    if StartsDial(s, st) {
      assert SightOk(s, s.calls[st.c].phase) && OrderOk(s, st.c);
      NoPopping(s, st.c, true);
      LiveEquation(s);
    }
  }

  lemma NothingStranded(s: State)
    requires OrderInv(s) && s.closer.Open?
    ensures Stranded(s) == 0
  {
    forall d | 0 <= d < |s.calls| ensures OrphanOf(s.calls[d]) == 0 { assert OrderOk(s, d); }
    SumZero(s.calls, OrphanOf);
  }

  lemma SizesStay(s: State, st: Step)
    requires Enabled(s, st) && !st.Resize?
    ensures Do(s, st).size == s.size && Do(s, st).reserve == s.reserve
  {
  }

  ghost predicate OrderlyBound(s: State) {
    Inv(s) && CalmInv(s, true) && OrderInv(s) && Live(s) <= s.size + s.reserve
  }

  lemma StepKeepsOrderlyBound(s: State, st: Step)
    requires OrderlyBound(s) && Enabled(s, st) && Calm(s, st, true) && Orderly(s, st)
    ensures OrderlyBound(Do(s, st))
  {
    StepKeepsInv(s, st);
    StepKeepsCalm(s, st, true);
    StepKeepsOrder(s, st);
    StepKeepsReserveBound(s, st);
    SizesStay(s, st);
  }

  lemma {:induction false} OrderlyRunBound(s: State, steps: seq<Step>)
    requires OrderlyBound(s) && OrderlyRun(s, steps)
    ensures Runs(s, steps) && OrderlyBound(Exec(s, steps))
    ensures Exec(s, steps).size == s.size && Exec(s, steps).reserve == s.reserve
    decreases |steps|
  {
    if steps != [] {
      StepKeepsOrderlyBound(s, steps[0]);
      SizesStay(s, steps[0]);
      OrderlyRunBound(Do(s, steps[0]), steps[1..]);
    }
  }

  /** With a reserve and a fixed size, runs whose windows are uninterrupted and whose taken waiters
      take their hand-off never exceed default plus reserve and never leave a backend idle while a
      waiter is parked, closed pools included; until the pool is closed they strand nothing. */
  lemma ReserveBound(size: nat, reserve: nat, steps: seq<Step>)
    requires OrderlyRun(Init(size, reserve), steps)
    ensures Runs(Init(size, reserve), steps)
    ensures var s := Exec(Init(size, reserve), steps);
            && Live(s) <= size + reserve
            && (s.waiters != [] ==> s.idle == [])
            && (s.closer.Open? ==> Stranded(s) == 0)
  {
    InitInv(size, reserve);
    OrderlyRunBound(Init(size, reserve), steps);
    var s := Exec(Init(size, reserve), steps);
    if s.closer.Open? { NothingStranded(s); }
  }

  // ---------------------------------------------------------------- exactly when a bound breaks

  lemma DialAddsOne(s: State, st: Step)
    requires Enabled(s, st) && StartsDial(s, st)
    ensures Live(Do(s, st)) == Live(s) + 1
  {
    SumUpdate(s.calls, st.c, Do(s, st).calls[st.c], LiveOf);
  }

  /** A swap that wins, or a reserve dial that is counted, although the backends idle or popped and not
      yet counted, less those counted twice (pushed but not yet uncounted) and the drained hand-offs,
      take up all the room there is above the count it starts from. */
  predicate Overfills(s: State, st: Step)
    requires Enabled(s, st)
  {
    && (st.ReserveCount? || (st.TryCas? && s.active == s.calls[st.c].phase.cur))
    && |s.idle| + Popping(s) - PushedNotCounted(s) - s.drained == s.size + s.reserve - s.active
  }

  lemma StepExceedsIff(s: State, st: Step)
    requires Inv(s) && Enabled(s, st) && !st.Resize? && Live(s) <= s.size + s.reserve
    ensures Live(Do(s, st)) > s.size + s.reserve <==> Overfills(s, st)
  {
    LiveEquation(s);
    StepLive(s, st);
    if StartsDial(s, st) { DialAddsOne(s, st); }
  }

  predicate AllWithin(s: State, steps: seq<Step>, bound: nat)
    requires Runs(s, steps)
    decreases |steps|
  {
    Live(s) <= bound && (steps == [] || AllWithin(Do(s, steps[0]), steps[1..], bound))
  }

  predicate SomeOverfills(s: State, steps: seq<Step>)
    requires Runs(s, steps)
    decreases |steps|
  {
    steps != [] && (Overfills(s, steps[0]) || SomeOverfills(Do(s, steps[0]), steps[1..]))
  }

  predicate Resizes(steps: seq<Step>) { exists i :: 0 <= i < |steps| && steps[i].Resize? }

  ghost predicate Within(s: State, bound: nat) { Inv(s) && Live(s) <= bound && s.size + s.reserve == bound }

  lemma StepWithinIff(s: State, st: Step, bound: nat)
    requires Within(s, bound) && Enabled(s, st) && !st.Resize?
    ensures Overfills(s, st) <==> Live(Do(s, st)) > bound
    ensures !Overfills(s, st) ==> Within(Do(s, st), bound)
  {
    StepExceedsIff(s, st);
    StepKeepsInv(s, st);
    SizesStay(s, st);
  }

  lemma {:induction false} RunWithinIff(s: State, steps: seq<Step>, bound: nat)
    requires Within(s, bound) && Runs(s, steps) && !Resizes(steps)
    ensures AllWithin(s, steps, bound) <==> !SomeOverfills(s, steps)
    decreases |steps|
  {
    if steps != [] {
      assert !steps[0].Resize?;
      forall i | 0 <= i < |steps| - 1 ensures !steps[1..][i].Resize? { assert steps[1..][i] == steps[i + 1]; }
      StepWithinIff(s, steps[0], bound);
      if !Overfills(s, steps[0]) { RunWithinIff(Do(s, steps[0]), steps[1..], bound); }
    }
  }

  lemma InitWithin(size: nat, reserve: nat)
    ensures Within(Init(size, reserve), size + reserve)
  {
    InitInv(size, reserve);
  }

  /** Whatever is interleaved, a run at a fixed size keeps the live backends within size plus reserve
      throughout if and only if no dial in it overfills the room there is. */
  lemma ExceedsIff(size: nat, reserve: nat, steps: seq<Step>)
    requires Runs(Init(size, reserve), steps) && !Resizes(steps)
    ensures AllWithin(Init(size, reserve), steps, size + reserve) <==> !SomeOverfills(Init(size, reserve), steps)
  {
    InitWithin(size, reserve);
    RunWithinIff(Init(size, reserve), steps, size + reserve);
  }

  // ---------------------------------------------------------------- the condition is needed

  lemma Cons(s: State, st: Step, rest: seq<Step>)
    requires Enabled(s, st) && Runs(Do(s, st), rest)
    ensures Runs(s, [st] + rest) && Exec(s, [st] + rest) == Exec(Do(s, st), rest)
  {
    assert ([st] + rest)[1..] == rest;
  }

  /** A call dials a new backend: the second half of an acquire that saw nothing idle. */
  lemma DialsAnyway(s: State) returns (steps: seq<Step>)
    requires s.size == 1 && s.active == 0 && s.idle == [0] && !s.dead
    requires s.calls == [Call(Done, Empty, false), Call(PolledEmpty, Empty, false)]
    ensures Runs(s, steps) && Live(Exec(s, steps)) == 2
  {
    var t := Do(s, LoadActive(1));
    var u := Do(t, TryCas(1));
    assert u.calls == [Call(Done, Empty, false), Call(Dialing, Empty, false)];
    SumAppend([], u.calls[0], LiveOf);
    SumAppend([u.calls[0]], u.calls[1], LiveOf);
    assert u.calls == [u.calls[0]] + [u.calls[1]] && [] + [u.calls[0]] == [u.calls[0]];
    Cons(t, TryCas(1), []);
    Cons(s, LoadActive(1), [TryCas(1)] + []);
    steps := [LoadActive(1)] + ([TryCas(1)] + []);
  }

  /** Meanwhile the only checkout goes back to idle. */
  lemma PushesMeanwhile(s: State) returns (steps: seq<Step>)
    requires s.size == 1 && s.active == 1 && s.idle == [] && !s.dead
    requires s.calls == [Call(ToIdle(0), Empty, false), Call(PolledEmpty, Empty, false)]
    ensures Runs(s, steps) && Live(Exec(s, steps)) == 2
  {
    var t := Do(s, ReleasePush(0));
    var u := Do(t, ReleaseUncount(0));
    var r := DialsAnyway(u);
    Cons(t, ReleaseUncount(0), r);
    Cons(s, ReleasePush(0), [ReleaseUncount(0)] + r);
    steps := [ReleasePush(0)] + ([ReleaseUncount(0)] + r);
  }

  lemma ReleasesMeanwhile(s: State) returns (steps: seq<Step>)
    requires s.size == 1 && s.active == 1 && s.idle == [] && s.waiters == [] && s.closer.Open? && !s.dead
    requires s.calls == [Call(Holding(0), Empty, false), Call(PolledEmpty, Empty, false)]
    ensures Runs(s, steps) && Live(Exec(s, steps)) == 2
  {
    var s1 := Do(s, ReleaseReset(0, true));
    var s2 := Do(s1, ReleaseCheckClosed(0));
    var s3 := Do(s2, ReleaseTakeWaiter(0));
    var r := PushesMeanwhile(s3);
    Cons(s2, ReleaseTakeWaiter(0), r); r := [ReleaseTakeWaiter(0)] + r;
    Cons(s1, ReleaseCheckClosed(0), r); r := [ReleaseCheckClosed(0)] + r;
    Cons(s, ReleaseReset(0, true), r); r := [ReleaseReset(0, true)] + r;
    steps := r;
  }

  lemma SecondClientPolls(s: State) returns (steps: seq<Step>)
    requires s.size == 1 && s.active == 1 && s.idle == [] && s.waiters == [] && s.closer.Open? && !s.dead
    requires s.calls == [Call(Holding(0), Empty, false)]
    ensures Runs(s, steps) && Live(Exec(s, steps)) == 2
  {
    var s1 := Do(s, Start);
    var s2 := Do(s1, CheckClosed(1));
    var s3 := Do(s2, PollIdle(1));
    var r := ReleasesMeanwhile(s3);
    Cons(s2, PollIdle(1), r); r := [PollIdle(1)] + r;
    Cons(s1, CheckClosed(1), r); r := [CheckClosed(1)] + r;
    Cons(s, Start, r); r := [Start] + r;
    steps := r;
  }

  /** One client acquires, a second polls the empty idle channel, the first releases, and the
      second, having seen nothing idle, dials: a pool of one has two live backends. */
  lemma InterleavedWindowsExceedSize() returns (steps: seq<Step>)
    ensures Runs(Init(1, 0), steps) && Live(Exec(Init(1, 0), steps)) == 2
  {
    var s0 := Init(1, 0);
    var s1 := Do(s0, Start);
    var s2 := Do(s1, CheckClosed(0));
    var s3 := Do(s2, PollIdle(0));
    var s4 := Do(s3, LoadActive(0));
    var s5 := Do(s4, TryCas(0));
    var s6 := Do(s5, DialOk(0));
    var r := SecondClientPolls(s6);
    Cons(s5, DialOk(0), r); r := [DialOk(0)] + r;
    Cons(s4, TryCas(0), r); r := [TryCas(0)] + r;
    Cons(s3, LoadActive(0), r); r := [LoadActive(0)] + r;
    Cons(s2, PollIdle(0), r); r := [PollIdle(0)] + r;
    Cons(s1, CheckClosed(0), r); r := [CheckClosed(0)] + r;
    Cons(s0, Start, r); r := [Start] + r;
    steps := r;
  }
}
