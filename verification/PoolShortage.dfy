/** What can keep the calls of a pool from ending once Close has taken its queue: a cancel that is bound to
    crash, or fewer hand-offs to come than calls that nothing else can serve. */
module PoolShortage {
  import opened Counting
  import opened PoolProtocol
  import opened PoolLedger
  import opened PoolDrain

  predicate Cancelling(p: Phase) { p.CancelMarked? || p.CancelDequeued? }

  /** A cancel is under way whose channel Close has closed: its end is a nil dereference. */
  predicate Doomed(s: State) {
    exists c :: 0 <= c < |s.calls| && Cancelling(s.calls[c].phase) && s.calls[c].ch.Closed?
  }

  // ---------------------------------------------------------------- hand-offs the queue needs

  /** Parked with no timer left. */
  predicate Hard(calls: seq<Call>, w: CallId) { w < |calls| && Parked(calls[w]) && !calls[w].phase.timerArmed }

  /** Uses up a hand-off when a Release comes to it: a cancelled waiter does not. */
  predicate Costs(calls: seq<Call>, w: CallId) { w < |calls| && !calls[w].phase.CancelMarked? }

  /** The hand-offs it takes to get past the last hard entry of the queue. */
  function Need(q: seq<CallId>, calls: seq<Call>): nat {
    if q == [] then 0
    else
      var rest := Need(q[1..], calls);
      if rest > 0 || Hard(calls, q[0]) then rest + Indicator(Costs(calls, q[0])) else 0
  }

  lemma {:induction false} NeedSame(q: seq<CallId>, a: seq<Call>, b: seq<Call>)
    requires forall w :: w in q ==> Hard(a, w) == Hard(b, w) && Costs(a, w) == Costs(b, w)
    ensures Need(q, a) == Need(q, b)
  {
    if q != [] {
      assert q[0] in q && forall w :: w in q[1..] ==> w in q;
      NeedSame(q[1..], a, b);
    }
  }

  lemma {:induction false} NeedWithout(q: seq<CallId>, calls: seq<Call>, c: CallId)
    requires c < |calls| && calls[c].phase.CancelMarked?
    ensures Need(Without(q, c), calls) == Need(q, calls)
  {
    if q != [] && q[0] != c {
      NeedWithout(q[1..], calls, c);
      assert ([q[0]] + Without(q[1..], c))[1..] == Without(q[1..], c);
    }
  }

  lemma {:induction false} NeedAppend(q: seq<CallId>, calls: seq<Call>, c: CallId)
    ensures !Hard(calls, c) ==> Need(q + [c], calls) == Need(q, calls)
    ensures Hard(calls, c) ==> Need(q + [c], calls) >= Need(q, calls) + 1
    ensures Hard(calls, c) && (forall w :: w in q ==> Hard(calls, w) || !Costs(calls, w))
            ==> Need(q + [c], calls) == Need(q, calls) + 1
  {
    if q == [] {
      assert (q + [c])[1..] == [];
    } else {
      NeedAppend(q[1..], calls, c);
      assert (q + [c])[1..] == q[1..] + [c] && q[0] in q;
      assert forall w :: w in q[1..] ==> w in q;
    }
  }

  lemma {:induction false} NeedIsHard(q: seq<CallId>, calls: seq<Call>)
    ensures Need(q, calls) > 0 <==> exists i :: 0 <= i < |q| && Hard(calls, q[i])
  {
    if q != [] {
      NeedIsHard(q[1..], calls);
      if i :| 0 <= i < |q[1..]| && Hard(calls, q[1..][i]) { assert Hard(calls, q[i + 1]); }
      if i :| 0 <= i < |q| && Hard(calls, q[i]) {
        if i > 0 { assert Hard(calls, q[1..][i - 1]); }
      }
    }
  }

  // ---------------------------------------------------------------- the calls, counted

  function Flags(calls: seq<Call>): seq<bool> { seq(|calls|, i requires 0 <= i < |calls| => calls[i].canceled) }

  /** A Release that will still look at the queue. */
  function SupplyOf(flags: seq<bool>): Call -> nat {
    (x: Call) => Indicator(x.phase.Handing? || (x.phase.Sending? && x.phase.to < |flags| && flags[x.phase.to]))
  }

  /** About to park, whatever happens. */
  function ForcedOf(size: nat): Call -> nat { (x: Call) => Indicator(x.phase.Loaded? && x.phase.cur >= size) }

  function EmptyOf(x: Call): nat { Indicator(x.phase.PolledEmpty?) }
  function LookOf(x: Call): nat { Indicator(x.phase.Checked?) }
  function RefillOf(x: Call): nat { Indicator(x.phase.ToIdle? || x.phase.CancelKeeps?) }

  /** A slot that no call will give back. */
  function LostOf(x: Call): nat {
    Indicator(x.ch.Full? && !x.phase.Waiting?) + Indicator(x.phase.CancelTook? || x.phase.CancelKeeps?)
  }

  function Supply(s: State): nat { Sum(s.calls, SupplyOf(Flags(s.calls))) }
  function Forced(s: State): nat { Sum(s.calls, ForcedOf(s.size)) }
  function Empties(s: State): nat { Sum(s.calls, EmptyOf) }
  function Lookers(s: State): nat { Sum(s.calls, LookOf) }
  function Refill(s: State): nat { |s.idle| + Sum(s.calls, RefillOf) }
  function Lost(s: State): nat { s.drained + Sum(s.calls, LostOf) }

  datatype Tally = Tally(need: int, forced: int, empties: int, lookers: int, refill: int, lost: int, supply: int)

  function TallyOf(s: State): Tally {
    Tally(Need(s.waiters, s.calls), Forced(s), Empties(s), Lookers(s), Refill(s), Lost(s), Supply(s))
  }

  /** How many hand-offs there are too few.  Without a reserve whoever is about to park needs one too, and,
      when the slots lost fill the pool, so does whoever has found nothing idle or will. */
  function Gap(t: Tally, plain: bool, size: nat): int {
    var excess := if t.lookers > t.refill then t.lookers - t.refill else 0;
    t.need - t.supply + if !plain then 0 else if t.lost < size then t.forced else t.forced + t.empties + excess
  }

  function Short(s: State): int { Gap(TallyOf(s), s.reserve == 0, s.size) }

  /** Close has taken the queue, and not all calls can end. */
  predicate StuckClosed(s: State) { s.closer.Waking? && (Doomed(s) || Short(s) > 0) }

  // ---------------------------------------------------------------- what a step does to the counts

  /** What one call adds to the tally; and what a step changes in it, the queue's need aside. */
  datatype Share = Share(forced: int, empties: int, lookers: int, refill: int, lost: int, supply: int)

  function ShareOf(flags: seq<bool>, size: nat, x: Call): Share {
    Share(ForcedOf(size)(x), EmptyOf(x), LookOf(x), RefillOf(x), LostOf(x), SupplyOf(flags)(x))
  }

  function Minus(b: bool): int { if b then -1 else 0 }

  const NOTHING: Share := Share(0, 0, 0, 0, 0, 0)

  /** The change a step makes, by the step. */
  function Change(s: State, st: Step): Share
    requires Enabled(s, st)
  {
    match st
    case PollIdle(_) => NOTHING.(lookers := -1, empties := Indicator(s.idle == []), refill := Minus(s.idle != []))
    case LoadActive(_) => NOTHING.(empties := -1, forced := Indicator(s.active >= s.size))
    case Park(_) => NOTHING.(forced := -1)
    case CancelPush(_) => NOTHING.(refill := Minus(|s.idle| >= s.size))
    case ReserveTimer(c) => NOTHING.(lost := Indicator(s.calls[c].ch.Full?))
    case ReleaseTakeWaiter(_) =>
      if s.waiters == [] then NOTHING.(supply := -1, refill := 1)
      else NOTHING.(supply := Minus(!Canceled(s.calls, s.waiters[0])))
    case ReleasePush(_) => NOTHING.(refill := Minus(|s.idle| >= s.size))
    case ReleaseSend(c) =>
      var to := s.calls[c].phase.to;
      NOTHING.(supply := Minus(Canceled(s.calls, to)), lost := Indicator(!s.calls[to].phase.Waiting?))
    case _ => NOTHING
  }

  predicate Canceled(calls: seq<Call>, w: CallId) { w < |calls| && calls[w].canceled }

  /** The call's record, the idle channel and the drained count change by just that. */
  predicate Makes(s: State, s': State, x: Call, x': Call, change: Share) {
    var a, b := ShareOf(Flags(s.calls), s.size, x), ShareOf(Flags(s.calls), s.size, x');
    && b.forced - a.forced == change.forced && b.empties - a.empties == change.empties
    && b.lookers - a.lookers == change.lookers && b.supply - a.supply == change.supply
    && b.refill - a.refill + |s'.idle| - |s.idle| == change.refill
    && b.lost - a.lost + s'.drained - s.drained == change.lost
  }

  predicate Added(t: Tally, t': Tally, change: Share) {
    && t'.forced == t.forced + change.forced && t'.empties == t.empties + change.empties
    && t'.lookers == t.lookers + change.lookers && t'.refill == t.refill + change.refill
    && t'.lost == t.lost + change.lost && t'.supply == t.supply + change.supply
  }

  predicate OneChanged(s: State, s': State, c: CallId) {
    && c < |s.calls| == |s'.calls| && s'.calls == s.calls[c := s'.calls[c]] && s'.size == s.size
    && Flags(s'.calls) == Flags(s.calls)
  }

  /** One call changes: every count moves by what it does to that call. */
  lemma Counts(s: State, s': State, c: CallId, change: Share)
    requires OneChanged(s, s', c) && Makes(s, s', s.calls[c], s'.calls[c], change)
    ensures Added(TallyOf(s), TallyOf(s'), change)
  {
    var x' := s'.calls[c];
    SumUpdate(s.calls, c, x', SupplyOf(Flags(s.calls)));
    SumUpdate(s.calls, c, x', ForcedOf(s.size));
    SumUpdate(s.calls, c, x', EmptyOf);
    SumUpdate(s.calls, c, x', LookOf);
    SumUpdate(s.calls, c, x', RefillOf);
    SumUpdate(s.calls, c, x', LostOf);
  }

  lemma FlagsStay(s: State, st: Step)
    requires Enabled(s, st) && Onward(st)
    ensures |Do(s, st).calls| == |s.calls| && Flags(Do(s, st).calls) == Flags(s.calls)
  {
    forall d | 0 <= d < |Do(s, st).calls| ensures d < |s.calls| && Do(s, st).calls[d].canceled == s.calls[d].canceled {
      if d != Actor(st) && d < |s.calls| { CanceledStays(s, st, d); }
    }
  }

  lemma PollChange(s: State, st: Step)
    requires s.closer.Waking? && Enabled(s, st) && PollStep(st) && CallOk(s.calls[Actor(st)], s.closer)
    ensures OneChanged(s, Do(s, st), Actor(st))
    ensures Makes(s, Do(s, st), s.calls[Actor(st)], Do(s, st).calls[Actor(st)], Change(s, st))
  {
    FlagsStay(s, st);
  }

  lemma CancelChange(s: State, st: Step)
    requires s.closer.Waking? && Enabled(s, st) && CancelStep(st) && Onward(st)
    ensures OneChanged(s, Do(s, st), Actor(st))
    ensures Makes(s, Do(s, st), s.calls[Actor(st)], Do(s, st).calls[Actor(st)], Change(s, st))
  {
    FlagsStay(s, st);
  }

  lemma WakeChange(s: State, st: Step)
    requires s.closer.Waking? && Enabled(s, st) && WaitStep(st) && !CancelStep(st)
    ensures OneChanged(s, Do(s, st), Actor(st))
    ensures Makes(s, Do(s, st), s.calls[Actor(st)], Do(s, st).calls[Actor(st)], Change(s, st))
  {
    FlagsStay(s, st);
  }

  lemma ReleaseChange(s: State, st: Step)
    requires s.closer.Waking? && Enabled(s, st) && ReleaseStep(st)
    requires st.ReleaseTakeWaiter? && s.waiters != [] ==> s.waiters[0] < |s.calls|
    ensures OneChanged(s, Do(s, st), Actor(st))
    ensures Makes(s, Do(s, st), s.calls[Actor(st)], Do(s, st).calls[Actor(st)], Change(s, st))
  {
    FlagsStay(s, st);
  }

  lemma OneCallChange(s: State, st: Step)
    requires QueueInv(s) && s.closer.Waking? && Enabled(s, st) && Onward(st) && OneCallStep(st)
    ensures Added(TallyOf(s), TallyOf(Do(s, st)), Change(s, st))
  {
    CallsOk(s, Actor(st));
    if PollStep(st) {
      PollChange(s, st);
    } else if CancelStep(st) {
      CancelChange(s, st);
    } else if WaitStep(st) {
      WakeChange(s, st);
    } else {
      if s.waiters != [] { assert s.waiters[0] in s.waiters; }
      ReleaseChange(s, st);
    }
    Counts(s, Do(s, st), Actor(st), Change(s, st));
  }

  lemma CloseOneChange(s: State)
    requires QueueInv(s) && Enabled(s, CloseOne)
    ensures Added(TallyOf(s), TallyOf(Do(s, CloseOne)), NOTHING)
  {
    var w := s.closer.todo[0];
    assert w in Todo(s.closer) && TodoOk(s.calls[w]);
    FlagsStay(s, CloseOne);
    Counts(s, Do(s, CloseOne), w, NOTHING);
  }

  lemma SendEnds(s: State, c: CallId)
    requires Enabled(s, ReleaseSend(c))
    ensures var mid := s.(calls := s.calls[c := s.calls[c].(phase := Done)]);
            && OneChanged(s, mid, c)
            && Makes(s, mid, s.calls[c], mid.calls[c],
                     NOTHING.(supply := Minus(Canceled(s.calls, s.calls[c].phase.to))))
  {
  }

  /** A hand-off is the releasing call's end and then the waiter's channel filled. */
  lemma SendChange(s: State, c: CallId)
    requires Enabled(s, ReleaseSend(c))
    ensures Added(TallyOf(s), TallyOf(Do(s, ReleaseSend(c))), Change(s, ReleaseSend(c)))
  {
    var to, s' := s.calls[c].phase.to, Do(s, ReleaseSend(c));
    var mid := s.(calls := s.calls[c := s.calls[c].(phase := Done)]);
    FlagsStay(s, ReleaseSend(c));
    SendEnds(s, c);
    Counts(s, mid, c, NOTHING.(supply := Minus(Canceled(s.calls, to))));
    assert s'.calls == mid.calls[to := s'.calls[to]] && s'.calls[to] == mid.calls[to].(ch := Full(s.calls[c].phase.b));
    Counts(mid, s', to, NOTHING.(lost := Indicator(!s.calls[to].phase.Waiting?)));
  }

  lemma StepChange(s: State, st: Step)
    requires QueueInv(s) && s.closer.Waking? && Enabled(s, st) && Onward(st)
    ensures Added(TallyOf(s), TallyOf(Do(s, st)), Change(s, st))
  {
    if OneCallStep(st) {
      OneCallChange(s, st);
    } else if st.ReleaseSend? {
      SendChange(s, st.c);
    } else {
      CloseOneChange(s);
    }
  }

  /** The slots lost are among the counted ones. */
  lemma {:induction false} LostIsSlots(calls: seq<Call>)
    requires forall c :: 0 <= c < |calls| ==> BeforePark(calls[c].phase) ==> calls[c].ch.Empty?
    ensures Sum(calls, LostOf) <= Sum(calls, SlotOf)
  {
    if calls != [] { LostIsSlots(calls[1..]); }
  }

  lemma LostIsActive(s: State)
    requires QueueInv(s) && SlotInv(s)
    ensures Lost(s) <= s.active
  {
    forall c | 0 <= c < |s.calls| && BeforePark(s.calls[c].phase) ensures s.calls[c].ch.Empty? {
      assert CallOk(s.calls[c], s.closer);
    }
    LostIsSlots(s.calls);
  }

  // ---------------------------------------------------------------- what a step does to the queue's need

  /** No step changes what an entry of the queue is, but a cancelled one's that leaves it. */
  lemma EntryStays(s: State, st: Step, w: CallId)
    requires QueueInv(s) && s.closer.Waking? && Enabled(s, st) && Onward(st) && w in s.waiters && w != Actor(st)
    ensures Hard(Do(s, st).calls, w) == Hard(s.calls, w) && Costs(Do(s, st).calls, w) == Costs(s.calls, w)
  {
    assert QueuedOk(s.calls[w], s.closer);
    PB.OthersStay(s, st, w);
    PB.OthersChan(s, st, w);
    if st.ReleaseSend? { assert TakenOk(s.waiters, Todo(s.closer), s.calls, s.calls[st.c].phase.to); }
    if st.CloseOne? { assert s.closer.todo[0] in Todo(s.closer); }
  }

  lemma OwnEntryStays(s: State, st: Step)
    requires s.closer.Waking? && Enabled(s, st) && Onward(st) && !st.CancelDequeue? && Actor(st) >= 0
    requires QueuedOk(s.calls[Actor(st)], s.closer)
    ensures var w, calls' := Actor(st), Do(s, st).calls;
            Hard(calls', w) == Hard(s.calls, w) && Costs(calls', w) == Costs(s.calls, w)
  {
  }

  lemma NeedStays(s: State, st: Step, q: seq<CallId>)
    requires QueueInv(s) && s.closer.Waking? && Enabled(s, st) && Onward(st) && !st.CancelDequeue?
    requires forall w :: w in q ==> w in s.waiters
    ensures Need(q, Do(s, st).calls) == Need(q, s.calls)
  {
    forall w | w in q
      ensures Hard(Do(s, st).calls, w) == Hard(s.calls, w) && Costs(Do(s, st).calls, w) == Costs(s.calls, w)
    {
      if w == Actor(st) { OwnEntryStays(s, st); } else { EntryStays(s, st, w); }
    }
    NeedSame(q, s.calls, Do(s, st).calls);
  }

  lemma NeedDequeued(s: State, c: CallId)
    requires QueueInv(s) && Enabled(s, CancelDequeue(c))
    ensures Need(Do(s, CancelDequeue(c)).waiters, Do(s, CancelDequeue(c)).calls) == Need(s.waiters, s.calls)
  {
    WithoutFacts(s.waiters, c);
    NeedWithout(s.waiters, s.calls, c);
    NeedSame(Without(s.waiters, c), s.calls, Do(s, CancelDequeue(c)).calls);
  }

  lemma QueueStays(s: State, st: Step)
    requires s.closer.Waking? && Enabled(s, st) && Onward(st)
    requires !st.Park? && !st.CancelDequeue? && !st.ReleaseTakeWaiter?
    ensures Do(s, st).waiters == s.waiters
  {
  }

  /** The need after a step that neither parks a call nor takes one. */
  lemma StepNeed(s: State, st: Step)
    requires QueueInv(s) && s.closer.Waking? && Enabled(s, st) && Onward(st) && !st.Park? && !st.ReleaseTakeWaiter?
    ensures TallyOf(Do(s, st)).need == TallyOf(s).need
  {
    if st.CancelDequeue? {
      NeedDequeued(s, st.c);
    } else {
      QueueStays(s, st);
      NeedStays(s, st, s.waiters);
    }
  }

  lemma TakeNeed(s: State, c: CallId)
    requires QueueInv(s) && s.closer.Waking? && Enabled(s, ReleaseTakeWaiter(c)) && s.waiters != []
    ensures s.waiters[0] < |s.calls|
    ensures TallyOf(Do(s, ReleaseTakeWaiter(c))).need == Need(s.waiters[1..], s.calls)
  {
    assert s.waiters[0] in s.waiters;
    NeedStays(s, ReleaseTakeWaiter(c), s.waiters[1..]);
  }

  /** A call that parks needs a hand-off unless it has a timer. */
  lemma ParkNeed(s: State, c: CallId)
    requires QueueInv(s) && s.closer.Waking? && Enabled(s, Park(c))
    ensures var n := TallyOf(Do(s, Park(c))).need;
            && (s.reserve > 0 ==> n == TallyOf(s).need)
            && (s.reserve == 0 ==> n >= TallyOf(s).need + 1)
            && (s.reserve == 0 && (forall w :: w in s.waiters ==> Hard(s.calls, w) || !Costs(s.calls, w))
                ==> n == TallyOf(s).need + 1)
  {
    var s' := Do(s, Park(c));
    assert CallOk(s.calls[c], s.closer);
    NeedStays(s, Park(c), s.waiters);
    forall w | w in s.waiters
      ensures Hard(s'.calls, w) == Hard(s.calls, w) && Costs(s'.calls, w) == Costs(s.calls, w)
    {
      assert QueuedOk(s.calls[w], s.closer);
    }
    NeedAppend(s.waiters, s'.calls, c);
  }

  // ---------------------------------------------------------------- a shortage lasts

  /** Too few hand-offs before, too few after: any change but a taking or a parking. */
  lemma GapStays(t: Tally, t': Tally, plain: bool, size: nat, s: State, st: Step)
    requires Enabled(s, st) && Onward(st) && !st.Park? && !st.ReleaseTakeWaiter? && t.lost <= s.active && s.size == size
    requires t.empties >= 0 && t.lookers >= 0 && t.refill >= |s.idle|
    requires t'.empties >= 0 && t'.lookers >= 0 && t'.refill >= 0 && t'.forced >= 0
    requires Gap(t, plain, size) > 0 && t'.need == t.need && Added(t, t', Change(s, st))
    ensures Gap(t', plain, size) > 0
  {
  }

  /** A queued waiter that costs a hand-off is not cancelled; without a reserve any other is. */
  lemma EntryKinds(s: State, w: CallId)
    requires Sound(s) && w in s.waiters
    ensures w < |s.calls| && (Costs(s.calls, w) ==> !s.calls[w].canceled)
    ensures s.reserve == 0 && !Hard(s.calls, w) ==> s.calls[w].canceled && !Costs(s.calls, w)
  {
    assert QueuedOk(s.calls[w], s.closer) && CallOk(s.calls[w], s.closer) && Remembered(s, w);
    if s.reserve == 0 { assert CallPlain(s, w); }
  }

  lemma TakeShort(s: State, c: CallId)
    requires Sound(s) && s.closer.Waking? && Short(s) > 0 && Enabled(s, ReleaseTakeWaiter(c))
    ensures Short(Do(s, ReleaseTakeWaiter(c))) > 0
  {
    StepChange(s, ReleaseTakeWaiter(c));
    if s.waiters != [] {
      TakeNeed(s, c);
      assert s.waiters[0] in s.waiters;
      EntryKinds(s, s.waiters[0]);
    }
  }

  lemma ParkShort(s: State, c: CallId)
    requires Sound(s) && s.closer.Waking? && Short(s) > 0 && Enabled(s, Park(c))
    ensures Short(Do(s, Park(c))) > 0
  {
    StepChange(s, Park(c));
    ParkNeed(s, c);
  }

  lemma ShortStays(s: State, st: Step)
    requires Sound(s) && s.closer.Waking? && Short(s) > 0 && Enabled(s, st) && Onward(st)
    ensures Short(Do(s, st)) > 0
  {
    if st.Park? {
      ParkShort(s, st.c);
    } else if st.ReleaseTakeWaiter? {
      TakeShort(s, st.c);
    } else {
      StepChange(s, st);
      StepNeed(s, st);
      LostIsActive(s);
      ReserveFixed(s, st);
      PB.SizesStay(s, st);
      GapStays(TallyOf(s), TallyOf(Do(s, st)), s.reserve == 0, s.size, s, st);
    }
  }

  /** And so does a doomed cancel, until it crashes. */
  lemma DoomedStays(s: State, st: Step)
    requires Doomed(s) && Enabled(s, st) && Onward(st) && !Do(s, st).dead
    ensures Doomed(Do(s, st))
  {
    var c :| 0 <= c < |s.calls| && Cancelling(s.calls[c].phase) && s.calls[c].ch.Closed?;
    var s' := Do(s, st);
    if c != Actor(st) {
      PB.OthersStay(s, st, c);
      PB.OthersChan(s, st, c);
    }
    assert Cancelling(s'.calls[c].phase) && s'.calls[c].ch.Closed?;
  }

  lemma DoneIsEnough(s: State)
    requires QueueInv(s) && AllDone(s)
    ensures Short(s) <= 0 && !Doomed(s)
  {
    NeedIsHard(s.waiters, s.calls);
    SumZero(s.calls, ForcedOf(s.size));
    SumZero(s.calls, EmptyOf);
    SumZero(s.calls, LookOf);
  }

  lemma StillWaking(s: State, st: Step)
    requires s.closer.Waking? && Enabled(s, st)
    ensures Do(s, st).closer.Waking?
  {
  }

  // ---------------------------------------------------------------- both kinds

  /** Not all calls can end: the pool is stuck, or will be short of hand-offs, or is bound to crash. */
  ghost predicate Jammed(s: State) { Stuck(s) || StuckClosed(s) }

  /** Jammed, or crashed on the way. */
  ghost predicate Hopeless(s: State) { if s.dead then !AllDone(s) else Jammed(s) }

  lemma HopelessStays(s: State, st: Step)
    requires Sound(s) && Hopeless(s) && Enabled(s, st) && Onward(st)
    ensures Hopeless(Do(s, st))
  {
    if Do(s, st).dead {
      assert !Do(s, st).calls[st.c].phase.Done?;
    } else if Stuck(s) {
      StuckStays(s, st);
    } else {
      StillWaking(s, st);
      if Doomed(s) { DoomedStays(s, st); } else { ShortStays(s, st); }
    }
  }

  lemma HopelessIsNotDone(s: State)
    requires Sound(s) && Hopeless(s)
    ensures !AllDone(s)
  {
    if AllDone(s) { DoneIsEnough(s); }
  }

  lemma {:induction false} HopelessForGood(s: State, steps: seq<Step>)
    requires Sound(s) && Hopeless(s) && Runs(s, steps) && AllOnward(steps)
    ensures !AllDone(Exec(s, steps))
    decreases |steps|
  {
    if steps == [] {
      HopelessIsNotDone(s);
    } else {
      assert Onward(steps[0]);
      HopelessStays(s, steps[0]);
      StepKeepsSound(s, steps[0]);
      assert forall i :: 0 <= i < |steps| - 1 ==> steps[1..][i] == steps[i + 1];
      HopelessForGood(Do(s, steps[0]), steps[1..]);
    }
  }
}
