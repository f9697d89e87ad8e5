/** What every step of the pool keeps: the slot ledger, the conservation of backends, and
    the shape of the waiter queue that makes a hand-off safe. */
module PoolLedger {
  import opened Counting
  import opened PoolSizing
  import opened PoolProtocol

  // ---------------------------------------------------------------- sums over calls

  function Sum(calls: seq<Call>, f: Call -> nat): nat {
    if calls == [] then 0 else f(calls[0]) + Sum(calls[1..], f)
  }

  lemma {:induction false} SumUpdate(calls: seq<Call>, i: nat, x: Call, f: Call -> nat)
    requires i < |calls|
    ensures Sum(calls[i := x], f) + f(calls[i]) == Sum(calls, f) + f(x)
  {
    if i > 0 {
      SumUpdate(calls[1..], i - 1, x, f);
      assert calls[i := x][1..] == calls[1..][i - 1 := x];
    } else {
      assert calls[i := x][1..] == calls[1..];
    }
  }

  lemma {:induction false} SumAppend(calls: seq<Call>, x: Call, f: Call -> nat)
    ensures Sum(calls + [x], f) == Sum(calls, f) + f(x)
  {
    if calls == [] {
      assert (calls + [x])[1..] == [];
    } else {
      SumAppend(calls[1..], x, f);
      assert (calls + [x])[1..] == calls[1..] + [x];
    }
  }

  lemma {:induction false} SumSame(a: seq<Call>, b: seq<Call>, f: Call -> nat)
    requires |a| == |b| && forall i :: 0 <= i < |a| ==> f(a[i]) == f(b[i])
    ensures Sum(a, f) == Sum(b, f)
  {
    if a != [] { SumSame(a[1..], b[1..], f); }
  }

  lemma {:induction false} SumAtLeast(calls: seq<Call>, i: nat, f: Call -> nat)
    requires i < |calls|
    ensures Sum(calls, f) >= f(calls[i])
  {
    if i > 0 { SumAtLeast(calls[1..], i - 1, f); }
  }

  lemma {:induction false} SumZero(calls: seq<Call>, f: Call -> nat)
    requires forall i :: 0 <= i < |calls| ==> f(calls[i]) == 0
    ensures Sum(calls, f) == 0
  {
    if calls != [] { SumZero(calls[1..], f); }
  }

  function Indicator(b: bool): nat { if b then 1 else 0 }

  /** A backend checked out by a client, or in the hands of a Release or a cancel, with its slot. */
  function HeldOf(x: Call): nat {
    Indicator(x.phase.Holding? || x.phase.Returning? || x.phase.Handing? || x.phase.Sending? ||
              x.phase.ToIdle? || x.phase.Rejected? || x.phase.CancelTook? || x.phase.CancelKeeps?)
  }
  function DialingOf(x: Call): nat { Indicator(x.phase.Dialing?) }
  function PushedOf(x: Call): nat { Indicator(x.phase.Pushed?) }
  function PoppedOf(x: Call): nat { Indicator(x.phase.Popped?) }

  /** The waiter behind this channel can still take what is in it. */
  predicate Claimable(p: Phase) { p.Waiting? || p.CancelMarked? || p.CancelDequeued? }

  function HandedOf(x: Call): nat { Indicator(x.ch.Full? && Claimable(x.phase)) }
  function OrphanOf(x: Call): nat { Indicator(x.ch.Full? && !Claimable(x.phase)) }

  function Held(s: State): nat { Sum(s.calls, HeldOf) }
  function Dials(s: State): nat { Sum(s.calls, DialingOf) }
  function Handed(s: State): nat { Sum(s.calls, HandedOf) }
  function PushedNotCounted(s: State): nat { Sum(s.calls, PushedOf) }
  function Popping(s: State): nat { Sum(s.calls, PoppedOf) }
  function Orphans(s: State): nat { Sum(s.calls, OrphanOf) }

  /** Slots counted for nobody: hand-offs that reached a waiter which had already gone. */
  function Stranded(s: State): nat { Orphans(s) + s.drained }

  function SlotOf(x: Call): nat { HeldOf(x) + DialingOf(x) + PushedOf(x) + HandedOf(x) + OrphanOf(x) }

  lemma {:induction false} SlotsSplit(calls: seq<Call>)
    ensures Sum(calls, SlotOf) == Sum(calls, HeldOf) + Sum(calls, DialingOf) + Sum(calls, PushedOf)
                                  + Sum(calls, HandedOf) + Sum(calls, OrphanOf)
  {
    if calls != [] { SlotsSplit(calls[1..]); }
  }

  // ---------------------------------------------------------------- the queue

  predicate BeforePark(p: Phase) {
    p.Polling? || p.Checked? || p.Popped? || p.PolledEmpty? || p.Loaded?
  }

  /** A queued waiter has an empty channel and is still waiting, is being cancelled, or gave
      up on a closed pool. */
  predicate QueuedOk(x: Call, closer: Closer) {
    x.ch.Empty? && (x.phase.Waiting? || x.phase.CancelMarked? || (!closer.Open? && x.phase.Done?))
  }

  /** The waiters Close has taken and has yet to wake. */
  function Todo(closer: Closer): seq<CallId> { if closer.Waking? then closer.todo else [] }

  /** Such a waiter has an empty channel, whatever has become of it. */
  predicate TodoOk(x: Call) { x.ch.Empty? && !BeforePark(x.phase) }

  /** A waiter taken by a Release has an empty channel and is queued nowhere any more. */
  predicate TakenOk(q: seq<CallId>, todo: seq<CallId>, calls: seq<Call>, to: CallId) {
    to < |calls| && to !in q && to !in todo && TodoOk(calls[to])
  }

  predicate CallOk(x: Call, closer: Closer) {
    && (BeforePark(x.phase) ==> x.ch.Empty? && !x.canceled)
    && (x.phase.Waiting? ==> !x.canceled)
    && (x.ch.Closed? ==> closer.Waking?)
  }

  ghost predicate Queue(q: seq<CallId>, calls: seq<Call>, closer: Closer) {
    && NoDup(q) && NoDup(Todo(closer))
    && (forall w :: w in q ==> w < |calls| && w !in Todo(closer) && QueuedOk(calls[w], closer))
    && (forall w :: w in Todo(closer) ==> w < |calls| && TodoOk(calls[w]))
    && (forall c :: 0 <= c < |calls| ==> CallOk(calls[c], closer))
    && (forall c :: 0 <= c < |calls| && calls[c].phase.Sending? ==> TakenOk(q, Todo(closer), calls, calls[c].phase.to))
    && (forall c, d | 0 <= c < |calls| && 0 <= d < |calls| && c != d
                      && calls[c].phase.Sending? && calls[d].phase.Sending? ::
          calls[c].phase.to != calls[d].phase.to)
  }

  ghost predicate QueueInv(s: State) { Queue(s.waiters, s.calls, s.closer) }

  lemma {:induction false} WithoutFacts(q: seq<CallId>, c: CallId)
    requires NoDup(q)
    ensures NoDup(Without(q, c)) && c !in Without(q, c)
    ensures forall x :: x in Without(q, c) <==> x in q && x != c
    ensures c !in q ==> Without(q, c) == q
  {
    if q != [] {
      assert forall x :: x in q <==> x == q[0] || x in q[1..];
      assert q[0] !in q[1..];
      if q[0] != c {
        WithoutFacts(q[1..], c);
        assert forall x :: x in Without(q, c) <==> x == q[0] || x in Without(q[1..], c);
        var r := Without(q[1..], c);
        assert q[0] !in r;
        assert Without(q, c) == [q[0]] + r;
      }
    }
  }

  /** Changing one call's record, without taking or leaving a queue place. */
  lemma OneCall(q: seq<CallId>, calls: seq<Call>, closer: Closer, c: CallId, x: Call)
    requires Queue(q, calls, closer) && c < |calls|
    requires !x.phase.Sending? && CallOk(x, closer)
    requires BeforePark(x.phase) ==> BeforePark(calls[c].phase)
    requires calls[c].ch.Empty? ==> x.ch.Empty?
    requires c in q ==> QueuedOk(x, closer)
    ensures Queue(q, calls[c := x], closer)
  {
    var calls' := calls[c := x];
    forall d | 0 <= d < |calls'| && calls'[d].phase.Sending?
      ensures TakenOk(q, Todo(closer), calls', calls'[d].phase.to)
    {
      assert TakenOk(q, Todo(closer), calls, calls[d].phase.to);
    }
  }

  /** Leaving the queue keeps the queue's shape, whatever the calls do. */
  lemma LeaveQueue(q: seq<CallId>, calls: seq<Call>, closer: Closer, c: CallId)
    requires Queue(q, calls, closer)
    ensures Queue(Without(q, c), calls, closer)
  {
    WithoutFacts(q, c);
    forall d | 0 <= d < |calls| && calls[d].phase.Sending?
      ensures TakenOk(Without(q, c), Todo(closer), calls, calls[d].phase.to)
    {
      assert TakenOk(q, Todo(closer), calls, calls[d].phase.to);
    }
  }

  lemma ParkKeepsQueue(q: seq<CallId>, calls: seq<Call>, closer: Closer, c: CallId, armed: bool)
    requires Queue(q, calls, closer) && c < |calls| && calls[c].phase.Loaded?
    ensures Queue(q + [c], calls[c := calls[c].(phase := Waiting(armed))], closer)
  {
    assert CallOk(calls[c], closer);
    var x := calls[c].(phase := Waiting(armed));
    assert c !in q;
    OneCall(q, calls, closer, c, x);
    var calls' := calls[c := x];
    forall d | 0 <= d < |calls'| && calls'[d].phase.Sending?
      ensures TakenOk(q + [c], Todo(closer), calls', calls'[d].phase.to)
    {
      assert TakenOk(q, Todo(closer), calls, calls[d].phase.to);
    }
  }

  lemma TakeKeepsQueue(q: seq<CallId>, calls: seq<Call>, closer: Closer, c: CallId, b: Backend)
    requires Queue(q, calls, closer) && c < |calls| && calls[c].phase.Handing? && q != []
    ensures Queue(q[1..], calls[c := calls[c].(phase := Sending(b, q[0]))], closer)
  {
    assert q[0] in q && QueuedOk(calls[q[0]], closer);
    assert CallOk(calls[c], closer);
    var calls' := calls[c := calls[c].(phase := Sending(b, q[0]))];
    assert q[0] !in q[1..];
    assert forall w :: w in q[1..] ==> w in q;
    forall d | 0 <= d < |calls'| && calls'[d].phase.Sending?
      ensures TakenOk(q[1..], Todo(closer), calls', calls'[d].phase.to)
    {
      if d != c { assert TakenOk(q, Todo(closer), calls, calls[d].phase.to); }
    }
    forall d | 0 <= d < |calls| && d != c && calls[d].phase.Sending?
      ensures calls[d].phase.to != q[0]
    {
      assert TakenOk(q, Todo(closer), calls, calls[d].phase.to);
    }
  }

  lemma SendKeepsQueue(q: seq<CallId>, calls: seq<Call>, closer: Closer, c: CallId)
    requires Queue(q, calls, closer) && c < |calls| && calls[c].phase.Sending?
    requires calls[c].phase.to < |calls|
    ensures Queue(q, HandOff(calls, c), closer)
  {
    var to := calls[c].phase.to;
    assert TakenOk(q, Todo(closer), calls, to);
    var x := calls[c].(phase := Done);
    assert CallOk(calls[c], closer);
    OneCall(q, calls, closer, c, x);
    var t := calls[c := x];
    var u := t[to := t[to].(ch := Full(calls[c].phase.b))];
    assert CallOk(t[to], closer);
    forall d | 0 <= d < |u| && u[d].phase.Sending?
      ensures TakenOk(q, Todo(closer), u, u[d].phase.to)
    {
      assert d != c;
      assert TakenOk(q, Todo(closer), calls, calls[d].phase.to);
    }
  }

  lemma SkipKeepsQueue(q: seq<CallId>, calls: seq<Call>, closer: Closer, c: CallId)
    requires Queue(q, calls, closer) && c < |calls| && calls[c].phase.Sending?
    ensures Queue(q, calls[c := calls[c].(phase := Handing(calls[c].phase.b))], closer)
  {
    assert CallOk(calls[c], closer);
    OneCall(q, calls, closer, c, calls[c].(phase := Handing(calls[c].phase.b)));
  }

  lemma CloseTakeKeepsQueue(q: seq<CallId>, calls: seq<Call>)
    requires Queue(q, calls, Drained)
    ensures Queue([], calls, Waking(q))
  {
    forall d | 0 <= d < |calls|
      ensures CallOk(calls[d], Waking(q))
      ensures calls[d].phase.Sending? ==> TakenOk([], q, calls, calls[d].phase.to)
    {
      assert CallOk(calls[d], Drained);
      if calls[d].phase.Sending? { assert TakenOk(q, [], calls, calls[d].phase.to); }
    }
    forall w | w in q ensures w < |calls| && TodoOk(calls[w]) { assert QueuedOk(calls[w], Drained); }
  }

  /** The waiter whose channel is closed is neither queued nor about to be sent to. */
  lemma CloseOneKeepsQueue(q: seq<CallId>, calls: seq<Call>, closer: Closer)
    requires Queue(q, calls, closer) && closer.Waking? && closer.todo != [] && closer.todo[0] < |calls|
    ensures var w := closer.todo[0];
            Queue(q, calls[w := calls[w].(ch := Chan.Closed)], Waking(closer.todo[1..]))
  {
    var w, todo := closer.todo[0], closer.todo[1..];
    var calls' := calls[w := calls[w].(ch := Chan.Closed)];
    assert w in closer.todo && w !in todo && TodoOk(calls[w]);
    assert forall x :: x in todo ==> x in closer.todo;
    forall d | 0 <= d < |calls'|
      ensures CallOk(calls'[d], Waking(todo))
      ensures calls'[d].phase.Sending? ==> TakenOk(q, todo, calls', calls'[d].phase.to)
    {
      assert CallOk(calls[d], closer);
      if calls[d].phase.Sending? { assert TakenOk(q, Todo(closer), calls, calls[d].phase.to); }
    }
    forall x | x in q ensures QueuedOk(calls'[x], Waking(todo)) { assert QueuedOk(calls[x], closer); }
  }

  lemma CloserKeepsQueue(q: seq<CallId>, calls: seq<Call>, closer: Closer, closer': Closer)
    requires Queue(q, calls, closer) && !closer'.Open? && !closer'.Waking? && !closer.Waking?
    ensures Queue(q, calls, closer')
  {
    forall d | 0 <= d < |calls| ensures CallOk(calls[d], closer') { assert CallOk(calls[d], closer); }
    forall w | w in q ensures QueuedOk(calls[w], closer') { assert QueuedOk(calls[w], closer); }
  }

  lemma StartKeepsQueue(q: seq<CallId>, calls: seq<Call>, closer: Closer)
    requires Queue(q, calls, closer)
    ensures Queue(q, calls + [Call(Polling, Empty, false)], closer)
  {
    var r := calls + [Call(Polling, Empty, false)];
    forall d | 0 <= d < |r|
      ensures CallOk(r[d], closer)
      ensures r[d].phase.Sending? ==> TakenOk(q, Todo(closer), r, r[d].phase.to)
    {
      if d < |calls| {
        assert CallOk(calls[d], closer);
        if calls[d].phase.Sending? { assert TakenOk(q, Todo(closer), calls, calls[d].phase.to); }
      }
    }
  }

  /** The call a step moves, if it moves one. */
  function Actor(st: Step): int {
    match st
    case Start => -1 case Resize(_) => -1 case Evict(_) => -1
    case CloseMark => -1 case CloseDrain => -1 case CloseTake => -1 case CloseOne => -1
    case CheckClosed(c) => c case PollIdle(c) => c case CountPopped(c) => c
    case LoadActive(c) => c case TryCas(c) => c case Park(c) => c
    case DialOk(c) => c case DialFail(c) => c case Receive(c) => c
    case Cancel(c) => c case CancelDequeue(c) => c case CancelDrain(c) => c
    case CancelCheck(c) => c case CancelPush(c) => c
    case ReserveTimer(c) => c case ReserveCount(c) => c
    case ReleaseReset(c, _) => c case ReleaseCheckClosed(c) => c
    case ReleaseTakeWaiter(c) => c case ReleaseSend(c) => c case ReleaseSkip(c) => c
    case ReleasePush(c) => c case ReleaseUncount(c) => c case Discard(c) => c
  }

  /** Steps that change the record of one call and nothing about the queue. */
  predicate Local(st: Step) {
    Actor(st) >= 0 && !st.Park? && !st.CancelDequeue? && !st.ReserveTimer? &&
    !st.ReleaseTakeWaiter? && !st.ReleaseSend? && !st.ReleaseSkip?
  }

  lemma LocalKeepsQueue(s: State, st: Step)
    requires QueueInv(s) && Enabled(s, st) && Local(st)
    ensures QueueInv(Do(s, st))
  {
    var c := Actor(st);
    var s' := Do(s, st);
    assert CallOk(s.calls[c], s.closer);
    LocalChange(s, st);
    OneCall(s.waiters, s.calls, s.closer, c, s'.calls[c]);
  }

  lemma LocalChange(s: State, st: Step)
    requires Enabled(s, st) && Local(st)
    ensures var s', c := Do(s, st), Actor(st);
            s'.waiters == s.waiters && s'.closer == s.closer && s'.calls == s.calls[c := s'.calls[c]]
  {
  }

  lemma QueuePlaceStep(s: State, st: Step)
    requires QueueInv(s) && Enabled(s, st)
    requires st.Park? || st.CancelDequeue? || st.ReserveTimer? || st.ReleaseTakeWaiter?
    ensures QueueInv(Do(s, st))
  {
    match st
    case Park(c) => ParkKeepsQueue(s.waiters, s.calls, s.closer, c, s.reserve > 0);
    case CancelDequeue(c) =>
      LeaveQueue(s.waiters, s.calls, s.closer, c);
      WithoutFacts(s.waiters, c);
      assert CallOk(s.calls[c], s.closer);
      OneCall(Without(s.waiters, c), s.calls, s.closer, c, s.calls[c].(phase := CancelDequeued));
    case ReserveTimer(c) => TimerKeepsQueue(s, c);
    case ReleaseTakeWaiter(c) =>
      if s.waiters != [] {
        TakeKeepsQueue(s.waiters, s.calls, s.closer, c, s.calls[c].phase.b);
      } else {
        assert CallOk(s.calls[c], s.closer);
        OneCall(s.waiters, s.calls, s.closer, c, s.calls[c].(phase := ToIdle(s.calls[c].phase.b)));
      }
  }

  lemma StepKeepsQueue(s: State, st: Step)
    requires QueueInv(s) && Enabled(s, st)
    ensures QueueInv(Do(s, st))
  {
    if Local(st) {
      LocalKeepsQueue(s, st);
    } else {
      match st
      case Start => StartKeepsQueue(s.waiters, s.calls, s.closer);
      case ReleaseSend(c) => SendKeepsQueue(s.waiters, s.calls, s.closer, c);
      case ReleaseSkip(c) => SkipKeepsQueue(s.waiters, s.calls, s.closer, c);
      case CloseMark => CloserKeepsQueue(s.waiters, s.calls, s.closer, Marked);
      case CloseDrain => CloserKeepsQueue(s.waiters, s.calls, s.closer, Drained);
      case CloseTake => CloseTakeKeepsQueue(s.waiters, s.calls);
      case CloseOne => CloseOneKeepsQueue(s.waiters, s.calls, s.closer);
      case Resize(_) => case Evict(_) =>
      case _ => QueuePlaceStep(s, st);
    }
  }

  lemma TimerKeepsQueue(s: State, c: CallId)
    requires QueueInv(s) && Enabled(s, ReserveTimer(c))
    ensures QueueInv(TryReserve(s, c))
  {
    assert CallOk(s.calls[c], s.closer);
    if IsClosed(s) {
      OneCall(s.waiters, s.calls, s.closer, c, s.calls[c].(phase := Done));
    } else if s.active >= s.size + s.reserve {
      OneCall(s.waiters, s.calls, s.closer, c, s.calls[c].(phase := Waiting(false)));
    } else {
      WithoutFacts(s.waiters, c);
      LeaveQueue(s.waiters, s.calls, s.closer, c);
      OneCall(Without(s.waiters, c), s.calls, s.closer, c, s.calls[c].(phase := ReserveWon));
    }
  }

  // ---------------------------------------------------------------- the slot ledger

  ghost predicate SlotInv(s: State) { s.active == Sum(s.calls, SlotOf) + s.drained }

  /** The steps of Acquire before it parks. */
  predicate PollStep(st: Step) {
    st.CheckClosed? || st.PollIdle? || st.CountPopped? || st.LoadActive? || st.TryCas? || st.Park? ||
    st.DialOk? || st.DialFail?
  }

  /** The steps of a cancellation. */
  predicate CancelStep(st: Step) {
    st.Cancel? || st.CancelDequeue? || st.CancelDrain? || st.CancelCheck? || st.CancelPush?
  }

  /** The steps of a parked Acquire. */
  predicate WaitStep(st: Step) { st.Receive? || st.ReserveTimer? || st.ReserveCount? || CancelStep(st) }

  /** Steps of Release and Discard that change one call only. */
  predicate ReleaseStep(st: Step) {
    st.ReleaseReset? || st.ReleaseCheckClosed? || st.ReleaseTakeWaiter? || st.ReleaseSkip? ||
    st.ReleasePush? || st.ReleaseUncount? || st.Discard?
  }

  /** A one-call step moves `active` by what it does to the call's own slot count. */
  predicate SlotBalance(s: State, s': State, c: CallId) {
    && c < |s.calls| == |s'.calls|
    && s'.calls == s.calls[c := s'.calls[c]]
    && s'.active - s'.drained - SlotOf(s'.calls[c]) == s.active - s.drained - SlotOf(s.calls[c])
  }

  lemma PollBalance(s: State, st: Step)
    requires Enabled(s, st) && PollStep(st) && CallOk(s.calls[Actor(st)], s.closer)
    ensures SlotBalance(s, Do(s, st), Actor(st))
  {
  }

  lemma CancelBalance(s: State, st: Step)
    requires Enabled(s, st) && CancelStep(st)
    ensures SlotBalance(s, Do(s, st), Actor(st))
  {
  }

  lemma WakeBalance(s: State, st: Step)
    requires Enabled(s, st) && WaitStep(st) && !CancelStep(st)
    ensures SlotBalance(s, Do(s, st), Actor(st))
  {
  }

  lemma WaitBalance(s: State, st: Step)
    requires Enabled(s, st) && WaitStep(st)
    ensures SlotBalance(s, Do(s, st), Actor(st))
  {
    if CancelStep(st) { CancelBalance(s, st); } else { WakeBalance(s, st); }
  }

  /** The steps of a Release that has found the pool open. */
  predicate HandingStep(st: Step) { st.ReleaseTakeWaiter? || st.ReleaseSkip? || st.ReleasePush? }

  lemma HandingBalance(s: State, st: Step)
    requires Enabled(s, st) && HandingStep(st)
    ensures SlotBalance(s, Do(s, st), Actor(st))
  {
  }

  lemma EndingBalance(s: State, st: Step)
    requires Enabled(s, st) && ReleaseStep(st) && !HandingStep(st)
    ensures SlotBalance(s, Do(s, st), Actor(st))
  {
  }

  lemma ReleaseBalance(s: State, st: Step)
    requires Enabled(s, st) && ReleaseStep(st)
    ensures SlotBalance(s, Do(s, st), Actor(st))
  {
    if HandingStep(st) { HandingBalance(s, st); } else { EndingBalance(s, st); }
  }

  predicate OneCallStep(st: Step) { PollStep(st) || WaitStep(st) || ReleaseStep(st) }

  lemma OneCallKeepsSlots(s: State, st: Step)
    requires QueueInv(s) && SlotInv(s) && Enabled(s, st) && OneCallStep(st)
    ensures SlotInv(Do(s, st))
  {
    var c := Actor(st);
    assert CallOk(s.calls[c], s.closer);
    if PollStep(st) { PollBalance(s, st); } else if WaitStep(st) { WaitBalance(s, st); } else { ReleaseBalance(s, st); }
    SumUpdate(s.calls, c, Do(s, st).calls[c], SlotOf);
  }

  /** A hand-off moves whatever is counted from the releasing call to the waiter's channel. */
  lemma HandOffSplits(calls: seq<Call>, c: CallId, f: Call -> nat, d: nat)
    requires c < |calls| && calls[c].phase.Sending? && calls[c].phase.to < |calls|
    requires f(calls[c].(phase := Done)) + d == f(calls[c])
    requires var to := calls[c].phase.to; var t := calls[c := calls[c].(phase := Done)];
             f(t[to].(ch := Full(calls[c].phase.b))) == f(t[to]) + d
    ensures Sum(HandOff(calls, c), f) == Sum(calls, f)
  {
    var to := calls[c].phase.to;
    var x := calls[c].(phase := Done);
    SumUpdate(calls, c, x, f);
    SumUpdate(calls[c := x], to, calls[c := x][to].(ch := Full(calls[c].phase.b)), f);
  }

  lemma HandOffKeepsSlots(calls: seq<Call>, c: CallId)
    requires c < |calls| && calls[c].phase.Sending? && calls[c].phase.to < |calls|
    requires calls[calls[c].phase.to].ch.Empty?
    ensures Sum(HandOff(calls, c), SlotOf) == Sum(calls, SlotOf)
  {
    HandOffSplits(calls, c, SlotOf, 1);
  }

  lemma StepKeepsSlots(s: State, st: Step)
    requires QueueInv(s) && SlotInv(s) && Enabled(s, st)
    ensures SlotInv(Do(s, st))
  {
    if OneCallStep(st) {
      OneCallKeepsSlots(s, st);
    } else {
      match st
      case Start => SumAppend(s.calls, Call(Polling, Empty, false), SlotOf);
      case ReleaseSend(c) => HandOffKeepsSlots(s.calls, c);
      case CloseOne => SumUpdate(s.calls, s.closer.todo[0], Do(s, st).calls[s.closer.todo[0]], SlotOf);
      case _ =>
    }
  }

  // ---------------------------------------------------------------- conservation of backends

  /** The backend in a call's hands. */
  function Hands(p: Phase): (r: seq<Backend>)
    ensures |r| <= 1
  {
    match p
    case Popped(b) => [b] case Holding(b) => [b] case Returning(b) => [b] case Handing(b) => [b]
    case Sending(b, _) => [b] case ToIdle(b) => [b] case Rejected(b) => [b]
    case CancelTook(b) => [b] case CancelKeeps(b) => [b] case _ => []
  }

  function InChan(ch: Chan): seq<Backend> { if ch.Full? then [ch.b] else [] }

  lemma {:induction false} CountKept(q: seq<Backend>, keep: set<Backend>, b: Backend)
    ensures Count(Kept(q, keep, true), b) + Count(Kept(q, keep, false), b) == Count(q, b)
  {
    if q != [] {
      CountKept(q[1..], keep, b);
      CountAppend([q[0]], Kept(q[1..], keep, q[0] in keep), b);
      assert [] + Kept(q[1..], keep, q[0] !in keep) == Kept(q[1..], keep, q[0] !in keep);
    }
  }

  /** How often a call's record mentions backend `b`: in its hands and in its waiter channel. */
  function AtCall(b: Backend): Call -> nat {
    (x: Call) => Count(Hands(x.phase), b) + Count(InChan(x.ch), b)
  }

  /** Every place a backend can be: idle, a call's hands, a waiter's channel, or closed. */
  function Places(s: State, b: Backend): nat { Count(s.idle, b) + Sum(s.calls, AtCall(b)) + Count(s.gone, b) }

  ghost predicate PlaceInv(s: State) { forall b: Backend :: Places(s, b) == Indicator(b < s.dialed) }

  /** A one-call step moves at most one backend, from one place to one other. */
  predicate MovesOne(s: State, s': State, c: CallId) {
    c < |s.calls| == |s'.calls| && s'.calls == s.calls[c := s'.calls[c]] &&
    var h, h', ch, ch' := Hands(s.calls[c].phase), Hands(s'.calls[c].phase), s.calls[c].ch, s'.calls[c].ch;
    || (h' == h && ch' == ch && s'.idle == s.idle && s'.gone == s.gone && s'.dialed == s.dialed)
    || (h' == [] && ch' == ch && s'.idle == s.idle + h && s'.gone == s.gone && s'.dialed == s.dialed)
    || (h' == [] && ch' == ch && s'.idle == s.idle && s'.gone == s.gone + h && s'.dialed == s.dialed)
    || (h == [] && ch' == ch && s.idle == h' + s'.idle && s'.gone == s.gone && s'.dialed == s.dialed)
    || (h == [] && ch' == ch && h' == [s.dialed] && s'.idle == s.idle && s'.gone == s.gone && s'.dialed == s.dialed + 1)
    || (h == [] && ch'.Empty? && h' == InChan(ch) && s'.idle == s.idle && s'.gone == s.gone && s'.dialed == s.dialed)
    || (h == [] == h' && ch'.Empty? && s'.idle == s.idle + InChan(ch) && s'.gone == s.gone && s'.dialed == s.dialed)
    || (h == [] == h' && ch'.Empty? && s'.idle == s.idle && s'.gone == s.gone + InChan(ch) && s'.dialed == s.dialed)
  }

  lemma MoveBalances(s: State, s': State, c: CallId, b: Backend)
    requires MovesOne(s, s', c)
    ensures Places(s', b) + Indicator(b < s.dialed) == Places(s, b) + Indicator(b < s'.dialed)
  {
    var x, x' := s.calls[c], s'.calls[c];
    SumUpdate(s.calls, c, x', AtCall(b));
    var h, h', ch := Hands(x.phase), Hands(x'.phase), InChan(x.ch);
    if s'.dialed != s.dialed { CountOne(s.dialed, b); }
    if s'.idle == s.idle + h { CountAppend(s.idle, h, b); }
    if s'.gone == s.gone + h { CountAppend(s.gone, h, b); }
    if s.idle == h' + s'.idle { CountAppend(h', s'.idle, b); }
    if s'.idle == s.idle + ch { CountAppend(s.idle, ch, b); }
    if s'.gone == s.gone + ch { CountAppend(s.gone, ch, b); }
  }

  lemma PollMoves(s: State, st: Step)
    requires Enabled(s, st) && PollStep(st)
    ensures MovesOne(s, Do(s, st), Actor(st))
  {
  }

  lemma CancelMoves(s: State, st: Step)
    requires Enabled(s, st) && CancelStep(st)
    ensures MovesOne(s, Do(s, st), Actor(st))
  {
  }

  lemma WakeMoves(s: State, st: Step)
    requires Enabled(s, st) && WaitStep(st) && !CancelStep(st)
    ensures MovesOne(s, Do(s, st), Actor(st))
  {
  }

  lemma WaitMoves(s: State, st: Step)
    requires Enabled(s, st) && WaitStep(st)
    ensures MovesOne(s, Do(s, st), Actor(st))
  {
    if CancelStep(st) { CancelMoves(s, st); } else { WakeMoves(s, st); }
  }

  lemma HandingMoves(s: State, st: Step)
    requires Enabled(s, st) && HandingStep(st)
    ensures MovesOne(s, Do(s, st), Actor(st))
  {
  }

  lemma EndingMoves(s: State, st: Step)
    requires Enabled(s, st) && ReleaseStep(st) && !HandingStep(st)
    ensures MovesOne(s, Do(s, st), Actor(st))
  {
  }

  lemma ReleaseMoves(s: State, st: Step)
    requires Enabled(s, st) && ReleaseStep(st)
    ensures MovesOne(s, Do(s, st), Actor(st))
  {
    if HandingStep(st) { HandingMoves(s, st); } else { EndingMoves(s, st); }
  }

  lemma CountOne(x: Backend, b: Backend)
    ensures Count([x], b) == Indicator(x == b)
  {
    assert [x][1..] == [];
  }

  lemma HandOffKeepsPlaces(calls: seq<Call>, c: CallId, b: Backend)
    requires c < |calls| && calls[c].phase.Sending? && calls[c].phase.to < |calls|
    requires calls[calls[c].phase.to].ch.Empty?
    ensures Sum(HandOff(calls, c), AtCall(b)) == Sum(calls, AtCall(b))
  {
    CountOne(calls[c].phase.b, b);
    HandOffSplits(calls, c, AtCall(b), Indicator(calls[c].phase.b == b));
  }

  lemma OwnerMoves(s: State, st: Step, b: Backend)
    requires Enabled(s, st) && (st.Resize? || st.Evict? || st.CloseDrain?)
    ensures Places(Do(s, st), b) == Places(s, b) && Do(s, st).dialed == s.dialed
  {
    match st
    case Resize(n) =>
      var cut := ResizeCut(|s.idle|, s.active, if n < 1 then 1 else n);
      assert s.idle == s.idle[..cut] + s.idle[cut..];
      CountAppend(s.idle[..cut], s.idle[cut..], b);
      CountAppend(s.gone, s.idle[..cut], b);
    case Evict(keep) =>
      CountKept(s.idle, keep, b);
      CountAppend(s.gone, Kept(s.idle, keep, false), b);
    case CloseDrain => CountAppend(s.gone, s.idle, b);
  }

  lemma OtherMoves(s: State, st: Step, b: Backend)
    requires QueueInv(s) && Enabled(s, st) && !OneCallStep(st)
    ensures Places(Do(s, st), b) == Places(s, b) && Do(s, st).dialed == s.dialed
  {
    match st
    case Start => SumAppend(s.calls, Call(Polling, Empty, false), AtCall(b));
    case ReleaseSend(c) => HandOffKeepsPlaces(s.calls, c, b);
    case CloseOne => SumUpdate(s.calls, s.closer.todo[0], Do(s, st).calls[s.closer.todo[0]], AtCall(b));
    case CloseMark => case CloseTake =>
    case _ => OwnerMoves(s, st, b);
  }

  lemma StepMoves(s: State, st: Step, b: Backend)
    requires QueueInv(s) && Enabled(s, st)
    ensures Places(Do(s, st), b) + Indicator(b < s.dialed) == Places(s, b) + Indicator(b < Do(s, st).dialed)
  {
    if OneCallStep(st) {
      if PollStep(st) { PollMoves(s, st); } else if WaitStep(st) { WaitMoves(s, st); } else { ReleaseMoves(s, st); }
      MoveBalances(s, Do(s, st), Actor(st), b);
    } else {
      OtherMoves(s, st, b);
    }
  }

  lemma StepKeepsPlaces(s: State, st: Step)
    requires QueueInv(s) && PlaceInv(s) && Enabled(s, st)
    ensures PlaceInv(Do(s, st))
  {
    forall b: Backend ensures Places(Do(s, st), b) == Indicator(b < Do(s, st).dialed) {
      StepMoves(s, st, b);
    }
  }
}
