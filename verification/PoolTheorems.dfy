/** The pool's theorems over whole runs. */
module PoolTheorems {
  import opened Counting
  import opened PoolSizing
  import opened PoolProtocol
  import opened PoolLedger

  // ---------------------------------------------------------------- first in, first out

  function NotIn(q: seq<CallId>, gone: set<CallId>): (r: seq<CallId>) {
    if q == [] then [] else if q[0] in gone then NotIn(q[1..], gone) else [q[0]] + NotIn(q[1..], gone)
  }

  ghost predicate Fifo(parked: seq<CallId>, left: set<CallId>, taken: seq<CallId>, waiters: seq<CallId>) {
    NoDup(parked) && NotIn(parked, left) == taken + waiters
  }

  ghost predicate ParkedOk(parked: seq<CallId>, calls: seq<Call>) {
    forall c :: c in parked ==> c < |calls| && !BeforePark(calls[c].phase)
  }

  /** The waiters Release took, followed by those still queued, are the park order without
      the waiters that left by cancellation, reserve dial or close. */
  ghost predicate FifoInv(s: State) {
    Fifo(s.parked, s.left, s.taken, s.waiters) && ParkedOk(s.parked, s.calls)
    && (forall c :: c in s.left ==> c in s.parked)
  }

  lemma {:induction false} NotInAppend(q: seq<CallId>, c: CallId, gone: set<CallId>)
    requires c !in gone
    ensures NotIn(q + [c], gone) == NotIn(q, gone) + [c]
  {
    if q == [] {
      assert (q + [c])[1..] == [];
    } else {
      NotInAppend(q[1..], c, gone);
      assert (q + [c])[1..] == q[1..] + [c];
    }
  }

  lemma {:induction false} NotInMember(q: seq<CallId>, gone: set<CallId>)
    ensures forall x :: x in NotIn(q, gone) <==> x in q && x !in gone
  {
    if q != [] {
      NotInMember(q[1..], gone);
      assert forall x :: x in q <==> x == q[0] || x in q[1..];
    }
  }

  lemma {:induction false} NotInNoDup(q: seq<CallId>, gone: set<CallId>)
    requires NoDup(q)
    ensures NoDup(NotIn(q, gone))
  {
    if q != [] {
      NotInNoDup(q[1..], gone);
      NotInMember(q[1..], gone);
      assert q[0] !in q[1..];
    }
  }

  lemma {:induction false} NotInMore(q: seq<CallId>, gone: set<CallId>, c: CallId)
    requires NoDup(q)
    ensures NotIn(q, gone + {c}) == Without(NotIn(q, gone), c)
  {
    if q != [] {
      assert q[0] !in q[1..];
      NotInMore(q[1..], gone, c);
      var rest := NotIn(q[1..], gone);
      assert ([q[0]] + rest)[1..] == rest;
      if q[0] == c {
        NotInMember(q[1..], gone);
        NotInNoDup(q[1..], gone);
        WithoutFacts(rest, c);
      }
    }
  }

  lemma Halves(p: seq<CallId>, r: seq<CallId>)
    requires NoDup(p + r)
    ensures NoDup(p) && NoDup(r)
    ensures forall x :: x in r ==> x !in p
  {
    var all := p + r;
    forall i, j | 0 <= i < j < |r| ensures r[i] != r[j] { assert all[|p| + i] != all[|p| + j]; }
    forall i, j | 0 <= i < j < |p| ensures p[i] != p[j] { assert all[i] != all[j]; }
    forall i, j | 0 <= i < |p| && 0 <= j < |r| ensures p[i] != r[j] { assert all[i] != all[|p| + j]; }
  }

  lemma {:induction false} WithoutAfter(p: seq<CallId>, q: seq<CallId>, c: CallId)
    requires c !in p
    ensures Without(p + q, c) == p + Without(q, c)
  {
    if p == [] {
      assert p + q == q;
    } else {
      WithoutAfter(p[1..], q, c);
      assert (p + q)[1..] == p[1..] + q;
    }
  }

  lemma {:induction false} NotInPrefix(q: seq<CallId>, gone: set<CallId>, p: seq<CallId>, r: seq<CallId>)
    requires Fifo(q, gone, p, r)
    ensures NotIn(q, gone + set w | w in r) == p
    decreases |r|
  {
    if r == [] {
      assert gone + (set w | w in r) == gone;
    } else {
      var c := r[0];
      LeaveKeepsFifo(q, gone, p, r, c);
      assert Without(r, c) == r[1..];
      NotInPrefix(q, gone + {c}, p, r[1..]);
      assert gone + (set w | w in r) == (gone + {c}) + set w | w in r[1..] by {
        assert forall w :: w in r <==> w == c || w in r[1..];
      }
    }
  }

  lemma LeaveKeepsFifo(parked: seq<CallId>, left: set<CallId>, taken: seq<CallId>, waiters: seq<CallId>, c: CallId)
    requires Fifo(parked, left, taken, waiters) && c in waiters
    ensures Fifo(parked, left + {c}, taken, Without(waiters, c))
  {
    NotInNoDup(parked, left);
    Halves(taken, waiters);
    NotInMore(parked, left, c);
    WithoutAfter(taken, waiters, c);
  }

  lemma DequeueKeepsFifo(s: State, c: CallId)
    requires FifoInv(s)
    ensures FifoInv(Dequeue(s, c))
  {
    NotInNoDup(s.parked, s.left);
    NotInMember(s.parked, s.left);
    Halves(s.taken, s.waiters);
    WithoutFacts(s.waiters, c);
    if c in s.waiters {
      assert c in s.taken + s.waiters;
      LeaveKeepsFifo(s.parked, s.left, s.taken, s.waiters, c);
    }
  }

  lemma ParkKeepsFifo(s: State, c: CallId)
    requires FifoInv(s) && Enabled(s, Park(c))
    ensures FifoInv(Do(s, Park(c)))
  {
    assert c !in s.parked;
    FifoAppend(s.parked, s.left, s.taken, s.waiters, c);
    ParkedAppend(s.parked, s.calls, c, s.calls[c].(phase := Waiting(s.reserve > 0)));
  }

  lemma ParkedAppend(parked: seq<CallId>, calls: seq<Call>, c: CallId, x: Call)
    requires ParkedOk(parked, calls) && c < |calls| && !BeforePark(x.phase)
    ensures ParkedOk(parked + [c], calls[c := x])
  {
  }

  lemma FifoAppend(parked: seq<CallId>, gone: set<CallId>, taken: seq<CallId>, waiters: seq<CallId>, c: CallId)
    requires Fifo(parked, gone, taken, waiters) && c !in parked && c !in gone
    ensures Fifo(parked + [c], gone, taken, waiters + [c])
  {
    NotInAppend(parked, c, gone);
    assert taken + (waiters + [c]) == (taken + waiters) + [c];
  }

  lemma TakeKeepsFifo(s: State, c: CallId)
    requires FifoInv(s) && Enabled(s, ReleaseTakeWaiter(c))
    ensures FifoInv(Do(s, ReleaseTakeWaiter(c)))
  {
    if s.waiters != [] {
      assert s.taken + s.waiters == (s.taken + [s.waiters[0]]) + s.waiters[1..];
    }
  }

  lemma CloseTakeKeepsFifo(s: State)
    requires FifoInv(s) && Enabled(s, CloseTake)
    ensures FifoInv(Do(s, CloseTake))
  {
    NotInPrefix(s.parked, s.left, s.taken, s.waiters);
    NotInMember(s.parked, s.left);
    assert forall w :: w in s.waiters ==> w in s.taken + s.waiters;
    assert s.taken + [] == s.taken;
  }

  lemma QueueChangeKeepsFifo(s: State, st: Step)
    requires FifoInv(s) && Enabled(s, st) && !QueueSilent(st)
    ensures FifoInv(Do(s, st))
  {
    match st
    case Park(c) => ParkKeepsFifo(s, c);
    case CancelDequeue(c) => DequeueKeepsFifo(Goto(s, c, CancelDequeued), c);
    case ReserveTimer(c) => DequeueKeepsFifo(Goto(s, c, ReserveWon), c);
    case ReleaseTakeWaiter(c) => TakeKeepsFifo(s, c);
    case CloseTake => CloseTakeKeepsFifo(s);
  }

  /** Steps that leave the queue and its history alone. */
  predicate QueueSilent(st: Step) {
    !st.Park? && !st.CancelDequeue? && !st.ReserveTimer? && !st.ReleaseTakeWaiter? && !st.CloseTake?
  }

  predicate StaysParked(s: State, st: Step, c: CallId)
    requires Enabled(s, st)
  {
    c < |s.calls| && !BeforePark(s.calls[c].phase) ==> c < |Do(s, st).calls| && !BeforePark(Do(s, st).calls[c].phase)
  }

  lemma PollNeverUnparks(s: State, st: Step, c: CallId)
    requires Enabled(s, st) && PollStep(st)
    ensures StaysParked(s, st, c)
  {
  }

  lemma WaitNeverUnparks(s: State, st: Step, c: CallId)
    requires Enabled(s, st) && WaitStep(st)
    ensures StaysParked(s, st, c)
  {
  }

  lemma ReleaseNeverUnparks(s: State, st: Step, c: CallId)
    requires Enabled(s, st) && !PollStep(st) && !WaitStep(st)
    ensures StaysParked(s, st, c)
  {
  }

  /** No step takes a call back before its park, or forgets a call. */
  lemma NeverUnparks(s: State, st: Step, c: CallId)
    requires Enabled(s, st)
    ensures StaysParked(s, st, c)
  {
    if PollStep(st) {
      PollNeverUnparks(s, st, c);
    } else if WaitStep(st) {
      WaitNeverUnparks(s, st, c);
    } else {
      ReleaseNeverUnparks(s, st, c);
    }
  }

  lemma SilentKeepsHistory(s: State, st: Step)
    requires Enabled(s, st) && QueueSilent(st)
    ensures var s' := Do(s, st);
            s'.parked == s.parked && s'.left == s.left && s'.taken == s.taken && s'.waiters == s.waiters
  {
  }

  lemma SilentKeepsFifo(s: State, st: Step)
    requires FifoInv(s) && Enabled(s, st) && QueueSilent(st)
    ensures FifoInv(Do(s, st))
  {
    SilentKeepsHistory(s, st);
    forall c | c in s.parked ensures c < |Do(s, st).calls| && !BeforePark(Do(s, st).calls[c].phase) {
      NeverUnparks(s, st, c);
    }
  }

  // ---------------------------------------------------------------- every run

  ghost predicate Inv(s: State) { QueueInv(s) && SlotInv(s) && PlaceInv(s) && FifoInv(s) }

  lemma InitInv(size: nat, reserve: nat)
    ensures Inv(Init(size, reserve))
  {
  }

  lemma StepKeepsInv(s: State, st: Step)
    requires Inv(s) && Enabled(s, st)
    ensures Inv(Do(s, st))
  {
    StepKeepsQueue(s, st);
    StepKeepsSlots(s, st);
    StepKeepsPlaces(s, st);
    if QueueSilent(st) { SilentKeepsFifo(s, st); } else { QueueChangeKeepsFifo(s, st); }
  }

  lemma {:induction false} RunKeepsInv(s: State, steps: seq<Step>)
    requires Inv(s) && Runs(s, steps)
    ensures Inv(Exec(s, steps))
    decreases |steps|
  {
    if steps != [] {
      StepKeepsInv(s, steps[0]);
      RunKeepsInv(Do(s, steps[0]), steps[1..]);
    }
  }

  /** The slot ledger, in every state of every interleaving. */
  lemma SlotLedger(size: nat, reserve: nat, steps: seq<Step>)
    requires Runs(Init(size, reserve), steps)
    ensures var s := Exec(Init(size, reserve), steps);
            s.active == Held(s) + Dials(s) + Handed(s) + PushedNotCounted(s) + Stranded(s)
  {
    InitInv(size, reserve);
    RunKeepsInv(Init(size, reserve), steps);
    SlotsSplit(Exec(Init(size, reserve), steps).calls);
  }

  /** A hand-off that reaches, or is given on by, a waiter that gave up on it. */
  predicate LosesHandOff(s: State, st: Step)
    requires Enabled(s, st)
  {
    match st
    case CancelCheck(_) => IsClosed(s)
    case CancelPush(_) => true
    case ReserveTimer(c) => s.calls[c].ch.Full? && !Claimable(TryReserve(s, c).calls[c].phase)
    case ReleaseSend(c) => !Claimable(s.calls[s.calls[c].phase.to].phase)
    case _ => false
  }

  predicate OrphanBalance(s: State, st: Step, c: CallId)
    requires Enabled(s, st)
  {
    var s' := Do(s, st);
    && c < |s.calls| == |s'.calls|
    && s'.calls == s.calls[c := s'.calls[c]]
    && OrphanOf(s'.calls[c]) + s'.drained == OrphanOf(s.calls[c]) + s.drained + Indicator(LosesHandOff(s, st))
  }

  lemma PollOrphans(s: State, st: Step)
    requires Enabled(s, st) && PollStep(st) && CallOk(s.calls[Actor(st)], s.closer)
    ensures OrphanBalance(s, st, Actor(st))
  {
  }

  lemma CancelOrphans(s: State, st: Step)
    requires Enabled(s, st) && CancelStep(st)
    ensures OrphanBalance(s, st, Actor(st))
  {
  }

  lemma WakeOrphans(s: State, st: Step)
    requires Enabled(s, st) && WaitStep(st) && !CancelStep(st)
    ensures OrphanBalance(s, st, Actor(st))
  {
  }

  lemma WaitOrphans(s: State, st: Step)
    requires Enabled(s, st) && WaitStep(st)
    ensures OrphanBalance(s, st, Actor(st))
  {
    if CancelStep(st) { CancelOrphans(s, st); } else { WakeOrphans(s, st); }
  }

  lemma ReleaseOrphans(s: State, st: Step)
    requires Enabled(s, st) && ReleaseStep(st)
    ensures OrphanBalance(s, st, Actor(st))
  {
  }

  lemma HandOffOrphans(calls: seq<Call>, c: CallId)
    requires c < |calls| && calls[c].phase.Sending? && calls[c].phase.to < |calls|
    requires calls[calls[c].phase.to].ch.Empty?
    ensures Sum(HandOff(calls, c), OrphanOf)
            == Sum(calls, OrphanOf) + Indicator(!Claimable(calls[calls[c].phase.to].phase))
  {
    var to := calls[c].phase.to;
    var x := calls[c].(phase := Done);
    SumUpdate(calls, c, x, OrphanOf);
    SumUpdate(calls[c := x], to, calls[c := x][to].(ch := Full(calls[c].phase.b)), OrphanOf);
  }

  /** A slot is stranded exactly when a hand-off loses to a cancel or to a reserve timer, and
      a stranded slot never comes back. */
  lemma StrandedExactly(s: State, st: Step)
    requires Inv(s) && Enabled(s, st)
    ensures Stranded(Do(s, st)) == Stranded(s) + Indicator(LosesHandOff(s, st))
  {
    if OneCallStep(st) {
      var c := Actor(st);
      assert CallOk(s.calls[c], s.closer);
      if PollStep(st) {
        PollOrphans(s, st);
      } else if WaitStep(st) {
        WaitOrphans(s, st);
      } else {
        ReleaseOrphans(s, st);
      }
      SumUpdate(s.calls, c, Do(s, st).calls[c], OrphanOf);
    } else {
      match st
      case Start => SumAppend(s.calls, Call(Polling, Empty, false), OrphanOf);
      case ReleaseSend(c) => HandOffOrphans(s.calls, c);
      case CloseOne => SumUpdate(s.calls, s.closer.todo[0], Do(s, st).calls[s.closer.todo[0]], OrphanOf);
      case _ =>
    }
  }

  /** In every reachable state each opened backend is in exactly one place, and no other
      backend is anywhere. */
  lemma OnePlace(size: nat, reserve: nat, steps: seq<Step>, b: Backend)
    requires Runs(Init(size, reserve), steps)
    ensures var s := Exec(Init(size, reserve), steps);
            Count(s.idle, b) + Sum(s.calls, AtCall(b)) + Count(s.gone, b) == if b < s.dialed then 1 else 0
  {
    InitInv(size, reserve);
    RunKeepsInv(Init(size, reserve), steps);
    assert Places(Exec(Init(size, reserve), steps), b) == Indicator(b < Exec(Init(size, reserve), steps).dialed);
  }

  lemma {:induction false} SumAtLeastTwo(calls: seq<Call>, i: nat, j: nat, f: Call -> nat)
    requires i < j < |calls|
    ensures Sum(calls, f) >= f(calls[i]) + f(calls[j])
  {
    if i == 0 { SumAtLeast(calls[1..], j - 1, f); } else { SumAtLeastTwo(calls[1..], i - 1, j - 1, f); }
  }

  /** Two clients never hold the same backend, and a held backend is not idle. */
  lemma HeldOnce(size: nat, reserve: nat, steps: seq<Step>, c: CallId, b: Backend)
    requires Runs(Init(size, reserve), steps)
    requires c < |Exec(Init(size, reserve), steps).calls|
    requires Exec(Init(size, reserve), steps).calls[c].phase == Holding(b)
    ensures var s := Exec(Init(size, reserve), steps);
            && Count(s.idle, b) == 0 && Count(s.gone, b) == 0
            && s.calls[c].ch != Full(b)
            && forall d :: 0 <= d < |s.calls| && d != c ==> b !in Hands(s.calls[d].phase) && s.calls[d].ch != Full(b)
  {
    var s := Exec(Init(size, reserve), steps);
    OnePlace(size, reserve, steps, b);
    SumAtLeast(s.calls, c, AtCall(b));
    assert AtCall(b)(s.calls[c]) >= 1;
    forall d | 0 <= d < |s.calls| && d != c
      ensures b !in Hands(s.calls[d].phase) && s.calls[d].ch != Full(b)
    {
      if d < c { SumAtLeastTwo(s.calls, d, c, AtCall(b)); } else { SumAtLeastTwo(s.calls, c, d, AtCall(b)); }
      assert AtCall(b)(s.calls[d]) == 0;
    }
  }

  /** A Release that took a waiter from the queue finds that waiter's channel open and empty,
      so its send can neither block nor hit a closed channel. */
  lemma HandOffNeverBlocks(size: nat, reserve: nat, steps: seq<Step>, c: CallId)
    requires Runs(Init(size, reserve), steps)
    requires c < |Exec(Init(size, reserve), steps).calls|
    requires Exec(Init(size, reserve), steps).calls[c].phase.Sending?
    ensures Possible(Exec(Init(size, reserve), steps), ReleaseSend(c))
  {
    var s := Exec(Init(size, reserve), steps);
    InitInv(size, reserve);
    RunKeepsInv(Init(size, reserve), steps);
    assert TakenOk(s.waiters, Todo(s.closer), s.calls, s.calls[c].phase.to);
  }

  /** Release takes waiters in park order, passing over only those that left the queue by
      cancellation, reserve dial or close; the rest are still queued in that order.  A waiter that
      is cancelled after it was taken has been taken all the same. */
  lemma TakenInParkOrder(size: nat, reserve: nat, steps: seq<Step>)
    requires Runs(Init(size, reserve), steps)
    ensures var s := Exec(Init(size, reserve), steps);
            NotIn(s.parked, s.left) == s.taken + s.waiters && NoDup(s.parked)
  {
    InitInv(size, reserve);
    RunKeepsInv(Init(size, reserve), steps);
  }

  // ---------------------------------------------------------------- the reserve timer

  /** The call has parked and its reserve timer is not armed. */
  predicate TimerSpent(s: State, c: CallId) {
    c < |s.calls| && !BeforePark(s.calls[c].phase) && s.calls[c].phase != Waiting(true)
  }

  lemma PollKeepsSpent(s: State, st: Step, c: CallId)
    requires Enabled(s, st) && PollStep(st) && TimerSpent(s, c)
    ensures TimerSpent(Do(s, st), c)
  {
  }

  lemma WaitKeepsSpent(s: State, st: Step, c: CallId)
    requires Enabled(s, st) && WaitStep(st) && TimerSpent(s, c)
    ensures TimerSpent(Do(s, st), c)
  {
  }

  lemma OtherKeepsSpent(s: State, st: Step, c: CallId)
    requires Enabled(s, st) && !PollStep(st) && !WaitStep(st) && TimerSpent(s, c)
    ensures TimerSpent(Do(s, st), c)
  {
  }

  lemma {:induction false} SpentForGood(s: State, steps: seq<Step>, c: CallId)
    requires Runs(s, steps) && TimerSpent(s, c)
    ensures ReserveTimer(c) !in steps
    decreases |steps|
  {
    if steps != [] {
      var st := steps[0];
      if PollStep(st) {
        PollKeepsSpent(s, st, c);
      } else if WaitStep(st) {
        WaitKeepsSpent(s, st, c);
      } else {
        OtherKeepsSpent(s, st, c);
      }
      SpentForGood(Do(s, st), steps[1..], c);
    }
  }

  lemma FiringSpends(s: State, c: CallId)
    requires Enabled(s, ReserveTimer(c))
    ensures TimerSpent(Do(s, ReserveTimer(c)), c)
  {
  }

  /** In every run the reserve timer of a call fires at most once, whatever becomes of its dial. */
  lemma {:induction false} TimerFiresOnce(s: State, steps: seq<Step>, i: nat, c: CallId)
    requires Runs(s, steps) && i < |steps| && steps[i] == ReserveTimer(c)
    ensures ReserveTimer(c) !in steps[i + 1..]
    decreases i
  {
    var t, tail := Do(s, steps[0]), steps[1..];
    if i == 0 {
      FiringSpends(s, c);
      SpentForGood(t, tail, c);
    } else {
      TimerFiresOnce(t, tail, i - 1, c);
      assert tail[i..] == steps[i + 1..];
    }
  }
}
