/** What Close leaves behind: the idle channel after it was drained, and the calls that may still put a
    backend into it because they looked at the closed flag before it was set. */
module PoolClosing {
  import opened Counting
  import opened PoolProtocol
  import opened PoolLedger
  import opened PoolTheorems
  import opened PoolRaces

  /** The idle channel has been drained. */
  predicate Shut(s: State) { s.closer.Drained? || s.closer.Waking? }

  /** Past its look at the closed flag with a backend in hand; a hand-off comes back only if the waiter
      is cancelled. */
  predicate MayPush(calls: seq<Call>, x: Call) {
    || x.phase.ToIdle? || x.phase.CancelKeeps? || x.phase.Handing?
    || (x.phase.Sending? && x.phase.to < |calls| && MayCancel(calls[x.phase.to]))
  }

  predicate MayCancel(w: Call) { w.canceled || w.phase.Waiting? }

  function Pushers(s: State): set<CallId> { set c | 0 <= c < |s.calls| && MayPush(s.calls, s.calls[c]) }

  // ---------------------------------------------------------------- they only get fewer

  /** Once shut, a step makes no call a pusher, and whoever pushes is one no longer. */
  ghost predicate Wanes(s: State, s': State) {
    && Pushers(s') <= Pushers(s)
    && (|s'.idle| <= |s.idle|
        || (|s'.idle| == |s.idle| + 1 && exists c :: c in Pushers(s) && c !in Pushers(s')))
  }

  /** A call may be cancelled after a step only if it could be before, or had yet to park. */
  lemma CancelBack(s: State, st: Step, w: CallId)
    requires Enabled(s, st) && w < |s.calls| && !BeforePark(s.calls[w].phase) && MayCancel(Do(s, st).calls[w])
    ensures MayCancel(s.calls[w])
  {
  }

  /** A call that is past its look at the flag after a step was past it before. */
  predicate Looked(s: State, st: Step, c: CallId)
    requires Enabled(s, st) && c < |Do(s, st).calls|
  {
    var p' := Do(s, st).calls[c].phase;
    p'.ToIdle? || p'.CancelKeeps? || p'.Handing? || p'.Sending? ==>
      && c < |s.calls|
      && var p := s.calls[c].phase;
         p == p' || (p.Handing? && (p'.ToIdle? || p'.Sending?)) || (p.Sending? && p'.Handing? && st == ReleaseSkip(c))
  }

  lemma ReleaseLooked(s: State, st: Step, c: CallId)
    requires Enabled(s, st) && IsClosed(s) && c < |Do(s, st).calls| && ReleaseStep(st)
    ensures Looked(s, st, c)
  {
  }

  lemma WaitLooked(s: State, st: Step, c: CallId)
    requires Enabled(s, st) && IsClosed(s) && c < |Do(s, st).calls| && WaitStep(st)
    ensures Looked(s, st, c)
  {
  }

  lemma OtherLooked(s: State, st: Step, c: CallId)
    requires Enabled(s, st) && c < |Do(s, st).calls| && !ReleaseStep(st) && !WaitStep(st)
    ensures Looked(s, st, c)
  {
  }

  /** The pool is closed, so nobody gets past the look at the flag. */
  lemma PhaseBack(s: State, st: Step, c: CallId)
    requires Enabled(s, st) && IsClosed(s) && c < |Do(s, st).calls|
    ensures Looked(s, st, c)
  {
    if ReleaseStep(st) {
      ReleaseLooked(s, st, c);
    } else if WaitStep(st) {
      WaitLooked(s, st, c);
    } else {
      OtherLooked(s, st, c);
    }
  }

  lemma PusherBack(s: State, st: Step, c: CallId)
    requires QueueInv(s) && Enabled(s, st) && IsClosed(s) && c in Pushers(Do(s, st))
    ensures c in Pushers(s)
  {
    PhaseBack(s, st, c);
    var x := s.calls[c];
    if x.phase.Sending? && Do(s, st).calls[c].phase.Sending? {
      assert TakenOk(s.waiters, Todo(s.closer), s.calls, x.phase.to);
      CancelBack(s, st, x.phase.to);
    }
  }

  /** Only a push makes the idle channel longer. */
  lemma OnlyPushes(s: State, st: Step)
    requires Enabled(s, st)
    ensures var s' := Do(s, st);
            |s'.idle| <= |s.idle|
            || (&& |s'.idle| == |s.idle| + 1 && (st.ReleasePush? || st.CancelPush?)
                && st.c in Pushers(s) && st.c !in Pushers(s'))
  {
    if st.Evict? { KeptIsShorter(s.idle, st.keep); }
  }

  lemma {:induction false} KeptIsShorter(q: seq<nat>, keep: set<nat>)
    ensures |Kept(q, keep, true)| <= |q|
  {
    if q != [] { KeptIsShorter(q[1..], keep); }
  }

  lemma StepWanes(s: State, st: Step)
    requires QueueInv(s) && Shut(s) && Enabled(s, st)
    ensures Wanes(s, Do(s, st)) && Shut(Do(s, st))
  {
    var s' := Do(s, st);
    forall c | c in Pushers(s') ensures c in Pushers(s) { PusherBack(s, st, c); }
    OnlyPushes(s, st);
    StaysShut(s, st);
  }

  lemma StaysShut(s: State, st: Step)
    requires Shut(s) && Enabled(s, st)
    ensures Shut(Do(s, st))
  {
  }

  lemma WaningBound(s: State, s': State)
    requires Wanes(s, s')
    ensures |s'.idle| + |Pushers(s')| <= |s.idle| + |Pushers(s)|
  {
    if |s'.idle| > |s.idle| {
      var c :| c in Pushers(s) && c !in Pushers(s');
      FewerIn(Pushers(s'), Pushers(s) - {c});
    } else {
      FewerIn(Pushers(s'), Pushers(s));
    }
  }

  lemma {:induction false} FewerIn(a: set<CallId>, b: set<CallId>)
    requires a <= b
    ensures |a| <= |b|
    decreases |a|
  {
    if a != {} {
      var x :| x in a;
      FewerIn(a - {x}, b - {x});
    }
  }

  lemma {:induction false} RunWanes(s: State, steps: seq<Step>)
    requires Inv(s) && Shut(s) && Runs(s, steps)
    ensures var t := Exec(s, steps); |t.idle| + |Pushers(t)| <= |s.idle| + |Pushers(s)|
    decreases |steps|
  {
    if steps != [] {
      StepKeepsInv(s, steps[0]);
      StepWanes(s, steps[0]);
      WaningBound(s, Do(s, steps[0]));
      RunWanes(Do(s, steps[0]), steps[1..]);
    }
  }

  // ---------------------------------------------------------------- what stays open

  /** In every run: Close closes everything in the idle channel, and from then on the channel never holds
      more backends than there were calls past their look at the flag. */
  lemma CloseLeavesAtMost(size: nat, reserve: nat, before: seq<Step>, after: seq<Step>)
    requires size >= 1 && Runs(Init(size, reserve), before) && Enabled(Exec(Init(size, reserve), before), CloseDrain)
    requires Runs(Do(Exec(Init(size, reserve), before), CloseDrain), after)
    ensures var s := Exec(Init(size, reserve), before);
            var t := Do(s, CloseDrain);
            && t.idle == [] && t.gone == s.gone + s.idle
            && |Exec(t, after).idle| + |Pushers(Exec(t, after))| <= |Pushers(t)|
  {
    InitInv(size, reserve);
    RunKeepsInv(Init(size, reserve), before);
    var t := Drains(Exec(Init(size, reserve), before));
    RunWanes(t, after);
  }

  lemma Drains(s: State) returns (t: State)
    requires Inv(s) && Enabled(s, CloseDrain)
    ensures t == Do(s, CloseDrain) && Inv(t) && !t.dead && t.closer.Drained? && t.size == s.size
    ensures t.idle == [] && t.gone == s.gone + s.idle
  {
    t := Do(s, CloseDrain);
    StepKeepsInv(s, CloseDrain);
  }

  /** Close takes the queue, so that a release finds nobody to hand to. */
  lemma QueueTaken(s: State) returns (steps: seq<Step>, t: State)
    requires Inv(s) && !s.dead && s.closer.Drained?
    ensures Reached(s, steps, t) && Inv(t) && !t.dead && t.waiters == [] && t.calls == s.calls && t.idle == s.idle
    ensures t.size == s.size
  {
    steps, t := Next(s, [], s, CloseTake);
    StepKeepsInv(s, CloseTake);
  }

  lemma HandingPushes(s: State, steps: seq<Step>, t: State, c: CallId) returns (more: seq<Step>, u: State)
    requires Reached(s, steps, t) && !t.dead && t.waiters == [] && t.idle == [] && t.size >= 1
    requires c < |t.calls| && t.calls[c].phase.Handing?
    ensures Reached(s, more, u) && u.idle != []
  {
    more, u := Next(s, steps, t, ReleaseTakeWaiter(c));
    more, u := Next(s, more, u, ReleasePush(c));
  }

  lemma SendingPushes(s: State, steps: seq<Step>, t: State, c: CallId) returns (more: seq<Step>, u: State)
    requires Reached(s, steps, t) && QueueInv(t) && !t.dead && t.waiters == [] && t.idle == [] && t.size >= 1
    requires c < |t.calls| && t.calls[c].phase.Sending? && MayPush(t.calls, t.calls[c])
    ensures Reached(s, more, u) && u.idle != []
  {
    var to := t.calls[c].phase.to;
    more, u := steps, t;
    if !t.calls[to].canceled {
      assert to != c;
      more, u := Next(s, more, u, Cancel(to));
    }
    more, u := Next(s, more, u, ReleaseSkip(c));
    more, u := HandingPushes(s, more, u, c);
  }

  lemma PusherPushes(s: State, c: CallId) returns (steps: seq<Step>, t: State)
    requires Inv(s) && !s.dead && s.closer.Drained? && s.idle == [] && s.size >= 1 && c in Pushers(s)
    ensures Reached(s, steps, t) && t.idle != []
  {
    steps, t := QueueTaken(s);
    if s.calls[c].phase.ToIdle? {
      steps, t := Next(s, steps, t, ReleasePush(c));
    } else if s.calls[c].phase.CancelKeeps? {
      steps, t := Next(s, steps, t, CancelPush(c));
    } else if s.calls[c].phase.Handing? {
      steps, t := HandingPushes(s, steps, t, c);
    } else {
      steps, t := SendingPushes(s, steps, t, c);
    }
  }

  /** Nothing ever comes into the channel again, in any continuation. */
  ghost predicate StaysEmpty(s: State) { forall steps :: Runs(s, steps) ==> Exec(s, steps).idle == [] }

  /** Close leaves no backend open in the idle channel, whatever happens afterwards, if and only if at the
      moment it drains the channel no call is past its look at the flag with a backend to put there. */
  lemma CloseIsCompleteIff(size: nat, reserve: nat, before: seq<Step>)
    requires size >= 1 && Runs(Init(size, reserve), before) && Enabled(Exec(Init(size, reserve), before), CloseDrain)
    ensures var t := Do(Exec(Init(size, reserve), before), CloseDrain); StaysEmpty(t) <==> Pushers(t) == {}
  {
    InitInv(size, reserve);
    RunKeepsInv(Init(size, reserve), before);
    SizeStays(Init(size, reserve), before);
    var t := Drains(Exec(Init(size, reserve), before));
    StaysEmptyIff(t);
  }

  lemma StaysEmptyIff(t: State)
    requires Inv(t) && !t.dead && t.closer.Drained? && t.idle == [] && t.size >= 1
    ensures StaysEmpty(t) <==> Pushers(t) == {}
  {
    if Pushers(t) == {} {
      forall steps | Runs(t, steps) ensures Exec(t, steps).idle == [] { RunWanes(t, steps); }
    } else {
      var c :| c in Pushers(t);
      var steps, u := PusherPushes(t, c);
      assert Runs(t, steps);
    }
  }

  lemma {:induction false} SizeStays(s: State, steps: seq<Step>)
    requires s.size >= 1 && Runs(s, steps)
    ensures Exec(s, steps).size >= 1
    decreases |steps|
  {
    if steps != [] { SizeStays(Do(s, steps[0]), steps[1..]); }
  }

  lemma LooksBeforeClose() returns (steps: seq<Step>, t: State)
    ensures Reached(Init(1, 0), steps, t)
    ensures t == Init(1, 0).(active := 1, dialed := 1, calls := [Call(Handing(0), Empty, false)])
  {
    var s := Init(1, 0);
    steps, t := HoldsFirst(0);
    steps, t := Next(s, steps, t, ReleaseReset(0, true));
    steps, t := Next(s, steps, t, ReleaseCheckClosed(0));
    assert t.calls == [Call(Handing(0), Empty, false)];
  }

  lemma ClosesUnderIt() returns (steps: seq<Step>, t: State)
    ensures Reached(Init(1, 0), steps, t)
    ensures t == Init(1, 0).(active := 1, dialed := 1, closer := Drained, calls := [Call(Handing(0), Empty, false)])
  {
    var s := Init(1, 0);
    steps, t := LooksBeforeClose();
    steps, t := Next(s, steps, t, CloseMark);
    steps, t := Next(s, steps, t, CloseDrain);
    assert t.gone == [];
  }

  lemma PushesAfterwards() returns (steps: seq<Step>, t: State)
    ensures Reached(Init(1, 0), steps, t)
    ensures t == Init(1, 0).(active := 1, dialed := 1, closer := Drained, idle := [0],
                             calls := [Call(Pushed, Empty, false)])
  {
    var s := Init(1, 0);
    steps, t := ClosesUnderIt();
    steps, t := Next(s, steps, t, ReleaseTakeWaiter(0));
    steps, t := Next(s, steps, t, ReleasePush(0));
    assert t.calls == [Call(Pushed, Empty, false)];
  }

  /** A release that looked in time puts its backend into the channel of a pool that is closed for good;
      all calls are over, and nobody closes it. */
  lemma LateReleaseStaysOpen() returns (steps: seq<Step>)
    ensures Runs(Init(1, 0), steps)
    ensures var t := Exec(Init(1, 0), steps);
            && t.closer == Waking([]) && t.idle == [0] && t.gone == []
            && forall c :: 0 <= c < |t.calls| ==> t.calls[c].phase.Done?
  {
    var s, t := Init(1, 0), Init(1, 0);
    steps, t := PushesAfterwards();
    steps, t := Next(s, steps, t, ReleaseUncount(0));
    assert t.calls == [Call(Done, Empty, false)];
    steps, t := Next(s, steps, t, CloseTake);
  }

  // ---------------------------------------------------------------- what is closed stays closed

  lemma GoneStays(s: State, st: Step)
    requires Enabled(s, st)
    ensures s.gone <= Do(s, st).gone
  {
  }

  lemma {:induction false} RunGone(s: State, steps: seq<Step>)
    requires Runs(s, steps)
    ensures s.gone <= Exec(s, steps).gone
    decreases |steps|
  {
    if steps != [] {
      GoneStays(s, steps[0]);
      RunGone(Do(s, steps[0]), steps[1..]);
    }
  }

  /** Closed, and neither idle nor with any call. */
  ghost predicate OnlyClosed(s: State, b: nat) {
    && b in s.gone && b !in s.idle
    && forall d :: 0 <= d < |s.calls| ==> b !in Hands(s.calls[d].phase) && s.calls[d].ch != Full(b)
  }

  lemma {:induction false} CountsMember(q: seq<nat>, b: nat)
    requires b in q
    ensures Count(q, b) >= 1
  {
    if q[0] != b { CountsMember(q[1..], b); }
  }

  lemma GoneIsOnlyClosed(s: State, b: nat)
    requires PlaceInv(s) && b in s.gone
    ensures OnlyClosed(s, b)
  {
    assert Places(s, b) <= 1;
    CountsMember(s.gone, b);
    if b in s.idle { CountsMember(s.idle, b); }
    forall d | 0 <= d < |s.calls| ensures b !in Hands(s.calls[d].phase) && s.calls[d].ch != Full(b) {
      SumAtLeast(s.calls, d, AtCall(b));
      assert AtCall(b)(s.calls[d]) == 0;
    }
  }

  /** The step gives up on a backend that a call carries. */
  predicate GivesUp(s: State, st: Step, b: nat) {
    match st
    case Discard(c) => Has(s, c) && s.calls[c].phase == Holding(b)
    case ReleaseReset(c, ok) => Has(s, c) && s.calls[c].phase == Holding(b) && !ok
    case ReleaseCheckClosed(c) => Has(s, c) && s.calls[c].phase == Returning(b) && IsClosed(s)
    case _ => false
  }

  lemma GivenUp(s: State, st: Step, b: nat)
    requires Enabled(s, st) && GivesUp(s, st, b)
    ensures b in Do(s, st).gone
  {
  }

  /** In every run: a backend that is discarded, whose reset fails, or that is released to a pool already
      closed, is closed, and is never idle, handed on or held again. */
  lemma GivenUpForGood(size: nat, reserve: nat, before: seq<Step>, s: State, st: Step, b: nat, after: seq<Step>,
                       t: State)
    requires Reached(Init(size, reserve), before, s) && Enabled(s, st) && GivesUp(s, st, b)
    requires Reached(Do(s, st), after, t)
    ensures OnlyClosed(t, b)
  {
    InitInv(size, reserve);
    RunKeepsInv(Init(size, reserve), before);
    StepKeepsInv(s, st);
    GivenUp(s, st, b);
    GoneAfter(Do(s, st), after, t, b);
  }

  lemma GoneAfter(s: State, steps: seq<Step>, t: State, b: nat)
    requires Inv(s) && b in s.gone && Reached(s, steps, t)
    ensures OnlyClosed(t, b)
  {
    RunGone(s, steps);
    RunKeepsInv(s, steps);
    GoneIsOnlyClosed(t, b);
  }
}
