/** The backend pool as a transition system: one step per critical section, channel
    operation or atomic operation of `internal/pool/pool.go`.

    A *call* is one checkout: an Acquire, the client's hold on the backend, and the Release
    or Discard that ends it.  A call parks at most once, so the waiter it parks is named by
    the call's own index, and the waiter's channel is part of the call's record. */
module PoolProtocol {
  import opened Counting
  import opened PoolSizing

  type CallId = nat

  datatype Phase =
    | Polling                      // top of the acquire loop
    | Checked                      // pool was open; about to poll the idle channel
    | Popped(b: Backend)           // idle pop succeeded; active not bumped yet
    | PolledEmpty                  // idle poll found nothing
    | Loaded(cur: int)             // active was read as cur
    | Dialing                      // a slot is counted, the dial is in flight
    | Waiting(timerArmed: bool)    // parked; the reserve timer fires at most once
    | ReserveWon                   // left the queue for a reserve dial; active not bumped yet
    | CancelMarked                 // canceled is closed; not yet dequeued
    | CancelDequeued               // dequeued; about to drain the own channel
    | CancelTook(b: Backend)       // a hand-off was in it; about to look at closed
    | CancelKeeps(b: Backend)      // pool was open; about to push to idle
    | Holding(b: Backend)          // the client owns the backend
    | Returning(b: Backend)        // Release, reset done; about to look at closed
    | Handing(b: Backend)          // about to take the next waiter under wmu
    | Sending(b: Backend, to: CallId) // waiter taken from the queue; select pending
    | ToIdle(b: Backend)           // queue was empty; about to push to idle
    | Pushed                       // backend is in idle; slot not given back yet
    | Rejected(b: Backend)         // idle was full; slot not given back yet
    | Done

  datatype Chan = Empty | Full(b: Backend) | Closed

  datatype Call = Call(phase: Phase, ch: Chan, canceled: bool)

  /** How far Close has come; `todo` are the waiters it took from the queue and has yet to wake. */
  datatype Closer = Open | Marked | Drained | Waking(todo: seq<CallId>)

  datatype State = State(
    size: nat,                 // DefaultPoolSize, which is also the idle channel's capacity
    reserve: nat,              // ReservePoolSize
    idle: seq<Backend>,
    active: int,
    closer: Closer,
    waiters: seq<CallId>,
    calls: seq<Call>,
    dead: bool,                // a nil dereference has ended the process
    // History: no step reads these.
    dialed: nat,               // backends 0..dialed-1 have been opened
    gone: seq<Backend>,        // closed backends
    drained: nat,              // hand-offs a cancelled waiter drained and gave on, keeping the slot counted
    parked: seq<CallId>,       // park order
    taken: seq<CallId>,        // order in which Release took waiters
    left: set<CallId>)         // waiters that left the queue any other way

  datatype Step =
    | Start
    | CheckClosed(c: CallId) | PollIdle(c: CallId) | CountPopped(c: CallId)
    | LoadActive(c: CallId) | TryCas(c: CallId) | Park(c: CallId)
    | DialOk(c: CallId) | DialFail(c: CallId)
    | Receive(c: CallId)
    | Cancel(c: CallId) | CancelDequeue(c: CallId) | CancelDrain(c: CallId)
    | CancelCheck(c: CallId) | CancelPush(c: CallId)
    | ReserveTimer(c: CallId) | ReserveCount(c: CallId)
    | ReleaseReset(c: CallId, ok: bool) | ReleaseCheckClosed(c: CallId)
    | ReleaseTakeWaiter(c: CallId) | ReleaseSend(c: CallId) | ReleaseSkip(c: CallId)
    | ReleasePush(c: CallId) | ReleaseUncount(c: CallId)
    | Discard(c: CallId)
    | Resize(newSize: int)
    | Evict(keep: set<Backend>)
    | CloseMark | CloseDrain | CloseTake | CloseOne

  function Init(size: nat, reserve: nat): (s: State) {
    State(size, reserve, [], 0, Open, [], [], false, 0, [], 0, [], [], {})
  }

  predicate IsClosed(s: State) { !s.closer.Open? }

  predicate Has(s: State, c: CallId) { c < |s.calls| }

  function Goto(s: State, c: CallId, p: Phase): (s': State)
    requires Has(s, c)
  {
    s.(calls := s.calls[c := s.calls[c].(phase := p)])
  }

  function Dequeue(s: State, c: CallId): State {
    s.(waiters := Without(s.waiters, c), left := if c in s.waiters then s.left + {c} else s.left)
  }

  predicate Enabled(s: State, st: Step) { !s.dead && Possible(s, st) }

  predicate Possible(s: State, st: Step) {
    match st
    case Start => true
    case CheckClosed(c) => Has(s, c) && s.calls[c].phase.Polling?
    case PollIdle(c) => Has(s, c) && s.calls[c].phase.Checked?
    case CountPopped(c) => Has(s, c) && s.calls[c].phase.Popped?
    case LoadActive(c) => Has(s, c) && s.calls[c].phase.PolledEmpty?
    case TryCas(c) => Has(s, c) && s.calls[c].phase.Loaded? && s.calls[c].phase.cur < s.size
    case Park(c) => Has(s, c) && s.calls[c].phase.Loaded? && s.calls[c].phase.cur >= s.size
    case DialOk(c) => Has(s, c) && s.calls[c].phase.Dialing?
    case DialFail(c) => Has(s, c) && s.calls[c].phase.Dialing?
    case Receive(c) => Has(s, c) && s.calls[c].phase.Waiting? && !s.calls[c].ch.Empty?
    case Cancel(c) => Has(s, c) && s.calls[c].phase.Waiting?
    case CancelDequeue(c) => Has(s, c) && s.calls[c].phase.CancelMarked?
    case CancelDrain(c) => Has(s, c) && s.calls[c].phase.CancelDequeued?
    case CancelCheck(c) => Has(s, c) && s.calls[c].phase.CancelTook?
    case CancelPush(c) => Has(s, c) && s.calls[c].phase.CancelKeeps?
    case ReserveTimer(c) => Has(s, c) && s.calls[c].phase.Waiting? && s.calls[c].phase.timerArmed
    case ReserveCount(c) => Has(s, c) && s.calls[c].phase.ReserveWon?
    case ReleaseReset(c, _) => Has(s, c) && s.calls[c].phase.Holding?
    case ReleaseCheckClosed(c) => Has(s, c) && s.calls[c].phase.Returning?
    case ReleaseTakeWaiter(c) => Has(s, c) && s.calls[c].phase.Handing?
    case ReleaseSend(c) =>
      Has(s, c) && s.calls[c].phase.Sending? && Has(s, s.calls[c].phase.to) &&
      s.calls[s.calls[c].phase.to].ch.Empty?
    case ReleaseSkip(c) =>
      Has(s, c) && s.calls[c].phase.Sending? && Has(s, s.calls[c].phase.to) &&
      s.calls[s.calls[c].phase.to].canceled
    case ReleasePush(c) => Has(s, c) && s.calls[c].phase.ToIdle?
    case ReleaseUncount(c) => Has(s, c) && (s.calls[c].phase.Pushed? || s.calls[c].phase.Rejected?)
    case Discard(c) => Has(s, c) && s.calls[c].phase.Holding?
    case Resize(_) => true
    case Evict(_) => true
    case CloseMark => s.closer.Open?
    case CloseDrain => s.closer.Marked?
    case CloseTake => s.closer.Drained?
    case CloseOne => s.closer.Waking? && s.closer.todo != [] && Has(s, s.closer.todo[0])
  }

  /** The backends of `q` that are (or are not) in `keep`, in order. */
  function Kept(q: seq<Backend>, keep: set<Backend>, inside: bool): (r: seq<Backend>) {
    if q == [] then [] else (if (q[0] in keep) == inside then [q[0]] else []) + Kept(q[1..], keep, inside)
  }

  /** `w.ch <- pc`: the backend moves from the releasing call into its waiter's channel. */
  function HandOff(calls: seq<Call>, c: CallId): (r: seq<Call>)
    requires c < |calls| && calls[c].phase.Sending? && calls[c].phase.to < |calls|
  {
    var to := calls[c].phase.to;
    var t := calls[c := calls[c].(phase := Done)];
    t[to := t[to].(ch := Full(calls[c].phase.b))]
  }

  function DrainOwn(s: State, c: CallId): (s': State)
    requires Has(s, c)
  {
    match s.calls[c].ch
    case Empty => Goto(s, c, Done)
    case Closed => s.(dead := true)
    case Full(b) => s.(calls := s.calls[c := s.calls[c].(phase := CancelTook(b), ch := Empty)])
  }

  /** A cancelled call that closes the hand-off it drained; the slot stays counted. */
  function CancelDrop(s: State, c: CallId, b: Backend): (s': State)
    requires Has(s, c)
  {
    Goto(s, c, Done).(gone := s.gone + [b], drained := s.drained + 1)
  }

  function TryReserve(s: State, c: CallId): (s': State)
    requires Has(s, c)
  {
    if IsClosed(s) then Goto(s, c, Done)
    else if s.active >= s.size + s.reserve then Goto(s, c, Waiting(false))
    else Dequeue(Goto(s, c, ReserveWon), c)
  }

  /** A call that gives its slot back and closes the backend it carries. */
  function Drop(s: State, c: CallId, b: Backend): (s': State)
    requires Has(s, c)
  {
    Goto(s, c, Done).(active := s.active - 1, gone := s.gone + [b])
  }

  function Do(s: State, st: Step): (s': State)
    requires Enabled(s, st)
  {
    match st
    case Start => s.(calls := s.calls + [Call(Polling, Empty, false)])
    case CheckClosed(c) => Goto(s, c, if IsClosed(s) then Done else Checked)
    case PollIdle(c) =>
      if s.idle == [] then Goto(s, c, PolledEmpty)
      else Goto(s, c, Popped(s.idle[0])).(idle := s.idle[1..])
    case CountPopped(c) => Goto(s, c, Holding(s.calls[c].phase.b)).(active := s.active + 1)
    case LoadActive(c) => Goto(s, c, Loaded(s.active))
    case TryCas(c) =>
      if s.active == s.calls[c].phase.cur then Goto(s, c, Dialing).(active := s.active + 1)
      else Goto(s, c, Polling)
    case Park(c) =>
      Goto(s, c, Waiting(s.reserve > 0)).(waiters := s.waiters + [c], parked := s.parked + [c])
    case DialOk(c) => Goto(s, c, Holding(s.dialed)).(dialed := s.dialed + 1)
    case DialFail(c) => Goto(s, c, Done).(active := s.active - 1)
    case Receive(c) =>
      (match s.calls[c].ch
       case Full(b) => s.(calls := s.calls[c := s.calls[c].(phase := Holding(b), ch := Empty)])
       case _ => Goto(s, c, Done))
    case Cancel(c) => s.(calls := s.calls[c := s.calls[c].(phase := CancelMarked, canceled := true)])
    case CancelDequeue(c) => Dequeue(Goto(s, c, CancelDequeued), c)
    case CancelDrain(c) => DrainOwn(s, c)
    case CancelCheck(c) =>
      if IsClosed(s) then CancelDrop(s, c, s.calls[c].phase.b) else Goto(s, c, CancelKeeps(s.calls[c].phase.b))
    case CancelPush(c) =>
      if |s.idle| >= s.size then CancelDrop(s, c, s.calls[c].phase.b)
      else Goto(s, c, Done).(idle := s.idle + [s.calls[c].phase.b], drained := s.drained + 1)
    case ReserveTimer(c) => TryReserve(s, c)
    case ReserveCount(c) => Goto(s, c, Dialing).(active := s.active + 1)
    case ReleaseReset(c, ok) =>
      if ok then Goto(s, c, Returning(s.calls[c].phase.b)) else Drop(s, c, s.calls[c].phase.b)
    case ReleaseCheckClosed(c) =>
      if IsClosed(s) then Drop(s, c, s.calls[c].phase.b) else Goto(s, c, Handing(s.calls[c].phase.b))
    case ReleaseTakeWaiter(c) =>
      if s.waiters == [] then Goto(s, c, ToIdle(s.calls[c].phase.b))
      else Goto(s, c, Sending(s.calls[c].phase.b, s.waiters[0])).(
           waiters := s.waiters[1..], taken := s.taken + [s.waiters[0]])
    case ReleaseSend(c) => s.(calls := HandOff(s.calls, c))
    case ReleaseSkip(c) => Goto(s, c, Handing(s.calls[c].phase.b))
    case ReleasePush(c) =>
      if |s.idle| < s.size then Goto(s, c, Pushed).(idle := s.idle + [s.calls[c].phase.b])
      else Goto(s, c, Rejected(s.calls[c].phase.b))
    case ReleaseUncount(c) =>
      if s.calls[c].phase.Pushed? then Goto(s, c, Done).(active := s.active - 1)
      else Drop(s, c, s.calls[c].phase.b)
    case Discard(c) => Drop(s, c, s.calls[c].phase.b)
    case Resize(n) =>
      var size' := if n < 1 then 1 else n;
      var cut := ResizeCut(|s.idle|, s.active, size');
      s.(size := size', idle := s.idle[cut..], gone := s.gone + s.idle[..cut])
    case Evict(keep) =>
      s.(idle := Kept(s.idle, keep, true), gone := s.gone + Kept(s.idle, keep, false))
    case CloseMark => s.(closer := Marked)
    case CloseDrain => s.(closer := Drained, idle := [], gone := s.gone + s.idle)
    case CloseTake => s.(closer := Waking(s.waiters), waiters := [], left := s.left + set w | w in s.waiters)
    case CloseOne =>
      var w := s.closer.todo[0];
      s.(closer := Waking(s.closer.todo[1..]), calls := s.calls[w := s.calls[w].(ch := Chan.Closed)])
  }

  /** `steps` is a run from `s`: every step is enabled where it is taken. */
  predicate Runs(s: State, steps: seq<Step>)
    decreases |steps|
  {
    steps == [] || (Enabled(s, steps[0]) && Runs(Do(s, steps[0]), steps[1..]))
  }

  function Exec(s: State, steps: seq<Step>): (s': State)
    requires Runs(s, steps)
    decreases |steps|
  {
    if steps == [] then s else Exec(Do(s, steps[0]), steps[1..])
  }
}
