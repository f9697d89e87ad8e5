/** The pools and the caps together: each checkout of a pool runs between the PreAcquire that admitted
    it and the PostRelease that its way out calls. */
module PoolPermits {
  import opened Options
  import PP = PoolProtocol
  import PB = PoolBounds
  import PL = PoolLedger
  import GC = GlobalCaps

  // ---------------------------------------------------------------- where PostRelease is called

  /** The call, if any, for which a step runs into PostRelease: the error returns of Acquire, and the
      deferred call on every way out of Release and Discard. */
  function Fires(s: PP.State, st: PP.Step): Option<nat>
    requires PP.Enabled(s, st)
  {
    match st
    case CheckClosed(c) => if PP.IsClosed(s) then Some(c) else None
    case DialFail(c) => Some(c)
    case Receive(c) => if s.calls[c].ch.Closed? then Some(c) else None
    case CancelDrain(c) => if s.calls[c].ch.Empty? then Some(c) else None
    case CancelCheck(c) => if PP.IsClosed(s) then Some(c) else None
    case CancelPush(c) => Some(c)
    case ReserveTimer(c) => if PP.IsClosed(s) then Some(c) else None
    case ReleaseReset(c, ok) => if ok then None else Some(c)
    case ReleaseCheckClosed(c) => if PP.IsClosed(s) then Some(c) else None
    case ReleaseSend(c) => Some(c)
    case ReleaseUncount(c) => Some(c)
    case Discard(c) => Some(c)
    case _ => None
  }

  /** A step ends exactly the call for which it runs into PostRelease; a call that is over stays as it
      is, and a crash, which ends the process, ends no call. */
  lemma EndsWhatFires(s: PP.State, st: PP.Step, c: nat)
    requires PP.Enabled(s, st) && c < |s.calls| && !st.Start?
    ensures |PP.Do(s, st).calls| == |s.calls|
    ensures var p, p' := s.calls[c].phase, PP.Do(s, st).calls[c].phase;
            && (p.Done? ==> p'.Done? && Fires(s, st) != Some(c))
            && (!p.Done? ==> (p'.Done? <==> Fires(s, st) == Some(c)))
            && (PP.Do(s, st).dead ==> p' == p)
  {
    if PL.Actor(st) != c { PB.OthersStay(s, st, c); }
  }

  // ---------------------------------------------------------------- the two systems side by side

  /** A pool of one database and user; `owners` names the admitted call behind each of its calls. */
  datatype Pool = Pool(db: string, user: string, state: PP.State, owners: seq<nat>)

  /** `links` says which pool call an admitted call has entered. */
  datatype State = State(caps: GC.State, pools: seq<Pool>, links: seq<Option<(nat, nat)>>)

  datatype Step =
    | OnCaps(cap: GC.Step)
    | Open(db: string, user: string, size: nat, reserve: nat)
    | Enter(c: nat, p: nat)
    | InPool(p: nat, st: PP.Step)

  function Init(maxDb: int, maxUser: int): State { State(GC.Init(maxDb, maxUser), [], []) }

  /** No pool has crashed the process. */
  predicate Alive(s: State) { forall p :: 0 <= p < |s.pools| ==> !s.pools[p].state.dead }

  predicate Enabled(s: State, step: Step) { Alive(s) && Possible(s, step) }

  predicate Possible(s: State, step: Step) {
    match step
    case OnCaps(cap) => GC.Enabled(s.caps, cap) && !cap.Finish?
    case Open(_, _, size, _) => size >= 1
    case Enter(c, p) =>
      && GC.At(s.caps, c, GC.Admitted) && c < |s.links| && s.links[c].None? && p < |s.pools|
      && s.pools[p].db == s.caps.calls[c].db && s.pools[p].user == s.caps.calls[c].user
    case InPool(p, st) => p < |s.pools| && PP.Enabled(s.pools[p].state, st) && !st.Start?
  }

  /** The owner of the pool call leaves its admission. */
  function Released(s: State, p: nat, pc: Option<nat>): GC.State
    requires p < |s.pools|
  {
    if pc.Some? && pc.value < |s.pools[p].owners| && GC.Enabled(s.caps, GC.Finish(s.pools[p].owners[pc.value])) then
      GC.Do(s.caps, GC.Finish(s.pools[p].owners[pc.value]))
    else s.caps
  }

  function Do(s: State, step: Step): State
    requires Enabled(s, step)
  {
    match step
    case OnCaps(cap) =>
      s.(caps := GC.Do(s.caps, cap), links := if cap.Start? then s.links + [None] else s.links)
    case Open(db, user, size, reserve) => s.(pools := s.pools + [Pool(db, user, PP.Init(size, reserve), [])])
    case Enter(c, p) =>
      var pool := s.pools[p];
      State(s.caps,
            s.pools[p := pool.(state := PP.Do(pool.state, PP.Start), owners := pool.owners + [c])],
            s.links[c := Some((p, |pool.state.calls|))])
    case InPool(p, st) =>
      s.(caps := Released(s, p, Fires(s.pools[p].state, st)),
         pools := s.pools[p := s.pools[p].(state := PP.Do(s.pools[p].state, st))])
  }

  predicate Runs(s: State, steps: seq<Step>)
    decreases |steps|
  {
    steps == [] || (Enabled(s, steps[0]) && Runs(Do(s, steps[0]), steps[1..]))
  }

  function Exec(s: State, steps: seq<Step>): State
    requires Runs(s, steps)
    decreases |steps|
  {
    if steps == [] then s else Exec(Do(s, steps[0]), steps[1..])
  }

  // ---------------------------------------------------------------- the invariant

  predicate PastAdmission(p: GC.Phase) { p.OwesUser? || p.OwesDb? || p.Done? }

  /** The pool call behind an admitted call, when it has entered one. */
  predicate LinkOk(s: State, c: nat)
    requires c < |s.links| == |s.caps.calls|
  {
    var x := s.caps.calls[c];
    match s.links[c]
    case None => !x.phase.OwesUser? && !x.phase.OwesDb? && (x.phase.Done? ==> x.pre == 0)
    case Some((p, pc)) =>
      && p < |s.pools| && pc < |s.pools[p].state.calls| && pc < |s.pools[p].owners| && s.pools[p].owners[pc] == c
      && s.pools[p].db == x.db && s.pools[p].user == x.user && x.pre == 1
      && if s.pools[p].state.calls[pc].phase.Done? then PastAdmission(x.phase) else x.phase.Admitted?
  }

  predicate OwnersOk(s: State, p: nat)
    requires p < |s.pools|
  {
    && |s.pools[p].owners| == |s.pools[p].state.calls|
    && forall pc :: 0 <= pc < |s.pools[p].owners| ==>
         s.pools[p].owners[pc] < |s.links| && s.links[s.pools[p].owners[pc]] == Some((p, pc))
  }

  ghost predicate Inv(s: State) {
    && |s.links| == |s.caps.calls| && GC.Inv(s.caps)
    && (forall c :: 0 <= c < |s.links| ==> LinkOk(s, c))
    && (forall p :: 0 <= p < |s.pools| ==> OwnersOk(s, p))
  }

  lemma CapsStepKeeps(s: State, cap: GC.Step)
    requires Inv(s) && Enabled(s, OnCaps(cap))
    ensures Inv(Do(s, OnCaps(cap)))
  {
    GC.StepKeepsInv(s.caps, cap);
    var s' := Do(s, OnCaps(cap));
    forall c | 0 <= c < |s'.links| ensures LinkOk(s', c) {
      if c < |s.links| {
        assert LinkOk(s, c) && GC.PairOk(s.caps.calls[c]);
      }
    }
    forall p | 0 <= p < |s'.pools| ensures OwnersOk(s', p) { assert OwnersOk(s, p); }
  }

  lemma EnterKeeps(s: State, c: nat, p: nat)
    requires Inv(s) && Enabled(s, Enter(c, p))
    ensures Inv(Do(s, Enter(c, p)))
  {
    var s' := Do(s, Enter(c, p));
    assert OwnersOk(s, p) && GC.PairOk(s.caps.calls[c]);
    forall d | 0 <= d < |s'.links| ensures LinkOk(s', d) { assert LinkOk(s, d); }
    forall q | 0 <= q < |s'.pools| ensures OwnersOk(s', q) { assert OwnersOk(s, q); }
  }

  /** A pool step that runs into PostRelease takes its owner, and nobody else, out of admission. */
  lemma PoolStepKeeps(s: State, p: nat, st: PP.Step)
    requires Inv(s) && Enabled(s, InPool(p, st))
    ensures Inv(Do(s, InPool(p, st)))
  {
    var s' := Do(s, InPool(p, st));
    var before, fired := s.pools[p].state, Fires(s.pools[p].state, st);
    assert OwnersOk(s, p);
    if fired.Some? {
      EndsWhatFires(before, st, fired.value);
      assert LinkOk(s, s.pools[p].owners[fired.value]);
      GC.StepKeepsInv(s.caps, GC.Finish(s.pools[p].owners[fired.value]));
    }
    forall c | 0 <= c < |s'.links| ensures LinkOk(s', c) {
      assert LinkOk(s, c);
      if s.links[c].Some? && s.links[c].value.0 == p { EndsWhatFires(before, st, s.links[c].value.1); }
    }
    if |before.calls| > 0 { EndsWhatFires(before, st, 0); }
    forall q | 0 <= q < |s'.pools| ensures OwnersOk(s', q) { assert OwnersOk(s, q); }
  }

  lemma StepKeepsInv(s: State, step: Step)
    requires Inv(s) && Enabled(s, step)
    ensures Inv(Do(s, step))
  {
    match step
    case OnCaps(cap) => CapsStepKeeps(s, cap);
    case Open(_, _, _, _) =>
      forall c | 0 <= c < |s.links| ensures LinkOk(Do(s, step), c) { assert LinkOk(s, c); }
      forall p | 0 <= p < |s.pools| ensures OwnersOk(Do(s, step), p) { assert OwnersOk(s, p); }
    case Enter(c, p) => EnterKeeps(s, c, p);
    case InPool(p, st) => PoolStepKeeps(s, p, st);
  }

  lemma {:induction false} RunKeepsInv(s: State, steps: seq<Step>)
    requires Inv(s) && Runs(s, steps)
    ensures Inv(Exec(s, steps))
    decreases |steps|
  {
    if steps != [] {
      StepKeepsInv(s, steps[0]);
      RunKeepsInv(Do(s, steps[0]), steps[1..]);
    }
  }

  // ---------------------------------------------------------------- theorems

  /** One PostRelease for each successful PreAcquire: an admitted call is past its admission exactly
      when its pool call is Done, whichever way it got there, and at its end it has seen one of each. */
  lemma PairedExactlyOnce(maxDb: int, maxUser: int, steps: seq<Step>, p: nat, pc: nat)
    requires Runs(Init(maxDb, maxUser), steps)
    requires p < |Exec(Init(maxDb, maxUser), steps).pools|
    requires pc < |Exec(Init(maxDb, maxUser), steps).pools[p].state.calls|
    ensures var s := Exec(Init(maxDb, maxUser), steps);
            var phase := s.pools[p].state.calls[pc].phase;
            && pc < |s.pools[p].owners| && s.pools[p].owners[pc] < |s.caps.calls|
            && var x := s.caps.calls[s.pools[p].owners[pc]];
               && x.pre == 1 && x.post <= 1
               && (PastAdmission(x.phase) <==> phase.Done?)
               && (x.post == 1 <==> x.phase.Done?)
  {
    GC.InitInv(maxDb, maxUser);
    RunKeepsInv(Init(maxDb, maxUser), steps);
    var s := Exec(Init(maxDb, maxUser), steps);
    assert OwnersOk(s, p);
    assert LinkOk(s, s.pools[p].owners[pc]) && GC.PairOk(s.caps.calls[s.pools[p].owners[pc]]);
  }

  /** Whether the call has entered a pool call that is not Done. */
  predicate CheckedOut(s: State, c: nat)
    requires c < |s.links|
  {
    match s.links[c]
    case None => false
    case Some((p, pc)) => p < |s.pools| && pc < |s.pools[p].state.calls| && !s.pools[p].state.calls[pc].phase.Done?
  }

  /** The checkouts of a database among the calls from n on. */
  function DbCheckouts(s: State, db: string, n: nat): nat
    requires n <= |s.links| == |s.caps.calls|
    decreases |s.links| - n
  {
    if n == |s.links| then 0
    else (if CheckedOut(s, n) && s.caps.calls[n].db == db then 1 else 0) + DbCheckouts(s, db, n + 1)
  }

  function UserCheckouts(s: State, user: string, n: nat): nat
    requires n <= |s.links| == |s.caps.calls|
    decreases |s.links| - n
  {
    if n == |s.links| then 0
    else (if CheckedOut(s, n) && s.caps.calls[n].user == user then 1 else 0) + UserCheckouts(s, user, n + 1)
  }

  lemma {:induction false} CheckoutsHoldTokens(s: State, key: string, n: nat)
    requires Inv(s) && n <= |s.links|
    ensures DbCheckouts(s, key, n) <= GC.DbHolders(s.caps.calls[n..], key)
    ensures UserCheckouts(s, key, n) <= GC.UserHolders(s.caps.calls[n..], key)
    decreases |s.links| - n
  {
    if n < |s.links| {
      CheckoutsHoldTokens(s, key, n + 1);
      assert LinkOk(s, n);
      assert s.caps.calls[n..][0] == s.caps.calls[n] && s.caps.calls[n..][1..] == s.caps.calls[n + 1..];
    }
  }

  lemma {:induction false} LimitsFixed(s: State, steps: seq<Step>)
    requires Runs(s, steps)
    ensures Exec(s, steps).caps.maxDb == s.caps.maxDb && Exec(s, steps).caps.maxUser == s.caps.maxUser
    decreases |steps|
  {
    if steps != [] { LimitsFixed(Do(s, steps[0]), steps[1..]); }
  }

  /** Over all pools and all interleavings, the checkouts of a database, and of a user, never exceed
      their cap, and no pool has a checkout that is not admitted. */
  lemma CheckoutsWithinCaps(maxDb: int, maxUser: int, steps: seq<Step>, key: string)
    requires Runs(Init(maxDb, maxUser), steps)
    ensures var s := Exec(Init(maxDb, maxUser), steps);
            && |s.links| == |s.caps.calls|
            && (maxDb > 0 ==> DbCheckouts(s, key, 0) <= maxDb)
            && (maxUser > 0 ==> UserCheckouts(s, key, 0) <= maxUser)
    ensures var s := Exec(Init(maxDb, maxUser), steps);
            forall p :: 0 <= p < |s.pools| ==> OwnersOk(s, p)
  {
    GC.InitInv(maxDb, maxUser);
    RunKeepsInv(Init(maxDb, maxUser), steps);
    var s := Exec(Init(maxDb, maxUser), steps);
    CheckoutsHoldTokens(s, key, 0);
    LimitsFixed(Init(maxDb, maxUser), steps);
    assert s.caps.calls[0..] == s.caps.calls;
    assert GC.DbOk(s.caps, key) && GC.UserOk(s.caps, key);
  }
}
