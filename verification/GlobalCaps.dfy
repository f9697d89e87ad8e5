/** The global per-database and per-user checkout caps: two families of counting semaphores,
    taken database first and user second, across every pool of the manager.

    One step per channel operation.  A call is one Acquire through to the end of its
    PostRelease; `maxDb` or `maxUser` of zero or less means that cap is off. */
module GlobalCaps {

  datatype Phase =
    | WantDb       // PreAcquire, before the database semaphore
    | WantUser     // database token taken (if capped); before the user semaphore
    | BackOut      // context ended while waiting for the user; owes the database token
    | Admitted     // PreAcquire returned nil: acquiring, holding or about to give up
    | OwesUser     // PostRelease entered
    | OwesDb       // user token returned
    | Done

  datatype Call = Call(db: string, user: string, phase: Phase, pre: nat, post: nat)

  datatype State = State(maxDb: int, maxUser: int, dbLen: map<string, nat>, userLen: map<string, nat>, calls: seq<Call>)

  datatype Step =
    | Start(db: string, user: string)
    | TakeDb(c: nat) | CancelDb(c: nat)
    | TakeUser(c: nat) | CancelUser(c: nat) | ReturnDb(c: nat)
    | Finish(c: nat)                      // the acquire failed, or Release or Discard was called
    | GiveUser(c: nat) | GiveDb(c: nat)

  function Len(m: map<string, nat>, k: string): nat { if k in m then m[k] else 0 }

  function Init(maxDb: int, maxUser: int): State { State(maxDb, maxUser, map[], map[], []) }

  predicate At(s: State, c: nat, p: Phase) { c < |s.calls| && s.calls[c].phase == p }

  predicate DbFull(s: State, db: string) { s.maxDb > 0 && Len(s.dbLen, db) >= s.maxDb }
  predicate UserFull(s: State, user: string) { s.maxUser > 0 && Len(s.userLen, user) >= s.maxUser }

  /** A send waits for room in the channel; a receive waits for a token in it. */
  predicate Enabled(s: State, st: Step) {
    match st
    case Start(_, _) => true
    case TakeDb(c) => At(s, c, WantDb) && !DbFull(s, s.calls[c].db)
    case CancelDb(c) => At(s, c, WantDb) && s.maxDb > 0
    case TakeUser(c) => At(s, c, WantUser) && !UserFull(s, s.calls[c].user)
    case CancelUser(c) => At(s, c, WantUser) && s.maxUser > 0
    case ReturnDb(c) => At(s, c, BackOut) && (s.maxDb > 0 ==> Len(s.dbLen, s.calls[c].db) > 0)
    case Finish(c) => At(s, c, Admitted)
    case GiveUser(c) => At(s, c, OwesUser) && (s.maxUser > 0 ==> Len(s.userLen, s.calls[c].user) > 0)
    case GiveDb(c) => At(s, c, OwesDb) && (s.maxDb > 0 ==> Len(s.dbLen, s.calls[c].db) > 0)
  }

  function Put(s: State, c: nat, x: Call): State
    requires c < |s.calls|
  {
    s.(calls := s.calls[c := x])
  }

  function AddDb(s: State, db: string, k: int): State
    requires s.maxDb > 0 ==> Len(s.dbLen, db) + k >= 0
  {
    if s.maxDb > 0 then s.(dbLen := s.dbLen[db := Len(s.dbLen, db) + k]) else s
  }

  function AddUser(s: State, user: string, k: int): State
    requires s.maxUser > 0 ==> Len(s.userLen, user) + k >= 0
  {
    if s.maxUser > 0 then s.(userLen := s.userLen[user := Len(s.userLen, user) + k]) else s
  }

  function Do(s: State, st: Step): (s': State)
    requires Enabled(s, st)
  {
    match st
    case Start(db, user) => s.(calls := s.calls + [Call(db, user, WantDb, 0, 0)])
    case TakeDb(c) => Put(AddDb(s, s.calls[c].db, 1), c, s.calls[c].(phase := WantUser))
    case CancelDb(c) => Put(s, c, s.calls[c].(phase := Done))
    case TakeUser(c) =>
      Put(AddUser(s, s.calls[c].user, 1), c, s.calls[c].(phase := Admitted, pre := s.calls[c].pre + 1))
    case CancelUser(c) => Put(s, c, s.calls[c].(phase := BackOut))
    case ReturnDb(c) => Put(AddDb(s, s.calls[c].db, -1), c, s.calls[c].(phase := Done))
    case Finish(c) => Put(s, c, s.calls[c].(phase := OwesUser))
    case GiveUser(c) => Put(AddUser(s, s.calls[c].user, -1), c, s.calls[c].(phase := OwesDb))
    case GiveDb(c) =>
      Put(AddDb(s, s.calls[c].db, -1), c, s.calls[c].(phase := Done, post := s.calls[c].post + 1))
  }

  predicate Runs(s: State, steps: seq<Step>)
    decreases |steps|
  {
    steps == [] || (Enabled(s, steps[0]) && Runs(Do(s, steps[0]), steps[1..]))
  }

  function Exec(s: State, steps: seq<Step>): State
    requires Runs(s, steps)
    decreases |steps|
  {
    if steps == [] then s else Exec(Do(s, steps[0]), steps[1..])
  }

  // ---------------------------------------------------------------- token counts

  predicate HasDbToken(p: Phase) { p.WantUser? || p.BackOut? || p.Admitted? || p.OwesUser? || p.OwesDb? }
  predicate HasUserToken(p: Phase) { p.Admitted? || p.OwesUser? }

  predicate CountsDb(x: Call, db: string) { x.db == db && HasDbToken(x.phase) }
  predicate CountsUser(x: Call, user: string) { x.user == user && HasUserToken(x.phase) }

  function DbHolders(calls: seq<Call>, db: string): nat {
    if calls == [] then 0 else (if CountsDb(calls[0], db) then 1 else 0) + DbHolders(calls[1..], db)
  }

  function UserHolders(calls: seq<Call>, user: string): nat {
    if calls == [] then 0 else (if CountsUser(calls[0], user) then 1 else 0) + UserHolders(calls[1..], user)
  }

  lemma {:induction false} DbUpdate(calls: seq<Call>, c: nat, x: Call, db: string)
    requires c < |calls|
    ensures DbHolders(calls[c := x], db) + (if CountsDb(calls[c], db) then 1 else 0)
            == DbHolders(calls, db) + if CountsDb(x, db) then 1 else 0
  {
    if c > 0 {
      DbUpdate(calls[1..], c - 1, x, db);
      assert calls[c := x][1..] == calls[1..][c - 1 := x];
    } else {
      assert calls[c := x][1..] == calls[1..];
    }
  }

  lemma {:induction false} UserUpdate(calls: seq<Call>, c: nat, x: Call, user: string)
    requires c < |calls|
    ensures UserHolders(calls[c := x], user) + (if CountsUser(calls[c], user) then 1 else 0)
            == UserHolders(calls, user) + if CountsUser(x, user) then 1 else 0
  {
    if c > 0 {
      UserUpdate(calls[1..], c - 1, x, user);
      assert calls[c := x][1..] == calls[1..][c - 1 := x];
    } else {
      assert calls[c := x][1..] == calls[1..];
    }
  }

  lemma {:induction false} HoldersAppend(calls: seq<Call>, x: Call, k: string)
    requires x.phase.WantDb?
    ensures DbHolders(calls + [x], k) == DbHolders(calls, k) && UserHolders(calls + [x], k) == UserHolders(calls, k)
  {
    if calls == [] {
      assert (calls + [x])[1..] == [];
    } else {
      HoldersAppend(calls[1..], x, k);
      assert (calls + [x])[1..] == calls[1..] + [x];
    }
  }

  lemma {:induction false} DbHolderAt(calls: seq<Call>, db: string) returns (c: nat)
    requires DbHolders(calls, db) > 0
    ensures c < |calls| && CountsDb(calls[c], db)
  {
    if CountsDb(calls[0], db) { c := 0; } else { c := DbHolderAt(calls[1..], db); c := c + 1; }
  }

  lemma {:induction false} UserHolderAt(calls: seq<Call>, user: string) returns (c: nat)
    requires UserHolders(calls, user) > 0
    ensures c < |calls| && CountsUser(calls[c], user)
  {
    if CountsUser(calls[0], user) { c := 0; } else { c := UserHolderAt(calls[1..], user); c := c + 1; }
  }

  // ---------------------------------------------------------------- the invariant

  /** PreAcquire and PostRelease as the call has seen them so far. */
  predicate PairOk(x: Call) {
    match x.phase
    case WantDb => x.pre == 0 && x.post == 0
    case WantUser => x.pre == 0 && x.post == 0
    case BackOut => x.pre == 0 && x.post == 0
    case Admitted => x.pre == 1 && x.post == 0
    case OwesUser => x.pre == 1 && x.post == 0
    case OwesDb => x.pre == 1 && x.post == 0
    case Done => x.pre == x.post <= 1
  }

  predicate DbOk(s: State, db: string) {
    if s.maxDb > 0 then Len(s.dbLen, db) == DbHolders(s.calls, db) <= s.maxDb else Len(s.dbLen, db) == 0
  }

  predicate UserOk(s: State, user: string) {
    if s.maxUser > 0 then Len(s.userLen, user) == UserHolders(s.calls, user) <= s.maxUser else Len(s.userLen, user) == 0
  }

  ghost predicate Inv(s: State) {
    && (forall db :: DbOk(s, db)) && (forall user :: UserOk(s, user))
    && (forall c :: 0 <= c < |s.calls| ==> PairOk(s.calls[c]))
  }

  lemma StepKeepsDb(s: State, st: Step, db: string)
    requires Enabled(s, st) && DbOk(s, db)
    ensures DbOk(Do(s, st), db)
  {
    if st.Start? {
      HoldersAppend(s.calls, Call(st.db, st.user, WantDb, 0, 0), db);
    } else {
      assert Do(s, st).calls == s.calls[st.c := Do(s, st).calls[st.c]];
      DbUpdate(s.calls, st.c, Do(s, st).calls[st.c], db);
    }
  }

  lemma StepKeepsUser(s: State, st: Step, user: string)
    requires Enabled(s, st) && UserOk(s, user)
    ensures UserOk(Do(s, st), user)
  {
    if st.Start? {
      HoldersAppend(s.calls, Call(st.db, st.user, WantDb, 0, 0), user);
    } else {
      assert Do(s, st).calls == s.calls[st.c := Do(s, st).calls[st.c]];
      UserUpdate(s.calls, st.c, Do(s, st).calls[st.c], user);
    }
  }

  lemma StepKeepsInv(s: State, st: Step)
    requires Inv(s) && Enabled(s, st)
    ensures Inv(Do(s, st))
  {
    forall db ensures DbOk(Do(s, st), db) { StepKeepsDb(s, st, db); }
    forall user ensures UserOk(Do(s, st), user) { StepKeepsUser(s, st, user); }
  }

  lemma {:induction false} RunKeepsInv(s: State, steps: seq<Step>)
    requires Inv(s) && Runs(s, steps)
    ensures Inv(Exec(s, steps))
    decreases |steps|
  {
    if steps != [] {
      StepKeepsInv(s, steps[0]);
      RunKeepsInv(Do(s, steps[0]), steps[1..]);
    }
  }

  lemma InitInv(maxDb: int, maxUser: int)
    ensures Inv(Init(maxDb, maxUser))
  {
    forall db ensures DbOk(Init(maxDb, maxUser), db) { }
    forall user ensures UserOk(Init(maxDb, maxUser), user) { }
  }

  // ---------------------------------------------------------------- theorems

  /** No interleaving of acquires, releases, discards and cancellations takes a database or a
      user over its cap. */
  lemma CapsHold(maxDb: int, maxUser: int, steps: seq<Step>, db: string, user: string)
    requires Runs(Init(maxDb, maxUser), steps)
    ensures var s := Exec(Init(maxDb, maxUser), steps);
            && s.maxDb == maxDb && s.maxUser == maxUser
            && (maxDb > 0 ==> DbHolders(s.calls, db) <= maxDb)
            && (maxUser > 0 ==> UserHolders(s.calls, user) <= maxUser)
  {
    InitInv(maxDb, maxUser);
    RunKeepsInv(Init(maxDb, maxUser), steps);
    LimitsFixed(Init(maxDb, maxUser), steps);
    var s := Exec(Init(maxDb, maxUser), steps);
    assert DbOk(s, db) && UserOk(s, user);
  }

  lemma {:induction false} LimitsFixed(s: State, steps: seq<Step>)
    requires Runs(s, steps)
    ensures Exec(s, steps).maxDb == s.maxDb && Exec(s, steps).maxUser == s.maxUser
    decreases |steps|
  {
    if steps != [] { LimitsFixed(Do(s, steps[0]), steps[1..]); }
  }

  /** Every receive of PostRelease and of the back-out path finds a token: it never blocks. */
  lemma ReceivesNeverBlock(s: State, c: nat)
    requires Inv(s) && c < |s.calls|
    ensures s.calls[c].phase.BackOut? ==> Enabled(s, ReturnDb(c))
    ensures s.calls[c].phase.OwesUser? ==> Enabled(s, GiveUser(c))
    ensures s.calls[c].phase.OwesDb? ==> Enabled(s, GiveDb(c))
  {
    assert DbOk(s, s.calls[c].db) && UserOk(s, s.calls[c].user);
    DbUpdate(s.calls, c, s.calls[c].(phase := Done), s.calls[c].db);
    UserUpdate(s.calls, c, s.calls[c].(phase := Done), s.calls[c].user);
  }

  predicate Blocked(s: State, c: nat)
    requires c < |s.calls|
  {
    (s.calls[c].phase.WantDb? && DbFull(s, s.calls[c].db))
      || (s.calls[c].phase.WantUser? && UserFull(s, s.calls[c].user))
  }

  /** The step that takes a call towards its end without any cancellation. */
  function Forward(s: State, c: nat): Step
    requires c < |s.calls| && !s.calls[c].phase.Done?
  {
    match s.calls[c].phase
    case WantDb => TakeDb(c)
    case WantUser => TakeUser(c)
    case BackOut => ReturnDb(c)
    case Admitted => Finish(c)
    case OwesUser => GiveUser(c)
    case OwesDb => GiveDb(c)
  }

  /** Whenever an acquire is blocked on a semaphore, some call that holds a token can take its
      next step: the database-then-user order cannot deadlock. */
  lemma NoDeadlock(s: State, c: nat) returns (d: nat)
    requires Inv(s) && c < |s.calls| && Blocked(s, c)
    ensures d < |s.calls| && d != c && HasDbToken(s.calls[d].phase) && Enabled(s, Forward(s, d))
  {
    d := c;
    if s.calls[c].phase.WantDb? {
      assert DbOk(s, s.calls[c].db);
      d := DbHolderAt(s.calls, s.calls[c].db);
    }
    if s.calls[d].phase.WantUser? && UserFull(s, s.calls[d].user) {
      assert UserOk(s, s.calls[d].user);
      d := UserHolderAt(s.calls, s.calls[d].user);
    }
    ReceivesNeverBlock(s, d);
  }

  // ---------------------------------------------------------------- everything can drain

  function Rank(p: Phase): nat {
    match p
    case WantDb => 5 case WantUser => 4 case Admitted => 3 case OwesUser => 2
    case OwesDb => 1 case BackOut => 1 case Done => 0
  }

  function Work(calls: seq<Call>): nat { if calls == [] then 0 else Rank(calls[0].phase) + Work(calls[1..]) }

  lemma {:induction false} WorkUpdate(calls: seq<Call>, c: nat, x: Call)
    requires c < |calls|
    ensures Work(calls[c := x]) + Rank(calls[c].phase) == Work(calls) + Rank(x.phase)
  {
    if c > 0 {
      WorkUpdate(calls[1..], c - 1, x);
      assert calls[c := x][1..] == calls[1..][c - 1 := x];
    } else {
      assert calls[c := x][1..] == calls[1..];
    }
  }

  /** Some unfinished call can always take its forward step. */
  lemma SomeoneMoves(s: State, c: nat) returns (d: nat)
    requires Inv(s) && c < |s.calls| && !s.calls[c].phase.Done?
    ensures d < |s.calls| && !s.calls[d].phase.Done? && Enabled(s, Forward(s, d))
  {
    if Blocked(s, c) {
      d := NoDeadlock(s, c);
    } else {
      d := c;
      ReceivesNeverBlock(s, c);
    }
  }

  predicate NoCancel(steps: seq<Step>) {
    forall i :: 0 <= i < |steps| ==> !steps[i].CancelDb? && !steps[i].CancelUser? && !steps[i].Start?
  }

  lemma {:induction false} AllDoneEmpty(calls: seq<Call>, k: string)
    requires forall c :: 0 <= c < |calls| ==> calls[c].phase.Done?
    ensures DbHolders(calls, k) == 0 && UserHolders(calls, k) == 0
  {
    if calls != [] { AllDoneEmpty(calls[1..], k); }
  }

  ghost predicate Drained(t: State) {
    && (forall c :: 0 <= c < |t.calls| ==> t.calls[c].phase.Done?)
    && (forall k :: Len(t.dbLen, k) == 0 && Len(t.userLen, k) == 0)
  }

  lemma ForwardProgress(s: State, d: nat)
    requires Inv(s) && d < |s.calls| && !s.calls[d].phase.Done? && Enabled(s, Forward(s, d))
    ensures var s' := Do(s, Forward(s, d)); Inv(s') && Work(s'.calls) < Work(s.calls) && |s'.calls| == |s.calls|
  {
    var s' := Do(s, Forward(s, d));
    StepKeepsInv(s, Forward(s, d));
    assert s'.calls == s.calls[d := s'.calls[d]];
    WorkUpdate(s.calls, d, s'.calls[d]);
  }

  lemma AllDoneDrained(s: State)
    requires Inv(s) && forall c :: 0 <= c < |s.calls| ==> s.calls[c].phase.Done?
    ensures Drained(s)
  {
    forall k ensures Len(s.dbLen, k) == 0 && Len(s.userLen, k) == 0 {
      AllDoneEmpty(s.calls, k);
      assert DbOk(s, k) && UserOk(s, k);
    }
  }

  /** From every reachable state, without cancelling anything, all calls can run to their end,
      and then every semaphore is empty. */
  lemma {:induction false} AlwaysDrains(s: State) returns (steps: seq<Step>)
    requires Inv(s)
    ensures NoCancel(steps) && Runs(s, steps)
    ensures Drained(Exec(s, steps)) && |Exec(s, steps).calls| == |s.calls|
    decreases Work(s.calls)
  {
    if c :| 0 <= c < |s.calls| && !s.calls[c].phase.Done? {
      var d := SomeoneMoves(s, c);
      ForwardProgress(s, d);
      var rest := AlwaysDrains(Do(s, Forward(s, d)));
      steps := [Forward(s, d)] + rest;
      assert steps[1..] == rest;
    } else {
      steps := [];
      AllDoneDrained(s);
    }
  }
}
