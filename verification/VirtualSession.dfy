/** Transaction pooling with replay and pinning against one dedicated backend per client. */
module VirtualSession {
  import opened Options
  import opened GucCache

  /** The settings of a server session: session values, transaction-local values over them, and the
      session values a rollback goes back to. */
  datatype Settings = Settings(session: Vars, local: Vars, inTx: bool, saved: Vars)

  const DEFAULT: Settings := Settings(map[], map[], false, map[])

  /** What a statement sees. */
  function Seen(s: Settings): Vars { s.session + s.local }

  function Execute(s: Settings, cmd: Cmd): Settings {
    match cmd
    case Set(n, v) => s.(session := s.session[n := v], local := s.local - {n})
    case SetLocal(n, v) => if s.inTx then s.(local := s.local[n := v]) else s
    case Reset(n) => s.(session := s.session - {n}, local := s.local - {n})
    case ResetAll => s.(session := map[], local := map[])
    case DiscardAll => if s.inTx then s else DEFAULT
    case Begin => if s.inTx then s else s.(inTx := true, saved := s.session)
    case Commit => Settings(s.session, map[], false, map[])
    case Rollback => if s.inTx then Settings(s.saved, map[], false, map[]) else s
    case Other => s
  }

  /** A pooled client beside its dedicated backend. */
  datatype Client = Client(vars: Vars, unrecognized: bool, pinned: bool, at: Option<nat>, own: Settings, gone: bool)

  datatype Backend = Backend(settings: Settings, holder: Option<nat>, alive: bool)

  /** What a statement left the client seeing, pooled and dedicated. */
  datatype Sight = Sight(pooled: Vars, dedicated: Vars)

  datatype State = State(clients: seq<Client>, backs: seq<Backend>, seen: seq<Sight>)

  datatype Step =
    | Connect
    | Dial
    | Run(c: nat, cmd: Cmd, k: nat, replay: seq<(string, string)>, reset: bool)
    | Refuse(c: nat, cmd: Cmd)
    | Leave(c: nat)

  const NEW_CLIENT: Client := Client(map[], false, false, None, DEFAULT, false)
  const NEW_BACKEND: Backend := Backend(DEFAULT, None, true)
  const INIT: State := State([], [], [])

  // ---------------------------------------------------------------- the serve loop on one command

  /** Observe, then pin. */
  function Noted(replayable: set<string>, cl: Client, cmd: Cmd): Client {
    var u := Flagged(replayable, cl.unrecognized, cmd);
    cl.(vars := Tracked(replayable, cl.vars, cmd), unrecognized := u, pinned := cl.pinned || u)
  }

  /** The observer hook and the pin check that follow each client message. */
  method ObserveAndPin(cache: GucCache, pinned: bool, cmd: Cmd, ghost cl: Client) returns (pins: bool)
    requires cl.vars == cache.vars && cl.unrecognized == cache.unrecognized && cl.pinned == pinned
    modifies cache
    ensures Noted(cache.replayable, cl, cmd)
            == cl.(vars := cache.vars, unrecognized := cache.unrecognized, pinned := pins)
  {
    var _ := cache.ApplyGuc(cmd);
    var flagged := cache.HasUnrecognizedSet();
    pins := pinned || flagged;
  }

  /** Attach when detached, replaying the tracked values. */
  function Ready(cl: Client, b: Backend, replay: seq<(string, string)>): Settings {
    if cl.at.Some? then b.settings else b.settings.(session := Assign(b.settings.session, replay))
  }

  /** The command on the attached backend, and the release that follows when nothing holds it. */
  function Served(replayable: set<string>, c: nat, k: nat, cl: Client, b: Backend, cmd: Cmd,
                  replay: seq<(string, string)>, reset: bool): (Client, Backend, Sight)
  {
    var noted := Noted(replayable, cl, cmd);
    var done := Execute(Ready(cl, b, replay), cmd);
    var own := Execute(cl.own, cmd);
    var sight := Sight(Seen(done), Seen(own));
    if !noted.pinned && !done.inTx then
      (noted.(at := None, own := own), if reset then NEW_BACKEND else Backend(done, None, true), sight)
    else (noted.(at := Some(k), own := own), Backend(done, Some(c), true), sight)
  }

  /** What a client can do; a DISCARD ALL inside a transaction is an error. */
  ghost predicate Enabled(replayable: set<string>, s: State, step: Step) {
    match step
    case Connect => true
    case Dial => true
    case Run(c, cmd, k, replay, _) =>
      && c < |s.clients| && k < |s.backs| && !s.clients[c].gone && (cmd.DiscardAll? ==> !s.clients[c].own.inTx)
      && (|| s.clients[c].at == Some(k)
          || (&& s.clients[c].at.None? && s.backs[k].alive && s.backs[k].holder.None?
              && Lists(replay, Noted(replayable, s.clients[c], cmd).vars)))
    case Refuse(c, _) => c < |s.clients| && !s.clients[c].gone
    case Leave(c) => c < |s.clients|
  }

  /** The cache sees no rollback, so one that undoes tracked values goes unnoticed unless pinned. */
  predicate Undone(cl: Client, cmd: Cmd) { cmd.Rollback? && cl.own.inTx && !cl.pinned && cl.vars != cl.own.saved }

  /** Released backends are reset, no rollback undoes a tracked value, and a command that is refused
      after it was observed leaves the cache and the pin as they were. */
  predicate Clean(replayable: set<string>, s: State, step: Step) {
    match step
    case Run(c, cmd, _, _, reset) => c < |s.clients| ==> reset && !Undone(s.clients[c], cmd)
    case Refuse(c, cmd) => c < |s.clients| ==> Noted(replayable, s.clients[c], cmd) == s.clients[c]
    case _ => true
  }

  function Do(replayable: set<string>, s: State, step: Step): State {
    match step
    case Connect => s.(clients := s.clients + [NEW_CLIENT])
    case Dial => s.(backs := s.backs + [NEW_BACKEND])
    case Run(c, cmd, k, replay, reset) =>
      if c < |s.clients| && k < |s.backs| then
        var (cl, b, sight) := Served(replayable, c, k, s.clients[c], s.backs[k], cmd, replay, reset);
        State(s.clients[c := cl], s.backs[k := b], s.seen + [sight])
      else s
    case Refuse(c, cmd) =>
      if c < |s.clients| then s.(clients := s.clients[c := Noted(replayable, s.clients[c], cmd)]) else s
    case Leave(c) =>
      if c < |s.clients| then
        var cl := s.clients[c];
        var backs := if cl.at.Some? && cl.at.value < |s.backs| then
            var b := s.backs[cl.at.value];
            s.backs[cl.at.value := if b.settings.inTx then b.(alive := false, holder := None) else NEW_BACKEND]
          else s.backs;
        State(s.clients[c := cl.(at := None, gone := true)], backs, s.seen)
      else s
  }

  ghost predicate Runs(replayable: set<string>, s: State, steps: seq<Step>)
    decreases |steps|
  {
    steps == [] || (Enabled(replayable, s, steps[0]) && Runs(replayable, Do(replayable, s, steps[0]), steps[1..]))
  }

  ghost predicate CleanRun(replayable: set<string>, s: State, steps: seq<Step>)
    decreases |steps|
  {
    steps == [] ||
    (&& Enabled(replayable, s, steps[0]) && Clean(replayable, s, steps[0])
     && CleanRun(replayable, Do(replayable, s, steps[0]), steps[1..]))
  }

  function Exec(replayable: set<string>, s: State, steps: seq<Step>): State
    decreases |steps|
  {
    if steps == [] then s else Exec(replayable, Do(replayable, s, steps[0]), steps[1..])
  }

  // ---------------------------------------------------------------- the simulation

  /** Unpinned, the cache is the dedicated session; detached, nothing else is to be remembered. */
  predicate Remembers(cl: Client) {
    && (cl.unrecognized ==> cl.pinned)
    && (!cl.pinned ==> cl.vars == cl.own.session)
    && (cl.at.None? && !cl.gone ==> !cl.pinned && !cl.own.inTx && cl.own.local == map[] && cl.own.saved == map[])
    && (cl.own.inTx || (cl.own.local == map[] && cl.own.saved == map[]))
  }

  ghost predicate Inv(s: State) {
    && (forall k :: 0 <= k < |s.backs| && s.backs[k].holder.None? && s.backs[k].alive ==>
          s.backs[k].settings == DEFAULT)
    && (forall c :: 0 <= c < |s.clients| ==> Remembers(s.clients[c]))
    && (forall c :: 0 <= c < |s.clients| && s.clients[c].at.Some? ==>
          && s.clients[c].at.value < |s.backs| && s.backs[s.clients[c].at.value].holder == Some(c)
          && s.backs[s.clients[c].at.value].alive && s.backs[s.clients[c].at.value].settings == s.clients[c].own)
    && (forall v :: v in s.seen ==> v.pooled == v.dedicated)
  }

  /** The cache's view and the server's agree on every command but a rollback that undoes something. */
  lemma TrackedIsSession(replayable: set<string>, cl: Client, cmd: Cmd)
    requires Remembers(cl) && !Undone(cl, cmd) && (cmd.DiscardAll? ==> !cl.own.inTx)
    requires !cl.pinned && !Flagged(replayable, cl.unrecognized, cmd)
    ensures Tracked(replayable, cl.vars, cmd) == Execute(cl.own, cmd).session
  {
  }

  lemma ServedAgrees(replayable: set<string>, c: nat, k: nat, cl: Client, b: Backend, cmd: Cmd,
                     replay: seq<(string, string)>)
    requires Remembers(cl) && !Undone(cl, cmd) && (cmd.DiscardAll? ==> !cl.own.inTx) && !cl.gone
    requires cl.at.None? ==> Lists(replay, Noted(replayable, cl, cmd).vars)
    requires if cl.at.Some? then b.settings == cl.own else b.settings == DEFAULT
    ensures Execute(Ready(cl, b, replay), cmd) == Execute(cl.own, cmd)
    ensures Remembers(Served(replayable, c, k, cl, b, cmd, replay, true).0)
  {
    var noted := Noted(replayable, cl, cmd);
    if !noted.pinned { TrackedIsSession(replayable, cl, cmd); }
    if cl.at.None? {
      ReplayRestores(replay, noted.vars);
      assert Assign(map[], replay) == noted.vars;
      AlreadyObserved(replayable, cl.own, cmd);
    }
  }

  /** Replaying a value before the command that sets it changes nothing: the command sees to it. */
  lemma AlreadyObserved(replayable: set<string>, own: Settings, cmd: Cmd)
    requires !own.inTx && own.local == map[] && own.saved == map[]
    ensures Execute(DEFAULT.(session := Tracked(replayable, own.session, cmd)), cmd) == Execute(own, cmd)
  {
    var early := Tracked(replayable, own.session, cmd);
    match cmd {
      case Set(n, v) => assert early[n := v] == own.session[n := v];
      case Reset(n) => assert early - {n} == own.session - {n};
      case _ =>
    }
  }

  lemma RunStepKeeps(replayable: set<string>, s: State, c: nat, cmd: Cmd, k: nat, replay: seq<(string, string)>)
    requires Inv(s) && Enabled(replayable, s, Run(c, cmd, k, replay, true))
    requires Clean(replayable, s, Run(c, cmd, k, replay, true))
    ensures Inv(Do(replayable, s, Run(c, cmd, k, replay, true)))
  {
    ServedAgrees(replayable, c, k, s.clients[c], s.backs[k], cmd, replay);
    var (cl, b, sight) := Served(replayable, c, k, s.clients[c], s.backs[k], cmd, replay, true);
    ReplaceKeeps(s, c, k, cl, b, sight);
  }

  /** Replacing one client and one backend nobody else holds. */
  lemma ReplaceKeeps(s: State, c: nat, k: nat, cl: Client, b: Backend, sight: Sight)
    requires Inv(s) && c < |s.clients| && k < |s.backs| && (s.backs[k].holder.None? || s.backs[k].holder == Some(c))
    requires Remembers(cl) && sight.pooled == sight.dedicated
    requires if cl.at.Some? then cl.at == Some(k) && b == Backend(cl.own, Some(c), true) else b == NEW_BACKEND
    ensures Inv(State(s.clients[c := cl], s.backs[k := b], s.seen + [sight]))
  {
  }

  lemma StepKeepsInv(replayable: set<string>, s: State, step: Step)
    requires Inv(s) && Enabled(replayable, s, step) && Clean(replayable, s, step)
    ensures Inv(Do(replayable, s, step))
  {
    if step.Run? { RunStepKeeps(replayable, s, step.c, step.cmd, step.k, step.replay); }
  }

  lemma {:induction false} RunKeepsInv(replayable: set<string>, s: State, steps: seq<Step>)
    requires Inv(s) && CleanRun(replayable, s, steps)
    ensures Inv(Exec(replayable, s, steps))
    decreases |steps|
  {
    if steps != [] {
      StepKeepsInv(replayable, s, steps[0]);
      RunKeepsInv(replayable, Do(replayable, s, steps[0]), steps[1..]);
    }
  }

  /** Over every clean run of every set of clients, whatever the whitelist and whichever backends they
      pass through, each statement leaves its client the settings a dedicated backend would show. */
  lemma SameSettings(replayable: set<string>, steps: seq<Step>)
    requires CleanRun(replayable, INIT, steps)
    ensures forall v :: v in Exec(replayable, INIT, steps).seen ==> v.pooled == v.dedicated
  {
    RunKeepsInv(replayable, INIT, steps);
  }

  /** A client that goes leaves its backend to others, as good as new, unless it is in a transaction. */
  lemma LeavingFrees(replayable: set<string>, s: State, c: nat)
    requires Inv(s) && c < |s.clients| && s.clients[c].at.Some?
    ensures var k := s.clients[c].at.value;
            var b := Do(replayable, s, Leave(c)).backs[k];
            && b.holder.None? && (b.alive <==> !s.backs[k].settings.inTx) && (b.alive ==> b.settings == DEFAULT)
  {
  }

  /** A client is pinned for good once it sets something that cannot be replayed, whatever it
      resets later, and a pinned client keeps its backend to the end. */
  lemma {:induction false} PinIsSticky(replayable: set<string>, s: State, steps: seq<Step>, c: nat)
    requires Inv(s) && CleanRun(replayable, s, steps) && c < |s.clients| && s.clients[c].pinned && !s.clients[c].gone
    requires Leave(c) !in steps
    ensures var s' := Exec(replayable, s, steps);
            c < |s'.clients| && s'.clients[c].pinned && s'.clients[c].at == s.clients[c].at && s.clients[c].at.Some?
    decreases |steps|
  {
    if steps != [] {
      StepKeepsInv(replayable, s, steps[0]);
      PinIsSticky(replayable, Do(replayable, s, steps[0]), steps[1..], c);
    }
  }
}
