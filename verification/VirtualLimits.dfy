/** Where pooled settings stop being the dedicated ones: rolled-back and refused commands, and backends
    that were not reset. For each, the exact condition and a run that fails. */
module VirtualLimits {
  import opened Options
  import opened GucCache
  import opened VirtualSession

  /** What an unpinned client between transactions sees on its next statement: whatever is cached. */
  lemma NextSight(replayable: set<string>, c: nat, k: nat, cl: Client, replay: seq<(string, string)>)
    requires cl.at.None? && !cl.own.inTx && cl.own.local == map[] && Lists(replay, cl.vars)
    ensures Served(replayable, c, k, cl, NEW_BACKEND, Other, replay, true).2 == Sight(cl.vars, cl.own.session)
  {
    ReplayRestores(replay, cl.vars);
    assert cl.vars + map[] == cl.vars && cl.own.session + map[] == cl.own.session;
  }

  predicate Agrees(v: Sight) { v.pooled == v.dedicated }

  // ---------------------------------------------------------------- rollbacks

  /** A rollback is not seen by the cache: the client's next transaction has the dedicated settings
      if and only if the transaction changed no tracked value. */
  lemma RollbackHarmlessIff(replayable: set<string>, s: State, c: nat, next: seq<(string, string)>)
    requires Inv(s) && c < |s.clients| && s.clients[c].at.Some? && s.clients[c].own.inTx && !s.clients[c].pinned
    requires Lists(next, s.clients[c].vars)
    ensures var cl, k := s.clients[c], s.clients[c].at.value;
            var (after, b, _) := Served(replayable, c, k, cl, s.backs[k], Rollback, [], true);
            Agrees(Served(replayable, c, k, after, b, Other, next, true).2) <==> cl.vars == cl.own.saved
  {
    var cl, k := s.clients[c], s.clients[c].at.value;
    var (after, b, _) := Served(replayable, c, k, cl, s.backs[k], Rollback, [], true);
    assert b == NEW_BACKEND && after.vars == cl.vars && after.own.session == cl.own.saved;
    NextSight(replayable, c, k, after, next);
  }

  // ---------------------------------------------------------------- refused commands

  /** A command refused after it was observed (no token, no primary) is remembered all the same.  For a
      detached client: its next statement has the dedicated settings if and only if the command tracks
      nothing new. */
  lemma RefusedDetachedHarmlessIff(replayable: set<string>, c: nat, k: nat, cl: Client, cmd: Cmd,
                                   next: seq<(string, string)>)
    requires Remembers(cl) && cl.at.None? && !cl.gone && Lists(next, Noted(replayable, cl, cmd).vars)
    ensures Agrees(Served(replayable, c, k, Noted(replayable, cl, cmd), NEW_BACKEND, Other, next, true).2)
            <==> Tracked(replayable, cl.vars, cmd) == cl.vars
  {
    NextSight(replayable, c, k, Noted(replayable, cl, cmd), next);
  }

  function TrackAll(replayable: set<string>, vars: Vars, cmds: seq<Cmd>): Vars
    decreases |cmds|
  {
    if cmds == [] then vars else TrackAll(replayable, Tracked(replayable, vars, cmds[0]), cmds[1..])
  }

  function ExecuteAll(s: Settings, cmds: seq<Cmd>): Settings
    decreases |cmds|
  {
    if cmds == [] then s else ExecuteAll(Execute(s, cmds[0]), cmds[1..])
  }

  /** The client and its backend after the commands. */
  function ServedAll(replayable: set<string>, c: nat, k: nat, cl: Client, b: Backend, cmds: seq<Cmd>): (Client, Backend)
    decreases |cmds|
  {
    if cmds == [] then (cl, b)
    else
      var (cl', b', _) := Served(replayable, c, k, cl, b, cmds[0], [], true);
      ServedAll(replayable, c, k, cl', b', cmds[1..])
  }

  /** The commands keep the client attached, up to the last one, which releases it. */
  predicate RestOfCheckout(replayable: set<string>, c: nat, k: nat, cl: Client, b: Backend, cmds: seq<Cmd>)
    decreases |cmds|
  {
    && cmds != [] && cl.at.Some?
    && var (cl', b', _) := Served(replayable, c, k, cl, b, cmds[0], [], true);
       if |cmds| == 1 then cl'.at.None? else RestOfCheckout(replayable, c, k, cl', b', cmds[1..])
  }

  predicate Tidy(s: Settings) { s.inTx || s.local == map[] }

  lemma {:induction false} CheckoutEnds(replayable: set<string>, c: nat, k: nat, cl: Client, b: Backend, cmds: seq<Cmd>)
    requires b.settings == cl.own && Tidy(cl.own) && RestOfCheckout(replayable, c, k, cl, b, cmds)
    ensures var (end, e) := ServedAll(replayable, c, k, cl, b, cmds);
            && end.at.None? && e == NEW_BACKEND && !end.own.inTx && end.own.local == map[]
            && end.vars == TrackAll(replayable, cl.vars, cmds) && end.own == ExecuteAll(cl.own, cmds)
    decreases |cmds|
  {
    var (cl', b', _) := Served(replayable, c, k, cl, b, cmds[0], [], true);
    if |cmds| == 1 {
      assert cmds[1..] == [];
    } else {
      CheckoutEnds(replayable, c, k, cl', b', cmds[1..]);
    }
  }

  /** For an attached client: it sees the backend itself until it is released; the first statement on
      its next backend has the dedicated settings if and only if what is tracked, the refused command
      included, has by then become what the dedicated session holds. */
  lemma RefusedAttachedHarmlessIff(replayable: set<string>, s: State, c: nat, cmd: Cmd, cmds: seq<Cmd>,
                                   next: seq<(string, string)>)
    requires Inv(s) && c < |s.clients| && s.clients[c].at.Some?
    requires var cl, k := s.clients[c], s.clients[c].at.value;
             var noted := Noted(replayable, cl, cmd);
             && RestOfCheckout(replayable, c, k, noted, s.backs[k], cmds)
             && Lists(next, ServedAll(replayable, c, k, noted, s.backs[k], cmds).0.vars)
    ensures var cl, k := s.clients[c], s.clients[c].at.value;
            var (end, b) := ServedAll(replayable, c, k, Noted(replayable, cl, cmd), s.backs[k], cmds);
            Agrees(Served(replayable, c, k, end, b, Other, next, true).2)
            <==> TrackAll(replayable, Tracked(replayable, cl.vars, cmd), cmds) == ExecuteAll(cl.own, cmds).session
  {
    var cl, k := s.clients[c], s.clients[c].at.value;
    assert Remembers(cl);
    CheckoutEnds(replayable, c, k, Noted(replayable, cl, cmd), s.backs[k], cmds);
    NextSight(replayable, c, k, ServedAll(replayable, c, k, Noted(replayable, cl, cmd), s.backs[k], cmds).0, next);
  }

  lemma OneTracked(replayable: set<string>, own: Settings, cmd: Cmd)
    requires !cmd.Rollback? && !cmd.DiscardAll? && (cmd.Set? ==> cmd.name in replayable)
    ensures Execute(own, cmd).session == Tracked(replayable, own.session, cmd)
  {
  }

  /** Without a rollback the dedicated session holds what would be tracked without the refused command. */
  lemma {:induction false} SessionIsTracked(replayable: set<string>, c: nat, k: nat, cl: Client, b: Backend,
                                            cmds: seq<Cmd>)
    requires Rollback !in cmds && DiscardAll !in cmds && RestOfCheckout(replayable, c, k, cl, b, cmds)
    ensures ExecuteAll(cl.own, cmds).session == TrackAll(replayable, cl.own.session, cmds)
    decreases |cmds|
  {
    NothingPins(replayable, c, k, cl, b, cmds);
    var (cl', b', _) := Served(replayable, c, k, cl, b, cmds[0], [], true);
    assert cmds[0] in cmds;
    OneTracked(replayable, cl.own, cmds[0]);
    if |cmds| == 1 { assert cmds[1..] == []; } else { SessionIsTracked(replayable, c, k, cl', b', cmds[1..]); }
  }

  /** A checkout that ends has met nothing that pins. */
  lemma {:induction false} NothingPins(replayable: set<string>, c: nat, k: nat, cl: Client, b: Backend, cmds: seq<Cmd>)
    requires RestOfCheckout(replayable, c, k, cl, b, cmds)
    ensures !Noted(replayable, cl, cmds[0]).pinned
    decreases |cmds|
  {
    if |cmds| > 1 {
      var (cl', b', _) := Served(replayable, c, k, cl, b, cmds[0], [], true);
      NothingPins(replayable, c, k, cl', b', cmds[1..]);
    }
  }

  /** So, without a rollback, a refused command is harmless to an attached client if and only if the rest
      of its checkout overwrites what the command would have tracked. */
  lemma RefusedAttachedOverwritten(replayable: set<string>, s: State, c: nat, cmd: Cmd, cmds: seq<Cmd>,
                                   next: seq<(string, string)>)
    requires Inv(s) && c < |s.clients| && s.clients[c].at.Some? && Rollback !in cmds && DiscardAll !in cmds
    requires var cl, k := s.clients[c], s.clients[c].at.value;
             var noted := Noted(replayable, cl, cmd);
             && RestOfCheckout(replayable, c, k, noted, s.backs[k], cmds)
             && Lists(next, ServedAll(replayable, c, k, noted, s.backs[k], cmds).0.vars)
    ensures var cl, k := s.clients[c], s.clients[c].at.value;
            var (end, b) := ServedAll(replayable, c, k, Noted(replayable, cl, cmd), s.backs[k], cmds);
            Agrees(Served(replayable, c, k, end, b, Other, next, true).2)
            <==> TrackAll(replayable, Tracked(replayable, cl.vars, cmd), cmds) == TrackAll(replayable, cl.vars, cmds)
  {
    var cl, k := s.clients[c], s.clients[c].at.value;
    assert Remembers(cl);
    RefusedAttachedHarmlessIff(replayable, s, c, cmd, cmds, next);
    NothingPins(replayable, c, k, Noted(replayable, cl, cmd), s.backs[k], cmds);
    SessionIsTracked(replayable, c, k, Noted(replayable, cl, cmd), s.backs[k], cmds);
  }

  /** A rollback at the end of the checkout takes the dedicated session back to where the transaction began. */
  lemma {:induction false} SavedComesBack(replayable: set<string>, c: nat, k: nat, cl: Client, b: Backend,
                                          cmds: seq<Cmd>)
    requires b.settings == cl.own && cl.own.inTx && RestOfCheckout(replayable, c, k, cl, b, cmds)
    requires cmds[|cmds| - 1] == Rollback
    ensures ExecuteAll(cl.own, cmds).session == cl.own.saved
    decreases |cmds|
  {
    if |cmds| == 1 {
      assert ExecuteAll(Execute(cl.own, cmds[0]), cmds[1..]) == Execute(cl.own, cmds[0]);
    } else {
      var (cl', b', _) := Served(replayable, c, k, cl, b, cmds[0], [], true);
      NothingPins(replayable, c, k, cl, b, cmds);
      assert RestOfCheckout(replayable, c, k, cl', b', cmds[1..]) && cmds[1..][|cmds| - 2] == Rollback;
      SavedComesBack(replayable, c, k, cl', b', cmds[1..]);
    }
  }

  /** And when the checkout ends in a rollback, if and only if the refused command and the rest of the
      transaction track just what was set when the transaction began. */
  lemma RefusedAttachedRolledBack(replayable: set<string>, s: State, c: nat, cmd: Cmd, cmds: seq<Cmd>,
                                  next: seq<(string, string)>)
    requires Inv(s) && c < |s.clients| && s.clients[c].at.Some? && cmds != [] && cmds[|cmds| - 1] == Rollback
    requires s.clients[c].own.inTx
    requires var cl, k := s.clients[c], s.clients[c].at.value;
             var noted := Noted(replayable, cl, cmd);
             && RestOfCheckout(replayable, c, k, noted, s.backs[k], cmds)
             && Lists(next, ServedAll(replayable, c, k, noted, s.backs[k], cmds).0.vars)
    ensures var cl, k := s.clients[c], s.clients[c].at.value;
            var (end, b) := ServedAll(replayable, c, k, Noted(replayable, cl, cmd), s.backs[k], cmds);
            Agrees(Served(replayable, c, k, end, b, Other, next, true).2)
            <==> TrackAll(replayable, Tracked(replayable, cl.vars, cmd), cmds) == cl.own.saved
  {
    var cl, k := s.clients[c], s.clients[c].at.value;
    RefusedAttachedHarmlessIff(replayable, s, c, cmd, cmds, next);
    SavedComesBack(replayable, c, k, Noted(replayable, cl, cmd), s.backs[k], cmds);
  }

  // ---------------------------------------------------------------- backends that were not reset

  lemma {:induction false} AssignOver(vars: Vars, list: seq<(string, string)>)
    ensures Assign(vars, list) == vars + Assign(map[], list)
    decreases |list|
  {
    if list != [] { AssignOver(vars, list[..|list| - 1]); }
  }

  /** Without the reset on release a client sees another's leftovers: its settings are the dedicated
      ones if and only if it has itself set everything that was left behind. */
  lemma UnresetHarmlessIff(replayable: set<string>, c: nat, k: nat, cl: Client, left: Vars,
                           replay: seq<(string, string)>)
    requires Remembers(cl) && cl.at.None? && !cl.gone && Lists(replay, cl.vars)
    ensures Agrees(Served(replayable, c, k, cl, Backend(DEFAULT.(session := left), None, true), Other, replay, true).2)
            <==> left.Keys <= cl.vars.Keys
  {
    ReplayRestores(replay, cl.vars);
    AssignOver(left, replay);
    var sight := Served(replayable, c, k, cl, Backend(DEFAULT.(session := left), None, true), Other, replay, true).2;
    assert sight.pooled == (left + cl.vars) + map[] == left + cl.vars;
    assert sight.dedicated == cl.vars + map[] == cl.vars;
    if left.Keys <= cl.vars.Keys {
      assert left + cl.vars == cl.vars;
    } else {
      var n :| n in left && n !in cl.vars;
      assert n in left + cl.vars;
    }
  }

  // ---------------------------------------------------------------- runs that fail

  lemma {:induction false} Extend(replayable: set<string>, s: State, steps: seq<Step>, step: Step)
    requires Runs(replayable, s, steps) && Enabled(replayable, Exec(replayable, s, steps), step)
    ensures Runs(replayable, s, steps + [step])
    ensures Exec(replayable, s, steps + [step]) == Do(replayable, Exec(replayable, s, steps), step)
    decreases |steps|
  {
    if steps == [] {
      assert [step][1..] == [] && steps + [step] == [step];
    } else {
      Extend(replayable, Do(replayable, s, steps[0]), steps[1..], step);
      assert (steps + [step])[1..] == steps[1..] + [step];
    }
  }

  ghost predicate Reached(replayable: set<string>, steps: seq<Step>, t: State) {
    Runs(replayable, INIT, steps) && Exec(replayable, INIT, steps) == t
  }

  lemma Next(replayable: set<string>, steps: seq<Step>, t: State, step: Step) returns (more: seq<Step>, t': State)
    requires Reached(replayable, steps, t) && Enabled(replayable, t, step)
    ensures t' == Do(replayable, t, step) && Reached(replayable, more, t')
  {
    Extend(replayable, INIT, steps, step);
    more, t' := steps + [step], Do(replayable, t, step);
  }

  lemma OneClient(replayable: set<string>) returns (steps: seq<Step>, t: State)
    ensures Reached(replayable, steps, t) && t == State([NEW_CLIENT], [NEW_BACKEND], [])
  {
    steps, t := [], INIT;
    steps, t := Next(replayable, steps, t, Connect);
    steps, t := Next(replayable, steps, t, Dial);
  }

  ghost predicate AllAgree(s: State) { forall v :: v in s.seen ==> Agrees(v) }

  lemma ListsOne(n: string, v: string)
    ensures Lists([(n, v)], map[n := v]) && Lists([], map[])
  {
    assert [(n, v)][0].0 == n;
  }

  /** The client's next statement, when it is detached with one value cached and nothing in its own session. */
  lemma StaleStatement(replayable: set<string>, steps: seq<Step>, t: State, n: string, v: string)
    returns (more: seq<Step>)
    requires Reached(replayable, steps, t) && |t.clients| == 1 && |t.backs| == 1 && t.backs[0] == NEW_BACKEND
    requires t.clients[0].at.None? && !t.clients[0].gone && t.clients[0].vars == map[n := v]
             && t.clients[0].own == DEFAULT
    ensures Runs(replayable, INIT, more) && !AllAgree(Exec(replayable, INIT, more))
  {
    ListsOne(n, v);
    var t';
    more, t' := Next(replayable, steps, t, Run(0, Other, 0, [(n, v)], true));
    NextSight(replayable, 0, 0, t.clients[0], [(n, v)]);
    assert map[n := v] != map[] by { assert n in map[n := v]; }
    assert t'.seen[|t.seen|] in t'.seen;
  }

  /** BEGIN, SET, ROLLBACK, and the value is still there. */
  lemma RolledBackSetStays(n: string, v: string) returns (steps: seq<Step>)
    ensures Runs({n}, INIT, steps) && !AllAgree(Exec({n}, INIT, steps))
  {
    ListsOne(n, v);
    var t;
    steps, t := OneClient({n});
    steps, t := Next({n}, steps, t, Run(0, Begin, 0, [], true));
    steps, t := Next({n}, steps, t, Run(0, Set(n, v), 0, [], true));
    steps, t := Next({n}, steps, t, Run(0, Rollback, 0, [], true));
    steps := StaleStatement({n}, steps, t, n, v);
  }

  /** A SET that is refused, and the value is there. */
  lemma RefusedSetTakesEffect(n: string, v: string) returns (steps: seq<Step>)
    ensures Runs({n}, INIT, steps) && !AllAgree(Exec({n}, INIT, steps))
  {
    var t;
    steps, t := OneClient({n});
    steps, t := Next({n}, steps, t, Refuse(0, Set(n, v)));
    assert t.clients[0].vars == map[n := v];
    steps := StaleStatement({n}, steps, t, n, v);
  }

  /** The same inside a transaction that then commits. */
  lemma RefusedSetTakesEffectLater(n: string, v: string) returns (steps: seq<Step>)
    ensures Runs({n}, INIT, steps) && !AllAgree(Exec({n}, INIT, steps))
  {
    ListsOne(n, v);
    var t;
    steps, t := OneClient({n});
    steps, t := Next({n}, steps, t, Run(0, Begin, 0, [], true));
    steps, t := Next({n}, steps, t, Refuse(0, Set(n, v)));
    steps, t := Next({n}, steps, t, Run(0, Commit, 0, [], true));
    assert t.clients[0].vars == map[n := v];
    steps := StaleStatement({n}, steps, t, n, v);
  }

  lemma OneClientLeavesValue(n: string, v: string) returns (steps: seq<Step>, t: State)
    ensures Reached({n}, steps, t) && |t.clients| == 1 && |t.backs| == 1
    ensures t.backs[0] == Backend(DEFAULT.(session := map[n := v]), None, true)
  {
    ListsOne(n, v);
    steps, t := OneClient({n});
    assert Noted({n}, NEW_CLIENT, Set(n, v)).vars == map[n := v];
    steps, t := Next({n}, steps, t, Run(0, Set(n, v), 0, [(n, v)], false));
    ReplayRestores([(n, v)], map[n := v]);
    assert Execute(DEFAULT.(session := map[n := v]), Set(n, v)) == DEFAULT.(session := map[n := v]) by {
      assert map[n := v][n := v] == map[n := v];
    }
  }

  /** One client's SET, seen by another on a backend that was not reset. */
  lemma UnresetValueIsSeen(n: string, v: string) returns (steps: seq<Step>)
    ensures Runs({n}, INIT, steps) && !AllAgree(Exec({n}, INIT, steps))
  {
    ListsOne(n, v);
    var t;
    steps, t := OneClientLeavesValue(n, v);
    steps, t := Next({n}, steps, t, Connect);
    ghost var before := t;
    steps, t := Next({n}, steps, t, Run(1, Other, 0, [], true));
    UnresetHarmlessIff({n}, 1, 0, NEW_CLIENT, map[n := v], []);
    assert n in map[n := v] && n !in NEW_CLIENT.vars;
    assert t.seen[|before.seen|] in t.seen;
  }
}
