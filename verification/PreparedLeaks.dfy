/** A checkout given back in the middle of a batch without a reset: what the next client of the backend
    gets, with the buffered messages still to be sent and with them dropped. */
module PreparedLeaks {
  import opened Counting
  import opened Options
  import opened PreparedLru
  import opened PreparedWire
  import opened PreparedBalance
  import opened PreparedSim
  import opened PreparedTheorems

  // ---------------------------------------------------------------- the buffer survives

  function Sends(d: nat, ms: seq<Msg>): seq<Step> { seq(|ms|, i requires 0 <= i < |ms| => Send(d, ms[i])) }

  ghost predicate LeakAt(srv: string -> string, used: set<string>, cap: nat, s: State, d: nat, left: seq<Reply>) {
    && Attached(s, d) && ConnOk(srv, used, cap, s.conns[s.clients[d].at.value]) && ClientOk(used, s.clients[d])
    && Leaky(s.clients[d], s.conns[s.clients[d].at.value], left)
  }

  /** Replies owed to somebody else come on top of what the batch would bring. */
  lemma LeftoversAdd(synth: seq<Reply>, left: seq<Reply>, rs: seq<Reply>, expected: seq<Reply>, evicts: nat,
                     injects: nat)
    requires Balanced(synth, rs, expected, evicts, injects)
    ensures var (out, e, i) := Filter(left + rs, evicts, injects);
            e == 0 && i == 0 && (SameReplies(synth + out, expected) <==> left == [])
  {
    var (out, e, i) := Filter(left + rs, evicts, injects);
    forall r ensures Count(left + rs, r) == Count(left, r) + Count(rs, r) { CountAppend(left, rs, r); }
    assert BalancedAt(synth, rs, expected, evicts, injects, CloseComplete);
    assert BalancedAt(synth, rs, expected, evicts, injects, ParseComplete);
    FilterCounts(left + rs, evicts, injects, Ready);
    forall r ensures Count(synth + out, r) == Count(expected, r) + Count(left, r) {
      FilterCounts(left + rs, evicts, injects, r);
      CountAppend(synth, out, r);
      assert BalancedAt(synth, rs, expected, evicts, injects, r);
    }
    if left != [] { assert Count(left, left[0]) > 0; }
  }

  lemma LeakSays(srv: string -> string, used: set<string>, cap: nat, s: State, d: nat, m: Msg, left: seq<Reply>)
    requires 1 <= cap && Distinct(srv, used) && LeakAt(srv, used, cap, s, d, left)
    requires Enabled(used, s, Send(d, m)) && !Drains(m)
    ensures LeakAt(srv, used, cap, Do(srv, cap, s, Send(d, m)), d, left)
    ensures Do(srv, cap, s, Send(d, m)).batches == s.batches
  {
    LeakySayKeeps(srv, used, cap, s.clients[d], s.conns[s.clients[d].at.value], m, left);
  }

  lemma {:induction false} LeakRun(srv: string -> string, used: set<string>, cap: nat, s: State, d: nat, ms: seq<Msg>,
                                   left: seq<Reply>)
    requires 1 <= cap && Distinct(srv, used) && LeakAt(srv, used, cap, s, d, left)
    requires Runs(srv, used, cap, s, Sends(d, ms)) && forall i :: 0 <= i < |ms| ==> !Drains(ms[i])
    ensures LeakAt(srv, used, cap, Exec(srv, cap, s, Sends(d, ms)), d, left)
    ensures Exec(srv, cap, s, Sends(d, ms)).batches == s.batches
    decreases |ms|
  {
    if ms != [] {
      LeakSays(srv, used, cap, s, d, ms[0], left);
      assert Sends(d, ms)[1..] == Sends(d, ms[1..]);
      LeakRun(srv, used, cap, Do(srv, cap, s, Send(d, ms[0])), d, ms[1..], left);
    }
  }

  lemma LeakDrains(srv: string -> string, used: set<string>, cap: nat, s: State, d: nat, m: Msg, left: seq<Reply>)
    requires 1 <= cap && Distinct(srv, used) && LeakAt(srv, used, cap, s, d, left)
    requires Enabled(used, s, Send(d, m)) && Drains(m)
    ensures var t := Do(srv, cap, s, Send(d, m));
            |t.batches| == |s.batches| + 1 && (Conserved(t.batches[|s.batches|]) <==> left == [])
  {
    var cl, cn := s.clients[d], s.conns[s.clients[d].at.value];
    LeakySayKeeps(srv, used, cap, cl, cn, m, left);
    var (said, conn) := Say(srv, cap, cl, cn, m);
    var rs := Feed(conn.server, conn.outbox).1;
    assert rs == left + rs[|left|..];
    LeftoversAdd(said.synth, left, rs[|left|..], said.expected, said.evicts, said.injects);
    assert Do(srv, cap, s, Send(d, m)).batches == s.batches + [Drain(said, conn).2];
  }

  lemma {:induction false} RunsAppend(srv: string -> string, used: set<string>, cap: nat, s: State, a: seq<Step>,
                                      b: seq<Step>)
    requires 1 <= cap && Runs(srv, used, cap, s, a + b)
    ensures Runs(srv, used, cap, s, a) && Runs(srv, used, cap, Exec(srv, cap, s, a), b)
    ensures Exec(srv, cap, s, a + b) == Exec(srv, cap, Exec(srv, cap, s, a), b)
    decreases |a|
  {
    if a == [] {
      assert a + b == b;
    } else {
      assert (a + b)[1..] == a[1..] + b;
      RunsAppend(srv, used, cap, Do(srv, cap, s, a[0]), a[1..], b);
    }
  }

  /** The next client starts with the leftovers of the one before. */
  lemma AttachLeaks(srv: string -> string, used: set<string>, cap: nat, s: State, c: nat, d: nat)
    requires 1 <= cap && Inv(srv, used, cap, s) && Attached(s, c)
    requires d < |s.clients| && s.clients[d].open && s.clients[d].at.None?
    ensures var k := s.clients[c].at.value;
            var s1 := Do(srv, cap, s, Release(c, false));
            var s2 := Do(srv, cap, s1, Attach(d, k, false, false));
            && Enabled(used, s, Release(c, false)) && Enabled(used, s1, Attach(d, k, false, false))
            && s2.batches == s.batches
            && LeakAt(srv, used, cap, s2, d, Feed(s.conns[k].server, s.conns[k].outbox).1)
  {
    var cn := s.conns[s.clients[c].at.value];
    var rs := Feed(cn.server, cn.outbox).1;
    assert rs[|rs|..] == [];
    PassBalance([]);
  }

  /** With the buffered messages still to be sent, whatever proper batch a next client without settings of
      its own sends brings it its own replies if and only if those messages draw no reply. */
  lemma AbandonedBatchLeaks(srv: string -> string, used: set<string>, cap: nat, s: State, c: nat, d: nat, ms: seq<Msg>,
                            end: Msg)
    requires 1 <= cap && Distinct(srv, used) && Inv(srv, used, cap, s) && Attached(s, c)
    requires d < |s.clients| && s.clients[d].open && s.clients[d].at.None?
    requires (forall i :: 0 <= i < |ms| ==> !Drains(ms[i])) && Drains(end)
    requires var s2 := Do(srv, cap, Do(srv, cap, s, Release(c, false)), Attach(d, s.clients[c].at.value, false, false));
             Runs(srv, used, cap, s2, Sends(d, ms) + [Send(d, end)])
    ensures var k := s.clients[c].at.value;
            var s2 := Do(srv, cap, Do(srv, cap, s, Release(c, false)), Attach(d, k, false, false));
            var t := Exec(srv, cap, s2, Sends(d, ms) + [Send(d, end)]);
            && |t.batches| == |s.batches| + 1
            && (Conserved(t.batches[|s.batches|]) <==> Feed(s.conns[k].server, s.conns[k].outbox).1 == [])
  {
    var k := s.clients[c].at.value;
    var left := Feed(s.conns[k].server, s.conns[k].outbox).1;
    AttachLeaks(srv, used, cap, s, c, d);
    var s2 := Do(srv, cap, Do(srv, cap, s, Release(c, false)), Attach(d, k, false, false));
    RunsAppend(srv, used, cap, s2, Sends(d, ms), [Send(d, end)]);
    LeakRun(srv, used, cap, s2, d, ms, left);
    var s3 := Exec(srv, cap, s2, Sends(d, ms));
    assert [Send(d, end)][1..] == [];
    LeakDrains(srv, used, cap, s3, d, end, left);
  }

  /** What a client in the middle of a proper batch has buffered draws no error. */
  lemma NoErrorBuffered(cl: Client, cn: Conn)
    requires PairOk(cl, cn)
    ensures Failed !in Feed(cn.server, cn.outbox).1
  {
    var rs := Feed(cn.server, cn.outbox).1;
    assert rs[0..] == rs;
    assert BalancedAt(cl.synth, rs, cl.expected, cl.evicts, cl.injects, Failed);
    CountIsMembership(cl.expected, Failed);
    CountIsMembership(rs, Failed);
  }

  /** A next client with settings of its own has them replayed first, and that reads the leftovers away:
      afterwards cache, backend and clients are in step, as in any clean run. */
  lemma ReplayAbsorbs(srv: string -> string, used: set<string>, cap: nat, s: State, c: nat, d: nat)
    requires 1 <= cap && Inv(srv, used, cap, s) && Attached(s, c)
    requires d < |s.clients| && s.clients[d].open && s.clients[d].at.None?
    ensures var k := s.clients[c].at.value;
            var s1 := Do(srv, cap, s, Release(c, false));
            && Enabled(used, s1, Attach(d, k, false, true))
            && Inv(srv, used, cap, Do(srv, cap, s1, Attach(d, k, false, true)))
            && Attached(Do(srv, cap, s1, Attach(d, k, false, true)), d)
  {
    var k := s.clients[c].at.value;
    var cn := s.conns[k];
    NoErrorBuffered(s.clients[c], cn);
    FeedAppend(cn.server, cn.outbox, [Simple]);
    FeedOne(Feed(cn.server, cn.outbox).0, Simple);
    var joined := JoinedConn(cn.(holder := None), d, false, true);
    assert joined.alive && joined.server.named == Feed(cn.server, cn.outbox).0.named;
    ReleaseThenJoin(srv, used, cap, s, c, d, joined);
  }

  lemma ReleaseThenJoin(srv: string -> string, used: set<string>, cap: nat, s: State, c: nat, d: nat, joined: Conn)
    requires 1 <= cap && Inv(srv, used, cap, s) && Attached(s, c)
    requires d < |s.clients| && s.clients[d].open && s.clients[d].at.None?
    requires joined == JoinedConn(s.conns[s.clients[c].at.value].(holder := None), d, false, true)
    requires joined.alive && joined.holder == Some(d) && joined.outbox == [] && ConnOk(srv, used, cap, joined)
    ensures var k := s.clients[c].at.value;
            Inv(srv, used, cap, Do(srv, cap, Do(srv, cap, s, Release(c, false)), Attach(d, k, false, true)))
  {
    var k := s.clients[c].at.value;
    var cl, cn := s.clients[c], s.conns[k];
    if !MidBatch(cl, cn) { NothingPending(cl, cn); }
    var left := cl.(at := None, parsed := false, open := !MidBatch(cl, cn));
    ReplaceKeeps(srv, used, cap, s, c, k, left, joined, []);
    PassBalance([]);
    var u := State(s.clients[c := left], s.conns[k := joined], s.batches + []);
    ReplaceKeeps(srv, used, cap, u, d, k, s.clients[d].(at := Some(k), parsed := false, talked := false), joined, []);
    assert s.batches + [] + [] == s.batches && s.conns[k := joined][k := joined] == s.conns[k := joined];
    assert s.conns[k := cn.(holder := None)][k := joined] == s.conns[k := joined];
  }

  // ---------------------------------------------------------------- the buffer is dropped

  /** The names a server holds after messages, by the messages alone. */
  function NamesAfter(names: set<string>, ms: seq<Msg>): set<string>
    decreases |ms|
  {
    if ms == [] then names
    else
      var before, m := NamesAfter(names, ms[..|ms| - 1]), ms[|ms| - 1];
      if m.Parse? && m.name != "" then before + {m.name}
      else if m.CloseStmt? && m.name != "" then before - {m.name}
      else before
  }

  lemma {:induction false} FeedNames(s: Server, ms: seq<Msg>)
    ensures Feed(s, ms).0.named.Keys == NamesAfter(s.named.Keys, ms)
    decreases |ms|
  {
    if ms != [] { FeedNames(s, ms[..|ms| - 1]); }
  }

  function Dropped(srv: string -> string, cap: nat, s: State, c: nat, d: nat, replay: bool): State
    requires 1 <= cap && Attached(s, c)
  {
    Do(srv, cap, Do(srv, cap, s, Release(c, false)), Attach(d, s.clients[c].at.value, true, replay))
  }

  /** The splice setup drops the buffer and keeps the cache, which then, settings replayed or not, lists
      the statements the backend holds if and only if the dropped Parses and Closes would have changed
      none of its names. */
  lemma DroppedBatchIff(srv: string -> string, used: set<string>, cap: nat, s: State, c: nat, d: nat, replay: bool)
    requires 1 <= cap && Inv(srv, used, cap, s) && Attached(s, c)
    requires d < |s.clients| && s.clients[d].open && s.clients[d].at.None?
    ensures var k := s.clients[c].at.value;
            var cn, cn' := s.conns[k], Dropped(srv, cap, s, c, d, replay).conns[k];
            Names(cn'.order) == Feed(cn'.server, cn'.outbox).0.named.Keys
            <==> NamesAfter(cn.server.named.Keys, cn.outbox) == cn.server.named.Keys
  {
    var cn := s.conns[s.clients[c].at.value];
    FeedNames(cn.server, cn.outbox);
    JoinedClean(cn.(holder := None, outbox := []), d, true, replay);
    assert JoinedConn(cn.(holder := None), d, true, replay)
        == JoinedConn(cn.(holder := None, outbox := []), d, true, replay);
  }

  /** On a backend whose cache is out of step, a Bind fails if and only if the cache and the backend
      disagree about its statement. */
  lemma BindFailsIff(srv: string -> string, cap: nat, cl: Client, cn: Conn, n: string)
    requires 1 <= cap && Fine(cn.order, cap) && cn.outbox == [] && n != "" && n in cl.prep && srv(cl.prep[n]) != ""
    ensures var name, cn' := srv(cl.prep[n]), Say(srv, cap, cl, cn, Bind(n)).1;
            Failed in Feed(cn'.server, cn'.outbox).1 <==> ((name in cn.order) != (name in cn.server.named))
  {
    var q := cl.prep[n];
    var name := srv(q);
    SaysAsk(srv, cap, cl, cn, n, Bind(n));
    var t := Ensured(cn.order, cap, name, q, Bind(name));
    assert cn.outbox + t.sends == t.sends;
    if name in cn.order {
      FeedOne(cn.server, Bind(name));
    } else {
      AddedKeeps(cn.order, name, cap);
      ColdBind(cn.server, Added(cn.order, name, cap).1, name, q);
    }
  }

  /** A Parse and a Bind behind an eviction. */
  lemma ColdBind(s: Server, evicted: string, name: string, q: string)
    requires name != "" && evicted != name
    ensures Failed in Feed(s, Evict(evicted) + [Parse(name, q), Bind(name)]).1 <==> name in s.named
  {
    var mid := s.(named := Kept(s.named, evicted));
    var close := if evicted == "" then [] else [CloseComplete];
    if evicted != "" { FeedOne(s, CloseStmt(evicted)); }
    assert Feed(s, Evict(evicted)) == (mid, close);
    FeedAppend(s, Evict(evicted), [Parse(name, q), Bind(name)]);
    FeedAppend(mid, [Parse(name, q)], [Bind(name)]);
    assert [Parse(name, q)] + [Bind(name)] == [Parse(name, q), Bind(name)];
    FeedOne(mid, Parse(name, q));
    FeedOne(Apply(mid, Parse(name, q)).0, Bind(name));
    var first, last := Apply(mid, Parse(name, q)).1, Apply(Apply(mid, Parse(name, q)).0, Bind(name)).1;
    assert Failed !in last && Failed !in close;
    assert Failed in close + (first + last) <==> Failed in first;
  }

  // ---------------------------------------------------------------- runs

  lemma {:induction false} CleanIsRun(srv: string -> string, used: set<string>, cap: nat, s: State, steps: seq<Step>)
    requires 1 <= cap && CleanRun(srv, used, cap, s, steps)
    ensures Runs(srv, used, cap, s, steps)
    decreases |steps|
  {
    if steps != [] { CleanIsRun(srv, used, cap, Do(srv, cap, s, steps[0]), steps[1..]); }
  }

  lemma {:induction false} RunsJoin(srv: string -> string, used: set<string>, cap: nat, s: State, a: seq<Step>,
                                    b: seq<Step>)
    requires 1 <= cap && Runs(srv, used, cap, s, a) && Runs(srv, used, cap, Exec(srv, cap, s, a), b)
    ensures Runs(srv, used, cap, s, a + b) && Exec(srv, cap, s, a + b) == Exec(srv, cap, Exec(srv, cap, s, a), b)
    decreases |a|
  {
    if a == [] {
      assert a + b == b;
    } else {
      assert (a + b)[1..] == a[1..] + b;
      RunsJoin(srv, used, cap, Do(srv, cap, s, a[0]), a[1..], b);
    }
  }

  lemma Two(srv: string -> string, used: set<string>, cap: nat, s: State, a: Step, b: Step)
    requires 1 <= cap && Enabled(used, s, a) && Enabled(used, Do(srv, cap, s, a), b)
    ensures Runs(srv, used, cap, s, [a, b]) && Exec(srv, cap, s, [a, b]) == Do(srv, cap, Do(srv, cap, s, a), b)
  {
    assert [a, b][1..] == [b] && [b][1..] == [];
    var s1 := Do(srv, cap, s, a);
    assert Runs(srv, used, cap, s1, [b]) && Exec(srv, cap, s1, [b]) == Do(srv, cap, s1, b);
  }

  /** One client in the middle of a batch that parses, another just connected. */
  function Abandoned(srv: string -> string, q: string): State {
    State([Parsed(q), NEW_CLIENT], [Fed(srv(q), [Parse(srv(q), q)])], [])
  }

  lemma ReachAbandoned(srv: string -> string, cap: nat, q: string) returns (steps: seq<Step>)
    requires 1 <= cap && srv(q) != ""
    ensures CleanRun(srv, {q}, cap, INIT, steps) && Exec(srv, cap, INIT, steps) == Abandoned(srv, q)
    ensures Distinct(srv, {q}) && Inv(srv, {q}, cap, Abandoned(srv, q))
  {
    var n := srv(q);
    steps := Alone(srv, {q}, cap);
    ParsesFirst(srv, cap, q);
    Says(srv, {q}, cap, steps, NEW_CLIENT.(at := Some(0)), NEW_CONN.(holder := Some(0)), Parse("x", q), Parsed(q),
         Fed(n, [Parse(n, q)]), []);
    steps := steps + [Send(0, Parse("x", q))];
    Extend(srv, {q}, cap, INIT, steps, Open);
    steps := steps + [Open];
    InitHolds(srv, {q}, cap);
    RunKeepsInv(srv, {q}, cap, INIT, steps);
  }

  /** A client parses and leaves; the next one's query brings it a ParseComplete it never asked for. */
  lemma AbandonedParseLeaks(srv: string -> string, cap: nat, q: string) returns (steps: seq<Step>)
    requires 1 <= cap && srv(q) != ""
    ensures Runs(srv, {q}, cap, INIT, steps) && !AllConserved(Exec(srv, cap, INIT, steps))
  {
    steps := ReachAbandoned(srv, cap, q);
    CleanIsRun(srv, {q}, cap, INIT, steps);
    var s, n := Abandoned(srv, q), srv(q);
    AttachLeaks(srv, {q}, cap, s, 0, 1);
    Two(srv, {q}, cap, s, Release(0, false), Attach(1, 0, false, false));
    RunsJoin(srv, {q}, cap, INIT, steps, [Release(0, false), Attach(1, 0, false, false)]);
    steps := steps + [Release(0, false), Attach(1, 0, false, false)];
    var s2 := Do(srv, cap, Do(srv, cap, s, Release(0, false)), Attach(1, 0, false, false));
    assert Sends(1, []) + [Send(1, Simple)] == [Send(1, Simple)] && [Send(1, Simple)][1..] == [];
    assert Enabled({q}, s2, Send(1, Simple));
    AbandonedBatchLeaks(srv, {q}, cap, s, 0, 1, [], Simple);
    FeedOne(FRESH, Parse(n, q));
    RunsJoin(srv, {q}, cap, INIT, steps, [Send(1, Simple)]);
    steps := steps + [Send(1, Simple)];
    var t := Exec(srv, cap, INIT, steps);
    assert t.batches[0] in t.batches;
  }

  lemma LostBind(srv: string -> string, cap: nat, q: string, cl: Client, cn: Conn)
    returns (cl': Client, cn': Conn, batch: Batch)
    requires 1 <= cap && srv(q) != "" && cl.evicts == 0 && cl.injects == 0 && cl.synth == [ParseComplete]
    requires cn.server == FRESH && cn.outbox == [Bind(srv(q))] && Failed !in cl.expected
    ensures Talk(srv, cap, cl, cn, Sync) == (cl', cn', [batch]) && !Conserved(batch)
  {
    var n := srv(q);
    FeedOne(FRESH, Bind(n));
    FeedOne(FRESH, Sync);
    FeedAppend(FRESH, [Bind(n)], [Sync]);
    var (said, conn) := Say(srv, cap, cl, cn, Sync);
    assert conn.outbox == [Bind(n)] + [Sync];
    assert Feed(FRESH, conn.outbox).1 == [Failed] + [Ready] == [Failed, Ready];
    NothingFiltered([Failed, Ready]);
    var after := Drain(said, conn);
    cl', cn', batch := after.0, after.1, after.2;
    assert batch.delivered == [ParseComplete, Failed, Ready] && Failed !in batch.expected;
    CountIsMembership(batch.delivered, Failed);
    CountIsMembership(batch.expected, Failed);
  }

  /** The second client on the backend that lost its buffer: before its batch, after its Parse and after
      its Bind. */
  function Newcomer(): Client { NEW_CLIENT.(at := Some(0)) }

  function HitClient(q: string): Client {
    Newcomer().(talked := true, prep := map["y" := q], ref := FRESH.(named := map["y" := q]),
                synth := [ParseComplete], expected := [ParseComplete])
  }

  function BoundClient(q: string): Client { HitClient(q).(expected := [ParseComplete, BindComplete(q)]) }

  function LostConn(n: string, outbox: seq<Msg>): Conn { Fed(n, outbox).(holder := Some(1)) }

  function Leaver(q: string): Client { Parsed(q).(at := None, parsed := false, open := false) }

  lemma ReachDropped(srv: string -> string, cap: nat, q: string) returns (steps: seq<Step>)
    requires 1 <= cap && srv(q) != ""
    ensures Runs(srv, {q}, cap, INIT, steps)
    ensures Exec(srv, cap, INIT, steps) == State([Leaver(q), Newcomer()], [LostConn(srv(q), [])], [])
  {
    steps := ReachAbandoned(srv, cap, q);
    CleanIsRun(srv, {q}, cap, INIT, steps);
    var s := Abandoned(srv, q);
    Two(srv, {q}, cap, s, Release(0, false), Attach(1, 0, true, false));
    RunsJoin(srv, {q}, cap, INIT, steps, [Release(0, false), Attach(1, 0, true, false)]);
    steps := steps + [Release(0, false), Attach(1, 0, true, false)];
    assert Dropped(srv, cap, s, 0, 1, false).clients == [Leaver(q), Newcomer()];
  }

  lemma SecondSays(srv: string -> string, cap: nat, q: string, gone: Client, cl: Client, cn: Conn, m: Msg, cl': Client,
                   cn': Conn, done: seq<Batch>)
    requires 1 <= cap && cl.at == Some(0) && Proper({q}, cl, m) && Talk(srv, cap, cl, cn, m) == (cl', cn', done)
    ensures var s := State([gone, cl], [cn], []);
            Runs(srv, {q}, cap, s, [Send(1, m)]) && Exec(srv, cap, s, [Send(1, m)]) == State([gone, cl'], [cn'], done)
  {
    assert [Send(1, m)][1..] == [];
    assert [gone, cl][1 := cl'] == [gone, cl'] && [cn][0 := cn'] == [cn'];
  }

  lemma Joined(srv: string -> string, cap: nat, q: string, steps: seq<Step>, cl: Client, cn: Conn, m: Msg, cl': Client,
               cn': Conn, done: seq<Batch>)
    requires 1 <= cap && cl.at == Some(0) && Proper({q}, cl, m) && Talk(srv, cap, cl, cn, m) == (cl', cn', done)
    requires Runs(srv, {q}, cap, INIT, steps) && Exec(srv, cap, INIT, steps) == State([Leaver(q), cl], [cn], [])
    ensures Runs(srv, {q}, cap, INIT, steps + [Send(1, m)])
    ensures Exec(srv, cap, INIT, steps + [Send(1, m)]) == State([Leaver(q), cl'], [cn'], done)
  {
    SecondSays(srv, cap, q, Leaver(q), cl, cn, m, cl', cn', done);
    RunsJoin(srv, {q}, cap, INIT, steps, [Send(1, m)]);
  }

  lemma ParsesHit(srv: string -> string, cap: nat, q: string)
    requires 1 <= cap && srv(q) != ""
    ensures Talk(srv, cap, Newcomer(), LostConn(srv(q), []), Parse("y", q)) == (HitClient(q), LostConn(srv(q), []), [])
  {
    var n := srv(q);
    assert Touched([n], n) == [n];
    assert map[]["y" := q] == map["y" := q];
    assert [] + [ParseComplete] == [ParseComplete];
    assert LostConn(n, []).outbox + [] == [];
  }

  lemma BindsLost(srv: string -> string, cap: nat, q: string)
    requires 1 <= cap && srv(q) != ""
    ensures Talk(srv, cap, HitClient(q), LostConn(srv(q), []), Bind("y"))
            == (BoundClient(q), LostConn(srv(q), [Bind(srv(q))]), [])
  {
    var n := srv(q);
    assert Touched([n], n) == [n];
    assert [ParseComplete] + [BindComplete(q)] == [ParseComplete, BindComplete(q)];
    assert [ParseComplete] + [] == [ParseComplete] && [] + [Bind(n)] == [Bind(n)];
  }

  /** With the splice path on: the next client's Parse is answered from the cache, and its Bind fails. */
  lemma DroppedParseIsLost(srv: string -> string, cap: nat, q: string) returns (steps: seq<Step>)
    requires 1 <= cap && srv(q) != ""
    ensures Runs(srv, {q}, cap, INIT, steps) && !AllConserved(Exec(srv, cap, INIT, steps))
  {
    var n := srv(q);
    steps := ReachDropped(srv, cap, q);
    ParsesHit(srv, cap, q);
    Joined(srv, cap, q, steps, Newcomer(), LostConn(n, []), Parse("y", q), HitClient(q), LostConn(n, []), []);
    steps := steps + [Send(1, Parse("y", q))];
    BindsLost(srv, cap, q);
    Joined(srv, cap, q, steps, HitClient(q), LostConn(n, []), Bind("y"), BoundClient(q), LostConn(n, [Bind(n)]), []);
    steps := steps + [Send(1, Bind("y"))];
    var cl, cn, batch := LostBind(srv, cap, q, BoundClient(q), LostConn(n, [Bind(n)]));
    Joined(srv, cap, q, steps, BoundClient(q), LostConn(n, [Bind(n)]), Sync, cl, cn, [batch]);
    steps := steps + [Send(1, Sync)];
    assert batch in Exec(srv, cap, INIT, steps).batches;
  }
}
