/** What holds of prepared statements in every run, and exactly what it depends on. */
module PreparedTheorems {
  import opened Counting
  import opened Options
  import opened PreparedLru
  import opened PreparedWire
  import opened PreparedBalance
  import opened PreparedSim

  lemma {:induction false} CountIsMembership(s: seq<Reply>, r: Reply)
    ensures Count(s, r) == 0 <==> r !in s
  {
    if s != [] {
      CountIsMembership(s[1..], r);
      assert s == [s[0]] + s[1..];
    }
  }

  lemma InitHolds(srv: string -> string, used: set<string>, cap: nat)
    ensures Inv(srv, used, cap, INIT)
  {
  }

  /** Swaps, evictions and resets included, a backend's cache lists exactly the statements the
      backend holds once it has read its buffer, each under the name of its own SQL. */
  lemma CacheIsServer(srv: string -> string, used: set<string>, cap: nat, steps: seq<Step>, k: nat)
    requires 1 <= cap && Distinct(srv, used) && CleanRun(srv, used, cap, INIT, steps)
    requires k < |Exec(srv, cap, INIT, steps).conns| && Exec(srv, cap, INIT, steps).conns[k].alive
    ensures var cn := Exec(srv, cap, INIT, steps).conns[k];
            var held := Feed(cn.server, cn.outbox).0.named;
            && Names(cn.order) == held.Keys && |cn.order| <= cap
            && (forall q :: q in used && srv(q) in held ==> held[srv(q)] == q)
  {
    InitHolds(srv, used, cap);
    RunKeepsInv(srv, used, cap, INIT, steps);
  }

  /** No rewritten message fails: a Bind or Describe finds its statement and a Parse collides with
      none, because the backend's replies up to and including this message hold no error. */
  lemma NothingFails(srv: string -> string, used: set<string>, cap: nat, steps: seq<Step>, c: nat, m: Msg)
    requires 1 <= cap && Distinct(srv, used) && CleanRun(srv, used, cap, INIT, steps)
    requires Enabled(used, Exec(srv, cap, INIT, steps), Send(c, m))
    ensures var s := Exec(srv, cap, INIT, steps);
            var cn := Say(srv, cap, s.clients[c], s.conns[s.clients[c].at.value], m).1;
            Failed !in Feed(cn.server, cn.outbox).1
  {
    InitHolds(srv, used, cap);
    RunKeepsInv(srv, used, cap, INIT, steps);
    var s := Exec(srv, cap, INIT, steps);
    var k := s.clients[c].at.value;
    SayKeeps(srv, used, cap, s.clients[c], s.conns[k], m);
    var (cl, cn) := Say(srv, cap, s.clients[c], s.conns[k], m);
    var rs := Feed(cn.server, cn.outbox).1;
    assert rs[0..] == rs;
    assert BalancedAt(cl.synth, rs, cl.expected, cl.evicts, cl.injects, Failed);
    CountIsMembership(cl.expected, Failed);
    CountIsMembership(rs, Failed);
  }

  /** A rewritten Bind or Describe reaches the backend behind a statement with the client's SQL. */
  lemma StatementIsThere(srv: string -> string, used: set<string>, cap: nat, steps: seq<Step>, c: nat, n: string,
                         m: Msg)
    requires 1 <= cap && Distinct(srv, used) && CleanRun(srv, used, cap, INIT, steps)
    requires n != "" && Asks(m, n) && Enabled(used, Exec(srv, cap, INIT, steps), Send(c, m))
    ensures var cl := Exec(srv, cap, INIT, steps).clients[c];
            var cn := Say(srv, cap, cl, Exec(srv, cap, INIT, steps).conns[cl.at.value], m).1;
            var held := Feed(cn.server, cn.outbox).0.named;
            && n in cl.prep && n in cl.ref.named && cl.prep[n] == cl.ref.named[n]
            && |cn.outbox| > 0 && Asks(cn.outbox[|cn.outbox| - 1], srv(cl.prep[n]))
            && cn.outbox[|cn.outbox| - 1].Bind? == m.Bind?
            && srv(cl.prep[n]) in held && held[srv(cl.prep[n])] == cl.prep[n]
  {
    InitHolds(srv, used, cap);
    RunKeepsInv(srv, used, cap, INIT, steps);
    var cl := Exec(srv, cap, INIT, steps).clients[c];
    AskFinds(srv, used, cap, cl, Exec(srv, cap, INIT, steps).conns[cl.at.value], n, m);
  }

  lemma AskFinds(srv: string -> string, used: set<string>, cap: nat, cl: Client, cn: Conn, n: string, m: Msg)
    requires 1 <= cap && Distinct(srv, used) && ConnOk(srv, used, cap, cn) && ClientOk(used, cl) && PairOk(cl, cn)
    requires n != "" && Asks(m, n) && Proper(used, cl, m) && cl.at.Some?
    ensures var cn' := Say(srv, cap, cl, cn, m).1;
            var held := Feed(cn'.server, cn'.outbox).0.named;
            && n in cl.prep && n in cl.ref.named && cl.prep[n] == cl.ref.named[n]
            && |cn'.outbox| > 0 && Asks(cn'.outbox[|cn'.outbox| - 1], srv(cl.prep[n]))
            && cn'.outbox[|cn'.outbox| - 1].Bind? == m.Bind?
            && srv(cl.prep[n]) in held && held[srv(cl.prep[n])] == cl.prep[n]
  {
    SayKeeps(srv, used, cap, cl, cn, m);
    var cn' := Say(srv, cap, cl, cn, m).1;
    var q := cl.prep[n];
    SaysAsk(srv, cap, cl, cn, n, m);
    EnsuredEnds(cn.order, cap, srv(q), q, Rewritten(m, srv(q)));
    HeldIsTheQuery(srv, used, cn'.order, cap, Feed(cn'.server, cn'.outbox).0.named, q);
  }

  /** Each batch brings a client the replies of its dedicated server, SQL included, and leaves
      nothing pending. */
  lemma BatchesConserved(srv: string -> string, used: set<string>, cap: nat, steps: seq<Step>)
    requires 1 <= cap && Distinct(srv, used) && CleanRun(srv, used, cap, INIT, steps)
    ensures AllConserved(Exec(srv, cap, INIT, steps))
  {
    InitHolds(srv, used, cap);
    RunKeepsInv(srv, used, cap, INIT, steps);
  }

  ghost predicate AllConserved(s: State) { forall b :: b in s.batches ==> Conserved(b) }

  /** A client gets its batch at each Sync and at each simple query, and only then: everything its
      dedicated server has sent since the last one, with nothing left in the backend's buffer. */
  lemma BatchPerSync(srv: string -> string, cap: nat, s: State, c: nat, m: Msg)
    requires 1 <= cap && Attached(s, c)
    ensures var t, k := Do(srv, cap, s, Send(c, m)), s.clients[c].at.value;
            var owed := s.clients[c].expected + Apply(s.clients[c].ref, m).1;
            if m.Sync? || m.Simple? then
              && |t.batches| == |s.batches| + 1 && t.batches[..|s.batches|] == s.batches
              && t.batches[|s.batches|].expected == owed && t.conns[k].outbox == [] && t.clients[c].expected == []
            else
              t.batches == s.batches && t.clients[c].expected == owed
  {
    assert s.batches + [] == s.batches;
  }

  // ---------------------------------------------------------------- the name function

  /** One more step at the end of a clean run. */
  lemma {:induction false} Extend(srv: string -> string, used: set<string>, cap: nat, s: State, steps: seq<Step>,
                                  step: Step)
    requires 1 <= cap && CleanRun(srv, used, cap, s, steps)
    requires Enabled(used, Exec(srv, cap, s, steps), step) && Clean(Exec(srv, cap, s, steps), step)
    ensures CleanRun(srv, used, cap, s, steps + [step])
    ensures Exec(srv, cap, s, steps + [step]) == Do(srv, cap, Exec(srv, cap, s, steps), step)
    decreases |steps|
  {
    if steps == [] {
      assert [step][1..] == [] && steps + [step] == [step];
    } else {
      Extend(srv, used, cap, Do(srv, cap, s, steps[0]), steps[1..], step);
      assert (steps + [step])[1..] == steps[1..] + [step];
    }
  }

  /** One client, attached to one new backend. */
  lemma Alone(srv: string -> string, used: set<string>, cap: nat) returns (steps: seq<Step>)
    requires 1 <= cap
    ensures CleanRun(srv, used, cap, INIT, steps)
    ensures Exec(srv, cap, INIT, steps) == Pair(NEW_CLIENT.(at := Some(0)), NEW_CONN.(holder := Some(0)), [])
  {
    steps := [];
    Extend(srv, used, cap, INIT, steps, Open);
    steps := steps + [Open];
    Extend(srv, used, cap, INIT, steps, Dial);
    steps := steps + [Dial];
    Extend(srv, used, cap, INIT, steps, Attach(0, 0, false, false));
    steps := steps + [Attach(0, 0, false, false)];
  }

  function Pair(cl: Client, cn: Conn, done: seq<Batch>): State { State([cl], [cn], done) }

  /** The lone client sends one message. */
  lemma Says(srv: string -> string, used: set<string>, cap: nat, steps: seq<Step>, cl: Client, cn: Conn, m: Msg,
             cl': Client, cn': Conn, done: seq<Batch>)
    requires 1 <= cap && CleanRun(srv, used, cap, INIT, steps) && Exec(srv, cap, INIT, steps) == Pair(cl, cn, [])
    requires cl.at == Some(0) && Proper(used, cl, m) && Talk(srv, cap, cl, cn, m) == (cl', cn', done)
    ensures CleanRun(srv, used, cap, INIT, steps + [Send(0, m)])
            && Exec(srv, cap, INIT, steps + [Send(0, m)]) == Pair(cl', cn', done)
  {
    Extend(srv, used, cap, INIT, steps, Send(0, m));
    assert Pair(cl, cn, []).clients[0 := cl'] == [cl'] && Pair(cl, cn, []).conns[0 := cn'] == [cn'];
  }

  lemma CollisionFeed(n: string, a: string)
    requires n != ""
    ensures Feed(FRESH, [Parse(n, a), Bind(n), Sync]).1 == [ParseComplete, BindComplete(a), Ready]
  {
    var ms := [Parse(n, a), Bind(n), Sync];
    var held := FRESH.(named := map[n := a]);
    FeedOne(FRESH, Parse(n, a));
    FeedOne(held, Bind(n));
    FeedOne(held, Sync);
    FeedAppend(FRESH, [Parse(n, a)], [Bind(n)]);
    FeedAppend(FRESH, [Parse(n, a), Bind(n)], [Sync]);
    assert [Parse(n, a)] + [Bind(n)] == [Parse(n, a), Bind(n)] && [Parse(n, a), Bind(n)] + [Sync] == ms;
    assert Apply(FRESH, Parse(n, a)) == (held, [ParseComplete]);
    assert Apply(held, Bind(n)) == (held, [BindComplete(a)]);
  }

  /** The client after parsing `a` as x and `b` as y over one server-side name, and binding y. */
  function Parsed(a: string): Client {
    NEW_CLIENT.(at := Some(0), talked := true, prep := map["x" := a], ref := FRESH.(named := map["x" := a]),
               expected := [ParseComplete])
  }

  function ParsedBoth(a: string, b: string): Client {
    var both := map["x" := a, "y" := b];
    Parsed(a).(prep := both, ref := FRESH.(named := both), synth := [ParseComplete],
               expected := [ParseComplete, ParseComplete])
  }

  function Bound(a: string, b: string): Client {
    ParsedBoth(a, b).(expected := [ParseComplete, ParseComplete, BindComplete(b)])
  }

  function Fed(n: string, outbox: seq<Msg>): Conn { NEW_CONN.(holder := Some(0), order := [n], outbox := outbox) }

  lemma ParsesFirst(srv: string -> string, cap: nat, a: string)
    requires 1 <= cap && srv(a) != ""
    ensures Talk(srv, cap, NEW_CLIENT.(at := Some(0)), NEW_CONN.(holder := Some(0)), Parse("x", a))
            == (Parsed(a), Fed(srv(a), [Parse(srv(a), a)]), [])
  {
    var n := srv(a);
    var t := Intercept(srv, map["x" := a], [], cap, Parse("x", a));
    assert t == Turn([n], [Parse(n, a)], [], 0, 0) by {
      assert [n] + [] == [n] && Evict("") + [Parse(n, a)] == [Parse(n, a)];
    }
    assert map[]["x" := a] == map["x" := a] && NEW_CLIENT.synth + t.synth == [];
    assert [] + [ParseComplete] == [ParseComplete] && [] + [Parse(n, a)] == [Parse(n, a)];
  }

  lemma ParsesSecond(srv: string -> string, cap: nat, a: string, b: string)
    requires 1 <= cap && srv(a) == srv(b) != ""
    ensures Talk(srv, cap, Parsed(a), Fed(srv(a), [Parse(srv(a), a)]), Parse("y", b))
            == (ParsedBoth(a, b), Fed(srv(a), [Parse(srv(a), a)]), [])
  {
    var n := srv(a);
    assert Touched([n], n) == [n];
    assert map["x" := a]["y" := b] == map["x" := a, "y" := b];
    assert [] + [ParseComplete] == [ParseComplete]
           && [ParseComplete] + [ParseComplete] == [ParseComplete, ParseComplete];
    assert [Parse(n, a)] + [] == [Parse(n, a)];
  }

  lemma BindsSecond(srv: string -> string, cap: nat, a: string, b: string)
    requires 1 <= cap && srv(a) == srv(b) != ""
    ensures Talk(srv, cap, ParsedBoth(a, b), Fed(srv(a), [Parse(srv(a), a)]), Bind("y"))
            == (Bound(a, b), Fed(srv(a), [Parse(srv(a), a), Bind(srv(a))]), [])
  {
    var n := srv(a);
    assert Touched([n], n) == [n];
    assert [ParseComplete, ParseComplete] + [BindComplete(b)] == [ParseComplete, ParseComplete, BindComplete(b)];
    assert [ParseComplete] + [] == [ParseComplete];
    assert [Parse(n, a)] + [Bind(n)] == [Parse(n, a), Bind(n)];
  }

  /** Two queries under one name: the client that parsed both runs the first when it binds the second. */
  lemma CollisionBreaks(srv: string -> string, cap: nat, a: string, b: string) returns (steps: seq<Step>)
    requires 1 <= cap && a != b && srv(a) == srv(b) != ""
    ensures CleanRun(srv, {a, b}, cap, INIT, steps) && !AllConserved(Exec(srv, cap, INIT, steps))
  {
    var n, used := srv(a), {a, b};
    steps := CollisionBinds(srv, cap, a, b);
    var cl, cn, batch := CollisionDrains(srv, cap, n, a, Bound(a, b), Fed(n, [Parse(n, a), Bind(n)]));
    Says(srv, used, cap, steps, Bound(a, b), Fed(n, [Parse(n, a), Bind(n)]), Sync, cl, cn, [batch]);
    steps := steps + [Send(0, Sync)];
    CountIsMembership(batch.delivered, BindComplete(b));
    CountIsMembership(batch.expected, BindComplete(b));
    assert batch in Exec(srv, cap, INIT, steps).batches;
  }

  lemma CollisionBinds(srv: string -> string, cap: nat, a: string, b: string) returns (steps: seq<Step>)
    requires 1 <= cap && a != b && srv(a) == srv(b) != ""
    ensures CleanRun(srv, {a, b}, cap, INIT, steps)
    ensures Exec(srv, cap, INIT, steps) == Pair(Bound(a, b), Fed(srv(a), [Parse(srv(a), a), Bind(srv(a))]), [])
  {
    var n, used := srv(a), {a, b};
    steps := Alone(srv, used, cap);
    ParsesFirst(srv, cap, a);
    ParsesSecond(srv, cap, a, b);
    BindsSecond(srv, cap, a, b);
    Says(srv, used, cap, steps, NEW_CLIENT.(at := Some(0)), NEW_CONN.(holder := Some(0)), Parse("x", a), Parsed(a),
         Fed(n, [Parse(n, a)]), []);
    steps := steps + [Send(0, Parse("x", a))];
    Says(srv, used, cap, steps, Parsed(a), Fed(n, [Parse(n, a)]), Parse("y", b), ParsedBoth(a, b),
         Fed(n, [Parse(n, a)]), []);
    steps := steps + [Send(0, Parse("y", b))];
    Says(srv, used, cap, steps, ParsedBoth(a, b), Fed(n, [Parse(n, a)]), Bind("y"), Bound(a, b),
         Fed(n, [Parse(n, a), Bind(n)]), []);
    steps := steps + [Send(0, Bind("y"))];
  }

  lemma CollisionDrains(srv: string -> string, cap: nat, n: string, a: string, cl: Client, cn: Conn)
    returns (cl': Client, cn': Conn, batch: Batch)
    requires 1 <= cap && n != "" && cn.server == FRESH && cn.outbox == [Parse(n, a), Bind(n)] && cl.evicts == 0
             && cl.injects == 0
    ensures Talk(srv, cap, cl, cn, Sync) == (cl', cn', [batch])
    ensures batch.delivered == cl.synth + [ParseComplete, BindComplete(a), Ready]
            && batch.expected == cl.expected + [Ready]
  {
    CollisionFeed(n, a);
    NothingFiltered([ParseComplete, BindComplete(a), Ready]);
    var (said, conn) := Say(srv, cap, cl, cn, Sync);
    assert conn.outbox == [Parse(n, a), Bind(n), Sync];
    var after := Drain(said, conn);
    cl', cn', batch := after.0, after.1, after.2;
  }

  /** Exactly when the scheme is sound: every clean run over a set of queries conserves every batch
      if and only if no two of those queries share a server-side name. */
  lemma SoundIffDistinct(srv: string -> string, used: set<string>, cap: nat)
    requires 1 <= cap && forall q :: q in used ==> srv(q) != ""
    ensures Distinct(srv, used)
            <==> (forall steps :: CleanRun(srv, used, cap, INIT, steps) ==> AllConserved(Exec(srv, cap, INIT, steps)))
  {
    if Distinct(srv, used) {
      forall steps | CleanRun(srv, used, cap, INIT, steps) ensures AllConserved(Exec(srv, cap, INIT, steps)) {
        BatchesConserved(srv, used, cap, steps);
      }
    } else {
      var a, b :| a in used && b in used && srv(a) == srv(b) && a != b;
      var steps := CollisionBreaks(srv, cap, a, b);
      MoreQueries(srv, {a, b}, used, cap, INIT, steps);
    }
  }

  lemma {:induction false} MoreQueries(srv: string -> string, few: set<string>, many: set<string>, cap: nat, s: State,
                                       steps: seq<Step>)
    requires 1 <= cap && few <= many && CleanRun(srv, few, cap, s, steps)
    ensures CleanRun(srv, many, cap, s, steps)
    decreases |steps|
  {
    if steps != [] { MoreQueries(srv, few, many, cap, Do(srv, cap, s, steps[0]), steps[1..]); }
  }
}
