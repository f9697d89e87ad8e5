/** Many clients over many backends, statements renamed, shared, injected and evicted on the way:
    every run against one dedicated session per client. */
module PreparedSim {
  import opened Options
  import opened PreparedLru
  import opened PreparedWire
  import opened PreparedBalance

  /** A backend connection: its cache, the server as of the last flush, what is buffered for it. */
  datatype Conn = Conn(order: seq<string>, server: Server, outbox: seq<Msg>, holder: Option<nat>, alive: bool)

  /** A client session; `ref` is the dedicated server it is compared with, `expected` that server's
      replies in the current batch; since it attached, `parsed` says it set the unnamed statement and
      `talked` that it sent anything. */
  datatype Client = Client(prep: map<string, string>, ref: Server, parsed: bool, talked: bool, synth: seq<Reply>,
                           evicts: nat, injects: nat, expected: seq<Reply>, at: Option<nat>, open: bool)

  /** What a client got up to a ReadyForQuery, what the dedicated server sends, what stayed pending. */
  datatype Batch = Batch(delivered: seq<Reply>, expected: seq<Reply>, evicts: nat, injects: nat)

  datatype State = State(clients: seq<Client>, conns: seq<Conn>, batches: seq<Batch>)

  datatype Step =
    | Open
    | Dial
    | Attach(c: nat, k: nat, splice: bool, replay: bool)
    | Send(c: nat, m: Msg)
    | BareSync(c: nat)
    | Release(c: nat, reset: bool)
    | Discard(c: nat)

  const NEW_CLIENT: Client := Client(map[], FRESH, false, false, [], 0, 0, [], None, true)
  const NEW_CONN: Conn := Conn([], FRESH, [], None, true)
  const INIT: State := State([], [], [])

  // ---------------------------------------------------------------- steps

  predicate Attached(s: State, c: nat) {
    c < |s.clients| && s.clients[c].at.Some? && s.clients[c].at.value < |s.conns|
  }

  /** A dedicated server would take the message, an unnamed statement is used only in the checkout
      that parsed it, and a Sync does not attach: it is sent to a backend only after something else. */
  predicate Proper(used: set<string>, cl: Client, m: Msg) {
    && Failed !in Apply(cl.ref, m).1 && (UsesUnnamed(m) ==> cl.parsed) && (m.Parse? ==> m.query in used)
    && (m.Sync? ==> cl.talked)
  }

  predicate Enabled(used: set<string>, s: State, step: Step) {
    match step
    case Open => true
    case Dial => true
    case Attach(c, k, _, _) =>
      && c < |s.clients| && s.clients[c].open && s.clients[c].at.None?
      && k < |s.conns| && s.conns[k].alive && s.conns[k].holder.None?
    case Send(c, m) => Attached(s, c) && Proper(used, s.clients[c], m)
    case BareSync(c) => c < |s.clients| && s.clients[c].open && s.clients[c].at.None?
    case Release(c, _) => Attached(s, c)
    case Discard(c) => Attached(s, c)
  }

  /** A turn's effect on the two ends. */
  function Take(cl: Client, cn: Conn, m: Msg, t: Turn): (Client, Conn) {
    var (ref, more) := Apply(cl.ref, m);
    (cl.(prep := Observed(cl.prep, m), ref := ref, talked := true,
         parsed := cl.parsed || (m.Parse? && m.name == ""), synth := cl.synth + t.synth,
         evicts := cl.evicts + t.evicts, injects := cl.injects + t.injects, expected := cl.expected + more),
     cn.(order := t.order, outbox := cn.outbox + t.sends))
  }

  /** One message of an attached client: observed, intercepted, and buffered for the backend. */
  function Say(srv: string -> string, cap: nat, cl: Client, cn: Conn, m: Msg): (Client, Conn)
    requires 1 <= cap
  {
    Take(cl, cn, m, Intercept(srv, Observed(cl.prep, m), cn.order, cap, m))
  }

  /** Flush the buffer, read the replies up to ReadyForQuery, filter, deliver. */
  function Drain(cl: Client, cn: Conn): (Client, Conn, Batch) {
    var (server, replies) := Feed(cn.server, cn.outbox);
    var (out, e, i) := Filter(replies, cl.evicts, cl.injects);
    (cl.(synth := [], expected := [], evicts := e, injects := i), cn.(server := server, outbox := []),
     Batch(cl.synth + out, cl.expected, e, i))
  }

  function Talk(srv: string -> string, cap: nat, cl: Client, cn: Conn, m: Msg): (Client, Conn, seq<Batch>)
    requires 1 <= cap
  {
    var (said, conn) := Say(srv, cap, cl, cn, m);
    if Drains(m) then
      var (rest, idle, batch) := Drain(said, conn);
      (rest, idle, [batch])
    else (said, conn, [])
  }

  /** A client with tracked settings has them set first: a simple query that flushes whatever is buffered
      and reads every reply up to its own ReadyForQuery; an error on the way discards the backend. */
  function Replayed(cn: Conn): Conn {
    var (server, replies) := Feed(cn.server, cn.outbox + [Simple]);
    if Failed in replies then cn.(holder := None, alive := false) else cn.(server := server, outbox := [])
  }

  /** The backend a client attaches to.  The splice setup replaces the frontend object and with it
      whatever was buffered; then come the settings, if there are any. */
  function JoinedConn(cn: Conn, c: nat, splice: bool, replay: bool): Conn {
    var joined := cn.(holder := Some(c), outbox := if splice then [] else cn.outbox);
    if replay then Replayed(joined) else joined
  }

  predicate MidBatch(cl: Client, cn: Conn) { cn.outbox != [] || cl.synth != [] || cl.expected != [] }

  function Do(srv: string -> string, cap: nat, s: State, step: Step): State
    requires 1 <= cap
  {
    match step
    case Open => s.(clients := s.clients + [NEW_CLIENT])
    case Dial => s.(conns := s.conns + [NEW_CONN])
    case Attach(c, k, splice, replay) =>
      if c < |s.clients| && k < |s.conns| then
        var cn := JoinedConn(s.conns[k], c, splice, replay);
        var cl := s.clients[c];
        s.(clients := s.clients[c := if cn.alive then cl.(at := Some(k), parsed := false, talked := false)
                                     else cl.(open := false)],
           conns := s.conns[k := cn])
      else s
    case Send(c, m) =>
      if Attached(s, c) then
        var k := s.clients[c].at.value;
        var (cl, cn, done) := Talk(srv, cap, s.clients[c], s.conns[k], m);
        State(s.clients[c := cl], s.conns[k := cn], s.batches + done)
      else s
    case BareSync(c) => s.(batches := s.batches + [Batch([Ready], [Ready], 0, 0)])
    case Release(c, reset) =>
      if Attached(s, c) then
        var k := s.clients[c].at.value;
        var cl := s.clients[c].(at := None, parsed := false, open := !MidBatch(s.clients[c], s.conns[k]));
        State(s.clients[c := cl], s.conns[k := if reset then NEW_CONN else s.conns[k].(holder := None)], s.batches)
      else s
    case Discard(c) =>
      if Attached(s, c) then
        var k := s.clients[c].at.value;
        State(s.clients[c := s.clients[c].(at := None, open := false)],
              s.conns[k := s.conns[k].(holder := None, alive := false)], s.batches)
      else s
  }

  /** A checkout given back in the middle of a batch is reset. */
  predicate Clean(s: State, step: Step) {
    step.Release? && Attached(s, step.c) ==> step.reset || s.conns[s.clients[step.c].at.value].outbox == []
  }

  /** Every step is one the code can take. */
  predicate Runs(srv: string -> string, used: set<string>, cap: nat, s: State, steps: seq<Step>)
    requires 1 <= cap
    decreases |steps|
  {
    steps == [] || (Enabled(used, s, steps[0]) && Runs(srv, used, cap, Do(srv, cap, s, steps[0]), steps[1..]))
  }

  predicate CleanRun(srv: string -> string, used: set<string>, cap: nat, s: State, steps: seq<Step>)
    requires 1 <= cap
    decreases |steps|
  {
    steps == [] || (Enabled(used, s, steps[0]) && Clean(s, steps[0])
                    && CleanRun(srv, used, cap, Do(srv, cap, s, steps[0]), steps[1..]))
  }

  function Exec(srv: string -> string, cap: nat, s: State, steps: seq<Step>): State
    requires 1 <= cap
    decreases |steps|
  {
    if steps == [] then s else Exec(srv, cap, Do(srv, cap, s, steps[0]), steps[1..])
  }

  // ---------------------------------------------------------------- the invariant

  ghost predicate ConnOk(srv: string -> string, used: set<string>, cap: nat, cn: Conn) {
    Mirrors(srv, used, cn.order, cap, Feed(cn.server, cn.outbox).0.named)
  }

  ghost predicate ClientOk(used: set<string>, cl: Client) {
    && cl.prep == cl.ref.named
    && (forall n :: n in cl.ref.named ==> n != "" && cl.ref.named[n] in used)
    && (cl.at.None? && cl.open ==> cl.synth == [] && cl.expected == [] && cl.evicts == 0 && cl.injects == 0)
  }

  /** The backend's replies are `left`, owed to somebody else, and then replies that balance. */
  ghost predicate Leaky(cl: Client, cn: Conn, left: seq<Reply>) {
    && (cl.parsed ==> Feed(cn.server, cn.outbox).0.unnamed == cl.ref.unnamed)
    && left <= Feed(cn.server, cn.outbox).1
    && Balanced(cl.synth, Feed(cn.server, cn.outbox).1[|left|..], cl.expected, cl.evicts, cl.injects)
    && Failed !in cl.expected
  }

  ghost predicate PairOk(cl: Client, cn: Conn) { Leaky(cl, cn, []) }

  /** The client got exactly the dedicated server's replies and nothing is left to drop. */
  ghost predicate Conserved(b: Batch) {
    SameReplies(b.delivered, b.expected) && b.evicts == 0 && b.injects == 0
  }

  ghost predicate Inv(srv: string -> string, used: set<string>, cap: nat, s: State) {
    && (forall k :: 0 <= k < |s.conns| && s.conns[k].alive ==> ConnOk(srv, used, cap, s.conns[k]))
    && (forall k :: 0 <= k < |s.conns| && s.conns[k].holder.None? && s.conns[k].alive ==> s.conns[k].outbox == [])
    && (forall c :: 0 <= c < |s.clients| ==> ClientOk(used, s.clients[c]))
    && (forall c :: 0 <= c < |s.clients| && s.clients[c].at.Some? ==>
          && s.clients[c].at.value < |s.conns| && s.conns[s.clients[c].at.value].holder == Some(c)
          && s.conns[s.clients[c].at.value].alive && PairOk(s.clients[c], s.conns[s.clients[c].at.value]))
    && (forall b :: b in s.batches ==> Conserved(b))
  }

  function Rewritten(m: Msg, name: string): Msg { if m.Bind? then Bind(name) else DescribeStmt(name) }

  /** What asking for a statement the client has named does to the connection. */
  lemma SaysAsk(srv: string -> string, cap: nat, cl: Client, cn: Conn, n: string, m: Msg)
    requires 1 <= cap && n != "" && n in cl.prep && Asks(m, n)
    ensures var name := srv(cl.prep[n]);
            var t := Ensured(cn.order, cap, name, cl.prep[n], Rewritten(m, name));
            Say(srv, cap, cl, cn, m).1 == cn.(order := t.order, outbox := cn.outbox + t.sends)
  {
  }

  lemma EnsuredEnds(order: seq<string>, cap: nat, name: string, q: string, next: Msg)
    requires Fine(order, cap) && name != ""
    ensures var t := Ensured(order, cap, name, q, next);
            name in t.order && t.sends != [] && t.sends[|t.sends| - 1] == next
  {
    if name !in order { AddedKeeps(order, name, cap); }
  }

  /** The pooler's name table stays the dedicated server's. */
  lemma NamesFollow(used: set<string>, ref: Server, m: Msg)
    requires forall n :: n in ref.named ==> n != "" && ref.named[n] in used
    requires Failed !in Apply(ref, m).1 && (m.Parse? ==> m.query in used)
    ensures Observed(ref.named, m) == Apply(ref, m).0.named
    ensures forall n :: n in Apply(ref, m).0.named ==> n != "" && Apply(ref, m).0.named[n] in used
  {
  }

  lemma TakeKeeps(srv: string -> string, used: set<string>, cap: nat, cl: Client, cn: Conn, m: Msg, t: Turn,
                  left: seq<Reply>)
    requires ClientOk(used, cl) && Leaky(cl, cn, left) && Proper(used, cl, m) && cl.at.Some?
    requires Serves(srv, used, cap, Feed(cn.server, cn.outbox).0, t, cl.ref, m)
    ensures var (cl', cn') := Take(cl, cn, m, t);
            ConnOk(srv, used, cap, cn') && ClientOk(used, cl') && Leaky(cl', cn', left)
  {
    NamesFollow(used, cl.ref, m);
    FeedAppend(cn.server, cn.outbox, t.sends);
    TakeLeaks(srv, used, cap, cl, cn, m, t, left);
  }

  lemma TakeLeaks(srv: string -> string, used: set<string>, cap: nat, cl: Client, cn: Conn, m: Msg, t: Turn,
                  left: seq<Reply>)
    requires Leaky(cl, cn, left) && Proper(used, cl, m)
    requires Serves(srv, used, cap, Feed(cn.server, cn.outbox).0, t, cl.ref, m)
    ensures var (cl', cn') := Take(cl, cn, m, t); Leaky(cl', cn', left)
  {
    var (s, rs) := Feed(cn.server, cn.outbox);
    FeedAppend(cn.server, cn.outbox, t.sends);
    var more := Feed(s, t.sends).1;
    assert (rs + more)[|left|..] == rs[|left|..] + more;
    BalanceAdds(cl.synth, rs[|left|..], cl.expected, cl.evicts, cl.injects, t.synth, more, Apply(cl.ref, m).1,
                t.evicts, t.injects);
  }

  lemma LeakySayKeeps(srv: string -> string, used: set<string>, cap: nat, cl: Client, cn: Conn, m: Msg,
                      left: seq<Reply>)
    requires 1 <= cap && Distinct(srv, used) && ConnOk(srv, used, cap, cn) && ClientOk(used, cl) && Leaky(cl, cn, left)
    requires Proper(used, cl, m) && cl.at.Some?
    ensures var (cl', cn') := Say(srv, cap, cl, cn, m);
            ConnOk(srv, used, cap, cn') && ClientOk(used, cl') && Leaky(cl', cn', left)
  {
    TurnServes(srv, used, cn.order, cap, Feed(cn.server, cn.outbox).0, cl.ref, m);
    TakeKeeps(srv, used, cap, cl, cn, m, Intercept(srv, Observed(cl.prep, m), cn.order, cap, m), left);
  }

  lemma SayKeeps(srv: string -> string, used: set<string>, cap: nat, cl: Client, cn: Conn, m: Msg)
    requires 1 <= cap && Distinct(srv, used) && ConnOk(srv, used, cap, cn) && ClientOk(used, cl) && PairOk(cl, cn)
    requires Proper(used, cl, m) && cl.at.Some?
    ensures var (cl', cn') := Say(srv, cap, cl, cn, m);
            ConnOk(srv, used, cap, cn') && ClientOk(used, cl') && PairOk(cl', cn')
  {
    LeakySayKeeps(srv, used, cap, cl, cn, m, []);
  }

  lemma DrainKeeps(srv: string -> string, used: set<string>, cap: nat, cl: Client, cn: Conn)
    requires ConnOk(srv, used, cap, cn) && ClientOk(used, cl) && PairOk(cl, cn)
    ensures var (cl', cn', batch) := Drain(cl, cn);
            ConnOk(srv, used, cap, cn') && ClientOk(used, cl') && PairOk(cl', cn') && Conserved(batch)
  {
    var rs := Feed(cn.server, cn.outbox).1;
    assert rs[0..] == rs;
    DrainBalances(cl.synth, rs, cl.expected, cl.evicts, cl.injects);
    PassBalance([]);
  }

  ghost predicate Here(cl: Client, cn: Conn, c: nat, k: nat) {
    cl.at == Some(k) && cn.holder == Some(c) && cn.alive && PairOk(cl, cn)
  }

  /** Replacing one client and one connection nobody else holds. */
  lemma ReplaceKeeps(srv: string -> string, used: set<string>, cap: nat, s: State, c: nat, k: nat, cl: Client,
                     cn: Conn, done: seq<Batch>)
    requires Inv(srv, used, cap, s) && c < |s.clients| && k < |s.conns|
    requires s.conns[k].holder.None? || s.conns[k].holder == Some(c)
    requires ClientOk(used, cl) && (cl.at.Some? ==> Here(cl, cn, c, k))
    requires cn.alive ==> ConnOk(srv, used, cap, cn) && (cn.holder.None? ==> cn.outbox == [])
    requires forall b :: b in done ==> Conserved(b)
    ensures Inv(srv, used, cap, State(s.clients[c := cl], s.conns[k := cn], s.batches + done))
  {
  }

  lemma NothingPending(cl: Client, cn: Conn)
    requires PairOk(cl, cn) && !MidBatch(cl, cn)
    ensures cl.evicts == 0 && cl.injects == 0
  {
    assert Feed(cn.server, []).1[0..] == [];
    assert BalancedAt([], [], [], cl.evicts, cl.injects, CloseComplete);
    assert BalancedAt([], [], [], cl.evicts, cl.injects, ParseComplete);
  }

  lemma ReleaseKeeps(srv: string -> string, used: set<string>, cap: nat, s: State, step: Step)
    requires 1 <= cap && Inv(srv, used, cap, s) && Enabled(used, s, step) && Clean(s, step) && step.Release?
    ensures Inv(srv, used, cap, Do(srv, cap, s, step))
  {
    var c, k := step.c, s.clients[step.c].at.value;
    var cl, cn := s.clients[c], s.conns[k];
    assert ConnOk(srv, used, cap, NEW_CONN) by { assert Names([]) == {}; }
    if !MidBatch(cl, cn) { NothingPending(cl, cn); }
    ReplaceKeeps(srv, used, cap, s, c, k, cl.(at := None, parsed := false, open := !MidBatch(cl, cn)),
                 if step.reset then NEW_CONN else cn.(holder := None), []);
    assert s.batches + [] == s.batches;
  }

  lemma SendKeeps(srv: string -> string, used: set<string>, cap: nat, s: State, c: nat, m: Msg)
    requires 1 <= cap && Distinct(srv, used) && Inv(srv, used, cap, s) && Enabled(used, s, Send(c, m))
    ensures Inv(srv, used, cap, Do(srv, cap, s, Send(c, m)))
  {
    var k := s.clients[c].at.value;
    SayKeeps(srv, used, cap, s.clients[c], s.conns[k], m);
    var (said, conn) := Say(srv, cap, s.clients[c], s.conns[k], m);
    if Drains(m) { DrainKeeps(srv, used, cap, said, conn); }
    var (cl, cn, done) := Talk(srv, cap, s.clients[c], s.conns[k], m);
    ReplaceKeeps(srv, used, cap, s, c, k, cl, cn, done);
  }

  /** With nothing buffered the settings go in and nothing else changes but the unnamed statement. */
  lemma JoinedClean(cn: Conn, c: nat, splice: bool, replay: bool)
    requires cn.outbox == []
    ensures var joined := JoinedConn(cn, c, splice, replay);
            && joined.outbox == [] && joined.holder == Some(c) && joined.alive == cn.alive
            && joined.order == cn.order && joined.server.named == cn.server.named
  {
    FeedOne(cn.server, Simple);
    assert [] + [Simple] == [Simple];
  }

  lemma AttachKeeps(srv: string -> string, used: set<string>, cap: nat, s: State, step: Step)
    requires 1 <= cap && Inv(srv, used, cap, s) && Enabled(used, s, step) && step.Attach?
    ensures Inv(srv, used, cap, Do(srv, cap, s, step))
  {
    var c, k := step.c, step.k;
    var cl, cn := s.clients[c].(at := Some(k), parsed := false, talked := false),
                  JoinedConn(s.conns[k], c, step.splice, step.replay);
    JoinedClean(s.conns[k], c, step.splice, step.replay);
    PassBalance([]);
    ReplaceKeeps(srv, used, cap, s, c, k, cl, cn, []);
    assert s.batches + [] == s.batches;
  }

  lemma StepKeepsInv(srv: string -> string, used: set<string>, cap: nat, s: State, step: Step)
    requires 1 <= cap && Distinct(srv, used) && Inv(srv, used, cap, s) && Enabled(used, s, step) && Clean(s, step)
    ensures Inv(srv, used, cap, Do(srv, cap, s, step))
  {
    assert s.batches + [] == s.batches;
    match step {
      case Open => assert ClientOk(used, NEW_CLIENT);
      case Dial => assert ConnOk(srv, used, cap, NEW_CONN) by { assert Names([]) == {}; }
      case Attach(c, k, splice, replay) => AttachKeeps(srv, used, cap, s, step);
      case Send(c, m) => SendKeeps(srv, used, cap, s, c, m);
      case BareSync(c) => assert Conserved(Batch([Ready], [Ready], 0, 0));
      case Release(c, reset) => ReleaseKeeps(srv, used, cap, s, step);
      case Discard(c) =>
        var k := s.clients[c].at.value;
        ReplaceKeeps(srv, used, cap, s, c, k, s.clients[c].(at := None, open := false),
                     s.conns[k].(holder := None, alive := false), []);
    }
  }

  lemma {:induction false} RunKeepsInv(srv: string -> string, used: set<string>, cap: nat, s: State, steps: seq<Step>)
    requires 1 <= cap && Distinct(srv, used) && Inv(srv, used, cap, s) && CleanRun(srv, used, cap, s, steps)
    ensures Inv(srv, used, cap, Exec(srv, cap, s, steps))
    decreases |steps|
  {
    if steps != [] {
      StepKeepsInv(srv, used, cap, s, steps[0]);
      RunKeepsInv(srv, used, cap, Do(srv, cap, s, steps[0]), steps[1..]);
    }
  }
}
