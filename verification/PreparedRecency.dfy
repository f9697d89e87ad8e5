/** Which statement a backend loses when its cache is full, told by what the clients asked for. */
module PreparedRecency {
  import opened Counting
  import opened Options
  import opened PreparedLru
  import opened PreparedWire
  import opened PreparedSim

  /** A step in which a client asks for a statement on a connection, or any other step. */
  datatype Use = NoUse | Use(k: nat, name: string)

  /** The server-side name of the statement a client's own message is about: the query of a named
      Parse, or what the client's dedicated server holds under the name it binds or describes. */
  function Wanted(srv: string -> string, ref: Server, m: Msg): Option<string> {
    match m
    case Parse(n, q) => if n == "" then None else Some(srv(q))
    case Bind(n) => if n in ref.named then Some(srv(ref.named[n])) else None
    case DescribeStmt(n) => if n in ref.named then Some(srv(ref.named[n])) else None
    case _ => None
  }

  function UseOf(srv: string -> string, s: State, step: Step): Use {
    if step.Send? && Attached(s, step.c) && Wanted(srv, s.clients[step.c].ref, step.m).Some?
    then Use(s.clients[step.c].at.value, Wanted(srv, s.clients[step.c].ref, step.m).value)
    else NoUse
  }

  /** What every step of a run asks for. */
  function Uses(srv: string -> string, cap: nat, s: State, steps: seq<Step>): seq<Use>
    requires 1 <= cap
    decreases |steps|
  {
    if steps == [] then [] else [UseOf(srv, s, steps[0])] + Uses(srv, cap, Do(srv, cap, s, steps[0]), steps[1..])
  }

  /** How many steps had been taken when the name was last asked for on the connection. */
  function LastAsked(us: seq<Use>, k: nat, n: string): nat {
    if us == [] then 0 else if us[|us| - 1] == Use(k, n) then |us| else LastAsked(us[..|us| - 1], k, n)
  }

  predicate InOrder(us: seq<Use>, k: nat, order: seq<string>) {
    forall i, j :: 0 <= i < j < |order| ==> LastAsked(us, k, order[j]) < LastAsked(us, k, order[i])
  }

  lemma {:induction false} AskedBound(us: seq<Use>, k: nat, n: string)
    ensures LastAsked(us, k, n) <= |us|
  {
    if us != [] { AskedBound(us[..|us| - 1], k, n); }
  }

  lemma AskedNext(us: seq<Use>, u: Use, k: nat, n: string)
    ensures LastAsked(us + [u], k, n) == if u == Use(k, n) then |us| + 1 else LastAsked(us, k, n)
  {
    assert (us + [u])[..|us|] == us;
  }

  lemma OthersStay(us: seq<Use>, u: Use, k: nat, order: seq<string>)
    requires InOrder(us, k, order) && forall n :: n in order ==> u != Use(k, n)
    ensures InOrder(us + [u], k, order)
  {
    forall i | 0 <= i < |order| ensures LastAsked(us + [u], k, order[i]) == LastAsked(us, k, order[i]) {
      assert order[i] in order;
      AskedNext(us, u, k, order[i]);
    }
  }

  lemma NewestInFront(us: seq<Use>, k: nat, n: string, rest: seq<string>)
    requires InOrder(us, k, rest) && n !in rest
    ensures InOrder(us + [Use(k, n)], k, [n] + rest)
  {
    var u, o := Use(k, n), [n] + rest;
    OthersStay(us, u, k, rest);
    AskedNext(us, u, k, n);
    forall j | 1 <= j < |o| ensures LastAsked(us + [u], k, o[j]) < LastAsked(us + [u], k, n) {
      assert o[j] in rest;
      AskedNext(us, u, k, o[j]);
      AskedBound(us, k, o[j]);
    }
  }

  lemma {:induction false} WithoutStays(us: seq<Use>, k: nat, s: seq<string>, n: string)
    requires InOrder(us, k, s) && NoDup(s)
    ensures InOrder(us, k, Without(s, n))
  {
    if s != [] && s[0] != n {
      WithoutStays(us, k, s[1..], n);
      WithoutKeeps(s[1..], n);
      var w := Without(s[1..], n);
      forall j | 0 <= j < |w| ensures LastAsked(us, k, w[j]) < LastAsked(us, k, s[0]) {
        assert w[j] in Names(w);
        assert w[j] in s[1..];
      }
    }
  }

  /** A cache in order of last use. */
  predicate Recent(us: seq<Use>, k: nat, order: seq<string>, cap: nat) { Fine(order, cap) && InOrder(us, k, order) }

  /** A use of a name, there already or not, keeps the order. */
  lemma UsedKeeps(us: seq<Use>, k: nat, order: seq<string>, cap: nat, n: string)
    requires Recent(us, k, order, cap) && n != ""
    ensures Recent(us + [Use(k, n)], k, Added(order, n, cap).0, cap)
  {
    AddedKeeps(order, n, cap);
    if n in order {
      WithoutStays(us, k, order, n);
      WithoutKeeps(order, n);
      assert n !in Names(Without(order, n));
      NewestInFront(us, k, n, Without(order, n));
    } else {
      NewestInFront(us, k, n, if |order| < cap then order else order[..|order| - 1]);
    }
  }

  /** Every query in use has a server-side name. */
  ghost predicate Named(srv: string -> string, used: set<string>) { forall q :: q in used ==> srv(q) != "" }

  /** The client's name table is its dedicated server's. */
  ghost predicate Known(used: set<string>, cl: Client) {
    cl.prep == cl.ref.named && forall n :: n in cl.ref.named ==> n != "" && cl.ref.named[n] in used
  }

  /** What a message does to the cache: a use of the statement it is about, and nothing otherwise. */
  lemma TurnUses(srv: string -> string, used: set<string>, cap: nat, cl: Client, order: seq<string>, m: Msg)
    requires 1 <= cap && Named(srv, used) && Known(used, cl) && Proper(used, cl, m)
    ensures var t, w := Intercept(srv, Observed(cl.prep, m), order, cap, m), Wanted(srv, cl.ref, m);
            && t.order == (if w.Some? then Added(order, w.value, cap).0 else order)
            && (w.Some? ==> w.value != "")
  {
  }

  ghost predicate Kept(srv: string -> string, used: set<string>, cap: nat, s: State, us: seq<Use>) {
    && Named(srv, used)
    && (forall c :: 0 <= c < |s.clients| ==> Known(used, s.clients[c]))
    && (forall k :: 0 <= k < |s.conns| ==> Recent(us, k, s.conns[k].order, cap))
  }

  lemma SaidKnown(srv: string -> string, used: set<string>, cap: nat, cl: Client, cn: Conn, m: Msg)
    requires 1 <= cap && Known(used, cl) && Proper(used, cl, m)
    ensures var (cl', cn', _) := Talk(srv, cap, cl, cn, m);
            && Known(used, cl') && cl'.at == cl.at
            && cn'.order == Intercept(srv, Observed(cl.prep, m), cn.order, cap, m).order
  {
    NamesFollow(used, cl.ref, m);
  }

  lemma SendKeepsOrder(srv: string -> string, used: set<string>, cap: nat, s: State, c: nat, m: Msg, us: seq<Use>)
    requires 1 <= cap && Kept(srv, used, cap, s, us) && Enabled(used, s, Send(c, m))
    ensures Kept(srv, used, cap, Do(srv, cap, s, Send(c, m)), us + [UseOf(srv, s, Send(c, m))])
  {
    var k := s.clients[c].at.value;
    var cl, cn := s.clients[c], s.conns[k];
    var u := UseOf(srv, s, Send(c, m));
    SaidKnown(srv, used, cap, cl, cn, m);
    TurnUses(srv, used, cap, cl, cn.order, m);
    if u.Use? { UsedKeeps(us, k, cn.order, cap, u.name); } else { OthersStay(us, u, k, cn.order); }
    forall j | 0 <= j < |s.conns| && j != k ensures Recent(us + [u], j, s.conns[j].order, cap) {
      OthersStay(us, u, j, s.conns[j].order);
    }
  }

  lemma StepKeepsOrder(srv: string -> string, used: set<string>, cap: nat, s: State, step: Step, us: seq<Use>)
    requires 1 <= cap && Kept(srv, used, cap, s, us) && Enabled(used, s, step)
    ensures Kept(srv, used, cap, Do(srv, cap, s, step), us + [UseOf(srv, s, step)])
  {
    if step.Send? {
      SendKeepsOrder(srv, used, cap, s, step.c, step.m, us);
    } else {
      IdleKeeps(srv, used, cap, s, step);
      var t := Do(srv, cap, s, step);
      forall k | 0 <= k < |t.conns| ensures Recent(us + [NoUse], k, t.conns[k].order, cap) {
        OthersStay(us, NoUse, k, t.conns[k].order);
      }
    }
  }

  /** No other step touches a cache, but for a reset, which empties it, and a dial. */
  lemma IdleKeeps(srv: string -> string, used: set<string>, cap: nat, s: State, step: Step)
    requires 1 <= cap && Enabled(used, s, step) && !step.Send?
    requires forall c :: 0 <= c < |s.clients| ==> Known(used, s.clients[c])
    ensures var t := Do(srv, cap, s, step);
            && (forall c :: 0 <= c < |t.clients| ==> Known(used, t.clients[c]))
            && |t.conns| >= |s.conns|
            && (forall k :: 0 <= k < |t.conns| ==> t.conns[k].order == []
                                                   || (k < |s.conns| && t.conns[k].order == s.conns[k].order))
  {
  }

  lemma {:induction false} RunKeepsOrder(srv: string -> string, used: set<string>, cap: nat, s: State,
                                         steps: seq<Step>, us: seq<Use>)
    requires 1 <= cap && Kept(srv, used, cap, s, us) && Runs(srv, used, cap, s, steps)
    ensures Kept(srv, used, cap, Exec(srv, cap, s, steps), us + Uses(srv, cap, s, steps))
    decreases |steps|
  {
    if steps == [] {
      assert us + [] == us;
    } else {
      StepKeepsOrder(srv, used, cap, s, steps[0], us);
      var t, u := Do(srv, cap, s, steps[0]), [UseOf(srv, s, steps[0])];
      RunKeepsOrder(srv, used, cap, t, steps[1..], us + u);
      assert (us + u) + Uses(srv, cap, t, steps[1..]) == us + (u + Uses(srv, cap, t, steps[1..]));
    }
  }

  /** What a client's message adds to the buffer of the backend it is attached to. */
  function Buffered(srv: string -> string, cap: nat, s: State, c: nat, m: Msg): seq<Msg>
    requires 1 <= cap && Attached(s, c)
  {
    var cn := s.conns[s.clients[c].at.value];
    Say(srv, cap, s.clients[c], cn, m).1.outbox[|cn.outbox|..]
  }

  /** The full cache lists the name, and every other name it lists has been asked for since that one. */
  predicate LeastAsked(us: seq<Use>, k: nat, order: seq<string>, cap: nat, name: string) {
    && name in order && |order| == cap
    && forall n :: n in order && n != name ==> LastAsked(us, k, name) < LastAsked(us, k, n)
  }

  lemma LastIsLeast(us: seq<Use>, k: nat, order: seq<string>, cap: nat)
    requires InOrder(us, k, order) && order != [] && |order| == cap
    ensures LeastAsked(us, k, order, cap, order[|order| - 1])
  {
  }

  lemma EvictedIsLast(srv: string -> string, cap: nat, prep: map<string, string>, order: seq<string>, m: Msg, x: Msg)
    requires 1 <= cap && Fine(order, cap)
    requires x in Intercept(srv, prep, order, cap, m).sends && x.CloseStmt? && x.name != ""
    ensures |order| == cap && x.name == order[cap - 1]
  {
  }

  /** In every run, whoever the clients are, a statement that the pooler closes on a backend to make
      room is one the full cache of that backend lists, and every other statement it lists has been
      asked for there since that one last was. */
  lemma EvictsLeastAsked(srv: string -> string, used: set<string>, cap: nat, steps: seq<Step>, c: nat, m: Msg, x: Msg)
    requires 1 <= cap && Named(srv, used) && Runs(srv, used, cap, INIT, steps)
    requires Enabled(used, Exec(srv, cap, INIT, steps), Send(c, m))
    requires x in Buffered(srv, cap, Exec(srv, cap, INIT, steps), c, m) && x.CloseStmt? && x.name != ""
    ensures var s := Exec(srv, cap, INIT, steps);
            var k := s.clients[c].at.value;
            LeastAsked(Uses(srv, cap, INIT, steps), k, s.conns[k].order, cap, x.name)
  {
    var s, us := Exec(srv, cap, INIT, steps), Uses(srv, cap, INIT, steps);
    assert [] + us == us;
    RunKeepsOrder(srv, used, cap, INIT, steps, []);
    SendEvictsLeast(srv, cap, s, c, m, x, us);
  }

  lemma SendEvictsLeast(srv: string -> string, cap: nat, s: State, c: nat, m: Msg, x: Msg, us: seq<Use>)
    requires 1 <= cap && Attached(s, c) && Recent(us, s.clients[c].at.value, s.conns[s.clients[c].at.value].order, cap)
    requires x in Buffered(srv, cap, s, c, m) && x.CloseStmt? && x.name != ""
    ensures var k := s.clients[c].at.value; LeastAsked(us, k, s.conns[k].order, cap, x.name)
  {
    var k := s.clients[c].at.value;
    var cl, cn := s.clients[c], s.conns[k];
    var t := Intercept(srv, Observed(cl.prep, m), cn.order, cap, m);
    assert Buffered(srv, cap, s, c, m) == t.sends;
    EvictedIsLast(srv, cap, Observed(cl.prep, m), cn.order, m, x);
    LastIsLeast(us, k, cn.order, cap);
  }
}
