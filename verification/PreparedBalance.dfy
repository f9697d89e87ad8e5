/** One message at a time: the names in the backend's cache stay the names the backend holds, and
    the replies stay balanced against those of a dedicated session. */
module PreparedBalance {
  import opened Counting
  import opened PreparedLru
  import opened PreparedWire

  // ---------------------------------------------------------------- counting replies

  function Pending(r: Reply, evicts: nat, injects: nat): nat {
    if r.CloseComplete? then evicts else if r.ParseComplete? then injects else 0
  }

  predicate BalancedAt(synth: seq<Reply>, rs: seq<Reply>, expected: seq<Reply>, evicts: nat, injects: nat, r: Reply) {
    Count(synth, r) + Count(rs, r) == Count(expected, r) + Pending(r, evicts, injects)
      && Pending(r, evicts, injects) <= Count(rs, r)
  }

  /** Synthesised and backend replies are what a dedicated session sends, plus exactly the ones the
      pending counters will drop. */
  ghost predicate Balanced(synth: seq<Reply>, rs: seq<Reply>, expected: seq<Reply>, evicts: nat, injects: nat) {
    forall r :: BalancedAt(synth, rs, expected, evicts, injects, r)
  }

  lemma BalanceAdds(s1: seq<Reply>, r1: seq<Reply>, x1: seq<Reply>, e1: nat, i1: nat, s2: seq<Reply>, r2: seq<Reply>,
                    x2: seq<Reply>, e2: nat, i2: nat)
    requires Balanced(s1, r1, x1, e1, i1) && Balanced(s2, r2, x2, e2, i2)
    ensures Balanced(s1 + s2, r1 + r2, x1 + x2, e1 + e2, i1 + i2)
  {
    var (s, rs, x, e, i) := (s1 + s2, r1 + r2, x1 + x2, e1 + e2, i1 + i2);
    forall r ensures BalancedAt(s, rs, x, e, i, r) {
      CountAppend(s1, s2, r); CountAppend(r1, r2, r); CountAppend(x1, x2, r);
      assert BalancedAt(s1, r1, x1, e1, i1, r) && BalancedAt(s2, r2, x2, e2, i2, r);
    }
  }

  ghost predicate SameReplies(a: seq<Reply>, b: seq<Reply>) { forall r :: Count(a, r) == Count(b, r) }

  lemma {:induction false} FilterCounts(rs: seq<Reply>, evicts: nat, injects: nat, r: Reply)
    ensures var (out, e, i) := Filter(rs, evicts, injects);
            && e <= evicts && i <= injects
            && Count(out, r) + Pending(r, evicts, injects) == Count(rs, r) + Pending(r, e, i)
            && (evicts <= Count(rs, CloseComplete) ==> e == 0)
            && (injects <= Count(rs, ParseComplete) ==> i == 0)
  {
    if rs != [] {
      if rs[0].CloseComplete? && evicts > 0 { FilterCounts(rs[1..], evicts - 1, injects, r); }
      else if rs[0].ParseComplete? && injects > 0 { FilterCounts(rs[1..], evicts, injects - 1, r); }
      else {
        FilterCounts(rs[1..], evicts, injects, r);
        var out := Filter(rs[1..], evicts, injects).0;
        assert ([rs[0]] + out)[1..] == out;
      }
    }
  }

  /** Draining a balanced batch leaves nothing pending and delivers what a dedicated session sends. */
  lemma DrainBalances(synth: seq<Reply>, rs: seq<Reply>, expected: seq<Reply>, evicts: nat, injects: nat)
    requires Balanced(synth, rs, expected, evicts, injects)
    ensures var (out, e, i) := Filter(rs, evicts, injects);
            e == 0 && i == 0 && SameReplies(synth + out, expected)
  {
    var out := Filter(rs, evicts, injects).0;
    DrainedAt(synth, rs, expected, evicts, injects, CloseComplete);
    forall r ensures Count(synth + out, r) == Count(expected, r) {
      DrainedAt(synth, rs, expected, evicts, injects, r);
      CountAppend(synth, out, r);
    }
  }

  lemma DrainedAt(synth: seq<Reply>, rs: seq<Reply>, expected: seq<Reply>, evicts: nat, injects: nat, r: Reply)
    requires Balanced(synth, rs, expected, evicts, injects)
    ensures var (out, e, i) := Filter(rs, evicts, injects);
            e == 0 && i == 0 && Count(synth, r) + Count(out, r) == Count(expected, r)
  {
    assert BalancedAt(synth, rs, expected, evicts, injects, CloseComplete);
    assert BalancedAt(synth, rs, expected, evicts, injects, ParseComplete);
    assert BalancedAt(synth, rs, expected, evicts, injects, r);
    DrainsAt(synth, rs, expected, evicts, injects, r);
  }

  lemma DrainsAt(synth: seq<Reply>, rs: seq<Reply>, expected: seq<Reply>, evicts: nat, injects: nat, r: Reply)
    requires BalancedAt(synth, rs, expected, evicts, injects, CloseComplete)
    requires BalancedAt(synth, rs, expected, evicts, injects, ParseComplete)
    requires BalancedAt(synth, rs, expected, evicts, injects, r)
    ensures var (out, e, i) := Filter(rs, evicts, injects);
            e == 0 && i == 0 && Count(synth, r) + Count(out, r) == Count(expected, r)
  {
    FilterEmpties(rs, evicts, injects, r);
  }

  lemma FilterEmpties(rs: seq<Reply>, evicts: nat, injects: nat, r: Reply)
    requires evicts <= Count(rs, CloseComplete) && injects <= Count(rs, ParseComplete)
    ensures var (out, e, i) := Filter(rs, evicts, injects);
            e == 0 && i == 0 && Count(out, r) + Pending(r, evicts, injects) == Count(rs, r)
  {
    FilterCounts(rs, evicts, injects, r);
  }

  // ---------------------------------------------------------------- one turn

  /** Distinct queries in use have distinct, non-empty server-side names. */
  ghost predicate Distinct(srv: string -> string, used: set<string>) {
    && (forall q :: q in used ==> srv(q) != "")
    && (forall q, p :: q in used && p in used && srv(q) == srv(p) ==> q == p)
  }

  /** The cache lists exactly the statements the server holds, each under its query's name. */
  ghost predicate Mirrors(srv: string -> string, used: set<string>, order: seq<string>, cap: nat,
                          named: map<string, string>) {
    && Fine(order, cap) && named.Keys == Names(order)
    && (forall n :: n in named ==> named[n] in used && srv(named[n]) == n)
  }

  lemma HeldIsTheQuery(srv: string -> string, used: set<string>, order: seq<string>, cap: nat,
                       named: map<string, string>, q: string)
    requires Distinct(srv, used) && Mirrors(srv, used, order, cap, named) && q in used && srv(q) in order
    ensures srv(q) in named && named[srv(q)] == q
  {
    assert srv(q) in Names(order);
  }

  lemma TouchMirrors(srv: string -> string, used: set<string>, order: seq<string>, cap: nat,
                     named: map<string, string>, n: string)
    requires Mirrors(srv, used, order, cap, named)
    ensures Mirrors(srv, used, Touched(order, n), cap, named)
  {
    TouchedKeeps(order, n, cap);
  }

  function Kept(named: map<string, string>, evicted: string): map<string, string> {
    if evicted == "" then named else named - {evicted}
  }

  function MissReplies(evicted: string): seq<Reply> {
    if evicted == "" then [ParseComplete] else [CloseComplete, ParseComplete]
  }

  /** A cache miss: the evicted statement goes, the new one comes, and it was not there before. */
  lemma MissMirrors(srv: string -> string, used: set<string>, order: seq<string>, cap: nat, named: map<string, string>,
                    q: string)
    requires Distinct(srv, used) && Mirrors(srv, used, order, cap, named) && q in used && srv(q) !in order
    ensures var (o, evicted) := Added(order, srv(q), cap);
            && srv(q) in o && srv(q) !in Kept(named, evicted)
            && Mirrors(srv, used, o, cap, Kept(named, evicted)[srv(q) := q])
  {
    AddedKeeps(order, srv(q), cap);
    assert srv(q) !in Names(order);
    var (o, evicted) := Added(order, srv(q), cap);
    var end := Kept(named, evicted)[srv(q) := q];
    assert "" !in Names(order);
    assert end.Keys == Names(o);
  }

  lemma FeedOne(s: Server, m: Msg)
    ensures Feed(s, [m]) == Apply(s, m)
  {
    assert [m][..0] == [];
    assert [] + Apply(s, m).1 == Apply(s, m).1;
  }

  /** The server takes an eviction and a Parse of an absent name without an error. */
  lemma FeedMiss(s: Server, evicted: string, n: string, q: string)
    requires n != "" && n !in Kept(s.named, evicted)
    ensures Feed(s, Evict(evicted) + [Parse(n, q)])
            == (s.(named := Kept(s.named, evicted)[n := q]), MissReplies(evicted))
  {
    FeedAppend(s, Evict(evicted), [Parse(n, q)]);
    var mid := s.(named := Kept(s.named, evicted));
    FeedOne(mid, Parse(n, q));
    if evicted != "" { FeedOne(s, CloseStmt(evicted)); }
    assert Feed(s, Evict(evicted)) == (mid, if evicted == "" then [] else [CloseComplete]);
    assert [] + [ParseComplete] == [ParseComplete]
           && [CloseComplete] + [ParseComplete] == [CloseComplete, ParseComplete];
  }

  /** What a turn does, seen from the server. */
  ghost predicate GoodTurn(srv: string -> string, used: set<string>, cap: nat, s: Server, t: Turn,
                           expected: seq<Reply>) {
    Mirrors(srv, used, t.order, cap, Feed(s, t.sends).0.named)
      && Balanced(t.synth, Feed(s, t.sends).1, expected, t.evicts, t.injects)
  }

  predicate Asks(next: Msg, n: string) { next == Bind(n) || next == DescribeStmt(n) }

  function Answer(next: Msg, q: string): Reply { if next.Bind? then BindComplete(q) else Described(q) }

  lemma HitTurn(srv: string -> string, used: set<string>, order: seq<string>, cap: nat, s: Server, q: string, next: Msg)
    requires Distinct(srv, used) && Mirrors(srv, used, order, cap, s.named) && q in used && srv(q) in order
             && Asks(next, srv(q))
    ensures Feed(s, [next]) == (s, [Answer(next, q)])
  {
    HeldIsTheQuery(srv, used, order, cap, s.named, q);
    FeedOne(s, next);
  }

  lemma EnsuredTurn(srv: string -> string, used: set<string>, order: seq<string>, cap: nat, s: Server, q: string,
                    next: Msg)
    requires Distinct(srv, used) && Mirrors(srv, used, order, cap, s.named) && q in used && Asks(next, srv(q))
    ensures var t := Ensured(order, cap, srv(q), q, next);
            GoodTurn(srv, used, cap, s, t, [Answer(next, q)]) && Feed(s, t.sends).0.unnamed == s.unnamed
  {
    var t := Ensured(order, cap, srv(q), q, next);
    var reply := Answer(next, q);
    PassBalance([reply]);
    if srv(q) in order {
      TouchMirrors(srv, used, order, cap, s.named, srv(q));
      HitTurn(srv, used, order, cap, s, q, next);
    } else {
      MissMirrors(srv, used, order, cap, s.named, q);
      var (o, evicted) := Added(order, srv(q), cap);
      FeedMiss(s, evicted, srv(q), q);
      var end := s.(named := Kept(s.named, evicted)[srv(q) := q]);
      HitTurn(srv, used, o, cap, end, q, next);
      FeedAppend(s, Evict(evicted) + [Parse(srv(q), q)], [next]);
      assert t.sends == (Evict(evicted) + [Parse(srv(q), q)]) + [next];
      InjectedBalance(evicted, reply);
    }
  }

  /** The replies to an eviction and an injected Parse are the pending ones. */
  lemma InjectedBalance(evicted: string, reply: Reply)
    ensures Balanced([], MissReplies(evicted) + [reply], [reply], |Evict(evicted)|, 1)
  {
    var (rs, e) := (MissReplies(evicted) + [reply], |Evict(evicted)|);
    forall r ensures BalancedAt([], rs, [reply], e, 1, r) {
      CountAppend(MissReplies(evicted), [reply], r);
      CountAppend([CloseComplete], [ParseComplete], r);
      assert [CloseComplete] + [ParseComplete] == [CloseComplete, ParseComplete];
    }
  }

  lemma ForwardedBalance(evicted: string)
    ensures Balanced([], MissReplies(evicted), [ParseComplete], |Evict(evicted)|, 0)
  {
    var (rs, e) := (MissReplies(evicted), |Evict(evicted)|);
    forall r ensures BalancedAt([], rs, [ParseComplete], e, 0, r) {
      CountAppend([CloseComplete], [ParseComplete], r);
      assert [CloseComplete] + [ParseComplete] == [CloseComplete, ParseComplete];
    }
  }

  lemma PassBalance(rs: seq<Reply>)
    ensures Balanced([], rs, rs, 0, 0)
  {
    forall r ensures BalancedAt([], rs, rs, 0, 0, r) { }
  }

  lemma SynthBalance(rs: seq<Reply>)
    ensures Balanced(rs, [], rs, 0, 0)
  {
    forall r ensures BalancedAt(rs, [], rs, 0, 0, r) { }
  }

  predicate UsesUnnamed(m: Msg) { (m.Bind? && m.stmt == "") || (m.DescribeStmt? && m.name == "") }

  ghost predicate Serves(srv: string -> string, used: set<string>, cap: nat, s: Server, t: Turn, ref: Server, m: Msg) {
    && GoodTurn(srv, used, cap, s, t, Apply(ref, m).1)
    && (s.unnamed == ref.unnamed || (m.Parse? && m.name == "")
        ==> Feed(s, t.sends).0.unnamed == Apply(ref, m).0.unnamed)
  }

  lemma ParseTurn(srv: string -> string, used: set<string>, order: seq<string>, cap: nat, s: Server, ref: Server,
                  prep: map<string, string>, m: Msg)
    requires Distinct(srv, used) && Mirrors(srv, used, order, cap, s.named)
    requires m.Parse? && m.name != "" && m.query in used && m.name !in ref.named
    ensures Serves(srv, used, cap, s, Intercept(srv, prep, order, cap, m), ref, m)
  {
    var n := srv(m.query);
    if n in order {
      TouchMirrors(srv, used, order, cap, s.named, n);
      SynthBalance([ParseComplete]);
    } else {
      MissMirrors(srv, used, order, cap, s.named, m.query);
      FeedMiss(s, Added(order, n, cap).1, n, m.query);
      ForwardedBalance(Added(order, n, cap).1);
    }
  }

  /** Every message: the cache and the server stay in step, the replies balance, and the unnamed
      statements of the two sessions stay equal once they are. */
  lemma TurnServes(srv: string -> string, used: set<string>, order: seq<string>, cap: nat, s: Server, ref: Server,
                   m: Msg)
    requires Distinct(srv, used) && Mirrors(srv, used, order, cap, s.named)
    requires forall n :: n in ref.named ==> n != "" && ref.named[n] in used
    requires Failed !in Apply(ref, m).1 && (m.Parse? ==> m.query in used)
    requires UsesUnnamed(m) ==> s.unnamed == ref.unnamed
    ensures Serves(srv, used, cap, s, Intercept(srv, Observed(ref.named, m), order, cap, m), ref, m)
  {
    var prep := Observed(ref.named, m);
    if m.Parse? && m.name != "" {
      ParseTurn(srv, used, order, cap, s, ref, prep, m);
    } else if m.Bind? && m.stmt != "" {
      EnsuredTurn(srv, used, order, cap, s, ref.named[m.stmt], Bind(srv(ref.named[m.stmt])));
    } else if m.DescribeStmt? && m.name != "" {
      EnsuredTurn(srv, used, order, cap, s, ref.named[m.name], DescribeStmt(srv(ref.named[m.name])));
    } else if m.CloseStmt? && m.name != "" {
      SynthBalance([CloseComplete]);
    } else {
      FeedOne(s, m);
      PassBalance(Apply(s, m).1);
    }
  }
}
