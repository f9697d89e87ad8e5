/** Prepared-statement interception: what the pooler sends, synthesises and filters for each client
    message, beside an abstract PostgreSQL session to compare with. */
module PreparedWire {
  import opened Options
  import opened PreparedLru

  // ---------------------------------------------------------------- an abstract server session

  datatype Msg =
    | Parse(name: string, query: string)
    | Bind(stmt: string)
    | DescribeStmt(name: string)
    | CloseStmt(name: string)
    | ClosePortal
    | OnPortal
    | Flush
    | Sync
    | Simple

  /** Replies carry the SQL they stand for, so that equal replies mean equal statements. */
  datatype Reply =
    | ParseComplete
    | BindComplete(sql: string)
    | Described(sql: string)
    | CloseComplete
    | Data
    | Ready
    | Failed

  datatype Server = Server(named: map<string, string>, unnamed: Option<string>)

  const FRESH: Server := Server(map[], None)

  function Lookup(s: Server, name: string): Option<string> {
    if name == "" then s.unnamed else if name in s.named then Some(s.named[name]) else None
  }

  function Apply(s: Server, m: Msg): (Server, seq<Reply>) {
    match m
    case Parse(n, q) =>
      if n == "" then (s.(unnamed := Some(q)), [ParseComplete])
      else if n in s.named then (s, [Failed])
      else (s.(named := s.named[n := q]), [ParseComplete])
    case Bind(n) => (s, if Lookup(s, n).Some? then [BindComplete(Lookup(s, n).value)] else [Failed])
    case DescribeStmt(n) => (s, if Lookup(s, n).Some? then [Described(Lookup(s, n).value)] else [Failed])
    case CloseStmt(n) => (if n == "" then s.(unnamed := None) else s.(named := s.named - {n}), [CloseComplete])
    case ClosePortal => (s, [CloseComplete])
    case OnPortal => (s, [Data])
    case Flush => (s, [])
    case Sync => (s, [Ready])
    case Simple => (s.(unnamed := None), [Data, Ready])
  }

  function Feed(s: Server, ms: seq<Msg>): (Server, seq<Reply>)
    decreases |ms|
  {
    if ms == [] then (s, [])
    else
      var (mid, before) := Feed(s, ms[..|ms| - 1]);
      var (end, last) := Apply(mid, ms[|ms| - 1]);
      (end, before + last)
  }

  lemma {:induction false} FeedAppend(s: Server, a: seq<Msg>, b: seq<Msg>)
    ensures var (mid, before) := Feed(s, a);
            var (end, after) := Feed(mid, b);
            Feed(s, a + b) == (end, before + after)
    decreases |b|
  {
    if b == [] {
      assert a + b == a && Feed(s, a).1 + [] == Feed(s, a).1;
    } else {
      FeedAppend(s, a, b[..|b| - 1]);
      assert (a + b)[..|a + b| - 1] == a + b[..|b| - 1];
      var (mid, before) := Feed(s, a);
      var (end, after) := Feed(mid, b[..|b| - 1]);
      assert before + (after + Apply(end, b[|b| - 1]).1) == (before + after) + Apply(end, b[|b| - 1]).1;
    }
  }

  // ---------------------------------------------------------------- the decisions

  /** What one client message makes the pooler do with the attached backend. */
  datatype Turn = Turn(order: seq<string>, sends: seq<Msg>, synth: seq<Reply>, evicts: nat, injects: nat)

  /** Observe and Close on the client's own name table. */
  function Observed(prep: map<string, string>, m: Msg): map<string, string> {
    match m
    case Parse(n, q) => if n == "" then prep else prep[n := q]
    case CloseStmt(n) => if n == "" then prep else prep - {n}
    case _ => prep
  }

  function Evict(evicted: string): seq<Msg> { if evicted == "" then [] else [CloseStmt(evicted)] }

  /** Make sure the backend has the statement before `then` is forwarded. */
  function Ensured(order: seq<string>, cap: nat, server: string, q: string, next: Msg): Turn
    requires 1 <= cap
  {
    if server in order then Turn(Touched(order, server), [next], [], 0, 0)
    else
      var (o, evicted) := Added(order, server, cap);
      Turn(o, Evict(evicted) + [Parse(server, q), next], [], |Evict(evicted)|, 1)
  }

  function Intercept(srv: string -> string, prep: map<string, string>, order: seq<string>, cap: nat, m: Msg): Turn
    requires 1 <= cap
  {
    match m
    case Parse(n, q) =>
      if n == "" then Turn(order, [m], [], 0, 0)
      else if srv(q) in order then Turn(Touched(order, srv(q)), [], [ParseComplete], 0, 0)
      else
        var (o, evicted) := Added(order, srv(q), cap);
        Turn(o, Evict(evicted) + [Parse(srv(q), q)], [], |Evict(evicted)|, 0)
    case Bind(n) =>
      if n == "" || n !in prep then Turn(order, [m], [], 0, 0)
      else Ensured(order, cap, srv(prep[n]), prep[n], Bind(srv(prep[n])))
    case DescribeStmt(n) =>
      if n == "" || n !in prep then Turn(order, [m], [], 0, 0)
      else Ensured(order, cap, srv(prep[n]), prep[n], DescribeStmt(srv(prep[n])))
    case CloseStmt(n) =>
      if n == "" then Turn(order, [m], [], 0, 0) else Turn(order, [], [CloseComplete], 0, 0)
    case _ => Turn(order, [m], [], 0, 0)
  }

  predicate Drains(m: Msg) { m.Sync? || m.Simple? }

  /** The decode loop's filter: the first `evicts` CloseCompletes and the first `injects`
      ParseCompletes are dropped. */
  function Filter(rs: seq<Reply>, evicts: nat, injects: nat): (seq<Reply>, nat, nat) {
    if rs == [] then ([], evicts, injects)
    else if rs[0].CloseComplete? && evicts > 0 then Filter(rs[1..], evicts - 1, injects)
    else if rs[0].ParseComplete? && injects > 0 then Filter(rs[1..], evicts, injects - 1)
    else
      var (out, e, i) := Filter(rs[1..], evicts, injects);
      ([rs[0]] + out, e, i)
  }

  // ---------------------------------------------------------------- the code that takes them

  class PrepareCache {
    var stmts: map<string, string>

    constructor ()
      ensures stmts == map[]
    {
      stmts := map[];
    }

    /** Returns the query the name stood for before, if any. */
    method Observe(name: string, query: string) returns (prev: Option<string>)
      modifies this
      ensures stmts == Observed(old(stmts), Parse(name, query))
      ensures prev == if name != "" && name in old(stmts) then Some(old(stmts)[name]) else None
    {
      if name == "" { return None; }
      prev := if name in stmts then Some(stmts[name]) else None;
      stmts := stmts[name := query];
    }

    method Close(name: string) returns (was: bool)
      modifies this
      ensures stmts == Observed(old(stmts), CloseStmt(name))
      ensures was <==> name != "" && name in old(stmts)
    {
      if name == "" { return false; }
      if name in stmts {
        stmts := stmts - {name};
        return true;
      }
      assert stmts - {name} == stmts;
      was := false;
    }

    method ServerNameOf(srv: string -> string, name: string) returns (r: string)
      ensures r == if name != "" && name in stmts then srv(stmts[name]) else ""
    {
      r := if name != "" && name in stmts then srv(stmts[name]) else "";
    }
  }

  /** One client session with a backend attached: its name table, the backend's cache, what was
      written to either side, and the two pending counters. */
  class Session {
    const srv: string -> string
    const prep: PrepareCache
    const cache: PreparedCache
    var toBackend: seq<Msg>
    var toClient: seq<Reply>
    var pendingEvictCloseCompletes: nat
    var pendingInjectedParseCompletes: nat

    ghost predicate Valid()
      reads this, cache
    {
      cache.Valid()
    }

    constructor (srv: string -> string, prep: PrepareCache, cache: PreparedCache)
      requires cache.Valid()
      ensures Valid() && this.srv == srv && this.prep == prep && this.cache == cache
      ensures toBackend == [] && toClient == []
      ensures pendingEvictCloseCompletes == 0 && pendingInjectedParseCompletes == 0
    {
      this.srv, this.prep, this.cache := srv, prep, cache;
      toBackend, toClient, pendingEvictCloseCompletes, pendingInjectedParseCompletes := [], [], 0, 0;
    }

    twostate predicate Took(t: Turn)
      reads this, cache
    {
      && cache.order == t.order
      && toBackend == old(toBackend) + t.sends
      && toClient == old(toClient) + t.synth
      && pendingEvictCloseCompletes == old(pendingEvictCloseCompletes) + t.evicts
      && pendingInjectedParseCompletes == old(pendingInjectedParseCompletes) + t.injects
    }

    method SendEviction(evicted: string)
      modifies this`toBackend, this`pendingEvictCloseCompletes
      ensures toBackend == old(toBackend) + Evict(evicted)
      ensures pendingEvictCloseCompletes == old(pendingEvictCloseCompletes) + |Evict(evicted)|
    {
      if evicted != "" {
        toBackend := toBackend + [CloseStmt(evicted)];
        pendingEvictCloseCompletes := pendingEvictCloseCompletes + 1;
      }
    }

    method EnsureBackendPrepared(query: string, ghost next: Msg)
      requires Valid()
      modifies this, cache
      ensures Valid()
      ensures var t := Ensured(old(cache.order), cache.cap, srv(query), query, next);
              && cache.order == t.order && toBackend + [next] == old(toBackend) + t.sends && toClient == old(toClient)
              && pendingEvictCloseCompletes == old(pendingEvictCloseCompletes) + t.evicts
              && pendingInjectedParseCompletes == old(pendingInjectedParseCompletes) + t.injects
    {
      var present := cache.Has(srv(query));
      if present {
        cache.Touch(srv(query));
        return;
      }
      var evicted := cache.Add(srv(query));
      SendEviction(evicted);
      toBackend := toBackend + [Parse(srv(query), query)];
      pendingInjectedParseCompletes := pendingInjectedParseCompletes + 1;
      assert toBackend + [next] == old(toBackend) + (Evict(evicted) + [Parse(srv(query), query), next]);
    }

    /** prepareInterceptForward and the forwarding that follows it. */
    method PrepareInterceptForward(m: Msg)
      requires Valid()
      requires m.Parse? && m.name != "" && m.name in prep.stmts ==> prep.stmts[m.name] == m.query
      requires m.Parse? && m.name != "" ==> srv(m.query) != ""
      modifies this, cache, prep
      ensures Valid() && prep.stmts == Observed(old(prep.stmts), m)
      ensures Took(Intercept(srv, prep.stmts, old(cache.order), cache.cap, m))
    {
      var forward := m;
      match m {
        case Parse(n, q) =>
          if n != "" {
            assert n in prep.stmts ==> prep.stmts[n := q] == prep.stmts;
            var server := prep.ServerNameOf(srv, n);
            if server == "" {
              server := srv(q);
              var _ := prep.Observe(n, q);
            }
            var present := cache.Has(server);
            if present {
              cache.Touch(server);
              toClient := toClient + [ParseComplete];
              return;
            }
            var evicted := cache.Add(server);
            SendEviction(evicted);
            forward := Parse(server, q);
            assert toBackend + [forward] == old(toBackend) + (Evict(evicted) + [forward]);
          }
        case Bind(n) =>
          if n != "" && n in prep.stmts {
            forward := Bind(srv(prep.stmts[n]));
            EnsureBackendPrepared(prep.stmts[n], forward);
          }
        case DescribeStmt(n) =>
          if n != "" && n in prep.stmts {
            forward := DescribeStmt(srv(prep.stmts[n]));
            EnsureBackendPrepared(prep.stmts[n], forward);
          }
        case CloseStmt(n) =>
          if n != "" {
            var _ := prep.Close(n);
            toClient := toClient + [CloseComplete];
            return;
          }
        case _ =>
      }
      toBackend := toBackend + [forward];
    }

    /** One client message: the observer hook first, then the interception. */
    method Handle(m: Msg)
      requires Valid()
      requires m.Parse? && m.name != "" ==> srv(m.query) != ""
      modifies this, cache, prep
      ensures Valid() && prep.stmts == Observed(old(prep.stmts), m)
      ensures Took(Intercept(srv, prep.stmts, old(cache.order), cache.cap, m))
    {
      match m {
        case Parse(n, q) => var _ := prep.Observe(n, q);
        case CloseStmt(n) => var _ := prep.Close(n);
        case _ =>
      }
      assert Observed(prep.stmts, m) == prep.stmts;
      PrepareInterceptForward(m);
    }

    /** The drain up to ReadyForQuery. With nothing pending the raw path forwards everything, and
        otherwise the decode loop filters. */
    method DrainBackendUntilRFQ(rs: seq<Reply>)
      modifies this
      ensures var f := Filter(rs, old(pendingEvictCloseCompletes), old(pendingInjectedParseCompletes));
              && toClient == old(toClient) + f.0 && toBackend == old(toBackend)
              && pendingEvictCloseCompletes == f.1 && pendingInjectedParseCompletes == f.2
    {
      if pendingEvictCloseCompletes == 0 && pendingInjectedParseCompletes == 0 {
        NothingFiltered(rs);
        toClient := toClient + rs;
        return;
      }
      ghost var all := Filter(rs, pendingEvictCloseCompletes, pendingInjectedParseCompletes);
      var k := 0;
      ghost var sent: seq<Reply> := [];
      while k < |rs|
        invariant 0 <= k <= |rs| && toBackend == old(toBackend) && toClient == old(toClient) + sent
        invariant var f := Filter(rs[k..], pendingEvictCloseCompletes, pendingInjectedParseCompletes);
                  all.0 == sent + f.0 && all.1 == f.1 && all.2 == f.2
      {
        var bmsg := rs[k];
        assert rs[k..][0] == bmsg && rs[k..][1..] == rs[k + 1..];
        k := k + 1;
        if bmsg.CloseComplete? && pendingEvictCloseCompletes > 0 {
          pendingEvictCloseCompletes := pendingEvictCloseCompletes - 1;
          continue;
        }
        if bmsg.ParseComplete? && pendingInjectedParseCompletes > 0 {
          pendingInjectedParseCompletes := pendingInjectedParseCompletes - 1;
          continue;
        }
        toClient := toClient + [bmsg];
        sent := sent + [bmsg];
      }
    }
  }

  lemma {:induction false} NothingFiltered(rs: seq<Reply>)
    ensures Filter(rs, 0, 0) == (rs, 0, 0)
  {
    if rs != [] {
      NothingFiltered(rs[1..]);
      assert rs == [rs[0]] + rs[1..];
    }
  }
}
