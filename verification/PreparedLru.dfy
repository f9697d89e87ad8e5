/** The per-backend cache of prepared-statement names: a map beside a list kept from the most to
    the least recently used name. */
module PreparedLru {
  import opened Counting

  const DEFAULT_CAPACITY: nat := 250

  ghost function Names(s: seq<string>): set<string> { set n | n in s }

  predicate Fine(order: seq<string>, cap: nat) {
    1 <= cap && |order| <= cap && NoDup(order) && "" !in order
  }

  function Touched(order: seq<string>, n: string): seq<string> {
    if n in order then [n] + Without(order, n) else order
  }

  /** The list after an Add, and the name it pushed out ("" for none). */
  function Added(order: seq<string>, n: string, cap: nat): (seq<string>, string)
    requires 1 <= cap
  {
    if n == "" then (order, "")
    else if n in order then (Touched(order, n), "")
    else if |order| < cap then ([n] + order, "")
    else ([n] + order[..|order| - 1], if order == [] then "" else order[|order| - 1])
  }

  lemma {:induction false} WithoutKeeps(s: seq<string>, n: string)
    requires NoDup(s)
    ensures NoDup(Without(s, n)) && Names(Without(s, n)) == Names(s) - {n}
    ensures |Without(s, n)| == |s| - if n in s then 1 else 0
  {
    if s != [] {
      assert s == [s[0]] + s[1..];
      if s[0] == n {
        assert n !in s[1..];
        assert Names(s) == Names(s[1..]) + {n};
      } else {
        WithoutKeeps(s[1..], n);
        var w := Without(s[1..], n);
        assert s[0] !in s[1..];
        assert s[0] !in w by { assert s[0] !in Names(s[1..]); assert s[0] !in Names(w); }
        assert Names([s[0]] + w) == Names(w) + {s[0]};
        assert Names(s) == Names(s[1..]) + {s[0]};
      }
    }
  }

  lemma TouchedKeeps(order: seq<string>, n: string, cap: nat)
    requires Fine(order, cap)
    ensures Fine(Touched(order, n), cap) && Names(Touched(order, n)) == Names(order)
  {
    WithoutKeeps(order, n);
    var w := Without(order, n);
    assert n !in Names(w) && "" !in Names(order);
    assert Names([n] + w) == Names(w) + {n};
    assert n in order ==> n in Names(order);
    assert "" !in Names(Touched(order, n));
  }

  /** An Add puts the name in, takes out the evicted name and nothing else, and never exceeds the
      capacity; it evicts only a full cache that lacks the name, and never the name just added. */
  lemma AddedKeeps(order: seq<string>, n: string, cap: nat)
    requires Fine(order, cap) && n != ""
    ensures var (o, evicted) := Added(order, n, cap);
            && Fine(o, cap) && n in o && o[0] == n
            && Names(o) == Names(order) + {n} - {evicted}
            && (evicted != "" <==> n !in order && |order| == cap)
            && (evicted != "" ==> evicted in order && evicted != n)
  {
    var (o, evicted) := Added(order, n, cap);
    if n in order {
      TouchedKeeps(order, n, cap);
      assert "" !in Names(order) && n in Names(order);
    } else if |order| < cap {
      assert Names(o) == Names(order) + {n};
      assert "" !in Names(order);
    } else {
      var init, last := order[..|order| - 1], order[|order| - 1];
      assert order == init + [last];
      assert last !in init;
      assert Names(o) == Names(init) + {n} && Names(order) == Names(init) + {last};
    }
  }

  class PreparedCache {
    const cap: nat
    var items: set<string>
    var order: seq<string>

    ghost predicate Valid()
      reads this
    {
      Fine(order, cap) && items == Names(order)
    }

    constructor (cap: int)
      ensures Valid() && order == [] && this.cap == if cap <= 0 then 250 else cap
    {
      this.cap := if cap <= 0 then DEFAULT_CAPACITY else cap;
      items, order := {}, [];
    }

    method Has(name: string) returns (r: bool)
      requires Valid()
      ensures r <==> name in order
    {
      r := name in items;
    }

    method Touch(name: string)
      requires Valid()
      modifies this
      ensures Valid() && order == Touched(old(order), name)
    {
      TouchedKeeps(order, name, cap);
      if name in items {
        order := [name] + Without(order, name);
      }
    }

    method Add(name: string) returns (evicted: string)
      requires Valid()
      modifies this
      ensures Valid() && (order, evicted) == Added(old(order), name, cap)
    {
      if name == "" { return ""; }
      AddedKeeps(order, name, cap);
      if name in items {
        Touch(name);
        return "";
      }
      ghost var before := order;
      order := [name] + order;
      items := items + {name};
      evicted := "";
      if |order| > cap {
        evicted := order[|order| - 1];
        order := order[..|order| - 1];
        items := items - {evicted};
        assert order == [name] + before[..|before| - 1];
      }
    }

    method Remove(name: string)
      requires Valid()
      modifies this
      ensures Valid() && order == Without(old(order), name) && Names(order) == Names(old(order)) - {name}
    {
      WithoutKeeps(order, name);
      assert "" !in Names(order);
      if name == "" || name !in items {
        AbsentStays(order, name);
        return;
      }
      order := Without(order, name);
      items := items - {name};
      assert "" !in Names(order);
    }

    method Clear()
      requires Valid()
      modifies this
      ensures Valid() && order == []
    {
      items, order := {}, [];
    }
  }

  lemma {:induction false} AbsentStays(s: seq<string>, n: string)
    requires n !in s
    ensures Without(s, n) == s
  {
    if s != [] {
      AbsentStays(s[1..], n);
      assert s == [s[0]] + s[1..];
    }
  }

  // ---------------------------------------------------------------- least recently used

  datatype Op = Touch(name: string) | Add(name: string) | Remove(name: string) | Clear

  function Operated(order: seq<string>, op: Op, cap: nat): seq<string>
    requires 1 <= cap
  {
    match op
    case Touch(n) => Touched(order, n)
    case Add(n) => Added(order, n, cap).0
    case Remove(n) => Without(order, n)
    case Clear => []
  }

  function After(ops: seq<Op>, cap: nat): seq<string>
    requires 1 <= cap
  {
    if ops == [] then [] else Operated(After(ops[..|ops| - 1], cap), ops[|ops| - 1], cap)
  }

  predicate Uses(op: Op, n: string) { (op.Touch? || op.Add?) && op.name == n }

  /** How many operations had happened when the name was last used. */
  function LastUse(ops: seq<Op>, n: string): nat {
    if ops == [] then 0 else if Uses(ops[|ops| - 1], n) then |ops| else LastUse(ops[..|ops| - 1], n)
  }

  predicate ByRecency(order: seq<string>, ops: seq<Op>) {
    forall i, j :: 0 <= i < j < |order| ==> LastUse(ops, order[j]) < LastUse(ops, order[i])
  }

  lemma {:induction false} LastUseBound(ops: seq<Op>, n: string)
    ensures LastUse(ops, n) <= |ops|
  {
    if ops != [] { LastUseBound(ops[..|ops| - 1], n); }
  }

  /** A subsequence of a list in recency order is in recency order. */
  lemma {:induction false} WithoutInOrder(s: seq<string>, n: string, ops: seq<Op>)
    requires ByRecency(s, ops) && NoDup(s)
    ensures ByRecency(Without(s, n), ops)
  {
    if s != [] && s[0] != n {
      WithoutInOrder(s[1..], n, ops);
      WithoutKeeps(s[1..], n);
      var w := Without(s[1..], n);
      forall j | 0 <= j < |w| ensures LastUse(ops, w[j]) < LastUse(ops, s[0]) {
        assert w[j] in Names(w);
        assert w[j] in s[1..];
      }
    }
  }

  lemma OthersKeepTheirUse(order: seq<string>, ops: seq<Op>, op: Op)
    requires ByRecency(order, ops) && forall n :: n in order ==> !Uses(op, n)
    ensures ByRecency(order, ops + [op])
  {
    assert (ops + [op])[..|ops|] == ops;
    forall i | 0 <= i < |order| ensures LastUse(ops + [op], order[i]) == LastUse(ops, order[i]) {
      assert order[i] in order;
    }
  }

  lemma FrontIsNewest(rest: seq<string>, ops: seq<Op>, op: Op)
    requires (op.Touch? || op.Add?) && op.name !in rest && ByRecency(rest, ops)
    ensures ByRecency([op.name] + rest, ops + [op])
  {
    OthersKeepTheirUse(rest, ops, op);
    var o := [op.name] + rest;
    assert (ops + [op])[..|ops|] == ops;
    forall j | 1 <= j < |o| ensures LastUse(ops + [op], o[j]) < LastUse(ops + [op], o[0]) {
      assert o[j] in rest;
      LastUseBound(ops, o[j]);
    }
  }

  /** A use of a name in the list moves it to the front. */
  lemma MovedUp(o: seq<string>, n: string, ops: seq<Op>, op: Op)
    requires (op.Touch? || op.Add?) && op.name == n && NoDup(o) && ByRecency(o, ops)
    ensures ByRecency([n] + Without(o, n), ops + [op])
  {
    WithoutInOrder(o, n, ops);
    WithoutKeeps(o, n);
    assert n !in Names(Without(o, n));
    FrontIsNewest(Without(o, n), ops, op);
  }

  /** After any operations the list is in order of last use, so what an Add evicts is the cached
      name whose last use is the oldest. */
  lemma {:induction false} OrderIsRecency(ops: seq<Op>, cap: nat)
    requires 1 <= cap
    ensures Fine(After(ops, cap), cap) && ByRecency(After(ops, cap), ops)
  {
    if ops != [] {
      var init, op := ops[..|ops| - 1], ops[|ops| - 1];
      OrderIsRecency(init, cap);
      var o := After(init, cap);
      assert ops == init + [op];
      match op {
        case Touch(n) =>
          TouchedKeeps(o, n, cap);
          if n in o { MovedUp(o, n, init, op); }
          else { OthersKeepTheirUse(o, init, op); }
        case Add(n) =>
          if n == "" { OthersKeepTheirUse(o, init, op); }
          else {
            AddedKeeps(o, n, cap);
            if n in o { MovedUp(o, n, init, op); }
            else if |o| < cap { FrontIsNewest(o, init, op); }
            else { FrontIsNewest(o[..|o| - 1], init, op); }
          }
        case Remove(n) =>
          WithoutInOrder(o, n, init); WithoutKeeps(o, n);
          assert "" !in Names(o); assert "" !in Names(Without(o, n));
          OthersKeepTheirUse(Without(o, n), init, op);
        case Clear =>
      }
    }
  }

  lemma EvictsLeastRecent(ops: seq<Op>, n: string, cap: nat)
    requires 1 <= cap && Added(After(ops, cap), n, cap).1 != ""
    ensures var o, evicted := After(ops, cap), Added(After(ops, cap), n, cap).1;
            evicted in o && forall m :: m in o && m != evicted ==> LastUse(ops, evicted) < LastUse(ops, m)
  {
    OrderIsRecency(ops, cap);
  }
}
