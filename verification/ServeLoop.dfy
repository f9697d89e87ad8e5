/** The client session loop: which backend is checked out, from which pool, and when it goes back.
    What the sockets, pools and servers answer arrives as events. */
module ServeLoop {
  import opened Options

  const PRIMARY: nat := 0

  /** The status byte of ReadyForQuery: idle, in a transaction block, in a failed block. */
  datatype Tx = Unset | I | T | E

  // ---------------------------------------------------------------- transaction state

  predicate InBlock(tx: Tx) { tx == T || tx == E }

  class ClientState {
    var tx: Tx
    var txStarts: nat
    var txCommits: nat
    var txRollbacks: nat
    /** Blocks that opened and failed within one message, which nothing counts as started. */
    ghost var jumps: nat

    /** Every block entered has been left, or is the current one. */
    ghost predicate Balanced()
      reads this
    {
      txStarts + jumps == txCommits + txRollbacks + if InBlock(tx) then 1 else 0
    }

    constructor ()
      ensures tx == Unset && Balanced() && txStarts == 0 && jumps == 0
    {
      tx, txStarts, txCommits, txRollbacks, jumps := Unset, 0, 0, 0, 0;
    }

    method ObserveTxStatus(status: Tx) returns (boundary: bool)
      requires Balanced() && status != Unset
      modifies this
      ensures Balanced() && tx == status
      ensures jumps == old(jumps) + if !InBlock(old(tx)) && status == E then 1 else 0
      ensures txStarts == old(txStarts) + if !InBlock(old(tx)) && status == T then 1 else 0
      ensures txCommits == old(txCommits) + if old(tx) == T && status == I then 1 else 0
      ensures boundary <==> InBlock(old(tx)) != InBlock(status) && jumps == old(jumps)
    {
      var prev := tx;
      tx := status;
      boundary := false;
      if prev != T && prev != E && status == T {
        txStarts := txStarts + 1;
        boundary := true;
      } else if (prev == T || prev == E) && status == I {
        if prev == E { txRollbacks := txRollbacks + 1; } else { txCommits := txCommits + 1; }
        boundary := true;
      } else if prev != T && prev != E && status == E {
        jumps := jumps + 1;
      }
    }
  }

  // ---------------------------------------------------------------- what the loop does

  datatype Act =
    | Acquired(pool: nat, conn: nat)
    | Released(pool: nat, conn: nat, reset: bool)
    | Discarded(pool: nat, conn: nat)
    | Ready(tx: Tx)

  datatype Checkout = Free | Held(pool: nat, conn: nat) | Broken

  function Acted(c: Checkout, a: Act): Checkout {
    match a
    case Acquired(p, k) => if c == Free then Held(p, k) else Broken
    case Released(p, k, _) => if c == Held(p, k) then Free else Broken
    case Discarded(p, k) => if c == Held(p, k) then Free else Broken
    case Ready(_) => if c.Held? then c else Broken
  }

  function Fold(c: Checkout, acts: seq<Act>): Checkout {
    if acts == [] then c else Acted(Fold(c, acts[..|acts| - 1]), acts[|acts| - 1])
  }

  /** Who holds what after the acts: one checkout at a time, given back once, to its own pool. */
  function After(trace: seq<Act>): Checkout { Fold(Free, trace) }

  datatype Kind =
    | Query | Parse | Bind | Execute | Describe | Close | CopyData | CopyDone | CopyFail | Flush | Sync | Terminate
    | Unknown

  predicate NeedsBackend(k: Kind) { k != Sync && k != Terminate }

  predicate TriggersDrain(k: Kind) { k == Query || k == Sync || k == CopyDone || k == CopyFail }

  datatype Drained = Rfq(tx: Tx) | CopyIn | Eof | TimedOut | Failed

  /** A client message with what the classifier, the limiter, the pools and the server say to it. */
  datatype Msg = Msg(kind: Kind, pins: bool, explicitBegin: bool, token: bool, read: bool, sticky: bool,
                     picker: Option<nat>, primaryHealthy: bool, acquired: Option<nat>, replay: Option<bool>,
                     intercepted: bool, flushed: bool, drained: Drained)

  datatype Event =
    | CtxDone
    | RecvError
    | RecvTimeout(expired: bool, async: seq<Tx>, asyncFails: bool)
    | Recv(msg: Msg)

  function SelectPool(pinned: bool, m: Msg): nat {
    if pinned || m.picker.None? || !m.read || m.sticky then PRIMARY else m.picker.value
  }

  // ---------------------------------------------------------------- the decisions

  datatype Config = Config(statementMode: bool, resetOnRelease: bool)

  /** What the loop remembers of a session: the status, the checkout, the pin. */
  datatype View = View(tx: Tx, held: Checkout, pinned: bool)

  /** A view, the acts that led to it, and whether the loop is left. */
  datatype Move = Move(view: View, acts: seq<Act>, exit: bool)

  function Giving(cfg: Config, v: View, discard: bool): Act
    requires v.held.Held?
  {
    if discard then Discarded(v.held.pool, v.held.conn) else Released(v.held.pool, v.held.conn, cfg.resetOnRelease)
  }

  /** The answer to one message once a backend is attached or not needed. */
  function Forwarded(cfg: Config, v: View, m: Msg): Move {
    if !v.held.Held? then Move(v, [], false)
    else if !m.intercepted then Move(v, [], true)
    else if !TriggersDrain(m.kind) then Move(v, [], false)
    else if !m.flushed then Move(v, [], true)
    else match m.drained
      case Failed => Move(v, [], true)
      case CopyIn => Move(v, [], false)
      case Eof => Move(v, [], false)
      case TimedOut => Move(v.(held := Free), [Giving(cfg, v, true)], false)
      case Rfq(tx) =>
        if !v.pinned && (cfg.statementMode || tx == I)
        then Move(v.(tx := tx, held := Free), [Ready(tx), Giving(cfg, v, false)], false)
        else Move(v.(tx := tx), [Ready(tx)], false)
  }

  datatype Stop = GoOn | NextMessage | Leave

  /** The view and acts with a backend attached where the message needs one, and what to do then. */
  function Attaching(cfg: Config, v: View, m: Msg): (View, seq<Act>, Stop) {
    if !NeedsBackend(m.kind) || v.held.Held? then (v, [], GoOn)
    else
      var pool := SelectPool(v.pinned, m);
      if pool == PRIMARY && !m.primaryHealthy then (v, [], NextMessage)
      else if m.acquired.None? then (v, [], Leave)
      else
        var got := v.(held := Held(pool, m.acquired.value));
        if m.replay == Some(false)
        then (v.(held := Free), [Acquired(pool, m.acquired.value), Giving(cfg, got, true)], Leave)
        else (got, [Acquired(pool, m.acquired.value)], GoOn)
  }

  function Served(cfg: Config, v: View, m: Msg): Move {
    var (got, acts, stop) := Attaching(cfg, v, m);
    if stop != GoOn then Move(got, acts, stop == Leave)
    else
      var after := Forwarded(cfg, got, m);
      after.(acts := acts + after.acts)
  }

  /** Statement mode refuses explicit transactions, the limiter refuses queries without a token. */
  predicate Refused(cfg: Config, m: Msg) {
    (cfg.statementMode && m.explicitBegin) || ((m.kind == Query || m.kind == Parse) && !m.token)
  }

  /** One message: refused, answered without a backend, or served on the attached or a new one. */
  function Handled(cfg: Config, v: View, m: Msg): Move {
    if m.kind == Terminate then Move(v, [], true)
    else
      var w := v.(pinned := v.pinned || m.pins);
      if Refused(cfg, m) then Move(w, [], false) else Served(cfg, w, m)
  }

  function Reports(async: seq<Tx>): seq<Act> { seq(|async|, i requires 0 <= i < |async| => Ready(async[i])) }

  function Expired(cfg: Config, v: View, e: Event): Move
    requires e.RecvTimeout?
  {
    if v.pinned && v.held.Held? && v.tx == I && !e.expired then
      var told := v.(tx := if e.async == [] then v.tx else e.async[|e.async| - 1]);
      if e.asyncFails then Move(told.(held := Free), Reports(e.async) + [Giving(cfg, v, true)], true)
      else Move(told, Reports(e.async), false)
    else Move(v, [], true)
  }

  function Happened(cfg: Config, v: View, e: Event): Move {
    match e
    case CtxDone => Move(v, [], true)
    case RecvError => Move(v, [], true)
    case RecvTimeout(_, _, _) => Expired(cfg, v, e)
    case Recv(m) => Handled(cfg, v, m)
  }

  /** The acts of the rest of a session, the cleanup on the way out included. */
  function Rest(cfg: Config, v: View, events: seq<Event>, exit: bool): seq<Act>
    decreases |events|
  {
    if events == [] || exit then Cleanup(cfg, v)
    else
      var move := Happened(cfg, v, events[0]);
      move.acts + Rest(cfg, move.view, events[1..], move.exit)
  }

  function Cleanup(cfg: Config, v: View): seq<Act> { if v.held.Held? then [Giving(cfg, v, v.tx != I)] else [] }

  function Warm(warm: Option<nat>): seq<Act> {
    if warm.None? then [] else [Acquired(PRIMARY, warm.value), Released(PRIMARY, warm.value, false)]
  }

  const FRESH: View := View(I, Free, false)

  // ---------------------------------------------------------------- every checkout is given back

  lemma {:induction false} FoldAppend(c: Checkout, a: seq<Act>, b: seq<Act>)
    ensures Fold(c, a + b) == Fold(Fold(c, a), b)
    decreases |b|
  {
    if b == [] {
      assert a + b == a;
    } else {
      FoldAppend(c, a, b[..|b| - 1]);
      assert (a + b)[..|a + b| - 1] == a + b[..|b| - 1];
    }
  }

  lemma FoldOne(c: Checkout, a: Act)
    ensures Fold(c, [a]) == Acted(c, a)
  {
    assert [a][..0] == [];
  }

  lemma FoldTwo(c: Checkout, a: Act, b: Act)
    ensures Fold(c, [a, b]) == Acted(Acted(c, a), b)
  {
    assert [a, b][..1] == [a];
    FoldOne(c, a);
  }

  lemma {:induction false} FoldReports(c: Checkout, async: seq<Tx>)
    requires c.Held?
    ensures Fold(c, Reports(async)) == c
  {
    if async != [] {
      FoldReports(c, async[..|async| - 1]);
      assert Reports(async)[..|async| - 1] == Reports(async[..|async| - 1]);
    }
  }

  lemma ForwardedFolds(cfg: Config, v: View, m: Msg)
    requires v.held != Broken
    ensures Fold(v.held, Forwarded(cfg, v, m).acts) == Forwarded(cfg, v, m).view.held != Broken
  {
    if v.held.Held? && m.drained.Rfq? {
      FoldOne(v.held, Ready(m.drained.tx));
      FoldTwo(v.held, Ready(m.drained.tx), Giving(cfg, v, false));
    }
    if v.held.Held? { FoldOne(v.held, Giving(cfg, v, true)); }
  }

  lemma AttachingFolds(cfg: Config, v: View, m: Msg)
    requires v.held != Broken
    ensures Fold(v.held, Attaching(cfg, v, m).1) == Attaching(cfg, v, m).0.held != Broken
  {
    if m.acquired.Some? {
      var pool := SelectPool(v.pinned, m);
      FoldOne(v.held, Acquired(pool, m.acquired.value));
      FoldTwo(v.held, Acquired(pool, m.acquired.value), Giving(cfg, v.(held := Held(pool, m.acquired.value)), true));
    }
  }

  /** Whatever happens, the view's checkout is what the acts leave open. */
  lemma HappenedFolds(cfg: Config, v: View, e: Event)
    requires v.held != Broken
    ensures Fold(v.held, Happened(cfg, v, e).acts) == Happened(cfg, v, e).view.held != Broken
  {
    match e {
      case Recv(m) =>
        var w := v.(pinned := v.pinned || m.pins);
        AttachingFolds(cfg, w, m);
        var (got, acts, _) := Attaching(cfg, w, m);
        ForwardedFolds(cfg, got, m);
        FoldAppend(w.held, acts, Forwarded(cfg, got, m).acts);
      case RecvTimeout(_, async, _) =>
        if v.held.Held? {
          FoldReports(v.held, async);
          FoldAppend(v.held, Reports(async), [Giving(cfg, v, true)]);
          FoldOne(v.held, Giving(cfg, v, true));
        }
      case _ =>
    }
  }

  lemma {:induction false} RestFolds(cfg: Config, v: View, events: seq<Event>, exit: bool)
    requires v.held != Broken
    ensures Fold(v.held, Rest(cfg, v, events, exit)) == Free
    decreases |events|
  {
    if events == [] || exit {
      if v.held.Held? { FoldOne(v.held, Giving(cfg, v, v.tx != I)); }
    } else {
      var move := Happened(cfg, v, events[0]);
      HappenedFolds(cfg, v, events[0]);
      RestFolds(cfg, move.view, events[1..], move.exit);
      FoldAppend(v.held, move.acts, Rest(cfg, move.view, events[1..], move.exit));
    }
  }

  /** However a session goes and ends, nothing stays checked out. */
  lemma SessionReturnsAll(cfg: Config, warm: Option<nat>, events: seq<Event>)
    ensures After(Warm(warm) + Rest(cfg, FRESH, events, false)) == Free
  {
    if warm.Some? { FoldTwo(Free, Acquired(PRIMARY, warm.value), Released(PRIMARY, warm.value, false)); }
    FoldAppend(Free, Warm(warm), Rest(cfg, FRESH, events, false));
    RestFolds(cfg, FRESH, events, false);
  }

  predicate Returns(a: Act, p: nat, c: nat) { a == Discarded(p, c) || (a.Released? && a.pool == p && a.conn == c) }

  /** Every acquisition is followed, past reports only, by the return of that backend to that pool,
      or nothing follows and the backend is the one still held. */
  lemma {:induction false} EachReturnedOnce(trace: seq<Act>, i: nat) returns (j: nat)
    requires After(trace) != Broken && i < |trace| && trace[i].Acquired?
    ensures i < j <= |trace| && (forall k :: i < k < j ==> trace[k].Ready?)
    ensures j < |trace| ==> Returns(trace[j], trace[i].pool, trace[i].conn)
    ensures j == |trace|
            <==> After(trace) == Held(trace[i].pool, trace[i].conn) && forall k :: i < k < |trace| ==> trace[k].Ready?
  {
    var init, last := trace[..|trace| - 1], trace[|trace| - 1];
    if i == |init| {
      j := |trace|;
    } else {
      j := EachReturnedOnce(init, i);
      assert forall k :: i < k < |init| ==> init[k] == trace[k];
      if j == |init| && last.Ready? { j := |trace|; }
    }
  }

  // ---------------------------------------------------------------- a transaction keeps its backend

  predicate Open(a: Act) { a.Ready? && InBlock(a.tx) }

  /** After a report of an open transaction come only reports, or the session ends and its backend
      is discarded, not reused. */
  predicate KeepsToTheEnd(trace: seq<Act>) {
    forall i :: 0 <= i < |trace| - 1 && Open(trace[i])
      ==> trace[i + 1].Ready? || (trace[i + 1].Discarded? && i + 2 == |trace|)
  }

  /** The same, told from the front, from a status on. */
  predicate Steady(tx: Tx, acts: seq<Act>)
    decreases |acts|
  {
    acts == [] ||
    match acts[0]
    case Ready(t) => Steady(t, acts[1..])
    case Discarded(_, _) => if InBlock(tx) then |acts| == 1 else Steady(tx, acts[1..])
    case _ => !InBlock(tx) && Steady(tx, acts[1..])
  }

  lemma {:induction false} SteadyKeeps(tx: Tx, acts: seq<Act>)
    requires Steady(tx, acts)
    ensures KeepsToTheEnd(acts) && (InBlock(tx) && acts != [] ==> acts[0].Ready? || (acts[0].Discarded? && |acts| == 1))
    decreases |acts|
  {
    if acts != [] && !(acts[0].Discarded? && InBlock(tx)) {
      SteadyKeeps(if acts[0].Ready? then acts[0].tx else tx, acts[1..]);
      forall i | 0 <= i < |acts| - 1 && Open(acts[i])
        ensures acts[i + 1].Ready? || (acts[i + 1].Discarded? && i + 2 == |acts|)
      {
        if i > 0 { assert acts[1..][i - 1] == acts[i] && acts[1..][i] == acts[i + 1]; }
      }
    }
  }

  predicate Anchored(v: View) { InBlock(v.tx) ==> v.held.Held? }

  lemma SteadyOne(tx: Tx, a: Act, rest: seq<Act>)
    requires Steady(if a.Ready? then a.tx else tx, rest) && (a.Ready? || !InBlock(tx))
    ensures Steady(tx, [a] + rest)
  {
    assert ([a] + rest)[1..] == rest;
  }

  lemma ForwardedSteady(cfg: Config, v: View, m: Msg, rest: seq<Act>)
    requires !cfg.statementMode && Anchored(v) && !m.drained.TimedOut? && Steady(Forwarded(cfg, v, m).view.tx, rest)
    ensures Steady(v.tx, Forwarded(cfg, v, m).acts + rest) && Anchored(Forwarded(cfg, v, m).view)
  {
    var acts := Forwarded(cfg, v, m).acts;
    if acts == [] {
      assert acts + rest == rest;
    } else {
      var tx := m.drained.tx;
      if |acts| == 1 {
        SteadyOne(v.tx, Ready(tx), rest);
        assert acts + rest == [Ready(tx)] + rest;
      } else {
        SteadyOne(tx, Giving(cfg, v, false), rest);
        SteadyOne(v.tx, Ready(tx), [Giving(cfg, v, false)] + rest);
        assert acts + rest == [Ready(tx)] + ([Giving(cfg, v, false)] + rest);
      }
    }
  }

  lemma AttachingSteady(cfg: Config, v: View, m: Msg, rest: seq<Act>)
    requires Anchored(v) && Steady(v.tx, rest)
    ensures Steady(v.tx, Attaching(cfg, v, m).1 + rest) && Anchored(Attaching(cfg, v, m).0)
            && Attaching(cfg, v, m).0.tx == v.tx
  {
    var (got, acts, stop) := Attaching(cfg, v, m);
    if acts == [] {
      assert acts + rest == rest;
    } else {
      if |acts| == 1 {
        SteadyOne(v.tx, acts[0], rest);
        assert acts + rest == [acts[0]] + rest;
      } else {
        SteadyOne(v.tx, acts[1], rest);
        SteadyOne(v.tx, acts[0], [acts[1]] + rest);
        assert acts + rest == [acts[0]] + ([acts[1]] + rest);
      }
    }
  }

  lemma {:induction false} ReportsSteady(tx: Tx, async: seq<Tx>, rest: seq<Act>)
    requires Steady(if async == [] then tx else async[|async| - 1], rest)
    ensures Steady(tx, Reports(async) + rest)
    decreases |async|
  {
    if async == [] {
      assert Reports(async) + rest == rest;
    } else {
      ReportsSteady(async[0], async[1..], rest);
      SteadyOne(tx, Ready(async[0]), Reports(async[1..]) + rest);
      assert Reports(async) + rest == [Ready(async[0])] + (Reports(async[1..]) + rest);
    }
  }

  predicate NoQueryTimeout(e: Event) { e.Recv? ==> !e.msg.drained.TimedOut? }

  lemma Regroup(tx: Tx, a: seq<Act>, b: seq<Act>, rest: seq<Act>)
    requires Steady(tx, a + (b + rest))
    ensures Steady(tx, (a + b) + rest)
  {
    assert (a + b) + rest == a + (b + rest);
  }

  lemma ServedSteady(cfg: Config, v: View, m: Msg, rest: seq<Act>)
    requires !cfg.statementMode && Anchored(v) && !m.drained.TimedOut? && Steady(Served(cfg, v, m).view.tx, rest)
    ensures Steady(v.tx, Served(cfg, v, m).acts + rest) && Anchored(Served(cfg, v, m).view)
  {
    AttachingSteady(cfg, v, m, []);
    var (got, acts, stop) := Attaching(cfg, v, m);
    if stop != GoOn {
      AttachingSteady(cfg, v, m, rest);
    } else {
      ForwardedSteady(cfg, got, m, rest);
      AttachingSteady(cfg, v, m, Forwarded(cfg, got, m).acts + rest);
      Regroup(v.tx, acts, Forwarded(cfg, got, m).acts, rest);
    }
  }

  lemma HandledSteady(cfg: Config, v: View, m: Msg, rest: seq<Act>)
    requires !cfg.statementMode && Anchored(v) && !m.drained.TimedOut? && Steady(Handled(cfg, v, m).view.tx, rest)
    ensures Steady(v.tx, Handled(cfg, v, m).acts + rest) && Anchored(Handled(cfg, v, m).view)
  {
    if m.kind == Terminate || Refused(cfg, m) {
      assert [] + rest == rest;
    } else {
      ServedSteady(cfg, v.(pinned := v.pinned || m.pins), m, rest);
    }
  }

  lemma ExpiredSteady(cfg: Config, v: View, e: Event, rest: seq<Act>)
    requires Anchored(v) && e.RecvTimeout? && Steady(Expired(cfg, v, e).view.tx, rest)
    requires Expired(cfg, v, e).exit && Expired(cfg, v, e).view.held == Free ==> rest == []
    ensures Steady(v.tx, Expired(cfg, v, e).acts + rest)
    ensures Expired(cfg, v, e).exit || Anchored(Expired(cfg, v, e).view)
  {
    var move := Expired(cfg, v, e);
    if move.acts == [] {
      assert move.acts + rest == rest;
    } else if e.asyncFails {
      var last := [Giving(cfg, v, true)];
      assert last[1..] == [];
      ReportsSteady(v.tx, e.async, last);
      assert move.acts + rest == Reports(e.async) + last;
    } else {
      ReportsSteady(v.tx, e.async, rest);
    }
  }

  lemma {:induction false} RestSteady(cfg: Config, v: View, events: seq<Event>, exit: bool)
    requires !cfg.statementMode && (forall e :: e in events ==> NoQueryTimeout(e))
             && ((exit && v.held == Free) || Anchored(v))
    ensures Steady(v.tx, Rest(cfg, v, events, exit))
    decreases |events|
  {
    if events == [] || exit {
      if v.held.Held? { assert Cleanup(cfg, v)[1..] == []; }
    } else {
      var e := events[0];
      assert e in events;
      var move := Happened(cfg, v, e);
      var rest := Rest(cfg, move.view, events[1..], move.exit);
      assert [] + rest == rest;
      match e {
        case Recv(m) =>
          HandledSteady(cfg, v, m, []);
          RestSteady(cfg, move.view, events[1..], move.exit);
          HandledSteady(cfg, v, m, rest);
        case RecvTimeout(_, _, _) =>
          RestSteady(cfg, move.view, events[1..], move.exit);
          ExpiredSteady(cfg, v, e, rest);
        case _ =>
          RestSteady(cfg, move.view, events[1..], move.exit);
      }
    }
  }

  /** In transaction mode without query timeouts a backend in a transaction stays attached; it is
      only ever discarded, and then the session is over. */
  lemma SessionKeepsTransactions(cfg: Config, warm: Option<nat>, events: seq<Event>)
    requires !cfg.statementMode && forall e :: e in events ==> NoQueryTimeout(e)
    ensures KeepsToTheEnd(Warm(warm) + Rest(cfg, FRESH, events, false))
  {
    var rest := Rest(cfg, FRESH, events, false);
    RestSteady(cfg, FRESH, events, false);
    if warm.Some? {
      SteadyOne(I, Warm(warm)[1], rest);
      SteadyOne(I, Warm(warm)[0], [Warm(warm)[1]] + rest);
      assert Warm(warm) + rest == [Warm(warm)[0]] + ([Warm(warm)[1]] + rest);
    } else {
      assert Warm(warm) + rest == rest;
    }
    SteadyKeeps(I, Warm(warm) + rest);
  }

  lemma {:induction false} PrefixUnbroken(trace: seq<Act>, n: nat)
    requires After(trace) != Broken && n <= |trace|
    ensures After(trace[..n]) != Broken
  {
    if n < |trace| {
      PrefixUnbroken(trace[..|trace| - 1], n);
      assert trace[..|trace| - 1][..n] == trace[..n];
    } else {
      assert trace[..n] == trace;
    }
  }

  /** Every report of one transaction comes from one checkout of one backend. */
  lemma {:induction false} SameBackend(trace: seq<Act>, i: nat, j: nat)
    requires After(trace) != Broken && KeepsToTheEnd(trace) && i <= j < |trace|
    requires trace[j].Ready? && forall k :: i <= k < j && trace[k].Ready? ==> Open(trace[k])
    requires Open(trace[i])
    ensures After(trace[..j + 1]) == After(trace[..i + 1]) && After(trace[..i + 1]).Held?
    decreases j - i
  {
    PrefixUnbroken(trace, i + 1);
    assert trace[..i + 1][..i] == trace[..i];
    if i < j {
      assert trace[i + 1].Ready?;
      PrefixUnbroken(trace, i + 2);
      assert trace[..i + 2][..i + 1] == trace[..i + 1];
      if i + 1 < j { SameBackend(trace, i + 1, j); }
    }
  }

  // ---------------------------------------------------------------- the code

  class Session {
    const statementMode: bool
    const resetOnRelease: bool
    const state: ClientState
    var bConn: Option<nat>
    var bConnPool: Option<nat>
    var sessionPinned: bool
    var trace: seq<Act>

    ghost predicate Valid()
      reads this, state
    {
      state.Balanced() && bConn.Some? == bConnPool.Some?
    }

    function Seen(): View
      reads this, state
    {
      View(state.tx, if bConn.Some? && bConnPool.Some? then Held(bConnPool.value, bConn.value) else Free, sessionPinned)
    }

    function Mode(): Config { Config(statementMode, resetOnRelease) }

    constructor (statementMode: bool, resetOnRelease: bool)
      ensures Valid() && trace == [] && Seen() == FRESH && Mode() == Config(statementMode, resetOnRelease)
              && fresh(state)
    {
      this.statementMode, this.resetOnRelease := statementMode, resetOnRelease;
      bConn, bConnPool, sessionPinned, trace := None, None, false, [];
      state := new ClientState();
      new;
      var _ := state.ObserveTxStatus(I);
    }

    /** To releasePool: the pool the backend came from, or the primary when none is recorded. */
    method Give(discard: bool)
      requires Valid() && bConn.Some?
      modifies this`bConn, this`bConnPool, this`trace
      ensures Valid() && Seen() == old(Seen()).(held := Free)
              && trace == old(trace) + [Giving(Mode(), old(Seen()), discard)]
    {
      var pool := if bConnPool.Some? then bConnPool.value else PRIMARY;
      trace := trace + [if discard then Discarded(pool, bConn.value) else Released(pool, bConn.value, resetOnRelease)];
      bConn, bConnPool := None, None;
    }

    method Report(status: Tx)
      requires Valid() && status != Unset
      modifies this`trace, state
      ensures Valid() && Seen() == old(Seen()).(tx := status) && trace == old(trace) + [Ready(status)]
    {
      var _ := state.ObserveTxStatus(status);
      trace := trace + [Ready(status)];
    }

    /** Attach a backend for the message when it needs one. */
    method Attach(m: Msg) returns (stop: Stop)
      requires Valid()
      modifies this`bConn, this`bConnPool, this`trace
      ensures Valid()
      ensures (Seen(), stop) == (Attaching(Mode(), old(Seen()), m).0, Attaching(Mode(), old(Seen()), m).2)
      ensures trace == old(trace) + Attaching(Mode(), old(Seen()), m).1
    {
      if NeedsBackend(m.kind) && bConn.None? {
        var pool := SelectPool(sessionPinned, m);
        if pool == PRIMARY && !m.primaryHealthy { return NextMessage; }
        if m.acquired.None? { return Leave; }
        bConn, bConnPool := m.acquired, Some(pool);
        trace := trace + [Acquired(pool, m.acquired.value)];
        if m.replay == Some(false) {
          Give(true);
          return Leave;
        }
      }
      return GoOn;
    }

    /** Forward the message, read the backend up to ReadyForQuery and decide about the release. */
    method Forward(m: Msg) returns (exit: bool)
      requires Valid() && (m.drained.Rfq? ==> m.drained.tx != Unset)
      modifies this, state
      ensures Valid() && Seen() == Forwarded(Mode(), old(Seen()), m).view
      ensures trace == old(trace) + Forwarded(Mode(), old(Seen()), m).acts
              && exit == Forwarded(Mode(), old(Seen()), m).exit
    {
      if bConn.None? { return false; }
      if !m.intercepted { return true; }
      if !TriggersDrain(m.kind) { return false; }
      if !m.flushed { return true; }
      match m.drained {
        case Failed => return true;
        case Rfq(status) =>
          Report(status);
          if !sessionPinned && (statementMode || state.tx == I) { Give(false); }
        case TimedOut => Give(true);
        case CopyIn =>
        case Eof =>
      }
      return false;
    }

    method ServeMsg(m: Msg) returns (exit: bool)
      requires Valid() && (m.drained.Rfq? ==> m.drained.tx != Unset)
      modifies this, state
      ensures Valid() && Seen() == Served(Mode(), old(Seen()), m).view
      ensures trace == old(trace) + Served(Mode(), old(Seen()), m).acts && exit == Served(Mode(), old(Seen()), m).exit
    {
      var stop := Attach(m);
      if stop != GoOn { return stop == Leave; }
      exit := Forward(m);
    }

    method HandleMsg(m: Msg) returns (exit: bool)
      requires Valid() && (m.drained.Rfq? ==> m.drained.tx != Unset)
      modifies this, state
      ensures Valid() && Seen() == Handled(Mode(), old(Seen()), m).view
      ensures trace == old(trace) + Handled(Mode(), old(Seen()), m).acts && exit == Handled(Mode(), old(Seen()), m).exit
    {
      if m.kind == Terminate { return true; }
      sessionPinned := sessionPinned || m.pins;
      if statementMode && m.explicitBegin { return false; }
      if (m.kind == Query || m.kind == Parse) && !m.token { return false; }
      exit := ServeMsg(m);
    }

    /** A read deadline passed: a pinned idle client is polled for notifications, any other goes. */
    method HandleTimeout(e: Event) returns (exit: bool)
      requires Valid() && e.RecvTimeout? && Unset !in e.async
      modifies this, state
      ensures Valid() && Seen() == Expired(Mode(), old(Seen()), e).view
      ensures trace == old(trace) + Expired(Mode(), old(Seen()), e).acts && exit == Expired(Mode(), old(Seen()), e).exit
    {
      if sessionPinned && bConn.Some? && state.tx == I && !e.expired {
        var i := 0;
        while i < |e.async|
          invariant 0 <= i <= |e.async| && Valid() && trace == old(trace) + Reports(e.async[..i])
          invariant Seen() == old(Seen()).(tx := if i == 0 then old(state.tx) else e.async[i - 1])
        {
          Report(e.async[i]);
          assert Reports(e.async[..i + 1]) == Reports(e.async[..i]) + [Ready(e.async[i])];
          i := i + 1;
        }
        assert e.async[..i] == e.async;
        if e.asyncFails {
          Give(true);
          return true;
        }
        return false;
      }
      return true;
    }

    method HandleEvent(e: Event) returns (exit: bool)
      requires Valid() && Real(e)
      modifies this, state
      ensures Valid() && Seen() == Happened(Mode(), old(Seen()), e).view
      ensures trace == old(trace) + Happened(Mode(), old(Seen()), e).acts
              && exit == Happened(Mode(), old(Seen()), e).exit
    {
      match e {
        case CtxDone => exit := true;
        case RecvError => exit := true;
        case RecvTimeout(_, _, _) => exit := HandleTimeout(e);
        case Recv(m) => exit := HandleMsg(m);
      }
    }

    /** The whole session, with the deferred cleanup that runs on every way out. */
    method Serve(warm: Option<nat>, events: seq<Event>)
      requires Valid() && trace == [] && Seen() == FRESH && forall e :: e in events ==> Real(e)
      modifies this, state
      ensures trace == Warm(warm) + Rest(Mode(), FRESH, events, false)
      ensures warm.Some?
              ==> [Acquired(PRIMARY, warm.value), Released(PRIMARY, warm.value, false)] <= trace
      ensures bConn.None? && After(trace) == Free && state.Balanced()
      ensures !statementMode && (forall e :: e in events ==> NoQueryTimeout(e)) ==> KeepsToTheEnd(trace)
    {
      SessionReturnsAll(Mode(), warm, events);
      if !statementMode && forall e :: e in events ==> NoQueryTimeout(e) {
        SessionKeepsTransactions(Mode(), warm, events);
      }
      if warm.Some? { trace := [Acquired(PRIMARY, warm.value), Released(PRIMARY, warm.value, false)]; }
      Loop(events);
    }

    method Loop(events: seq<Event>)
      requires Valid() && forall e :: e in events ==> Real(e)
      modifies this, state
      ensures Valid() && bConn.None? && trace == old(trace) + Rest(Mode(), old(Seen()), events, false)
    {
      var i, exit := 0, false;
      ghost var all := trace + Rest(Mode(), Seen(), events, false);
      assert events[0..] == events;
      while i < |events| && !exit
        invariant 0 <= i <= |events| && Valid()
        invariant all == trace + Rest(Mode(), Seen(), events[i..], exit)
      {
        assert events[i] in events;
        ghost var v, before := Seen(), trace;
        exit := HandleEvent(events[i]);
        RestStep(Mode(), v, events, i, before);
        i := i + 1;
      }
      if bConn.Some? {
        Give(state.tx != I);
      }
    }
  }

  /** Statuses the protocol has. */
  predicate Real(e: Event) {
    (e.Recv? && e.msg.drained.Rfq? ==> e.msg.drained.tx != Unset) && (e.RecvTimeout? ==> Unset !in e.async)
  }

  lemma RestStep(cfg: Config, v: View, events: seq<Event>, i: nat, before: seq<Act>)
    requires i < |events|
    ensures var move := Happened(cfg, v, events[i]);
            before + Rest(cfg, v, events[i..], false)
              == (before + move.acts) + Rest(cfg, move.view, events[i + 1..], move.exit)
  {
    var move := Happened(cfg, v, events[i]);
    assert events[i..][0] == events[i] && events[i..][1..] == events[i + 1..];
    assert before + (move.acts + Rest(cfg, move.view, events[i + 1..], move.exit))
           == (before + move.acts) + Rest(cfg, move.view, events[i + 1..], move.exit);
  }
}
