/** What a session does about each thing that happens to it, told on its acts alone: which pool a
    backend is taken from, when a report gives it back, and what is left on the way out. */
module SessionActs {
  import opened Options
  import opened ServeLoop

  /** The acts of a session event by event; the last entry is the cleanup on the way out. */
  function Answers(cfg: Config, v: View, events: seq<Event>, exit: bool): (parts: seq<seq<Act>>)
    ensures 1 <= |parts| <= |events| + 1
    decreases |events|
  {
    if events == [] || exit then [Cleanup(cfg, v)]
    else
      var move := Happened(cfg, v, events[0]);
      [move.acts] + Answers(cfg, move.view, events[1..], move.exit)
  }

  function Flat(parts: seq<seq<Act>>): seq<Act> { if parts == [] then [] else parts[0] + Flat(parts[1..]) }

  /** The session's trace is those acts, one event after the other. */
  lemma {:induction false} AnswersAreTheTrace(cfg: Config, v: View, events: seq<Event>, exit: bool)
    ensures Flat(Answers(cfg, v, events, exit)) == Rest(cfg, v, events, exit)
    decreases |events|
  {
    var parts := Answers(cfg, v, events, exit);
    if events == [] || exit {
      assert Flat(parts) == parts[0] + Flat(parts[1..]) && parts[1..] == [];
    } else {
      var move := Happened(cfg, v, events[0]);
      AnswersAreTheTrace(cfg, move.view, events[1..], move.exit);
      assert parts[1..] == Answers(cfg, move.view, events[1..], move.exit);
    }
  }

  /** The client has sent something that pins its session, among the first `n` events. */
  predicate Pinned(events: seq<Event>, n: nat)
    requires n <= |events|
  {
    exists j :: 0 <= j < n && Pins(events[j])
  }

  predicate Pins(e: Event) { e.Recv? && e.msg.pins && e.msg.kind != Terminate }

  /** The status the client was last told, idle at the start. */
  function LastTold(tx: Tx, acts: seq<Act>): Tx {
    if acts == [] then tx
    else if acts[|acts| - 1].Ready? then acts[|acts| - 1].tx
    else LastTold(tx, acts[..|acts| - 1])
  }

  lemma {:induction false} LastToldAppend(tx: Tx, a: seq<Act>, b: seq<Act>)
    ensures LastTold(tx, a + b) == LastTold(LastTold(tx, a), b)
    decreases |b|
  {
    if b == [] {
      assert a + b == a;
    } else {
      assert (a + b)[..|a + b| - 1] == a + b[..|b| - 1];
      if !b[|b| - 1].Ready? { LastToldAppend(tx, a, b[..|b| - 1]); }
    }
  }

  /** What the loop remembers before part `i` follows from the acts and messages so far. */
  ghost predicate Remembers(v: View, start: View, events: seq<Event>, parts: seq<seq<Act>>, i: nat)
    requires i < |parts| && i <= |events|
  {
    && v.held == Fold(start.held, Flat(parts[..i])) != Broken
    && v.tx == LastTold(start.tx, Flat(parts[..i]))
    && v.pinned == (start.pinned || Pinned(events, i))
  }

  lemma HappenedTells(cfg: Config, v: View, e: Event)
    ensures Happened(cfg, v, e).view.tx == LastTold(v.tx, Happened(cfg, v, e).acts)
    ensures Happened(cfg, v, e).view.pinned == (v.pinned || Pins(e))
  {
    match e {
      case Recv(m) => HandledTells(cfg, v, m);
      case RecvTimeout(_, async, _) =>
        var acts := Happened(cfg, v, e).acts;
        if acts != [] {
          ReportsTell(v.tx, async);
          LastToldAppend(v.tx, Reports(async), [Giving(cfg, v, true)]);
          LastToldOne(LastTold(v.tx, Reports(async)), Giving(cfg, v, true));
        }
      case _ =>
    }
  }

  lemma LastToldOne(tx: Tx, a: Act)
    ensures LastTold(tx, [a]) == if a.Ready? then a.tx else tx
  {
    assert [a][..0] == [];
  }

  lemma {:induction false} ReportsTell(tx: Tx, async: seq<Tx>)
    ensures LastTold(tx, Reports(async)) == if async == [] then tx else async[|async| - 1]
  {
  }

  lemma HandledTells(cfg: Config, v: View, m: Msg)
    ensures Handled(cfg, v, m).view.tx == LastTold(v.tx, Handled(cfg, v, m).acts)
    ensures Handled(cfg, v, m).view.pinned == (v.pinned || (m.pins && m.kind != Terminate))
  {
    if m.kind != Terminate && !Refused(cfg, m) {
      var w := v.(pinned := v.pinned || m.pins);
      var (got, acts, stop) := Attaching(cfg, w, m);
      AttachingTells(cfg, w, m);
      ForwardedTells(cfg, got, m);
      LastToldAppend(w.tx, acts, Forwarded(cfg, got, m).acts);
    }
  }

  lemma AttachingTells(cfg: Config, v: View, m: Msg)
    ensures var (got, acts, _) := Attaching(cfg, v, m);
            got.tx == v.tx == LastTold(v.tx, acts) && got.pinned == v.pinned
  {
    var (got, acts, _) := Attaching(cfg, v, m);
    if |acts| == 2 { assert acts[..1] == [acts[0]]; }
    if acts != [] { LastToldOne(v.tx, acts[0]); }
  }

  lemma ForwardedTells(cfg: Config, v: View, m: Msg)
    ensures Forwarded(cfg, v, m).view.tx == LastTold(v.tx, Forwarded(cfg, v, m).acts)
    ensures Forwarded(cfg, v, m).view.pinned == v.pinned
  {
    var acts := Forwarded(cfg, v, m).acts;
    if |acts| == 2 { assert acts[..1] == [acts[0]]; }
    if acts != [] { LastToldOne(v.tx, acts[0]); }
  }

  /** Part `i` is what happens to event `i` in a view the acts and messages so far determine. */
  lemma {:induction false} PartAt(cfg: Config, start: View, events: seq<Event>, exit: bool, i: nat) returns (v: View)
    requires start.held != Broken && i < |Answers(cfg, start, events, exit)|
    ensures i <= |events|
    ensures var parts := Answers(cfg, start, events, exit);
            && Remembers(v, start, events, parts, i)
            && (if i + 1 < |parts| then
                  && parts[i] == Happened(cfg, v, events[i]).acts
                  && (i + 2 == |parts| <==> Happened(cfg, v, events[i]).exit || i + 1 == |events|)
                else
                  parts[i] == Cleanup(cfg, v))
    decreases i
  {
    var parts := Answers(cfg, start, events, exit);
    if i == 0 {
      v := start;
      assert parts[..0] == [] && !Pinned(events, 0);
    } else {
      var move := Happened(cfg, start, events[0]);
      HappenedFolds(cfg, start, events[0]);
      HappenedTells(cfg, start, events[0]);
      v := PartAt(cfg, move.view, events[1..], move.exit, i - 1);
      var tail := Answers(cfg, move.view, events[1..], move.exit);
      assert parts[1..] == tail && parts[..i][1..] == tail[..i - 1];
      FoldAppend(start.held, move.acts, Flat(tail[..i - 1]));
      LastToldAppend(start.tx, move.acts, Flat(tail[..i - 1]));
      PinnedTail(events, i);
    }
  }

  lemma PinnedTail(events: seq<Event>, n: nat)
    requires 0 < n <= |events|
    ensures Pinned(events, n) <==> Pins(events[0]) || Pinned(events[1..], n - 1)
  {
    if j :| 0 <= j < n && Pins(events[j]) {
      if j > 0 { assert events[1..][j - 1] == events[j]; }
    }
    if j :| 0 <= j < n - 1 && Pins(events[1..][j]) { assert Pins(events[j + 1]); }
  }

  // ---------------------------------------------------------------- one message

  /** The pool a message's backend must come from. */
  function Route(pinned: bool, m: Msg): nat {
    if m.read && !pinned && !m.sticky && m.picker.Some? then m.picker.value else PRIMARY
  }

  /** Statement mode takes no explicit transaction, and a query or Parse needs a token. */
  predicate Admitted(cfg: Config, m: Msg) {
    m.kind != Terminate && (cfg.statementMode ==> !m.explicitBegin) && (m.kind in {Query, Parse} ==> m.token)
  }

  /** A message that finds no backend attached takes one. */
  predicate Takes(cfg: Config, pinned: bool, m: Msg) {
    Admitted(cfg, m) && m.kind != Sync && m.acquired.Some? && (Route(pinned, m) != PRIMARY || m.primaryHealthy)
  }

  /** The server answers the message with ReadyForQuery. */
  predicate Answered(m: Msg) {
    m.kind in {Query, Sync, CopyDone, CopyFail} && m.intercepted && m.flushed && m.drained.Rfq?
  }

  /** The server does not answer in time. */
  predicate TimesOut(m: Msg) {
    m.kind in {Query, Sync, CopyDone, CopyFail} && m.intercepted && m.flushed && m.drained.TimedOut?
  }

  /** The last act throws away the backend held until then. */
  ghost predicate Thrown(held: Checkout, acts: seq<Act>)
    requires acts != []
  {
    var n := |acts| - 1;
    var h := Fold(held, acts[..n]);
    h.Held? && acts[n] == Discarded(h.pool, h.conn)
  }

  /** The acts about a message that finds `held` attached, or takes what it needs. */
  ghost predicate Fair(cfg: Config, held: Checkout, pinned: bool, m: Msg, acts: seq<Act>) {
    var takes := held == Free && Takes(cfg, pinned, m);
    var has := held.Held? || (takes && m.replay != Some(false));
    var lost := (takes && m.replay == Some(false)) || (has && TimesOut(m));
    && (forall k :: 0 <= k < |acts| ==> (acts[k].Acquired? <==> takes && k == 0))
    && (takes ==> acts != [] && acts[0] == Acquired(Route(pinned, m), m.acquired.value))
    && (takes && m.replay == Some(false) ==> acts == [acts[0], Discarded(Route(pinned, m), m.acquired.value)])
    && (has && Admitted(cfg, m) && TimesOut(m) ==> acts != [] && Thrown(held, acts))
    && (forall k :: 0 <= k < |acts| && acts[k].Discarded? ==> k + 1 == |acts| && lost)
    && (forall k :: 0 <= k < |acts| && acts[k].Released? ==> 0 < k && acts[k - 1].Ready?)
    && ((exists k :: 0 <= k < |acts| && acts[k].Ready?) <==> has && Admitted(cfg, m) && Answered(m))
    && (forall k :: 0 <= k < |acts| && acts[k].Ready? ==> acts[k].tx == m.drained.tx)
  }

  lemma AttachingFair(cfg: Config, v: View, m: Msg)
    requires v.held != Broken && Admitted(cfg, m)
    ensures var (got, acts, stop) := Attaching(cfg, v, m);
            var takes := v.held == Free && Takes(cfg, v.pinned, m);
            && (!takes ==> acts == [])
            && (takes && m.replay != Some(false) ==> acts == [Acquired(Route(v.pinned, m), m.acquired.value)])
            && (takes && m.replay == Some(false) ==>
                  acts == [Acquired(Route(v.pinned, m), m.acquired.value),
                           Discarded(Route(v.pinned, m), m.acquired.value)])
            && (stop == GoOn && got.held.Held? <==> v.held.Held? || (takes && m.replay != Some(false)))
  {
  }

  lemma ForwardedFair(cfg: Config, v: View, m: Msg)
    ensures var acts := Forwarded(cfg, v, m).acts;
            && (forall k :: 0 <= k < |acts| ==> !acts[k].Acquired?)
            && (forall k :: 0 <= k < |acts| && acts[k].Ready? ==> k == 0 && m.drained == Rfq(acts[0].tx))
            && (acts != [] && acts[0].Ready? <==> v.held.Held? && Answered(m))
            && (forall k :: 0 <= k < |acts| && acts[k].Released? ==> 0 < k && acts[k - 1].Ready?)
            && (forall k :: 0 <= k < |acts| && acts[k].Discarded? ==> k + 1 == |acts| && v.held.Held? && TimesOut(m))
            && (v.held.Held? && TimesOut(m) ==> acts == [Discarded(v.held.pool, v.held.conn)])
  {
  }

  /** The acts about a message: those of attaching a backend, then those of using it. */
  lemma HandledShape(cfg: Config, v: View, m: Msg)
    ensures var (got, taken, stop) := Attaching(cfg, v.(pinned := v.pinned || m.pins), m);
            Handled(cfg, v, m).acts
            == if !Admitted(cfg, m) then []
               else if stop != GoOn then taken
               else taken + Forwarded(cfg, got, m).acts
  {
  }

  lemma HandledFair(cfg: Config, v: View, m: Msg)
    requires v.held != Broken
    ensures Fair(cfg, v.held, v.pinned || m.pins, m, Handled(cfg, v, m).acts)
  {
    HandledShape(cfg, v, m);
    if Admitted(cfg, m) {
      ServedFair(cfg, v.(pinned := v.pinned || m.pins), m);
    }
  }

  lemma ServedFair(cfg: Config, v: View, m: Msg)
    requires v.held != Broken && Admitted(cfg, m)
    ensures var (got, taken, stop) := Attaching(cfg, v, m);
            Fair(cfg, v.held, v.pinned, m, if stop != GoOn then taken else taken + Forwarded(cfg, got, m).acts)
  {
    var (got, taken, stop) := Attaching(cfg, v, m);
    AttachingFair(cfg, v, m);
    AttachingFolds(cfg, v, m);
    if stop == GoOn {
      ForwardedFair(cfg, got, m);
      FairJoins(cfg, v.held, v.pinned, m, taken, got, Forwarded(cfg, got, m).acts);
    } else {
      FairStops(cfg, v.held, v.pinned, m, taken);
    }
  }

  /** A message for which no backend could be made ready. */
  lemma FairStops(cfg: Config, held: Checkout, pinned: bool, m: Msg, taken: seq<Act>)
    requires Admitted(cfg, m) && !held.Held?
    requires var takes := held == Free && Takes(cfg, pinned, m);
             && (takes ==> m.replay == Some(false))
             && taken == if takes
                         then [Acquired(Route(pinned, m), m.acquired.value),
                               Discarded(Route(pinned, m), m.acquired.value)]
                         else []
    ensures Fair(cfg, held, pinned, m, taken)
  {
  }

  lemma FairJoins(cfg: Config, held: Checkout, pinned: bool, m: Msg, taken: seq<Act>, got: View, more: seq<Act>)
    requires Admitted(cfg, m)
    requires var takes := held == Free && Takes(cfg, pinned, m);
             && taken == (if takes then [Acquired(Route(pinned, m), m.acquired.value)] else [])
             && (takes ==> m.replay != Some(false)) && (got.held.Held? <==> held.Held? || takes)
             && got.held == Fold(held, taken)
    requires forall k :: 0 <= k < |more| ==> !more[k].Acquired?
    requires forall k :: 0 <= k < |more| && more[k].Ready? ==> k == 0 && m.drained == Rfq(more[0].tx)
    requires more != [] && more[0].Ready? <==> got.held.Held? && Answered(m)
    requires forall k :: 0 <= k < |more| && more[k].Released? ==> 0 < k && more[k - 1].Ready?
    requires forall k :: 0 <= k < |more| && more[k].Discarded? ==> k + 1 == |more| && got.held.Held? && TimesOut(m)
    requires got.held.Held? && TimesOut(m) ==> more == [Discarded(got.held.pool, got.held.conn)]
    ensures Fair(cfg, held, pinned, m, taken + more)
  {
    var acts := taken + more;
    if more != [] { assert acts[|taken|] == more[0]; }
    if |more| == 1 { assert acts[..|acts| - 1] == taken; }
  }

  /** What comes after a report to the client, before the next event: the backend goes back to its
      own pool, with the configured reset, or nothing happens. */
  ghost predicate GivesBack(cfg: Config, held: Checkout, acts: seq<Act>, k: nat, gives: bool)
    requires k < |acts| && acts[k].Ready?
  {
    var h := Fold(held, acts[..k]);
    && h.Held?
    && (gives ==> k + 2 == |acts| && acts[k + 1] == Released(h.pool, h.conn, cfg.resetOnRelease))
    && (!gives ==> k + 1 == |acts|)
  }

  lemma HandledGivesBack(cfg: Config, v: View, m: Msg, k: nat)
    requires v.held != Broken && k < |Handled(cfg, v, m).acts| && Handled(cfg, v, m).acts[k].Ready?
    ensures var acts := Handled(cfg, v, m).acts;
            GivesBack(cfg, v.held, acts, k, !v.pinned && !m.pins && (cfg.statementMode || acts[k].tx == I))
  {
    HandledShape(cfg, v, m);
    ServedGivesBack(cfg, v.(pinned := v.pinned || m.pins), m, k);
  }

  lemma ServedGivesBack(cfg: Config, v: View, m: Msg, k: nat)
    requires v.held != Broken && Admitted(cfg, m)
    requires var (got, taken, stop) := Attaching(cfg, v, m);
             var acts := if stop != GoOn then taken else taken + Forwarded(cfg, got, m).acts;
             k < |acts| && acts[k].Ready?
    ensures var (got, taken, stop) := Attaching(cfg, v, m);
            var acts := if stop != GoOn then taken else taken + Forwarded(cfg, got, m).acts;
            GivesBack(cfg, v.held, acts, k, !v.pinned && (cfg.statementMode || acts[k].tx == I))
  {
    var (got, taken, stop) := Attaching(cfg, v, m);
    AttachingFair(cfg, v, m);
    AttachingFolds(cfg, v, m);
    AttachingTells(cfg, v, m);
    ForwardedFair(cfg, got, m);
    var more := Forwarded(cfg, got, m).acts;
    assert stop == GoOn && k == |taken| && (taken + more)[k] == more[0] && (taken + more)[..k] == taken;
    ForwardedGivesBack(cfg, got, m);
  }

  lemma ForwardedGivesBack(cfg: Config, v: View, m: Msg)
    requires v.held.Held? && Answered(m)
    ensures var tx := m.drained.tx;
            Forwarded(cfg, v, m).acts
            == if !v.pinned && (cfg.statementMode || tx == I)
               then [Ready(tx), Released(v.held.pool, v.held.conn, cfg.resetOnRelease)]
               else [Ready(tx)]
  {
  }

  // ---------------------------------------------------------------- every session

  /** The acts of a session before part `i`, the warm-up included. */
  function Before(warm: Option<nat>, parts: seq<seq<Act>>, i: nat): seq<Act>
    requires i <= |parts|
  {
    Warm(warm) + Flat(parts[..i])
  }

  lemma BeforeFolds(warm: Option<nat>, parts: seq<seq<Act>>, i: nat, more: seq<Act>)
    requires i <= |parts|
    ensures After(Before(warm, parts, i) + more) == Fold(Fold(Free, Flat(parts[..i])), more)
    ensures After(Before(warm, parts, i)) == Fold(Free, Flat(parts[..i]))
    ensures LastTold(I, Before(warm, parts, i)) == LastTold(I, Flat(parts[..i]))
  {
    WarmNeutral(warm);
    FoldAppend(Free, Warm(warm), Flat(parts[..i]));
    FoldAppend(Free, Before(warm, parts, i), more);
    LastToldAppend(I, Warm(warm), Flat(parts[..i]));
  }

  lemma WarmNeutral(warm: Option<nat>)
    ensures Fold(Free, Warm(warm)) == Free && LastTold(I, Warm(warm)) == I
  {
    if warm.Some? {
      FoldTwo(Free, Acquired(PRIMARY, warm.value), Released(PRIMARY, warm.value, false));
      assert Warm(warm)[..1] == [Acquired(PRIMARY, warm.value)];
      LastToldOne(I, Acquired(PRIMARY, warm.value));
    }
  }

  /** In every session, a report that answers a client message is followed at once by the release of
      the backend held, to its own pool and with the configured reset, if the client has sent nothing
      that pins its session and either statement mode is on or the report says idle; otherwise nothing
      at all follows it before the next event. */
  lemma ReleasedIff(cfg: Config, warm: Option<nat>, events: seq<Event>, i: nat, k: nat)
    requires var parts := Answers(cfg, FRESH, events, false);
             i + 1 < |parts| && events[i].Recv? && k < |parts[i]| && parts[i][k].Ready?
    ensures var parts := Answers(cfg, FRESH, events, false);
            var acts := parts[i];
            var h := After(Before(warm, parts, i) + acts[..k]);
            && h.Held?
            && if !Pinned(events, i + 1) && (cfg.statementMode || acts[k].tx == I)
               then k + 2 == |acts| && acts[k + 1] == Released(h.pool, h.conn, cfg.resetOnRelease)
               else k + 1 == |acts|
  {
    var parts := Answers(cfg, FRESH, events, false);
    var v := PartAt(cfg, FRESH, events, false, i);
    HandledGivesBack(cfg, v, events[i].msg, k);
    BeforeFolds(warm, parts, i, parts[i][..k]);
    PinnedNext(events, i);
  }

  lemma PinnedNext(events: seq<Event>, i: nat)
    requires i < |events|
    ensures Pinned(events, i + 1) <==> Pinned(events, i) || Pins(events[i])
  {
    if j :| 0 <= j < i + 1 && Pins(events[j]) {
      if j < i { assert Pinned(events, i); }
    }
  }

  /** In every session, a backend is taken for a message exactly when none is held and the message is
      admitted and needs one that is to be had; it comes from the picked replica for an unpinned read
      outside the sticky window, and from the primary otherwise; the client gets a report exactly when a
      backend is attached and answers; a backend is thrown away exactly when the client's settings
      cannot be restored on it or it does not answer in time, and goes back only after a report. */
  lemma TakenAndAnswered(cfg: Config, warm: Option<nat>, events: seq<Event>, i: nat)
    requires i + 1 < |Answers(cfg, FRESH, events, false)| && events[i].Recv? && events[i].msg.kind != Terminate
    ensures var parts := Answers(cfg, FRESH, events, false);
            Fair(cfg, After(Before(warm, parts, i)), Pinned(events, i + 1), events[i].msg, parts[i])
  {
    var parts := Answers(cfg, FRESH, events, false);
    var v := PartAt(cfg, FRESH, events, false, i);
    HandledFair(cfg, v, events[i].msg);
    BeforeFolds(warm, parts, i, []);
    PinnedNext(events, i);
  }

  /** Whatever is not a read goes to the primary: so does a pinned session, a read inside the sticky
      window, and a read no replica is picked for. */
  lemma OnlyReadsLeaveThePrimary(cfg: Config, events: seq<Event>, i: nat, k: nat)
    requires var parts := Answers(cfg, FRESH, events, false);
             i + 1 < |parts| && k < |parts[i]| && parts[i][k].Acquired? && parts[i][k].pool != PRIMARY
    ensures events[i].Recv? && events[i].msg.read && !events[i].msg.sticky && !Pinned(events, i + 1)
    ensures events[i].msg.picker == Some(Answers(cfg, FRESH, events, false)[i][k].pool)
  {
    var v := PartAt(cfg, FRESH, events, false, i);
    if events[i].Recv? {
      HandledFair(cfg, v, events[i].msg);
      PinnedNext(events, i);
    }
  }

  /** What ends a session: the client's goodbye, no backend or one that cannot be brought to the
      client's settings, or a backend that cannot be written to or read from. */
  predicate Ends(cfg: Config, held: Checkout, pinned: bool, m: Msg) {
    || m.kind == Terminate
    || (&& Admitted(cfg, m) && held == Free && m.kind != Sync
        && (if Route(pinned, m) == PRIMARY && !m.primaryHealthy then false
            else m.acquired.None? || m.replay == Some(false) || Breaks(m)))
    || (Admitted(cfg, m) && held.Held? && Breaks(m))
  }

  predicate Breaks(m: Msg) {
    !m.intercepted || (m.kind in {Query, Sync, CopyDone, CopyFail} && (!m.flushed || m.drained.Failed?))
  }

  lemma HandledEnds(cfg: Config, v: View, m: Msg)
    requires v.held != Broken
    ensures Handled(cfg, v, m).exit <==> Ends(cfg, v.held, v.pinned || m.pins, m)
  {
  }

  /** In every session the loop is left at a message exactly then. */
  lemma EndsIff(cfg: Config, warm: Option<nat>, events: seq<Event>, i: nat)
    requires i + 1 < |Answers(cfg, FRESH, events, false)| && i + 1 < |events| && events[i].Recv?
    ensures var parts := Answers(cfg, FRESH, events, false);
            |parts| == i + 2
            <==> Ends(cfg, After(Before(warm, parts, i)), Pinned(events, i) || events[i].msg.pins, events[i].msg)
  {
    var parts := Answers(cfg, FRESH, events, false);
    var v := PartAt(cfg, FRESH, events, false, i);
    HandledEnds(cfg, v, events[i].msg);
    BeforeFolds(warm, parts, i, []);
  }

  /** A client whose read deadline passes is kept and polled for notifications exactly if its session is
      pinned, holds a backend, was last told idle and is not yet past its own limit; it is let go, and
      nothing is done about it, in every other case. */
  lemma PolledIff(cfg: Config, warm: Option<nat>, events: seq<Event>, i: nat)
    requires i + 1 < |Answers(cfg, FRESH, events, false)| && i + 1 < |events| && events[i].RecvTimeout?
    ensures var parts := Answers(cfg, FRESH, events, false);
            var e, before := events[i], Before(warm, parts, i);
            var h := After(before);
            if Pinned(events, i) && h.Held? && LastTold(I, before) == I && !e.expired then
              && parts[i] == Reports(e.async) + (if e.asyncFails then [Discarded(h.pool, h.conn)] else [])
              && (|parts| == i + 2 <==> e.asyncFails)
            else
              parts[i] == [] && |parts| == i + 2
  {
    var parts := Answers(cfg, FRESH, events, false);
    var v := PartAt(cfg, FRESH, events, false, i);
    BeforeFolds(warm, parts, i, []);
    assert Reports(events[i].async) + [] == Reports(events[i].async);
  }

  /** On the way out a backend that is still held goes back if the client was last told idle, and is
      thrown away otherwise. */
  lemma LeftBehind(cfg: Config, warm: Option<nat>, events: seq<Event>)
    ensures var parts := Answers(cfg, FRESH, events, false);
            var before := Before(warm, parts, |parts| - 1);
            var h := After(before);
            && h != Broken
            && parts[|parts| - 1] == if h == Free then []
                                     else if LastTold(I, before) == I
                                     then [Released(h.pool, h.conn, cfg.resetOnRelease)]
                                     else [Discarded(h.pool, h.conn)]
  {
    var parts := Answers(cfg, FRESH, events, false);
    var v := PartAt(cfg, FRESH, events, false, |parts| - 1);
    BeforeFolds(warm, parts, |parts| - 1, []);
  }
}
