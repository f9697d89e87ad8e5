/** The settings a client has SET, remembered for replay on the next backend, or the pin when they
    cannot be replayed. Commands arrive already parsed. */
module GucCache {
  import opened Options
  import opened SetText

  type Vars = map<string, string>

  datatype Cmd =
    | Set(name: string, value: string)
    | SetLocal(name: string, value: string)
    | Reset(name: string)
    | ResetAll
    | DiscardAll
    | Begin
    | Commit
    | Rollback
    | Other

  /** What the cache remembers after a command. */
  function Tracked(replayable: set<string>, vars: Vars, cmd: Cmd): Vars {
    match cmd
    case Set(n, v) => if n in replayable then vars[n := v] else vars
    case Reset(n) => vars - {n}
    case ResetAll => map[]
    case DiscardAll => map[]
    case _ => vars
  }

  predicate Flagged(replayable: set<string>, unrecognized: bool, cmd: Cmd) {
    match cmd
    case Set(n, _) => unrecognized || n !in replayable
    case ResetAll => false
    case DiscardAll => false
    case _ => unrecognized
  }

  /** What the cache remembers after the commands of a session. */
  function TrackedAfter(replayable: set<string>, cmds: seq<Cmd>): Vars {
    if cmds == [] then map[]
    else Tracked(replayable, TrackedAfter(replayable, cmds[..|cmds| - 1]), cmds[|cmds| - 1])
  }

  predicate FlaggedAfter(replayable: set<string>, cmds: seq<Cmd>) {
    cmds != [] && Flagged(replayable, FlaggedAfter(replayable, cmds[..|cmds| - 1]), cmds[|cmds| - 1])
  }

  predicate ForgetsAll(cmd: Cmd) { cmd.ResetAll? || cmd.DiscardAll? }

  predicate Forgets(cmd: Cmd, n: string) { ForgetsAll(cmd) || (cmd.Reset? && cmd.name == n) }

  predicate SetsIt(cmd: Cmd, n: string) { cmd.Set? && cmd.name == n }

  /** The client's last word on the setting is that it be this value. */
  predicate LastSet(cmds: seq<Cmd>, n: string, v: string) {
    exists i :: 0 <= i < |cmds| && LastWord(cmds, n, v, i)
  }

  predicate LastWord(cmds: seq<Cmd>, n: string, v: string, i: nat)
    requires i < |cmds|
  {
    cmds[i] == Set(n, v) && forall j :: i < j < |cmds| ==> !SetsIt(cmds[j], n) && !Forgets(cmds[j], n)
  }

  /** A setting is tracked with a value if and only if it is on the list and the client's last word on it,
      over its whole session, was to set that value. */
  lemma {:induction false} TrackedIff(replayable: set<string>, cmds: seq<Cmd>, n: string, v: string)
    ensures var vars := TrackedAfter(replayable, cmds);
            n in vars && vars[n] == v <==> n in replayable && LastSet(cmds, n, v)
  {
    if cmds != [] {
      TrackedIff(replayable, cmds[..|cmds| - 1], n, v);
      LastSetNext(cmds, n, v);
    }
  }

  lemma LastSetNext(cmds: seq<Cmd>, n: string, v: string)
    requires cmds != []
    ensures var init, last := cmds[..|cmds| - 1], cmds[|cmds| - 1];
            LastSet(cmds, n, v)
            <==> last == Set(n, v) || (LastSet(init, n, v) && !SetsIt(last, n) && !Forgets(last, n))
  {
    var k := |cmds| - 1;
    var init := cmds[..k];
    if cmds[k] == Set(n, v) { assert LastWord(cmds, n, v, k); }
    if i :| 0 <= i < k && LastWord(init, n, v, i) {
      if !SetsIt(cmds[k], n) && !Forgets(cmds[k], n) { assert LastWord(cmds, n, v, i); }
    }
    if i :| 0 <= i < |cmds| && LastWord(cmds, n, v, i) {
      if i < k { assert LastWord(init, n, v, i); }
    }
  }

  /** The session has to be pinned if and only if, since everything was last reset or discarded, the client
      has set something that is not on the list. */
  lemma {:induction false} FlaggedIff(replayable: set<string>, cmds: seq<Cmd>)
    ensures FlaggedAfter(replayable, cmds)
            <==> exists i :: 0 <= i < |cmds| && UnlistedSet(replayable, cmds[i]) && NoneForgetsAll(cmds, i)
  {
    if cmds != [] {
      var n := |cmds| - 1;
      FlaggedIff(replayable, cmds[..n]);
      if i :| 0 <= i < n && UnlistedSet(replayable, cmds[..n][i]) && NoneForgetsAll(cmds[..n], i) {
        assert !ForgetsAll(cmds[n]) ==> NoneForgetsAll(cmds, i);
        assert UnlistedSet(replayable, cmds[i]);
      }
      if i :| 0 <= i < |cmds| && UnlistedSet(replayable, cmds[i]) && NoneForgetsAll(cmds, i) {
        if i < n { assert UnlistedSet(replayable, cmds[..n][i]) && NoneForgetsAll(cmds[..n], i); }
      }
      if UnlistedSet(replayable, cmds[n]) { assert NoneForgetsAll(cmds, n); }
    }
  }

  predicate UnlistedSet(replayable: set<string>, cmd: Cmd) { cmd.Set? && cmd.name !in replayable }

  predicate NoneForgetsAll(cmds: seq<Cmd>, i: nat) { forall j :: i < j < |cmds| ==> !ForgetsAll(cmds[j]) }

  // ---------------------------------------------------------------- the replay

  /** The effect of a list of assignments, in order. */
  function Assign(vars: Vars, list: seq<(string, string)>): Vars
    decreases |list|
  {
    if list == [] then vars else Assign(vars, list[..|list| - 1])[list[|list| - 1].0 := list[|list| - 1].1]
  }

  /** The list assigns each variable once, in some order. */
  ghost predicate Lists(list: seq<(string, string)>, vars: Vars) {
    && (forall i :: 0 <= i < |list| ==> list[i].0 in vars && list[i].1 == vars[list[i].0])
    && (forall n :: n in vars ==> exists i :: 0 <= i < |list| && list[i].0 == n)
    && (forall i, j :: 0 <= i < j < |list| ==> list[i].0 != list[j].0)
  }

  lemma {:induction false} AssignsListed(list: seq<(string, string)>, vars: Vars)
    requires forall i :: 0 <= i < |list| ==> list[i].0 in vars && list[i].1 == vars[list[i].0]
    ensures forall n :: n in Assign(map[], list) <==> exists i :: 0 <= i < |list| && list[i].0 == n
    ensures forall n :: n in Assign(map[], list) ==> n in vars && Assign(map[], list)[n] == vars[n]
    decreases |list|
  {
    if list != [] {
      var init, last := list[..|list| - 1], list[|list| - 1];
      AssignsListed(init, vars);
      forall n ensures n in Assign(map[], list) <==> exists i :: 0 <= i < |list| && list[i].0 == n {
        if i :| 0 <= i < |list| && list[i].0 == n {
          if i < |init| { assert init[i].0 == n; }
        }
        if n in Assign(map[], init) { var i :| 0 <= i < |init| && init[i].0 == n; assert list[i].0 == n; }
        assert list[|list| - 1].0 == last.0;
      }
    }
  }

  /** Whatever order the map is walked in, a default backend ends up with exactly the tracked values. */
  lemma ReplayRestores(list: seq<(string, string)>, vars: Vars)
    requires Lists(list, vars)
    ensures Assign(map[], list) == vars
  {
    AssignsListed(list, vars);
  }

  function Assignment(p: (string, string)): string { "SET " + p.0 + "=" + p.1 + ";" }

  /** The assignments as SQL, one space between them. */
  function Joined(list: seq<(string, string)>): string
    decreases |list|
  {
    if list == [] then ""
    else if |list| == 1 then Assignment(list[0])
    else Joined(list[..|list| - 1]) + " " + Assignment(list[|list| - 1])
  }

  /** The builder's contents after the assignments: each is followed by a space. */
  function Built(list: seq<(string, string)>): string
    decreases |list|
  {
    if list == [] then "" else Built(list[..|list| - 1]) + (Assignment(list[|list| - 1]) + " ")
  }

  lemma {:induction false} BuiltIsJoined(list: seq<(string, string)>)
    requires list != []
    ensures Built(list) == Joined(list) + " "
    decreases |list|
  {
    if |list| > 1 {
      BuiltIsJoined(list[..|list| - 1]);
      var front, last := Joined(list[..|list| - 1]), Assignment(list[|list| - 1]);
      assert (front + " ") + (last + " ") == (front + " " + last) + " ";
    } else {
      assert Built(list[..0]) == "";
    }
  }

  lemma {:induction false} JoinedFront(list: seq<(string, string)>)
    requires list != []
    ensures Joined(list) == Assignment(list[0]) + if |list| == 1 then "" else " " + Joined(list[1..])
    decreases |list|
  {
    if |list| > 1 {
      var init, last := list[..|list| - 1], Assignment(list[|list| - 1]);
      JoinedFront(init);
      if |list| > 2 {
        var mid := Joined(init[1..]);
        assert list[1..][..|list| - 2] == init[1..];
        assert (Assignment(list[0]) + (" " + mid)) + " " + last == Assignment(list[0]) + (" " + (mid + " " + last));
      } else {
        assert list[1..] == [list[1]];
      }
    }
  }

  lemma SpaceSkipped(list: seq<(string, string)>)
    requires list != []
    ensures SkipSpaces(" " + Joined(list)) == Joined(list)
  {
    JoinedFront(list);
    assert Joined(list)[0] == Assignment(list[0])[0] == 'S';
    assert (" " + Joined(list))[1..] == Joined(list);
  }

  lemma ReadsAssignment(p: (string, string), tail: string)
    requires Plain(p)
    ensures var rest := Read(SkipSpaces(tail));
            Read(Assignment(p) + tail) == if rest.None? then None else Some([p] + rest.value)
  {
    ReadsPlain(p, tail);
    assert Assignment(p) + tail == "SET " + p.0 + "=" + p.1 + ";" + tail;
  }

  lemma {:induction false} JoinedIsRead(list: seq<(string, string)>)
    requires forall p :: p in list ==> Plain(p)
    ensures Read(Joined(list)) == Some(list)
    decreases |list|
  {
    if list != [] {
      var tail := if |list| == 1 then "" else " " + Joined(list[1..]);
      JoinedFront(list);
      ReadsAssignment(list[0], tail);
      if |list| > 1 { SpaceSkipped(list[1..]); }
      JoinedIsRead(list[1..]);
      assert list == [list[0]] + list[1..];
    }
  }

  /** What a server with default settings has after the text, if it reads as assignments at all. */
  function Executed(sql: string): Option<Vars> {
    if Read(sql).None? then None else Some(Assign(map[], Read(sql).value))
  }

  /** Every tracked setting reads as itself. */
  ghost predicate AllPlain(vars: Vars) { forall n :: n in vars ==> Plain((n, vars[n])) }

  /** The replay text brings a default server to exactly the tracked settings if and only if no name
      holds an equals sign and no setting holds a semicolon outside quotes or an open quote. */
  lemma ReplayExecutes(list: seq<(string, string)>, vars: Vars)
    requires Lists(list, vars)
    ensures Executed(Joined(list)) == Some(vars) <==> AllPlain(vars)
  {
    if AllPlain(vars) {
      JoinedIsRead(list);
      ReplayRestores(list, vars);
    }
    if Executed(Joined(list)) == Some(vars) {
      var read := Read(Joined(list)).value;
      ReadIsPlain(Joined(list));
      forall n | n in vars ensures Plain((n, vars[n])) { var _ := Assigned(read, n); }
    }
  }

  /** A client that sets two statements' worth of text as one value does not get it back. */
  lemma SplitValueIsLost()
    ensures var vars: Vars := map["timezone" := "1;2"];
            forall list :: Lists(list, vars) ==> Executed(Joined(list)) != Some(vars)
  {
    var vars: Vars := map["timezone" := "1;2"];
    assert !Plain(("timezone", vars["timezone"])) by {
      SplitIsNotPlain("timezone", "1", "2");
      assert "1" + ";" + "2" == "1;2";
    }
    forall list | Lists(list, vars) ensures Executed(Joined(list)) != Some(vars) { ReplayExecutes(list, vars); }
  }

  /** A value assigned comes from the list. */
  lemma {:induction false} Assigned(list: seq<(string, string)>, n: string) returns (i: nat)
    requires n in Assign(map[], list)
    ensures i < |list| && list[i] == (n, Assign(map[], list)[n])
    decreases |list|
  {
    var last := |list| - 1;
    if list[last].0 == n { i := last; } else { i := Assigned(list[..last], n); }
  }

  /** All entries of the map but those to come are listed. */
  ghost predicate ListedBut(list: seq<(string, string)>, vars: Vars, todo: set<string>) { Lists(list, vars - todo) }

  lemma NothingListed(vars: Vars)
    ensures ListedBut([], vars, vars.Keys)
  {
    assert vars - vars.Keys == map[];
  }

  lemma NextListed(list: seq<(string, string)>, vars: Vars, todo: set<string>, name: string)
    requires name in todo && todo <= vars.Keys && ListedBut(list, vars, todo)
    ensures ListedBut(list + [(name, vars[name])], vars, todo - {name})
  {
    OneMore(list, vars - todo, name, vars[name]);
    assert vars - (todo - {name}) == (vars - todo)[name := vars[name]];
  }

  lemma AllListed(list: seq<(string, string)>, vars: Vars)
    requires ListedBut(list, vars, {}) && vars != map[]
    ensures Lists(list, vars) && list != []
  {
    assert vars - {} == vars;
    var n :| n in vars;
  }

  lemma LastSpaceDropped(list: seq<(string, string)>)
    requires list != []
    ensures Built(list) != "" && Built(list)[..|Built(list)| - 1] == Joined(list) != ""
  {
    BuiltIsJoined(list);
    assert |Assignment(list[|list| - 1])| > 0;
  }

  method Append(b: string, ghost list: seq<(string, string)>, name: string, value: string) returns (r: string)
    requires b == Built(list)
    ensures r == Built(list + [(name, value)])
  {
    r := b + ("SET " + name + "=" + value + "; ");
    assert (list + [(name, value)])[..|list|] == list;
    assert "SET " + name + "=" + value + "; " == Assignment((name, value)) + " ";
  }

  class GucCache {
    const replayable: set<string>
    var vars: Vars
    var unrecognized: bool

    constructor (replayable: set<string>)
      ensures this.replayable == replayable && vars == map[] && !unrecognized
    {
      this.replayable, vars, unrecognized := replayable, map[], false;
    }

    method ApplyGuc(cmd: Cmd) returns (modified: bool)
      modifies this
      ensures vars == Tracked(replayable, old(vars), cmd) && unrecognized == Flagged(replayable, old(unrecognized), cmd)
      ensures modified
              <==> (vars != old(vars) || unrecognized != old(unrecognized) || (cmd.Set? && cmd.name !in replayable))
    {
      match cmd {
        case DiscardAll =>
          modified := |vars| > 0 || unrecognized;
          vars, unrecognized := map[], false;
        case ResetAll =>
          modified := |vars| > 0 || unrecognized;
          vars, unrecognized := map[], false;
        case Reset(name) =>
          modified := name in vars;
          vars := vars - {name};
        case Set(name, value) =>
          if name !in replayable {
            unrecognized := true;
            return true;
          }
          modified := name !in vars || vars[name] != value;
          assert !modified ==> vars[name := value] == vars;
          vars := vars[name := value];
        case _ =>
          modified := false;
      }
    }

    method HasUnrecognizedSet() returns (r: bool)
      ensures r == unrecognized
    {
      r := unrecognized;
    }

    /** The text of the replay query; `list` is the order in which the map yielded its entries. */
    method ReplayQuery() returns (sql: string, ghost list: seq<(string, string)>)
      ensures Lists(list, vars) && sql == Joined(list) && (sql == "" <==> vars == map[])
      ensures Executed(sql) == Some(vars) <==> AllPlain(vars)
    {
      list := [];
      if |vars| == 0 { return "", list; }
      var todo := vars.Keys;
      var b := "";
      NothingListed(vars);
      while todo != {}
        invariant todo <= vars.Keys && ListedBut(list, vars, todo)
        invariant b == Built(list)
        decreases |todo|
      {
        var name :| name in todo;
        NextListed(list, vars, todo, name);
        b := Append(b, list, name, vars[name]);
        list := list + [(name, vars[name])];
        todo := todo - {name};
      }
      AllListed(list, vars);
      LastSpaceDropped(list);
      ReplayExecutes(list, vars);
      sql := b[..|b| - 1];
    }
  }

  lemma OneMore(list: seq<(string, string)>, vars: Vars, n: string, v: string)
    requires Lists(list, vars) && n !in vars
    ensures Lists(list + [(n, v)], vars[n := v])
  {
    var more, now := list + [(n, v)], vars[n := v];
    forall m | m in now ensures exists i :: 0 <= i < |more| && more[i].0 == m {
      if m == n { assert more[|list|].0 == m; }
      else { var i :| 0 <= i < |list| && list[i].0 == m; assert more[i].0 == m; }
    }
  }
}
