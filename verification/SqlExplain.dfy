/** The options between EXPLAIN and its statement, as the classifier passes them over and as a grammar
    describes them. */
module SqlExplain {
  import opened SqlNoise
  import opened SqlKeyword
  import opened SqlClassifier

  /** From this depth the text closes with its last character and not before. */
  predicate Closes(s: string, depth: nat) {
    && s != [] && depth > 0
    && var d := if s[0] == '(' then depth + 1 else if s[0] == ')' then depth - 1 else depth;
       if d == 0 then |s| == 1 else Closes(s[1..], d)
  }

  predicate Group(g: string) { g != [] && g[0] == '(' && Closes(g[1..], 1) }

  /** Noise and then a parenthesised group of options. */
  datatype Piece = Piece(noise: seq<Noise>, group: string)

  function Spelled(ps: seq<Piece>): string {
    if ps == [] then "" else WrittenAll(ps[0].noise) + ps[0].group + Spelled(ps[1..])
  }

  predicate AllHarmless(ps: seq<Piece>) { ps == [] || (Harmless(ps[0]) && AllHarmless(ps[1..])) }

  predicate Harmless(p: Piece) { GoodAll(p.noise) && Group(p.group) && !HasWord(Upper(p.group), "ANALYZE") }

  /** Where a peel of option groups stops. */
  predicate Statement(t: string) {
    t != "" && Bare(t) && t[0] != '(' && FirstWord(t) != Panics && FirstWord(t) != Word("ANALYZE")
  }

  lemma {:induction false} ParenEnds(s: string, depth: nat, rest: string)
    requires Closes(s, depth)
    ensures AfterParen(s + rest, depth) == rest
  {
    var d: nat := if s[0] == '(' then depth + 1 else if s[0] == ')' then depth - 1 else depth;
    assert (s + rest)[1..] == s[1..] + rest;
    if d == 0 {
      assert s[1..] + rest == rest;
    } else {
      ParenEnds(s[1..], d, rest);
    }
  }

  lemma {:induction false} ParenSplits(s: string, depth: nat) returns (g: string)
    requires AfterParen(s, depth) != [] && depth > 0
    ensures Closes(g, depth) && s == g + AfterParen(s, depth)
  {
    var d: nat := if s[0] == '(' then depth + 1 else if s[0] == ')' then depth - 1 else depth;
    assert s == [s[0]] + s[1..];
    if d == 0 {
      g := [s[0]];
    } else {
      var more := ParenSplits(s[1..], d);
      g := [s[0]] + more;
      assert g[1..] == more;
    }
  }

  lemma StripOfBare(t: string)
    requires Bare(t)
    ensures Strip(t) == t
  {
  }

  /** One turn of the option loop. */
  lemma OptionTurn(s: string, g: string, rest: string)
    requires Strip(s) == g + rest && g != [] && g[0] == '(' && AfterParen((g + rest)[1..], 1) == rest
    ensures !HasWord(Upper(g), "ANALYZE") ==> AfterOptions(s) == AfterOptions(rest)
    ensures HasWord(Upper(g), "ANALYZE") ==> AfterOptions(s) == Verdict(Write)
  {
    assert (g + rest)[..|g + rest| - |rest|] == g;
  }

  lemma GroupSplits(g: string, rest: string)
    requires Group(g)
    ensures AfterParen((g + rest)[1..], 1) == rest
  {
    ParenEnds(g[1..], 1, rest);
    assert (g + rest)[1..] == g[1..] + rest;
  }

  lemma PieceSkipped(p: Piece, rest: string)
    requires Harmless(p)
    ensures AfterOptions(WrittenAll(p.noise) + p.group + rest) == AfterOptions(rest)
  {
    var t := p.group + rest;
    NoiseDropped(p.noise, t);
    assert WrittenAll(p.noise) + p.group + rest == WrittenAll(p.noise) + t;
    StripOfBare(t);
    GroupSplits(p.group, rest);
    OptionTurn(WrittenAll(p.noise) + t, p.group, rest);
  }

  lemma NoOptions(ns: seq<Noise>, t: string)
    requires GoodAll(ns) && Statement(t)
    ensures AfterOptions(WrittenAll(ns) + t) == Inner(t)
  {
    NoiseDropped(ns, t);
    StripOfBare(t);
  }

  /** Any option groups without the word ANALYZE are passed over... */
  lemma {:induction false} OptionsSkipped(ps: seq<Piece>, ns: seq<Noise>, t: string)
    requires AllHarmless(ps) && GoodAll(ns) && Statement(t)
    ensures AfterOptions(Spelled(ps) + (WrittenAll(ns) + t)) == Inner(t)
    decreases |ps|
  {
    if ps == [] {
      NoOptions(ns, t);
      assert Spelled(ps) + (WrittenAll(ns) + t) == WrittenAll(ns) + t;
    } else {
      OptionsSkipped(ps[1..], ns, t);
      var rest := Spelled(ps[1..]) + (WrittenAll(ns) + t);
      assert Spelled(ps) + (WrittenAll(ns) + t) == WrittenAll(ps[0].noise) + ps[0].group + rest;
      PieceSkipped(ps[0], rest);
    }
  }

  /** A group that opens and never closes. */
  predicate Unclosed(u: string) { u != "" && u[0] == '(' && forall n :: 0 <= n <= |u| ==> !Group(u[..n]) }

  /** The group a text opens with ends at `n`, or runs to the end of the text. */
  predicate GroupEnds(u: string, n: nat) { n <= |u| && (Group(u[..n]) || (n == |u| && Unclosed(u))) }

  /** The word ANALYZE, on its own or in an option group. */
  predicate Analyzes(u: string) {
    Leads(u, "ANALYZE") || exists n :: 0 < n <= |u| && GroupEnds(u, n) && HasWord(Upper(u[..n]), "ANALYZE")
  }

  lemma {:induction false} AfterParenIsTail(s: string, depth: nat)
    ensures var r := AfterParen(s, depth); s[|s| - |r|..] == r
  {
    if s != [] && depth > 0 {
      var d: nat := if s[0] == '(' then depth + 1 else if s[0] == ')' then depth - 1 else depth;
      AfterParenIsTail(s[1..], d);
      assert s[1..][|s| - 1 - |AfterParen(s, depth)|..] == s[|s| - |AfterParen(s, depth)|..];
    }
  }

  /** Where the option loop resumes after a group is where the group ends. */
  lemma GroupEndsIff(u: string, n: nat)
    requires u != "" && u[0] == '(' && 0 < n <= |u|
    ensures GroupEnds(u, n) <==> AfterParen(u[1..], 1) == u[n..]
  {
    var rest := AfterParen(u[1..], 1);
    if Group(u[..n]) {
      GroupSplits(u[..n], u[n..]);
      assert u == u[..n] + u[n..];
    }
    if rest != [] {
      var g, _ := FirstGroup(u);
      assert u[..|g|] == g && u[|g|..] == rest;
      if rest == u[n..] { assert |g| == n; }
    } else if forall m :: 0 <= m <= |u| ==> !Group(u[..m]) {
      assert Unclosed(u);
    } else {
      var m :| 0 <= m <= |u| && Group(u[..m]);
      GroupSplits(u[..m], u[m..]);
      assert u == u[..m] + u[m..];
      assert m == |u|;
    }
  }

  lemma AnalyzeTurn(s: string, u: string)
    requires Strip(s) == u && Analyzes(u)
    ensures AfterOptions(s) == Verdict(Write)
  {
    if Leads(u, "ANALYZE") {
      AnalyzeLeads(u);
      AnalyzeAlone(s, u);
    } else {
      var n :| 0 < n <= |u| && GroupEnds(u, n) && HasWord(Upper(u[..n]), "ANALYZE");
      assert u[0] == '(' by { if Group(u[..n]) { assert u[..n][0] == u[0]; } }
      GroupEndsIff(u, n);
      assert u[..n] + u[n..] == u;
      OptionTurn(s, u[..n], u[n..]);
    }
  }

  lemma AnalyzeLeads(u: string)
    ensures Leads(u, "ANALYZE") <==> FirstWord(u) == Word("ANALYZE")
  {
    assert "ANALYZE"[..6][0] == 'A';
    LeadsIff(u, "ANALYZE");
  }

  lemma AnalyzeIsBare(u: string)
    requires Analyzes(u)
    ensures u != "" && Bare(u)
  {
    if Leads(u, "ANALYZE") {
      assert Upper(u[..7])[0] == 'A';
    } else {
      var n :| 0 < n <= |u| && GroupEnds(u, n) && HasWord(Upper(u[..n]), "ANALYZE");
      assert u[0] == '(' by { if Group(u[..n]) { assert u[..n][0] == u[0]; } }
    }
  }

  /** The word ANALYZE, in an option group or on its own, makes an EXPLAIN a write... */
  lemma {:induction false} AnalyzeWrites(ps: seq<Piece>, ns: seq<Noise>, u: string)
    requires AllHarmless(ps) && GoodAll(ns) && Analyzes(u)
    ensures AfterOptions(Spelled(ps) + (WrittenAll(ns) + u)) == Verdict(Write)
    decreases |ps|
  {
    if ps == [] {
      AnalyzeIsBare(u);
      NoiseDropped(ns, u);
      StripOfBare(u);
      AnalyzeTurn(WrittenAll(ns) + u, u);
      assert Spelled(ps) + (WrittenAll(ns) + u) == WrittenAll(ns) + u;
    } else {
      AnalyzeWrites(ps[1..], ns, u);
      var more := Spelled(ps[1..]) + (WrittenAll(ns) + u);
      assert Spelled(ps) + (WrittenAll(ns) + u) == WrittenAll(ps[0].noise) + ps[0].group + more;
      PieceSkipped(ps[0], more);
    }
  }

  /** ...and nothing else in front of its statement does. */
  lemma {:induction false} OnlyAnalyzeWrites(s: string) returns (ps: seq<Piece>, ns: seq<Noise>, u: string)
    requires AfterOptions(s) == Verdict(Write)
    ensures AllHarmless(ps) && GoodAll(ns) && Analyzes(u) && s == Spelled(ps) + (WrittenAll(ns) + u)
    decreases |s|
  {
    u := Strip(s);
    ns := OnlyNoiseDropped(s);
    ps := [];
    assert Spelled(ps) + (WrittenAll(ns) + u) == s;
    if u[0] != '(' {
      AnalyzeLeads(u);
    } else {
      var rest := AfterParen(u[1..], 1);
      var n := |u| - |rest|;
      AfterParenIsTail(u[1..], 1);
      assert u[n..] == u[1..][n - 1..];
      GroupEndsIff(u, n);
      if !HasWord(Upper(u[..n]), "ANALYZE") {
        NothingUnder();
        var g, _ := FirstGroup(u);
        assert g == u[..n];
        OptionTurn(s, g, rest);
        var more, last, inner := OnlyAnalyzeWrites(rest);
        SpelledMore(Piece(ns, g), rest, more, WrittenAll(last) + inner);
        ps, ns, u := [Piece(ns, g)] + more, last, inner;
        assert ps[1..] == more;
      }
    }
  }

  lemma AnalyzeAlone(s: string, t: string)
    requires Strip(s) == t && FirstWord(t) == Word("ANALYZE")
    ensures AfterOptions(s) == Verdict(Write)
  {
    assert t != "" && Ident(t[0]) by { assert IdentLen(t) > 0; }
  }

  /** The group a bare text opens with, when the text goes on after it. */
  lemma FirstGroup(t: string) returns (g: string, rest: string)
    requires t != [] && t[0] == '(' && AfterParen(t[1..], 1) != []
    ensures rest == AfterParen(t[1..], 1) && t == g + rest && Group(g)
  {
    rest := AfterParen(t[1..], 1);
    var inside := ParenSplits(t[1..], 1);
    g := "(" + inside;
    assert g[1..] == inside && t == "(" + t[1..];
  }

  lemma SpelledMore(p: Piece, rest: string, ps: seq<Piece>, more: string)
    requires rest == Spelled(ps) + more
    ensures WrittenAll(p.noise) + (p.group + rest) == Spelled([p] + ps) + more
  {
    assert ([p] + ps)[1..] == ps;
    Regroup(WrittenAll(p.noise), p.group, Spelled(ps), more);
  }

  lemma Regroup(a: string, b: string, c: string, d: string)
    ensures a + (b + (c + d)) == a + b + c + d
  {
    assert a + (b + (c + d)) == a + b + (c + d);
  }

  /** ...and nothing else is. */
  lemma {:induction false} OnlyOptionsSkipped(s: string) returns (ps: seq<Piece>, ns: seq<Noise>)
    requires AfterOptions(s).Inner?
    ensures Statement(AfterOptions(s).text) && AllHarmless(ps) && GoodAll(ns)
    ensures s == Spelled(ps) + (WrittenAll(ns) + AfterOptions(s).text)
    decreases |s|
  {
    var t := Strip(s);
    ns := OnlyNoiseDropped(s);
    if t[0] != '(' {
      ps := [];
      assert Spelled(ps) + (WrittenAll(ns) + t) == s;
    } else {
      NothingUnder();
      var g, rest := FirstGroup(t);
      OptionTurn(s, g, rest);
      var more, last := OnlyOptionsSkipped(rest);
      SpelledMore(Piece(ns, g), rest, more, WrittenAll(last) + AfterOptions(rest).text);
      ps, ns := [Piece(ns, g)] + more, last;
      assert ps[1..] == more;
    }
  }

  /** An identifier that overruns the buffer stops the peel where it is. */
  lemma {:induction false} OptionsCrash(ps: seq<Piece>, ns: seq<Noise>, t: string)
    requires AllHarmless(ps) && GoodAll(ns) && Overruns(t)
    ensures AfterOptions(Spelled(ps) + (WrittenAll(ns) + t)) == Verdict(Crash)
    decreases |ps|
  {
    if ps == [] {
      NoiseDropped(ns, t);
      OverrunsIff(t);
      assert Ident(t[0]);
      StripOfBare(t);
      assert Spelled(ps) + (WrittenAll(ns) + t) == WrittenAll(ns) + t;
    } else {
      OptionsCrash(ps[1..], ns, t);
      var rest := Spelled(ps[1..]) + (WrittenAll(ns) + t);
      assert Spelled(ps) + (WrittenAll(ns) + t) == WrittenAll(ps[0].noise) + ps[0].group + rest;
      PieceSkipped(ps[0], rest);
    }
  }

  /** And nothing else does. */
  lemma {:induction false} OnlyOptionsCrash(s: string) returns (ps: seq<Piece>, ns: seq<Noise>, t: string)
    requires AfterOptions(s) == Verdict(Crash)
    ensures AllHarmless(ps) && GoodAll(ns) && Overruns(t) && s == Spelled(ps) + (WrittenAll(ns) + t)
    decreases |s|
  {
    t := Strip(s);
    ns := OnlyNoiseDropped(s);
    if t[0] != '(' {
      ps := [];
      OverrunsIff(t);
      assert Spelled(ps) + (WrittenAll(ns) + t) == s;
    } else {
      NothingUnder();
      var g, rest := FirstGroup(t);
      OptionTurn(s, g, rest);
      var more, last, inner := OnlyOptionsCrash(rest);
      SpelledMore(Piece(ns, g), rest, more, WrittenAll(last) + inner);
      ps, ns, t := [Piece(ns, g)] + more, last, inner;
      assert ps[1..] == more;
    }
  }

  lemma NothingUnder()
    ensures AfterOptions("") == Verdict(Unknown)
  {
  }
}
