/** Leading white space and comments, as the scanner drops them and as a grammar describes them. */
module SqlNoise {

  // ---------------------------------------------------------------- the scanner

  predicate Space(c: char) { c == ' ' || c == '\t' || c == '\n' || c == '\r' }

  predicate Starts(s: string, a: char, b: char) { |s| >= 2 && s[0] == a && s[1] == b }

  /** What is left from the end of the line on. */
  function AfterLine(s: string): (r: string)
    ensures |r| <= |s|
  {
    if s == [] || s[0] == '\n' then s else AfterLine(s[1..])
  }

  /** What is left after a block comment open to the given depth; nothing when it never closes. */
  function AfterBlock(s: string, depth: nat): (r: string)
    ensures |r| <= |s|
  {
    if s == [] || depth == 0 then s
    else if Starts(s, '/', '*') then AfterBlock(s[2..], depth + 1)
    else if Starts(s, '*', '/') then AfterBlock(s[2..], depth - 1)
    else AfterBlock(s[1..], depth)
  }

  function Strip(s: string): (r: string)
    ensures |r| <= |s|
    decreases |s|
  {
    if s == [] then s
    else if Space(s[0]) then Strip(s[1..])
    else if Starts(s, '-', '-') then Strip(AfterLine(s[2..]))
    else if Starts(s, '/', '*') then Strip(AfterBlock(s[2..], 1))
    else s
  }

  method SkipLine(sql: string) returns (j: nat)
    requires |sql| >= 2
    ensures 2 <= j <= |sql| && sql[j..] == AfterLine(sql[2..])
  {
    j := 2;
    while j < |sql| && sql[j] != '\n'
      invariant 2 <= j <= |sql| && AfterLine(sql[j..]) == AfterLine(sql[2..])
    {
      assert sql[j..][1..] == sql[j + 1..];
      j := j + 1;
    }
  }

  method SkipBlock(sql: string) returns (j: nat)
    requires |sql| >= 2
    ensures 2 <= j <= |sql| && sql[j..] == AfterBlock(sql[2..], 1)
  {
    j := 2;
    var depth: nat := 1;
    while j < |sql| && depth > 0
      invariant 2 <= j <= |sql| && AfterBlock(sql[j..], depth) == AfterBlock(sql[2..], 1)
    {
      assert j + 1 < |sql| ==> sql[j..][2..] == sql[j + 2..];
      assert sql[j..][1..] == sql[j + 1..];
      if j + 1 < |sql| && sql[j] == '/' && sql[j + 1] == '*' {
        depth := depth + 1;
        j := j + 2;
        continue;
      }
      if j + 1 < |sql| && sql[j] == '*' && sql[j + 1] == '/' {
        depth := depth - 1;
        j := j + 2;
        continue;
      }
      j := j + 1;
    }
  }

  method StripLeadingNoise(s: string) returns (sql: string)
    ensures sql == Strip(s)
  {
    sql := s;
    while |sql| > 0
      invariant Strip(sql) == Strip(s)
      decreases |sql|
    {
      var c := sql[0];
      if Space(c) {
        sql := sql[1..];
      } else if c == '-' && |sql| > 1 && sql[1] == '-' {
        var j := SkipLine(sql);
        sql := sql[j..];
      } else if c == '/' && |sql| > 1 && sql[1] == '*' {
        var j := SkipBlock(sql);
        sql := sql[j..];
      } else {
        return;
      }
    }
  }

  // ---------------------------------------------------------------- the grammar

  /** The inside of a block comment: comment brackets and other characters. */
  datatype Tok = Open | Shut | Plain(c: char)

  datatype Noise = Blank(c: char) | Line(text: string) | Block(inside: seq<Tok>)

  function TokText(t: Tok): string {
    match t
    case Open => "/*"
    case Shut => "*/"
    case Plain(c) => [c]
  }

  function Text(ts: seq<Tok>): string { if ts == [] then "" else TokText(ts[0]) + Text(ts[1..]) }

  /** Brackets that nest: within a comment at this depth, every Shut has its Open, and all are shut
      again at the end. */
  predicate Nested(ts: seq<Tok>, depth: nat) {
    if ts == [] then depth == 0
    else match ts[0]
      case Open => Nested(ts[1..], depth + 1)
      case Shut => depth > 0 && Nested(ts[1..], depth - 1)
      case Plain(_) => Nested(ts[1..], depth)
  }

  /** No plain character reads as the start of a bracket. */
  predicate Plainly(ts: seq<Tok>, after: string) {
    ts == [] || ((ts[0].Plain? ==> NoBracket(ts[0].c, Text(ts[1..]) + after)) && Plainly(ts[1..], after))
  }

  predicate NoBracket(c: char, follow: string) {
    follow == [] || (!(c == '/' && follow[0] == '*') && !(c == '*' && follow[0] == '/'))
  }

  predicate Good(n: Noise) {
    match n
    case Blank(c) => Space(c)
    case Line(text) => '\n' !in text
    case Block(inside) => Nested(inside, 0) && Plainly(inside, "*/")
  }

  function Written(n: Noise): string {
    match n
    case Blank(c) => [c]
    case Line(text) => "--" + text + "\n"
    case Block(inside) => "/*" + Text(inside) + "*/"
  }

  function WrittenAll(ns: seq<Noise>): string { if ns == [] then "" else Written(ns[0]) + WrittenAll(ns[1..]) }

  predicate GoodAll(ns: seq<Noise>) { forall i :: 0 <= i < |ns| ==> Good(ns[i]) }

  // ---------------------------------------------------------------- the scanner drops the grammar

  lemma {:induction false} LineEnds(text: string, s: string)
    requires '\n' !in text
    ensures AfterLine(text + "\n" + s) == "\n" + s
  {
    if text == [] {
      assert text + "\n" + s == "\n" + s;
    } else {
      LineEnds(text[1..], s);
      assert (text + "\n" + s)[1..] == text[1..] + "\n" + s;
    }
  }

  lemma {:induction false} PlainlyMore(ts: seq<Tok>, s: string)
    requires Plainly(ts, "*/")
    ensures Plainly(ts, "*/" + s)
  {
    if ts != [] {
      PlainlyMore(ts[1..], s);
      assert Text(ts[1..]) + ("*/" + s) == (Text(ts[1..]) + "*/") + s;
    }
  }

  lemma {:induction false} BlockEnds(ts: seq<Tok>, depth: nat, s: string)
    requires Nested(ts, depth) && Plainly(ts, "*/" + s)
    ensures AfterBlock(Text(ts) + ("*/" + s), depth + 1) == s
  {
    var all := Text(ts) + ("*/" + s);
    if ts == [] {
      assert all == "*/" + s && all[2..] == s;
    } else {
      var rest := Text(ts[1..]) + ("*/" + s);
      assert all == TokText(ts[0]) + rest;
      match ts[0] {
        case Open => assert all[2..] == rest; BlockEnds(ts[1..], depth + 1, s);
        case Shut => assert all[2..] == rest; BlockEnds(ts[1..], depth - 1, s);
        case Plain(c) => assert all[1..] == rest; BlockEnds(ts[1..], depth, s);
      }
    }
  }

  lemma LineDropped(text: string, s: string)
    requires '\n' !in text
    ensures Strip("--" + text + "\n" + s) == Strip(s)
  {
    LineEnds(text, s);
    var all := "--" + text + "\n" + s;
    assert all[2..] == text + "\n" + s;
    assert all[0] == '-' && all[1] == '-';
    assert Strip(all) == Strip("\n" + s);
    assert ("\n" + s)[1..] == s;
  }

  lemma BlockDropped(inside: seq<Tok>, s: string)
    requires Nested(inside, 0) && Plainly(inside, "*/")
    ensures Strip("/*" + Text(inside) + "*/" + s) == Strip(s)
  {
    PlainlyMore(inside, s);
    BlockEnds(inside, 0, s);
    var all := "/*" + Text(inside) + "*/" + s;
    assert all[2..] == Text(inside) + ("*/" + s);
    assert all[0] == '/' && all[1] == '*';
  }

  lemma OneDropped(n: Noise, s: string)
    requires Good(n)
    ensures Strip(Written(n) + s) == Strip(s)
  {
    match n {
      case Blank(c) => assert ([c] + s)[1..] == s;
      case Line(text) => LineDropped(text, s);
      case Block(inside) => BlockDropped(inside, s);
    }
  }

  /** Any white space, line comments and well-nested block comments in front are dropped. */
  lemma {:induction false} NoiseDropped(ns: seq<Noise>, s: string)
    requires GoodAll(ns)
    ensures Strip(WrittenAll(ns) + s) == Strip(s)
  {
    if ns == [] {
      assert WrittenAll(ns) + s == s;
    } else {
      NoiseDropped(ns[1..], s);
      OneDropped(ns[0], WrittenAll(ns[1..]) + s);
      assert WrittenAll(ns) + s == Written(ns[0]) + (WrittenAll(ns[1..]) + s);
    }
  }

  // ---------------------------------------------------------------- and nothing else

  predicate Bare(s: string) { s == [] || (!Space(s[0]) && !Starts(s, '-', '-') && !Starts(s, '/', '*')) }

  lemma {:induction false} LineSplits(s: string) returns (text: string)
    ensures '\n' !in text && s == text + AfterLine(s) && (AfterLine(s) == [] || AfterLine(s)[0] == '\n')
  {
    if s == [] || s[0] == '\n' {
      text := "";
    } else {
      var t := LineSplits(s[1..]);
      text := [s[0]] + t;
      assert s == [s[0]] + s[1..];
    }
  }

  lemma TokFirst(k: Tok, tail: string, ts: seq<Tok>, after: string)
    requires tail == Text(ts) + after && Plainly(ts, after) && (k.Plain? ==> NoBracket(k.c, tail))
    ensures TokText(k) + tail == Text([k] + ts) + after && Plainly([k] + ts, after)
  {
    assert ([k] + ts)[1..] == ts;
    assert TokText(k) + (Text(ts) + after) == (TokText(k) + Text(ts)) + after;
  }

  /** A comment with something after it closes, and its inside nests. */
  lemma {:induction false} BlockSplits(s: string, depth: nat) returns (ts: seq<Tok>)
    requires AfterBlock(s, depth + 1) != []
    ensures Nested(ts, depth) && s == Text(ts) + ("*/" + AfterBlock(s, depth + 1))
            && Plainly(ts, "*/" + AfterBlock(s, depth + 1))
  {
    var after := "*/" + AfterBlock(s, depth + 1);
    if Starts(s, '*', '/') && depth == 0 {
      ts := [];
      assert s == "*/" + s[2..] && Text(ts) + after == after;
    } else {
      var k := if Starts(s, '/', '*') then Open else if Starts(s, '*', '/') then Shut else Plain(s[0]);
      var tail := if k.Plain? then s[1..] else s[2..];
      var t := BlockSplits(tail, match k case Open => depth + 1 case Shut => depth - 1 case Plain(_) => depth);
      assert s == TokText(k) + tail;
      TokFirst(k, tail, t, after);
      ts := [k] + t;
      assert ts[1..] == t;
    }
  }

  lemma {:induction false} PlainlyFewer(ts: seq<Tok>, s: string)
    requires Plainly(ts, "*/" + s)
    ensures Plainly(ts, "*/")
  {
    if ts != [] {
      PlainlyFewer(ts[1..], s);
      assert Text(ts[1..]) + ("*/" + s) == (Text(ts[1..]) + "*/") + s;
    }
  }

  /** The string is such noise and then `rest`. */
  predicate Splits(s: string, ns: seq<Noise>, rest: string) { GoodAll(ns) && s == WrittenAll(ns) + rest }

  lemma SplitsMore(s: string, n: Noise, tail: string, ns: seq<Noise>, rest: string)
    requires Good(n) && s == Written(n) + tail && Splits(tail, ns, rest)
    ensures Splits(s, [n] + ns, rest)
  {
    assert ([n] + ns)[1..] == ns;
    assert Written(n) + (WrittenAll(ns) + rest) == (Written(n) + WrittenAll(ns)) + rest;
  }

  /** The first piece of noise in front of something. */
  lemma FirstNoise(s: string) returns (n: Noise, tail: string)
    requires !Bare(s) && Strip(s) != []
    ensures Good(n) && s == Written(n) + tail && Strip(s) == Strip(tail) && |tail| < |s|
  {
    if Space(s[0]) {
      n, tail := Blank(s[0]), s[1..];
      assert s == [s[0]] + s[1..];
    } else if Starts(s, '-', '-') {
      var text := LineSplits(s[2..]);
      var rest := AfterLine(s[2..]);
      n, tail := Line(text), rest[1..];
      assert rest == "\n" + tail && s == "--" + s[2..];
      assert "--" + (text + ("\n" + tail)) == "--" + text + "\n" + tail;
    } else {
      tail := AfterBlock(s[2..], 1);
      var ts := BlockSplits(s[2..], 0);
      PlainlyFewer(ts, tail);
      n := Block(ts);
      assert s == "/*" + s[2..];
      assert "/*" + (Text(ts) + ("*/" + tail)) == "/*" + Text(ts) + "*/" + tail;
    }
  }

  /** What the scanner drops before a statement is such noise and no more. */
  lemma {:induction false} OnlyNoiseDropped(s: string) returns (ns: seq<Noise>)
    requires Strip(s) != []
    ensures Splits(s, ns, Strip(s)) && Bare(Strip(s))
    decreases |s|
  {
    if Bare(s) {
      ns := [];
      assert WrittenAll(ns) + s == s;
    } else {
      var n, tail := FirstNoise(s);
      var more := OnlyNoiseDropped(tail);
      SplitsMore(s, n, tail, more, Strip(s));
      ns := [n] + more;
    }
  }
}
