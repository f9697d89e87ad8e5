/** Read or write, by the first keyword under EXPLAIN and WITH. */
module SqlClassifier {
  import opened SqlNoise
  import opened SqlKeyword

  /** The verdict; Crash when a leading identifier overruns the keyword buffer. */
  datatype Op = Unknown | Read | Write | Crash

  predicate ReadWord(w: string) { w == "SELECT" || w == "VALUES" || w == "TABLE" || w == "SHOW" }

  // ---------------------------------------------------------------- one layer off

  /** What is under an EXPLAIN or a WITH list, or why there is nothing to look at. */
  datatype Peeled = Inner(text: string) | Verdict(op: Op)

  predicate TrimSpace(c: char) { c == ' ' || '\t' <= c <= '\r' }

  function TrimLeft(s: string): (r: string)
    ensures |r| <= |s|
  {
    if s != [] && TrimSpace(s[0]) then TrimLeft(s[1..]) else s
  }

  function TrimRight(s: string): (r: string)
    ensures |r| <= |s|
  {
    if s != [] && TrimSpace(s[|s| - 1]) then TrimRight(s[..|s| - 1]) else s
  }

  function Trim(s: string): (r: string)
    ensures |r| <= |s|
  {
    TrimRight(TrimLeft(s))
  }

  /** What is left after the parenthesis that closes the given depth. */
  function AfterParen(s: string, depth: nat): (r: string)
    ensures |r| <= |s|
  {
    if s == [] || depth == 0 then s
    else AfterParen(s[1..], if s[0] == '(' then depth + 1 else if s[0] == ')' then depth - 1 else depth)
  }

  /** Past the option groups of an EXPLAIN. */
  function AfterOptions(s: string): (p: Peeled)
    ensures p.Inner? ==> |p.text| <= |s|
    ensures p != Verdict(Read)
    decreases |s|
  {
    var t := Strip(s);
    if t == "" then Verdict(Unknown)
    else if t[0] == '(' then
      var rest := AfterParen(t[1..], 1);
      if HasWord(Upper(t[..|t| - |rest|]), "ANALYZE") then Verdict(Write) else AfterOptions(rest)
    else
      var k := FirstWord(t);
      if k == Panics then Verdict(Crash) else if k == Word("ANALYZE") then Verdict(Write) else Inner(t)
  }

  function NameLen(s: string): (n: nat)
    ensures n <= |s|
  {
    if s != [] && (Ident(s[0]) || s[0] == '"') then 1 + NameLen(s[1..]) else 0
  }

  function AfterMaterialized(s: string): (r: string)
    ensures |r| <= |s|
  {
    if Begins(s, "NOT MATERIALIZED") then Strip(s[16..])
    else if Begins(s, "MATERIALIZED") then Strip(s[12..])
    else s
  }

  /** Past the list of a WITH. */
  function AfterList(s: string): (p: Peeled)
    ensures p.Inner? ==> |p.text| <= |s|
    ensures p != Verdict(Read)
    decreases |s|
  {
    var head := Strip(s[NameLen(s)..]);
    if !Begins(head, "AS") then Verdict(Unknown)
    else
      var body := AfterMaterialized(Strip(head[2..]));
      if body == "" || body[0] != '(' then Verdict(Unknown)
      else
        var rest := Strip(AfterParen(body[1..], 1));
        if rest != [] && rest[0] == ',' then AfterList(Strip(rest[1..])) else Inner(rest)
  }

  function AfterRecursive(s: string): (r: string)
    ensures |r| <= |s|
  {
    if Begins(s, "RECURSIVE") then Strip(s[9..]) else s
  }

  /** The statement under the outermost EXPLAIN or WITH of a stripped text that starts with it. */
  function Peel(s: string, w: string): (p: Peeled)
    requires (w == "EXPLAIN" || w == "WITH") && FirstWord(s) == Word(w)
    ensures p.Inner? ==> |p.text| < |s|
    ensures p != Verdict(Read)
  {
    WordLength(s, w);
    if w == "EXPLAIN" then AfterOptions(Trim(s[7..])) else AfterList(AfterRecursive(Strip(Trim(s[4..]))))
  }

  lemma WordLength(s: string, w: string)
    requires (w == "EXPLAIN" || w == "WITH") && FirstWord(s) == Word(w)
    ensures |w| <= |s|
  {
  }

  // ---------------------------------------------------------------- the verdict

  /** The verdict on a text with nothing in front of its first keyword. */
  function Judge(s: string): Op
    decreases |s|, 0
  {
    var k := FirstWord(s);
    if s == "" then Unknown
    else if k == Panics then Crash
    else if ReadWord(k.text) then Read
    else if k.text == "EXPLAIN" || k.text == "WITH" then
      match Peel(s, k.text)
      case Verdict(op) => op
      case Inner(t) => Classify(t)
    else if k.text == "" then Unknown
    else Write
  }

  function Classify(sql: string): Op
    decreases |sql|, 1
  {
    Judge(Strip(sql))
  }

  function Judged(p: Peeled): Op { if p.Verdict? then p.op else Classify(p.text) }

  // ---------------------------------------------------------------- the code

  method SkipParens(s: string) returns (i: nat)
    requires |s| >= 1
    ensures 1 <= i <= |s| && s[i..] == AfterParen(s[1..], 1)
  {
    var depth: nat := 1;
    i := 1;
    while i < |s| && depth > 0
      invariant 1 <= i <= |s| && AfterParen(s[i..], depth) == AfterParen(s[1..], 1)
    {
      assert s[i..][1..] == s[i + 1..];
      if s[i] == '(' { depth := depth + 1; } else if s[i] == ')' { depth := depth - 1; }
      i := i + 1;
    }
  }

  method ClassifyExplain(stmt: string) returns (op: Op)
    requires |stmt| >= 7
    ensures op == Judged(AfterOptions(Trim(stmt[7..])))
    decreases |stmt|, 0
  {
    var s := Trim(stmt[7..]);
    while true
      invariant |s| < |stmt| && AfterOptions(s) == AfterOptions(Trim(stmt[7..]))
      decreases |s|
    {
      ghost var before := s;
      s := StripLeadingNoise(s);
      if s == "" { return Unknown; }
      if s[0] == '(' {
        var i := SkipParens(s);
        assert s[..|s| - |s[i..]|] == s[..i];
        var analyze := ContainsKeyword(Upper(s[..i]), "ANALYZE");
        if analyze { return Write; }
        s := s[i..];
        continue;
      }
      var kw := FirstKeyword(s);
      if kw == Panics { return Crash; }
      if kw == Word("ANALYZE") { return Write; }
      op := ClassifySQL(s);
      return;
    }
  }

  method ClassifyCTE(stmt: string) returns (op: Op)
    requires |stmt| >= 4
    ensures op == Judged(AfterList(AfterRecursive(Strip(Trim(stmt[4..])))))
    decreases |stmt|, 0
  {
    var s := StripLeadingNoise(Trim(stmt[4..]));
    if Begins(s, "RECURSIVE") {
      s := StripLeadingNoise(s[9..]);
    }
    while true
      invariant |s| < |stmt| && AfterList(s) == AfterList(AfterRecursive(Strip(Trim(stmt[4..]))))
      decreases |s|
    {
      var i := SkipName(s);
      var head := StripLeadingNoise(s[i..]);
      if !Begins(head, "AS") { return Unknown; }
      var body := StripLeadingNoise(head[2..]);
      if Begins(body, "NOT MATERIALIZED") {
        body := StripLeadingNoise(body[16..]);
      } else if Begins(body, "MATERIALIZED") {
        body := StripLeadingNoise(body[12..]);
      }
      if body == "" || body[0] != '(' { return Unknown; }
      var j := SkipParens(body);
      var rest := StripLeadingNoise(body[j..]);
      if rest != [] && rest[0] == ',' {
        s := StripLeadingNoise(rest[1..]);
        continue;
      }
      op := ClassifySQL(rest);
      return;
    }
  }

  method SkipName(s: string) returns (i: nat)
    ensures i == NameLen(s)
  {
    i := 0;
    while i < |s| && (Ident(s[i]) || s[i] == '"')
      invariant 0 <= i <= |s| && NameLen(s) == i + NameLen(s[i..])
    {
      assert s[i..][1..] == s[i + 1..];
      i := i + 1;
    }
  }

  method ClassifyStripped(s: string) returns (op: Op)
    ensures op == Judge(s)
    decreases |s|, 1
  {
    if s == "" { return Unknown; }
    var kw := FirstKeyword(s);
    if kw == Panics { return Crash; }
    if ReadWord(kw.text) { return Read; }
    if kw.text == "EXPLAIN" {
      WordLength(s, kw.text);
      op := ClassifyExplain(s);
      return;
    }
    if kw.text == "WITH" {
      WordLength(s, kw.text);
      op := ClassifyCTE(s);
      return;
    }
    if kw.text == "" { return Unknown; }
    return Write;
  }

  method ClassifySQL(sql: string) returns (op: Op)
    ensures op == Classify(sql)
    decreases |sql|, 2
  {
    var s := StripLeadingNoise(sql);
    op := ClassifyStripped(s);
  }

  /** The verdict of the one-pass analysis, which decides for itself and still agrees. */
  method AnalyzeSQL(sql: string) returns (op: Op)
    ensures op == Classify(sql)
  {
    if |sql| == 0 { return Unknown; }
    var s := StripLeadingNoise(sql);
    var kw := FirstKeyword(s);
    if kw == Panics { return Crash; }
    if kw.text == "" { return Unknown; }
    if ReadWord(kw.text) {
      op := Read;
    } else if kw.text == "EXPLAIN" {
      WordLength(s, kw.text);
      op := ClassifyExplain(s);
    } else if kw.text == "WITH" {
      WordLength(s, kw.text);
      op := ClassifyCTE(s);
    } else {
      op := Write;
    }
  }
}
