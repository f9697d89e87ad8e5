/** SET statements as a server reads them: statements end at a semicolon outside quotes, and the name
    ends at the first equals sign. */
module SetText {
  import opened Options

  type Pair = (string, string)

  /** Inside a quoted string after the text, given that it started inside one or not. */
  predicate Quoted(s: string, quoted: bool) {
    if s == "" then quoted else Quoted(s[1..], if s[0] == '\'' then !quoted else quoted)
  }

  /** The first semicolon outside quotes, or the end of the text. */
  function End(s: string, quoted: bool): (e: nat)
    ensures e <= |s|
    ensures e < |s| ==> s[e] == ';' && !Quoted(s[..e], quoted)
  {
    if s == "" || (s[0] == ';' && !quoted) then 0
    else
      var e := End(s[1..], if s[0] == '\'' then !quoted else quoted);
      assert s[..1 + e][1..] == s[1..][..e];
      1 + e
  }

  function Equals(s: string): (q: nat)
    ensures q <= |s| && '=' !in s[..q] && (q < |s| ==> s[q] == '=')
  {
    if s == "" || s[0] == '=' then 0 else 1 + Equals(s[1..])
  }

  function SkipSpaces(s: string): (t: string)
    ensures |t| <= |s|
  {
    if s != "" && s[0] == ' ' then SkipSpaces(s[1..]) else s
  }

  /** The statement `SET name=value`. */
  function ReadSet(s: string): Option<Pair> {
    if |s| < 4 || s[..4] != "SET " then None
    else
      var t := s[4..];
      if Equals(t) == |t| then None else Some((t[..Equals(t)], t[Equals(t) + 1..]))
  }

  /** The assignments of a text, statement after statement. */
  function Read(s: string): Option<seq<Pair>>
    decreases |s|
  {
    if s == "" then Some([])
    else
      var e := End(s, false);
      if e == |s| || ReadSet(s[..e]).None? then None
      else
        var rest := Read(SkipSpaces(s[e + 1..]));
        if rest.None? then None else Some([ReadSet(s[..e]).value] + rest.value)
  }

  /** No semicolon outside quotes, and every quote closed. */
  predicate Sealed(s: string) { End(s, false) == |s| && !Quoted(s, false) }

  /** An assignment that reads as itself: the name has no equals sign, and nothing ends it early. */
  predicate Plain(p: Pair) { '=' !in p.0 && Sealed(p.0 + "=" + p.1) }

  lemma {:induction false} EndJoin(a: string, b: string, quoted: bool)
    ensures End(a, quoted) < |a| ==> End(a + b, quoted) == End(a, quoted)
    ensures End(a, quoted) == |a| ==> End(a + b, quoted) == |a| + End(b, Quoted(a, quoted))
    ensures Quoted(a + b, quoted) == Quoted(b, Quoted(a, quoted))
    decreases |a|
  {
    if a == "" {
      assert a + b == b;
    } else {
      assert (a + b)[1..] == a[1..] + b;
      EndJoin(a[1..], b, if a[0] == '\'' then !quoted else quoted);
    }
  }

  lemma {:induction false} NoQuotes(s: string)
    requires '\'' !in s
    ensures !Quoted(s, false)
  {
    if s != "" { NoQuotes(s[1..]); }
  }

  lemma SplitIsNotPlain(n: string, v: string, w: string)
    requires '\'' !in n && '\'' !in v
    ensures !Plain((n, v + ";" + w))
  {
    var a := n + "=" + v;
    NoQuotes(a);
    EndJoin(a, ";" + w, false);
    assert n + "=" + (v + ";" + w) == a + (";" + w);
  }

  lemma {:induction false} EqualsAt(n: string, v: string)
    requires '=' !in n
    ensures Equals(n + "=" + v) == |n|
    decreases |n|
  {
    if n == "" {
      assert n + "=" + v == "=" + v;
    } else {
      assert (n + "=" + v)[1..] == n[1..] + "=" + v;
      EqualsAt(n[1..], v);
    }
  }

  lemma SetSealed(t: string)
    ensures Sealed("SET " + t) <==> Sealed(t)
  {
    var word := "SET ";
    assert word[1..] == "ET " && "ET "[1..] == "T " && "T "[1..] == " " && " "[1..] == "";
    EndJoin(word, t, false);
  }

  lemma SetRead(p: Pair)
    requires '=' !in p.0
    ensures ReadSet("SET " + p.0 + "=" + p.1) == Some(p)
  {
    var t := p.0 + "=" + p.1;
    assert "SET " + p.0 + "=" + p.1 == "SET " + t;
    EqualsAt(p.0, p.1);
    assert t[..|p.0|] == p.0 && t[|p.0| + 1..] == p.1;
  }

  /** A plain assignment is read, and the rest of the text after it. */
  lemma ReadsPlain(p: Pair, tail: string)
    requires Plain(p)
    ensures var rest := Read(SkipSpaces(tail));
            Read("SET " + p.0 + "=" + p.1 + ";" + tail) == if rest.None? then None else Some([p] + rest.value)
  {
    var t := p.0 + "=" + p.1;
    var stmt, s := "SET " + t, "SET " + p.0 + "=" + p.1 + ";" + tail;
    assert s == stmt + (";" + tail) && stmt == "SET " + p.0 + "=" + p.1;
    SetSealed(t);
    EndJoin(stmt, ";" + tail, false);
    assert s[..|stmt|] == stmt && s[|stmt| + 1..] == tail;
    SetRead(p);
  }

  /** Whatever is read is plain. */
  lemma {:induction false} ReadIsPlain(s: string)
    requires Read(s).Some?
    ensures forall p :: p in Read(s).value ==> Plain(p)
    decreases |s|
  {
    if s != "" {
      var e := End(s, false);
      var stmt := s[..e];
      ReadIsPlain(SkipSpaces(s[e + 1..]));
      var t := stmt[4..];
      var p := ReadSet(stmt).value;
      assert t == p.0 + "=" + p.1;
      assert s == stmt + s[e..] && stmt == "SET " + t;
      EndJoin(stmt, s[e..], false);
      SetSealed(t);
    }
  }
}
