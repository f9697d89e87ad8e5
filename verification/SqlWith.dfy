/** The list between WITH and its statement, as the classifier passes it over and as a grammar
    describes it. */
module SqlWith {
  import opened SqlNoise
  import opened SqlKeyword
  import opened SqlClassifier
  import opened SqlExplain

  predicate NameChar(c: char) { Ident(c) || c == '"' }

  predicate NameText(s: string) { s != "" && forall i :: 0 <= i < |s| ==> NameChar(s[i]) }

  /** One entry: its name, AS, perhaps [NOT] MATERIALIZED, and its body in parentheses, with noise
      between them; `after` follows the body and `gap` the comma, if there is one. */
  datatype Entry = Entry(name: string, n1: seq<Noise>, word: string, n2: seq<Noise>, mat: string, n3: seq<Noise>,
                         body: string, after: seq<Noise>, gap: seq<Noise>)

  predicate MatOk(e: Entry) {
    if e.mat == "" then e.n3 == [] else Upper(e.mat) == "NOT MATERIALIZED" || Upper(e.mat) == "MATERIALIZED"
  }

  predicate EntryOk(e: Entry) {
    && NameText(e.name) && e.n1 != [] && Upper(e.word) == "AS" && MatOk(e) && Group(e.body)
    && GoodAll(e.n1) && GoodAll(e.n2) && GoodAll(e.n3) && GoodAll(e.after) && GoodAll(e.gap)
  }

  function BodyText(e: Entry, tail: string): string { e.body + (WrittenAll(e.after) + tail) }

  function DefText(e: Entry, tail: string): string {
    WrittenAll(e.n2) + (e.mat + (WrittenAll(e.n3) + BodyText(e, tail)))
  }

  function EntryText(e: Entry, tail: string): string { e.name + (WrittenAll(e.n1) + (e.word + DefText(e, tail))) }

  function ListText(es: seq<Entry>, t: string): string
    decreases |es|
  {
    if es == [] then t
    else if |es| == 1 then EntryText(es[0], t)
    else EntryText(es[0], "," + (WrittenAll(es[0].gap) + ListText(es[1..], t)))
  }

  predicate AllEntries(es: seq<Entry>) { es != [] && forall i :: 0 <= i < |es| ==> EntryOk(es[i]) }

  /** The statement under the list. */
  predicate Under(t: string) { t != "" && Bare(t) && t[0] != ',' }

  // ---------------------------------------------------------------- the list is passed over

  lemma {:induction false} NameEnds(name: string, rest: string)
    requires (forall i :: 0 <= i < |name| ==> NameChar(name[i])) && (rest == [] || !NameChar(rest[0]))
    ensures NameLen(name + rest) == |name|
  {
    if name == [] {
      assert name + rest == rest;
    } else {
      assert (name + rest)[1..] == name[1..] + rest;
      NameEnds(name[1..], rest);
    }
  }

  lemma NoiseStarts(ns: seq<Noise>, s: string)
    requires ns != [] && GoodAll(ns)
    ensures WrittenAll(ns) + s != [] && !NameChar((WrittenAll(ns) + s)[0])
  {
    OneNoiseStarts(ns[0], WrittenAll(ns[1..]) + s);
    assert WrittenAll(ns) + s == Written(ns[0]) + (WrittenAll(ns[1..]) + s);
  }

  lemma OneNoiseStarts(n: Noise, s: string)
    requires Good(n)
    ensures Written(n) + s != [] && !NameChar((Written(n) + s)[0])
  {
  }

  lemma Dropped(ns: seq<Noise>, t: string)
    requires GoodAll(ns) && Bare(t)
    ensures Strip(WrittenAll(ns) + t) == t
  {
    NoiseDropped(ns, t);
    StripOfBare(t);
  }

  lemma UpperFirst(w: string, k: string, rest: string)
    requires Upper(w) == k && k != ""
    ensures |w| == |k| && UpperChar((w + rest)[0]) == k[0] && (w + rest)[..|k|] == w && (w + rest)[|k|..] == rest
    ensures Begins(w + rest, k)
  {
    assert Upper(w)[0] == k[0];
  }

  lemma LetterIsBare(s: string)
    requires s != [] && 'A' <= UpperChar(s[0]) <= 'Z'
    ensures Bare(s) && Ident(s[0])
  {
  }

  /** What follows AS, up to the body. */
  lemma DefPassed(e: Entry, tail: string)
    requires EntryOk(e)
    ensures AfterMaterialized(Strip(DefText(e, tail))) == BodyText(e, tail)
  {
    var b := BodyText(e, tail);
    assert b[0] == '(';
    var rest := WrittenAll(e.n3) + b;
    if e.mat == "" {
      assert e.mat + rest == b;
      Dropped(e.n2, b);
      NotMaterialized(b);
    } else {
      UpperFirst(e.mat, Upper(e.mat), rest);
      LetterIsBare(e.mat + rest);
      Dropped(e.n2, e.mat + rest);
      Dropped(e.n3, b);
      if Upper(e.mat) == "MATERIALIZED" { NotNot(e.mat + rest); }
    }
  }

  lemma NotMaterialized(body: string)
    requires body != "" && body[0] == '('
    ensures AfterMaterialized(body) == body
  {
    if |body| >= 16 { assert Upper(body[..16])[0] == '('; }
    if |body| >= 12 { assert Upper(body[..12])[0] == '('; }
  }

  lemma NotNot(s: string)
    requires s != "" && UpperChar(s[0]) == 'M'
    ensures !Begins(s, "NOT MATERIALIZED")
  {
    if |s| >= 16 { assert Upper(s[..16])[0] == 'M'; }
  }

  lemma EntryPassed(e: Entry, tail: string)
    requires EntryOk(e) && Bare(tail)
    ensures AfterList(EntryText(e, tail))
            == if tail != [] && tail[0] == ',' then AfterList(Strip(tail[1..])) else Inner(tail)
  {
    var def := DefText(e, tail);
    var head := e.word + def;
    NoiseStarts(e.n1, head);
    NameEnds(e.name, WrittenAll(e.n1) + head);
    assert EntryText(e, tail)[|e.name|..] == WrittenAll(e.n1) + head;
    UpperFirst(e.word, "AS", def);
    LetterIsBare(head);
    Dropped(e.n1, head);
    DefPassed(e, tail);
    var b := BodyText(e, tail);
    GroupSplits(e.body, WrittenAll(e.after) + tail);
    Dropped(e.after, tail);
    ListTurn(EntryText(e, tail), head, b, tail);
  }

  /** One turn of the list loop. */
  lemma ListTurn(s: string, head: string, b: string, rest: string)
    requires Strip(s[NameLen(s)..]) == head && Begins(head, "AS") && AfterMaterialized(Strip(head[2..])) == b
    requires b != "" && b[0] == '(' && Strip(AfterParen(b[1..], 1)) == rest
    ensures AfterList(s) == if rest != [] && rest[0] == ',' then AfterList(Strip(rest[1..])) else Inner(rest)
  {
  }

  lemma EntryStarts(e: Entry, tail: string)
    requires NameText(e.name)
    ensures EntryText(e, tail) != "" && Bare(EntryText(e, tail)) && EntryText(e, tail)[0] == e.name[0]
  {
    assert NameChar(e.name[0]);
  }

  lemma ListIsBare(es: seq<Entry>, t: string)
    requires AllEntries(es)
    ensures ListText(es, t) != "" && Bare(ListText(es, t)) && ListText(es, t)[0] == es[0].name[0]
  {
    assert EntryOk(es[0]);
    EntryStarts(es[0], if |es| == 1 then t else "," + (WrittenAll(es[0].gap) + ListText(es[1..], t)));
  }

  /** Any list of entries is passed over, whatever is in their bodies... */
  lemma {:induction false} ListPassed(es: seq<Entry>, t: string)
    requires AllEntries(es) && Under(t)
    ensures AfterList(ListText(es, t)) == Inner(t)
    decreases |es|
  {
    assert EntryOk(es[0]);
    if |es| == 1 {
      EntryPassed(es[0], t);
    } else {
      var more := ListText(es[1..], t);
      var tail := "," + (WrittenAll(es[0].gap) + more);
      ListIsBare(es[1..], t);
      Dropped(es[0].gap, more);
      assert tail[1..] == WrittenAll(es[0].gap) + more;
      EntryPassed(es[0], tail);
      ListPassed(es[1..], t);
    }
  }

  // ---------------------------------------------------------------- and nothing else

  lemma {:induction false} NameLenExact(s: string)
    ensures forall i :: 0 <= i < NameLen(s) ==> NameChar(s[i])
    ensures NameLen(s) < |s| ==> !NameChar(s[NameLen(s)])
  {
    if s != [] && NameChar(s[0]) {
      NameLenExact(s[1..]);
      forall i | 0 <= i < NameLen(s) ensures NameChar(s[i]) { if i > 0 { assert s[i] == s[1..][i - 1]; } }
    }
  }

  /** A text that goes on after its noise, split there. */
  lemma NoiseSplits(s: string) returns (ns: seq<Noise>)
    requires Strip(s) != []
    ensures GoodAll(ns) && s == WrittenAll(ns) + Strip(s) && Bare(Strip(s))
  {
    ns := OnlyNoiseDropped(s);
  }

  lemma HeadSplits(s: string) returns (name: string, n1: seq<Noise>)
    requires Bare(s) && Begins(Strip(s[NameLen(s)..]), "AS")
    ensures NameText(name) && n1 != [] && GoodAll(n1) && s == name + (WrittenAll(n1) + Strip(s[NameLen(s)..]))
  {
    var k := NameLen(s);
    var head := Strip(s[k..]);
    NameLenExact(s);
    name := s[..k];
    n1 := NoiseSplits(s[k..]);
    assert UpperChar(head[0]) == 'A' by { assert Upper(head[..2])[0] == 'A'; }
    LetterIsBare(head);
    assert s == name + s[k..];
    StripOfBare(s);
    var tail := s[k..];
    assert k == 0 ==> tail == s;
    assert n1 == [] ==> tail == head;
    assert k < |s| ==> tail[0] == s[k];
  }

  lemma DefSplits(s: string) returns (n2: seq<Noise>, mat: string, n3: seq<Noise>)
    requires AfterMaterialized(Strip(s)) != ""
    ensures GoodAll(n2) && GoodAll(n3) && s == WrittenAll(n2) + (mat + (WrittenAll(n3) + AfterMaterialized(Strip(s))))
    ensures if mat == "" then n3 == [] else Upper(mat) == "NOT MATERIALIZED" || Upper(mat) == "MATERIALIZED"
  {
    var b := Strip(s);
    n2 := NoiseSplits(s);
    n3, mat := [], "";
    if Begins(b, "NOT MATERIALIZED") {
      mat := b[..16];
      n3 := NoiseSplits(b[16..]);
      assert b == mat + b[16..] && Upper(mat)[0] == 'N';
    } else if Begins(b, "MATERIALIZED") {
      mat := b[..12];
      n3 := NoiseSplits(b[12..]);
      assert b == mat + b[12..] && Upper(mat)[0] == 'M';
    } else {
      assert "" + (WrittenAll([]) + b) == b;
    }
  }

  /** The first entry of a list that has a statement under it, and what follows the entry. */
  lemma EntrySplits(s: string) returns (e: Entry, rest: string)
    requires Bare(s) && AfterList(s).Inner? && AfterList(s).text != ""
    ensures EntryOk(e) && e.gap == [] && rest != "" && Bare(rest) && s == EntryText(e, rest)
    ensures AfterList(s) == if rest[0] == ',' then AfterList(Strip(rest[1..])) else Inner(rest)
  {
    var head := Strip(s[NameLen(s)..]);
    var b := AfterMaterialized(Strip(head[2..]));
    rest := Strip(AfterParen(b[1..], 1));
    ListTurn(s, head, b, rest);
    var name, n1 := HeadSplits(s);
    var n2, mat, n3 := DefSplits(head[2..]);
    var g, ap := FirstGroup(b);
    var after := NoiseSplits(ap);
    e := Entry(name, n1, head[..2], n2, mat, n3, g, after, []);
    assert head == e.word + head[2..];
    assert b == BodyText(e, rest);
    assert head[2..] == DefText(e, rest);
  }

  /** ...and nothing but such a list. */
  lemma {:induction false} OnlyListPassed(s: string) returns (es: seq<Entry>)
    requires Bare(s) && AfterList(s).Inner? && AfterList(s).text != ""
    ensures AllEntries(es) && Under(AfterList(s).text) && s == ListText(es, AfterList(s).text)
    decreases |s|
  {
    var e, rest := EntrySplits(s);
    if rest[0] != ',' {
      es := [e];
    } else {
      var next := Strip(rest[1..]);
      EntryIsLonger(e, rest);
      NothingListed();
      var gap := NoiseSplits(rest[1..]);
      var more := OnlyListPassed(next);
      es := [e.(gap := gap)] + more;
      ListGrows(e, gap, more, rest, AfterList(s).text);
    }
  }

  lemma EntryIsLonger(e: Entry, tail: string)
    requires EntryOk(e)
    ensures |EntryText(e, tail)| > |tail|
  {
  }

  lemma ListGrows(e: Entry, gap: seq<Noise>, more: seq<Entry>, rest: string, t: string)
    requires EntryOk(e) && GoodAll(gap) && AllEntries(more)
    requires rest != "" && rest[0] == ',' && rest[1..] == WrittenAll(gap) + ListText(more, t)
    ensures AllEntries([e.(gap := gap)] + more) && ListText([e.(gap := gap)] + more, t) == EntryText(e, rest)
  {
    var first := e.(gap := gap);
    assert EntryOk(first);
    ListUnfolds(first, more, t);
    assert rest == "," + (WrittenAll(gap) + ListText(more, t));
  }

  lemma ListUnfolds(e: Entry, more: seq<Entry>, t: string)
    requires more != []
    ensures ListText([e] + more, t) == EntryText(e, "," + (WrittenAll(e.gap) + ListText(more, t)))
  {
    assert ([e] + more)[1..] == more;
  }

  lemma NothingListed()
    ensures AfterList("") == Verdict(Unknown)
  {
    assert ""[0..] == "";
  }

  // ---------------------------------------------------------------- RECURSIVE

  /** The text between WITH and the statement. */
  function WithText(n0: seq<Noise>, rec: string, nr: seq<Noise>, es: seq<Entry>, t: string): string {
    WrittenAll(n0) + (rec + (WrittenAll(nr) + ListText(es, t)))
  }

  predicate WithOk(n0: seq<Noise>, rec: string, nr: seq<Noise>, es: seq<Entry>) {
    && GoodAll(n0) && GoodAll(nr) && AllEntries(es)
    && if rec == "" then nr == [] && !Begins(es[0].name, "RECURSIVE") else Upper(rec) == "RECURSIVE"
  }

  /** A name is taken for RECURSIVE exactly when it starts with it. */
  lemma RecursiveByName(e: Entry, tail: string)
    requires EntryOk(e)
    ensures Begins(EntryText(e, tail), "RECURSIVE") <==> Begins(e.name, "RECURSIVE")
  {
    var s := EntryText(e, tail);
    if |e.name| >= 9 {
      assert s[..9] == e.name[..9];
    } else if |s| >= 9 {
      NoiseStarts(e.n1, e.word + DefText(e, tail));
      assert s[|e.name|] == (WrittenAll(e.n1) + (e.word + DefText(e, tail)))[0];
      assert !Ident(s[|e.name|]);
      assert Upper(s[..9])[|e.name|] == UpperChar(s[|e.name|]);
      assert forall i :: 0 <= i < 9 ==> Ident("RECURSIVE"[i]);
    }
  }

  lemma NotRecursive(es: seq<Entry>, t: string)
    requires AllEntries(es)
    ensures Begins(ListText(es, t), "RECURSIVE") <==> Begins(es[0].name, "RECURSIVE")
  {
    assert EntryOk(es[0]);
    RecursiveByName(es[0], if |es| == 1 then t else "," + (WrittenAll(es[0].gap) + ListText(es[1..], t)));
  }

  lemma WithPassed(n0: seq<Noise>, rec: string, nr: seq<Noise>, es: seq<Entry>, t: string)
    requires WithOk(n0, rec, nr, es) && Under(t)
    ensures AfterList(AfterRecursive(Strip(WithText(n0, rec, nr, es, t)))) == Inner(t)
  {
    var list := ListText(es, t);
    ListPassed(es, t);
    ListIsBare(es, t);
    if rec == "" {
      assert rec + (WrittenAll(nr) + list) == list;
      Dropped(n0, list);
      NotRecursive(es, t);
    } else {
      UpperFirst(rec, "RECURSIVE", WrittenAll(nr) + list);
      LetterIsBare(rec + (WrittenAll(nr) + list));
      Dropped(n0, rec + (WrittenAll(nr) + list));
      Dropped(nr, list);
    }
  }

  lemma RecursiveSplits(u: string) returns (n0: seq<Noise>, rec: string, nr: seq<Noise>)
    requires AfterRecursive(Strip(u)) != ""
    ensures GoodAll(n0) && GoodAll(nr) && u == WrittenAll(n0) + (rec + (WrittenAll(nr) + AfterRecursive(Strip(u))))
    ensures if rec == "" then nr == [] && !Begins(Strip(u), "RECURSIVE") else Upper(rec) == "RECURSIVE"
    ensures Bare(AfterRecursive(Strip(u))) && (rec == "" ==> AfterRecursive(Strip(u)) == Strip(u))
  {
    var v := Strip(u);
    n0 := NoiseSplits(u);
    rec, nr := "", [];
    if Begins(v, "RECURSIVE") {
      rec := v[..9];
      nr := NoiseSplits(v[9..]);
      assert v == rec + v[9..] && Upper(rec)[0] == 'R';
    } else {
      assert "" + (WrittenAll([]) + v) == v;
    }
  }

  lemma OnlyWithPassed(u: string) returns (n0: seq<Noise>, rec: string, nr: seq<Noise>, es: seq<Entry>)
    requires AfterList(AfterRecursive(Strip(u))).Inner? && AfterList(AfterRecursive(Strip(u))).text != ""
    ensures var t := AfterList(AfterRecursive(Strip(u))).text;
            WithOk(n0, rec, nr, es) && Under(t) && u == WithText(n0, rec, nr, es, t)
  {
    var w := AfterRecursive(Strip(u));
    NothingListed();
    n0, rec, nr := RecursiveSplits(u);
    es := OnlyListPassed(w);
    NotRecursive(es, AfterList(w).text);
  }
}
