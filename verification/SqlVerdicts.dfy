/** What a verdict of the classifier means, in terms of the text it is given. */
module SqlVerdicts {
  import opened SqlNoise
  import opened SqlKeyword
  import opened SqlClassifier
  import opened SqlExplain
  import opened SqlWith

  /** White space and well-formed comments in front never change the verdict. */
  lemma NoiseInvariant(ns: seq<Noise>, sql: string)
    requires GoodAll(ns)
    ensures Classify(WrittenAll(ns) + sql) == Classify(sql)
  {
    NoiseDropped(ns, sql);
  }

  /** So neither do blanks, tabs and line ends. */
  lemma BlankInvariant(c: char, sql: string)
    requires c in " \t\n\r"
    ensures Classify([c] + sql) == Classify(sql)
  {
    assert " \t\n\r" == [' ', '\t', '\n', '\r'];
    assert WrittenAll([Blank(c)]) == [c] by { assert WrittenAll([Blank(c)][1..]) == ""; }
    NoiseInvariant([Blank(c)], sql);
  }

  // ---------------------------------------------------------------- the leading word

  lemma LeadIsBare(s: string, w: string)
    requires PlainWord(w) && Begins(s, w)
    ensures Bare(s) && s != "" && Strip(s) == s
  {
    assert Upper(s[..|w|])[0] == w[0];
    LetterIsBare(s);
    StripOfBare(s);
  }

  // ---------------------------------------------------------------- trimming

  predicate AllBlank(s: string) { forall i :: 0 <= i < |s| ==> TrimSpace(s[i]) }

  predicate Trimmed(s: string) { s != "" ==> !TrimSpace(s[0]) && !TrimSpace(s[|s| - 1]) }

  lemma {:induction false} LeftTrimmed(lead: string, s: string)
    requires AllBlank(lead) && s != "" && !TrimSpace(s[0])
    ensures TrimLeft(lead + s) == s
  {
    if lead == "" {
      assert lead + s == s;
    } else {
      assert (lead + s)[1..] == lead[1..] + s;
      LeftTrimmed(lead[1..], s);
    }
  }

  lemma {:induction false} RightTrimmed(s: string, trail: string)
    requires AllBlank(trail) && s != "" && !TrimSpace(s[|s| - 1])
    ensures TrimRight(s + trail) == s
  {
    if trail == "" {
      assert s + trail == s;
    } else {
      assert (s + trail)[..|s + trail| - 1] == s + trail[..|trail| - 1];
      RightTrimmed(s, trail[..|trail| - 1]);
    }
  }

  lemma TrimOf(lead: string, s: string, trail: string)
    requires AllBlank(lead) && AllBlank(trail) && Trimmed(s) && s != ""
    ensures Trim(lead + (s + trail)) == s
  {
    LeftTrimmed(lead, s + trail);
    RightTrimmed(s, trail);
  }

  lemma {:induction false} LeftSplits(s: string) returns (lead: string)
    ensures AllBlank(lead) && s == lead + TrimLeft(s) && (TrimLeft(s) != "" ==> !TrimSpace(TrimLeft(s)[0]))
  {
    if s == "" || !TrimSpace(s[0]) {
      lead := "";
    } else {
      var more := LeftSplits(s[1..]);
      lead := [s[0]] + more;
      Regroup([s[0]], more, TrimLeft(s), s[1..]);
    }
  }

  lemma Regroup(a: string, b: string, c: string, tail: string)
    requires tail == b + c
    ensures a + tail == (a + b) + c
  {
  }

  lemma {:induction false} RightSplits(s: string) returns (trail: string)
    ensures AllBlank(trail) && s == TrimRight(s) + trail
    ensures TrimRight(s) != "" ==> !TrimSpace(TrimRight(s)[|TrimRight(s)| - 1]) && TrimRight(s)[0] == s[0]
  {
    if s == "" || !TrimSpace(s[|s| - 1]) {
      trail := "";
    } else {
      var more := RightSplits(s[..|s| - 1]);
      trail := more + [s[|s| - 1]];
      assert s == s[..|s| - 1] + [s[|s| - 1]];
    }
  }

  lemma TrimSplits(s: string) returns (lead: string, trail: string)
    ensures AllBlank(lead) && AllBlank(trail) && Trimmed(Trim(s)) && s == lead + (Trim(s) + trail)
  {
    lead := LeftSplits(s);
    trail := RightSplits(TrimLeft(s));
  }

  // ---------------------------------------------------------------- one layer, as text

  datatype Link =
    | ExplainLink(ps: seq<Piece>, ns: seq<Noise>)
    | WithLink(n0: seq<Noise>, rec: string, nr: seq<Noise>, es: seq<Entry>)

  /** The keyword as written, the link to the statement below it, and the white space around that. */
  datatype Layer = Layer(key: string, lead: string, link: Link, trail: string)

  function LinkWord(l: Link): string { if l.ExplainLink? then "EXPLAIN" else "WITH" }

  function LinkText(l: Link, t: string): string {
    match l
    case ExplainLink(ps, ns) => Spelled(ps) + (WrittenAll(ns) + t)
    case WithLink(n0, rec, nr, es) => WithText(n0, rec, nr, es, t)
  }

  predicate LinkOk(l: Link, t: string) {
    match l
    case ExplainLink(ps, ns) => AllHarmless(ps) && GoodAll(ns) && (Statement(t) || Overruns(t))
    case WithLink(n0, rec, nr, es) => WithOk(n0, rec, nr, es) && Under(t)
  }

  function LayerText(l: Layer, t: string): string { l.key + (l.lead + (LinkText(l.link, t) + l.trail)) }

  /** The layer is well formed over the statement, and its keyword ends where it should. */
  predicate LayerOk(l: Layer, t: string) {
    && Upper(l.key) == LinkWord(l.link) && Leads(LayerText(l, t), LinkWord(l.link))
    && AllBlank(l.lead) && AllBlank(l.trail) && LinkOk(l.link, t) && Trimmed(LinkText(l.link, t))
  }

  /** What is under the keyword, once the white space around it is trimmed. */
  function PeelCore(core: string, w: string): Peeled {
    if w == "EXPLAIN" then AfterOptions(core) else AfterList(AfterRecursive(Strip(core)))
  }

  lemma OverrunIsCrash(t: string)
    requires Overruns(t)
    ensures Classify(t) == Crash && Bare(t) && t != ""
  {
    OverrunsIff(t);
    assert Ident(t[0]);
    StripOfBare(t);
  }

  lemma LinkPassed(l: Link, t: string)
    requires LinkOk(l, t)
    ensures LinkText(l, t) != "" && t != "" && Bare(t)
    ensures Judged(PeelCore(LinkText(l, t), LinkWord(l))) == Classify(t)
  {
    match l {
      case ExplainLink(ps, ns) =>
        if Overruns(t) {
          OptionsCrash(ps, ns, t);
          OverrunIsCrash(t);
        } else {
          OptionsSkipped(ps, ns, t);
        }
      case WithLink(n0, rec, nr, es) => WithPassed(n0, rec, nr, es, t); ListIsBare(es, t);
    }
  }

  lemma LinkWordPlain(l: Link)
    ensures PlainWord(LinkWord(l))
  {
    assert "EXPLAIN"[..6][0] == 'E';
  }

  lemma KeyLength(l: Layer, t: string)
    requires Upper(l.key) == LinkWord(l.link)
    ensures var s, w := LayerText(l, t), LinkWord(l.link);
            |s| >= |w| && s[..|w|] == l.key && s[|w|..] == l.lead + (LinkText(l.link, t) + l.trail)
  {
    assert |Upper(l.key)| == |l.key|;
  }

  /** A layer adds nothing to the verdict: whatever the options of the EXPLAIN and whatever is inside
      the list of the WITH, the verdict is that of the statement below. */
  lemma LayerVerdict(l: Layer, t: string)
    requires LayerOk(l, t)
    ensures Classify(LayerText(l, t)) == Classify(t)
  {
    LinkWordPlain(l.link);
    LinkPassed(l.link, t);
    CoreTrimmed(l, t);
    PeeledVerdict(LayerText(l, t), LinkWord(l.link), LinkText(l.link, t), t);
  }

  lemma CoreTrimmed(l: Layer, t: string)
    requires Upper(l.key) == LinkWord(l.link) && AllBlank(l.lead) && AllBlank(l.trail)
    requires LinkText(l.link, t) != "" && Trimmed(LinkText(l.link, t))
    ensures |LayerText(l, t)| >= |LinkWord(l.link)|
            && Trim(LayerText(l, t)[|LinkWord(l.link)|..]) == LinkText(l.link, t)
  {
    KeyLength(l, t);
    TrimOf(l.lead, LinkText(l.link, t), l.trail);
  }

  lemma PeeledVerdict(s: string, w: string, core: string, t: string)
    requires (w == "EXPLAIN" || w == "WITH") && PlainWord(w) && Leads(s, w) && Trim(s[|w|..]) == core
    requires Judged(PeelCore(core, w)) == Classify(t)
    ensures Classify(s) == Classify(t)
  {
    LeadsIff(s, w);
    LeadIsBare(s, w);
    assert Peel(s, w) == PeelCore(core, w);
  }

  /** What the classifier takes off a statement is such a layer. */
  lemma LayerOfPeel(s: string, w: string) returns (l: Layer)
    requires (w == "EXPLAIN" || w == "WITH") && FirstWord(s) == Word(w) && Peel(s, w).Inner? && Peel(s, w).text != ""
    ensures LayerOk(l, Peel(s, w).text) && s == LayerText(l, Peel(s, w).text)
  {
    WordLength(s, w);
    var core, t := Trim(s[|w|..]), Peel(s, w).text;
    var link := LinkOfPeel(core, w, t);
    LinkWordPlain(link);
    LeadsIff(s, w);
    l := LayerOfLink(s, link, t);
  }

  lemma LayerOfLink(s: string, link: Link, t: string) returns (l: Layer)
    requires Leads(s, LinkWord(link)) && LinkOk(link, t) && Trim(s[|LinkWord(link)|..]) == LinkText(link, t)
    ensures LayerOk(l, t) && s == LayerText(l, t)
  {
    var n := |LinkWord(link)|;
    var lead, trail := TrimSplits(s[n..]);
    l := Layer(s[..n], lead, link, trail);
    Rejoined(s, n, lead + (LinkText(link, t) + trail));
  }

  lemma Rejoined(s: string, n: nat, tail: string)
    requires n <= |s| && s[n..] == tail
    ensures s == s[..n] + tail
  {
  }

  /** An EXPLAIN whose statement leads with an overlong identifier crashes before it is looked under. */
  lemma LayerOfCrash(s: string) returns (l: Layer, t: string)
    requires FirstWord(s).Word? && (FirstWord(s).text == "EXPLAIN" || FirstWord(s).text == "WITH")
    requires Peel(s, FirstWord(s).text) == Verdict(Crash)
    ensures LayerOk(l, t) && s == LayerText(l, t) && Overruns(t)
  {
    var w := FirstWord(s).text;
    WordLength(s, w);
    ListVerdict(AfterRecursive(Strip(Trim(s[|w|..]))));
    var ps, ns, inner := OnlyOptionsCrash(Trim(s[|w|..]));
    LinkWordPlain(ExplainLink(ps, ns));
    LeadsIff(s, w);
    t := inner;
    l := LayerOfLink(s, ExplainLink(ps, ns), t);
  }

  /** A list gives way to the statement below it, or to no verdict at all. */
  lemma {:induction false} ListVerdict(s: string)
    ensures AfterList(s).Inner? || AfterList(s) == Verdict(Unknown)
    decreases |s|
  {
    var head := Strip(s[NameLen(s)..]);
    if Begins(head, "AS") {
      var body := AfterMaterialized(Strip(head[2..]));
      if body != "" && body[0] == '(' {
        var rest := Strip(AfterParen(body[1..], 1));
        if rest != [] && rest[0] == ',' { ListVerdict(Strip(rest[1..])); }
      }
    }
  }

  lemma LinkOfPeel(core: string, w: string, t: string) returns (l: Link)
    requires t != "" && (w == "EXPLAIN" || w == "WITH")
    requires PeelCore(core, w) == Inner(t)
    ensures LinkOk(l, t) && LinkText(l, t) == core && LinkWord(l) == w
  {
    if w == "EXPLAIN" {
      var ps, ns := OnlyOptionsSkipped(core);
      l := ExplainLink(ps, ns);
    } else {
      var n0, rec, nr, es := OnlyWithPassed(core);
      l := WithLink(n0, rec, nr, es);
    }
  }

  // ---------------------------------------------------------------- layer by layer

  /** The statement under all the layers, outermost first, written out. */
  function ChainText(ls: seq<Layer>, t: string): string {
    if ls == [] then t else LayerText(ls[0], ChainText(ls[1..], t))
  }

  predicate ChainOk(ls: seq<Layer>, t: string) {
    ls == [] || (LayerOk(ls[0], ChainText(ls[1..], t)) && ChainOk(ls[1..], t))
  }

  /** Noise, then layers of EXPLAIN and WITH, then the statement. */
  predicate Chain(sql: string, ns: seq<Noise>, ls: seq<Layer>, t: string) {
    GoodAll(ns) && ChainOk(ls, t) && sql == WrittenAll(ns) + ChainText(ls, t)
  }

  /** A chain of layers has the verdict of the statement at its end. */
  lemma {:induction false} ChainVerdict(ls: seq<Layer>, t: string)
    requires ChainOk(ls, t)
    ensures Classify(ChainText(ls, t)) == Classify(t)
    decreases |ls|
  {
    if ls != [] {
      ChainVerdict(ls[1..], t);
      LayerVerdict(ls[0], ChainText(ls[1..], t));
    }
  }

  // ---------------------------------------------------------------- where a chain ends

  predicate LeadsRead(s: string) { Leads(s, "SELECT") || Leads(s, "VALUES") || Leads(s, "TABLE") || Leads(s, "SHOW") }

  /** A word that fits the buffer and is none of those the classifier knows better. */
  predicate LeadsOther(t: string) {
    t != "" && Ident(t[0]) && !Overruns(t) && !LeadsRead(t) && !Leads(t, "EXPLAIN") && !Leads(t, "WITH")
  }

  predicate AnalyzedBy(core: string, ps: seq<Piece>, ns: seq<Noise>, u: string) {
    AllHarmless(ps) && GoodAll(ns) && Analyzes(u) && core == Spelled(ps) + (WrittenAll(ns) + u)
  }

  predicate LinkedBy(core: string, link: Link, u: string) { LinkOk(link, u) && core == LinkText(link, u) }

  /** An EXPLAIN that runs its statement. */
  ghost predicate ExplainsAndRuns(t: string) {
    Leads(t, "EXPLAIN") && exists ps, ns, u :: AnalyzedBy(Trim(t[7..]), ps, ns, u)
  }

  /** No word at all. */
  predicate NoWord(t: string) { t != "" && Bare(t) && !Ident(t[0]) }

  /** An EXPLAIN whose options, if any, are followed by nothing. */
  ghost predicate ExplainsNothing(t: string) {
    && Leads(t, "EXPLAIN") && !ExplainsAndRuns(t)
    && !exists link: Link, u :: link.ExplainLink? && LinkedBy(Trim(t[7..]), link, u)
  }

  /** A WITH that is no list of entries over a statement. */
  ghost predicate BadWith(t: string) {
    Leads(t, "WITH") && !exists link: Link, u :: link.WithLink? && LinkedBy(Trim(t[4..]), link, u)
  }

  /** How the statement at the end of a chain looks when that is the verdict. */
  ghost predicate EndsIn(op: Op, t: string) {
    match op
    case Read => LeadsRead(t)
    case Crash => Overruns(t)
    case Write => LeadsOther(t) || ExplainsAndRuns(t)
    case Unknown => NoWord(t) || ExplainsNothing(t) || BadWith(t)
  }

  lemma LeadsReadIff(s: string)
    ensures LeadsRead(s) <==> FirstWord(s).Word? && ReadWord(FirstWord(s).text)
  {
    LeadsIff(s, "SELECT");
    LeadsIff(s, "VALUES");
    LeadsIff(s, "TABLE");
    LeadsIff(s, "SHOW");
  }

  lemma LayerWords(s: string)
    ensures Leads(s, "EXPLAIN") <==> FirstWord(s) == Word("EXPLAIN")
    ensures Leads(s, "WITH") <==> FirstWord(s) == Word("WITH")
    ensures Leads(s, "EXPLAIN") || Leads(s, "WITH") ==> Bare(s) && s != ""
  {
    LinkWordPlain(ExplainLink([], []));
    assert PlainWord("WITH");
    LeadsIff(s, "EXPLAIN");
    LeadsIff(s, "WITH");
    if Leads(s, "EXPLAIN") { LeadIsBare(s, "EXPLAIN"); }
    if Leads(s, "WITH") { LeadIsBare(s, "WITH"); }
  }

  lemma NoWordIff(s: string)
    ensures FirstWord(s) == Word("") <==> s == "" || !Ident(s[0])
  {
    assert IdentLen(s) == 0 <==> s == "" || !Ident(s[0]);
    assert |Upper(s[..IdentLen(s)])| == IdentLen(s);
  }

  /** The options of an EXPLAIN decide on their own exactly in these cases. */
  lemma OptionsDecide(core: string)
    ensures AfterOptions(core) == Verdict(Write) <==> exists ps, ns, u :: AnalyzedBy(core, ps, ns, u)
    ensures AfterOptions(core).Inner? || AfterOptions(core) == Verdict(Crash)
            <==> exists link: Link, u :: link.ExplainLink? && LinkedBy(core, link, u)
  {
    OptionsRun(core);
    OptionsLink(core);
  }

  lemma OptionsRun(core: string)
    ensures AfterOptions(core) == Verdict(Write) <==> exists ps, ns, u :: AnalyzedBy(core, ps, ns, u)
  {
    if AfterOptions(core) == Verdict(Write) {
      var ps, ns, u := OnlyAnalyzeWrites(core);
      assert AnalyzedBy(core, ps, ns, u);
    }
    if ps, ns, u :| AnalyzedBy(core, ps, ns, u) { AnalyzeWrites(ps, ns, u); }
  }

  lemma OptionsLink(core: string)
    ensures AfterOptions(core).Inner? || AfterOptions(core) == Verdict(Crash)
            <==> exists link: Link, u :: link.ExplainLink? && LinkedBy(core, link, u)
  {
    if AfterOptions(core).Inner? {
      var ps, ns := OnlyOptionsSkipped(core);
      assert LinkedBy(core, ExplainLink(ps, ns), AfterOptions(core).text);
    } else if AfterOptions(core) == Verdict(Crash) {
      var ps, ns, u := OnlyOptionsCrash(core);
      assert LinkedBy(core, ExplainLink(ps, ns), u);
    }
    if link: Link, u :| link.ExplainLink? && LinkedBy(core, link, u) {
      if Overruns(u) { OptionsCrash(link.ps, link.ns, u); } else { OptionsSkipped(link.ps, link.ns, u); }
    }
  }

  lemma ListLink(core: string)
    ensures var p := AfterList(AfterRecursive(Strip(core)));
            p.Inner? && p.text != "" <==> exists link: Link, u :: link.WithLink? && LinkedBy(core, link, u)
  {
    var p := AfterList(AfterRecursive(Strip(core)));
    if p.Inner? && p.text != "" {
      var n0, rec, nr, es := OnlyWithPassed(core);
      assert LinkedBy(core, WithLink(n0, rec, nr, es), p.text);
    }
    if link: Link, u :| link.WithLink? && LinkedBy(core, link, u) {
      WithPassed(link.n0, link.rec, link.nr, link.es, u);
    }
  }

  lemma NothingIsUnknown()
    ensures Classify("") == Unknown
  {
  }

  /** What the keyword of a layer leads to when it is not a statement below. */
  lemma PeelDecides(s: string, w: string)
    requires (w == "EXPLAIN" || w == "WITH") && FirstWord(s) == Word(w)
    requires Peel(s, w).Verdict? || Peel(s, w).text == ""
    ensures Judge(s) != Read && (Judge(s) != Crash ==> EndsIn(Judge(s), s))
    ensures Judge(s) == Crash ==> Peel(s, w) == Verdict(Crash)
  {
    WordLength(s, w);
    LayerWords(s);
    NothingIsUnknown();
    var core := Trim(s[|w|..]);
    if w == "EXPLAIN" {
      OptionsDecide(core);
      if AfterOptions(core).Inner? { var _, _ := OnlyOptionsSkipped(core); }
    } else {
      ListVerdict(AfterRecursive(Strip(core)));
      ListLink(core);
    }
  }

  /** A statement under a layer, judged like the whole. */
  lemma UnderLayer(s: string, w: string) returns (l: Layer, t: string)
    requires (w == "EXPLAIN" || w == "WITH") && FirstWord(s) == Word(w) && Peel(s, w).Inner? && Peel(s, w).text != ""
    ensures LayerOk(l, t) && s == LayerText(l, t) && t != "" && Bare(t) && |t| < |s| && Judge(t) == Judge(s)
  {
    t := Peel(s, w).text;
    l := LayerOfPeel(s, w);
    LinkPassed(l.link, t);
    StripOfBare(t);
    JudgedBelow(s, w);
  }

  lemma JudgedBelow(s: string, w: string)
    requires (w == "EXPLAIN" || w == "WITH") && FirstWord(s) == Word(w) && Peel(s, w).Inner?
    ensures Judge(s) == Classify(Peel(s, w).text)
  {
  }

  /** A statement with no keyword of a layer in front is at the end of its chain. */
  lemma NoLayer(s: string)
    requires s != "" && Bare(s) && FirstWord(s) != Word("EXPLAIN") && FirstWord(s) != Word("WITH")
    ensures EndsIn(Judge(s), s)
  {
    OverrunsIff(s);
    LeadsReadIff(s);
    LayerWords(s);
    NoWordIff(s);
  }

  /** Every bare statement has a chain that ends as its verdict says. */
  lemma {:induction false} BareHasChain(s: string) returns (ls: seq<Layer>, t: string)
    requires s != "" && Bare(s)
    ensures ChainOk(ls, t) && s == ChainText(ls, t) && EndsIn(Judge(s), t)
    decreases |s|
  {
    var k := FirstWord(s);
    ls, t := [], s;
    if k != Word("EXPLAIN") && k != Word("WITH") {
      NoLayer(s);
    } else if Peel(s, k.text).Verdict? || Peel(s, k.text).text == "" {
      PeelDecides(s, k.text);
      if Judge(s) == Crash {
        var l;
        l, t := LayerOfCrash(s);
        ls := [l];
      }
    } else {
      var l, inner := UnderLayer(s, k.text);
      var more;
      more, t := BareHasChain(inner);
      ls := [l] + more;
      assert ls[1..] == more;
    }
  }

  /** The text never gets past its noise: nothing, or a comment that does not end. */
  ghost predicate OnlyNoise(sql: string) {
    forall ns, t :: GoodAll(ns) && t != "" && Bare(t) ==> sql != WrittenAll(ns) + t
  }

  lemma OnlyNoiseIff(sql: string)
    ensures OnlyNoise(sql) <==> Strip(sql) == ""
  {
    if Strip(sql) != "" {
      var ns := OnlyNoiseDropped(sql);
      assert sql == WrittenAll(ns) + Strip(sql);
    } else {
      forall ns, t | GoodAll(ns) && t != "" && Bare(t) ensures sql != WrittenAll(ns) + t {
        NoiseDropped(ns, t);
        StripOfBare(t);
      }
    }
  }

  /** Every text that gets past its noise is a chain that ends as its verdict says... */
  lemma VerdictHasChain(sql: string) returns (ns: seq<Noise>, ls: seq<Layer>, t: string)
    requires !OnlyNoise(sql)
    ensures Chain(sql, ns, ls, t) && EndsIn(Classify(sql), t)
  {
    OnlyNoiseIff(sql);
    ns := NoiseSplits(sql);
    ls, t := BareHasChain(Strip(sql));
  }

  /** ...and every such chain has that verdict, so that no text ends in two ways. */
  lemma ChainHasVerdict(sql: string, ns: seq<Noise>, ls: seq<Layer>, t: string, op: Op)
    requires Chain(sql, ns, ls, t) && EndsIn(op, t)
    ensures Classify(sql) == op
  {
    EndVerdict(op, t);
    ChainVerdict(ls, t);
    NoiseInvariant(ns, ChainText(ls, t));
  }

  lemma EndVerdict(op: Op, t: string)
    requires EndsIn(op, t)
    ensures Classify(t) == op
  {
    LeadsReadIff(t);
    LayerWords(t);
    NoWordIff(t);
    OverrunsIff(t);
    match op {
      case Read => LeadsReadIsRead(t);
      case Crash => OverrunIsCrash(t);
      case Write => if ExplainsAndRuns(t) { LayerDecides(t, "EXPLAIN"); } else { StripOfBare(t); }
      case Unknown =>
        if NoWord(t) { StripOfBare(t); } else { LayerDecides(t, if Leads(t, "EXPLAIN") then "EXPLAIN" else "WITH"); }
    }
  }

  lemma LayerDecides(t: string, w: string)
    requires (w == "EXPLAIN" || w == "WITH") && FirstWord(t) == Word(w) && Bare(t)
    requires w == "EXPLAIN" ==> ExplainsAndRuns(t) || ExplainsNothing(t)
    requires w == "WITH" ==> BadWith(t)
    ensures Classify(t) == if w == "EXPLAIN" && ExplainsAndRuns(t) then Write else Unknown
  {
    WordLength(t, w);
    StripOfBare(t);
    NothingIsUnknown();
    var core := Trim(t[|w|..]);
    if w == "EXPLAIN" {
      OptionsDecide(core);
    } else {
      ListVerdict(AfterRecursive(Strip(core)));
      ListLink(core);
    }
  }

  /** A text that never gets past its noise has no verdict. */
  lemma NoiseIsUnknown(sql: string)
    requires OnlyNoise(sql)
    ensures Classify(sql) == Unknown
  {
    OnlyNoiseIff(sql);
  }

  // ---------------------------------------------------------------- verdict by verdict

  /** The statement is a SELECT, VALUES, TABLE or SHOW. */
  predicate ReadChain(sql: string, ns: seq<Noise>, ls: seq<Layer>, t: string) {
    Chain(sql, ns, ls, t) && LeadsRead(t)
  }

  /** The statement leads with an identifier longer than the keyword buffer. */
  predicate CrashChain(sql: string, ns: seq<Noise>, ls: seq<Layer>, t: string) {
    Chain(sql, ns, ls, t) && Overruns(t)
  }

  /** A statement is routed as a read only if it is noise, any layers of non-ANALYZE EXPLAIN and WITH,
      and then SELECT, VALUES, TABLE or SHOW... */
  lemma ReadHasChain(sql: string) returns (ns: seq<Noise>, ls: seq<Layer>, t: string)
    requires Classify(sql) == Read
    ensures ReadChain(sql, ns, ls, t)
  {
    OnlyNoiseIff(sql);
    ns, ls, t := VerdictHasChain(sql);
  }

  lemma LeadIsRead(t: string, w: string)
    requires PlainWord(w) && ReadWord(w) && Leads(t, w)
    ensures Classify(t) == Read
  {
    LeadsIff(t, w);
    LeadIsBare(t, w);
  }

  lemma LeadsReadIsRead(t: string)
    requires LeadsRead(t)
    ensures Classify(t) == Read
  {
    LeadIsRead(t, if Leads(t, "SELECT") then "SELECT" else if Leads(t, "VALUES") then "VALUES"
                  else if Leads(t, "TABLE") then "TABLE" else "SHOW");
  }

  /** ...and always then. */
  lemma ChainIsRead(sql: string, ns: seq<Noise>, ls: seq<Layer>, t: string)
    requires ReadChain(sql, ns, ls, t)
    ensures Classify(sql) == Read
  {
    ChainHasVerdict(sql, ns, ls, t, Read);
  }

  /** A statement is routed as a write only if under its noise and layers it leads with another word
      that fits the buffer, or is an EXPLAIN that runs its statement... */
  lemma WriteHasChain(sql: string) returns (ns: seq<Noise>, ls: seq<Layer>, t: string)
    requires Classify(sql) == Write
    ensures Chain(sql, ns, ls, t) && (LeadsOther(t) || ExplainsAndRuns(t))
  {
    OnlyNoiseIff(sql);
    ns, ls, t := VerdictHasChain(sql);
  }

  /** ...and always then. */
  lemma ChainIsWrite(sql: string, ns: seq<Noise>, ls: seq<Layer>, t: string)
    requires Chain(sql, ns, ls, t) && (LeadsOther(t) || ExplainsAndRuns(t))
    ensures Classify(sql) == Write
  {
    ChainHasVerdict(sql, ns, ls, t, Write);
  }

  /** A statement has no verdict only if it never gets past its noise, or under its noise and layers
      has no word, an EXPLAIN of nothing or a WITH that is no list over a statement... */
  lemma UnknownHasChain(sql: string) returns (ns: seq<Noise>, ls: seq<Layer>, t: string)
    requires Classify(sql) == Unknown && !OnlyNoise(sql)
    ensures Chain(sql, ns, ls, t) && (NoWord(t) || ExplainsNothing(t) || BadWith(t))
  {
    ns, ls, t := VerdictHasChain(sql);
  }

  /** ...and always then. */
  lemma ChainIsUnknown(sql: string, ns: seq<Noise>, ls: seq<Layer>, t: string)
    requires OnlyNoise(sql) || (Chain(sql, ns, ls, t) && (NoWord(t) || ExplainsNothing(t) || BadWith(t)))
    ensures Classify(sql) == Unknown
  {
    if OnlyNoise(sql) { NoiseIsUnknown(sql); } else { ChainHasVerdict(sql, ns, ls, t, Unknown); }
  }

  /** The classifier crashes only on noise, any such layers, and then an identifier longer than its
      buffer... */
  lemma CrashHasChain(sql: string) returns (ns: seq<Noise>, ls: seq<Layer>, t: string)
    requires Classify(sql) == Crash
    ensures CrashChain(sql, ns, ls, t)
  {
    OnlyNoiseIff(sql);
    ns, ls, t := VerdictHasChain(sql);
  }

  /** ...and always then. */
  lemma ChainCrashes(sql: string, ns: seq<Noise>, ls: seq<Layer>, t: string)
    requires CrashChain(sql, ns, ls, t)
    ensures Classify(sql) == Crash
  {
    ChainHasVerdict(sql, ns, ls, t, Crash);
  }

  /** A word that starts with another letter than those the classifier knows better. */
  lemma OtherWordIsWrite(s: string)
    requires s != "" && Ident(s[0]) && UpperChar(s[0]) !in "SVTEW" && !Overruns(s)
    ensures Classify(s) == Write
  {
    assert "SVTEW" == ['S', 'V', 'T', 'E', 'W'];
    OtherLetter(s, "SELECT");
    OtherLetter(s, "VALUES");
    OtherLetter(s, "TABLE");
    OtherLetter(s, "SHOW");
    OtherLetter(s, "EXPLAIN");
    OtherLetter(s, "WITH");
    EndVerdict(Write, s);
  }

  lemma OtherLetter(s: string, w: string)
    requires s != "" && w != "" && UpperChar(s[0]) != w[0]
    ensures !Leads(s, w)
  {
    if |w| <= |s| { assert Upper(s[..|w|])[0] == UpperChar(s[0]); }
  }

  /** Thirty-three letters are enough, thirty-two are a write like any other. */
  lemma LongNameCrashes()
    ensures Classify(seq(33, _ => 'a')) == Crash && Classify(seq(32, _ => 'a')) == Write
  {
    OverrunIsCrash(seq(33, _ => 'a'));
    OtherWordIsWrite(seq(32, _ => 'a'));
  }

  // ---------------------------------------------------------------- what a WITH body does

  /** The same layer with another body in its i-th entry. */
  function WithBody(l: Layer, i: nat, g: string): Layer
    requires l.link.WithLink? && i < |l.link.es|
  {
    l.(link := l.link.(es := l.link.es[i := l.link.es[i].(body := g)]))
  }

  /** The body of an entry is never looked at: put anything in the parentheses of any entry of any
      WITH, a DELETE say, and the verdict stays. */
  lemma BodyIgnored(l: Layer, t: string, i: nat, g: string)
    requires LayerOk(l, t) && l.link.WithLink? && i < |l.link.es| && Group(g)
    ensures LayerOk(WithBody(l, i, g), t)
    ensures Classify(LayerText(WithBody(l, i, g), t)) == Classify(LayerText(l, t)) == Classify(t)
  {
    BodyFits(l, t, i, g);
    LayerVerdict(l, t);
    LayerVerdict(WithBody(l, i, g), t);
  }

  lemma BodyFits(l: Layer, t: string, i: nat, g: string)
    requires LayerOk(l, t) && l.link.WithLink? && i < |l.link.es| && Group(g)
    ensures LayerOk(WithBody(l, i, g), t)
  {
    var l' := WithBody(l, i, g);
    EntriesKept(l.link.es, i, g);
    WithEnds(l.link, t);
    WithEnds(l'.link, t);
    SameLead(l, l', t);
  }

  lemma EntriesKept(es: seq<Entry>, i: nat, g: string)
    requires AllEntries(es) && i < |es| && Group(g)
    ensures var es' := es[i := es[i].(body := g)]; AllEntries(es') && es'[0].name == es[0].name
  {
    assert EntryOk(es[i]);
  }

  function WithStart(l: Link): string
    requires l.WithLink? && WithOk(l.n0, l.rec, l.nr, l.es)
  {
    WrittenAll(l.n0) + (l.rec + (WrittenAll(l.nr) + l.es[0].name))
  }

  /** A WITH starts as its noise, RECURSIVE or first name does and ends as its statement does. */
  lemma WithEnds(l: Link, t: string)
    requires l.WithLink? && LinkOk(l, t)
    ensures var s := LinkText(l, t);
            s != "" && WithStart(l) != "" && s[0] == WithStart(l)[0] && s[|s| - 1] == t[|t| - 1]
  {
    ListIsBare(l.es, t);
    ListEnds(l.es, t);
    assert EntryOk(l.es[0]);
  }

  lemma {:induction false} ListEnds(es: seq<Entry>, t: string)
    requires AllEntries(es) && t != ""
    ensures var s := ListText(es, t); s != "" && s[|s| - 1] == t[|t| - 1]
    decreases |es|
  {
    if |es| == 1 {
      EntryEnds(es[0], t);
    } else {
      ListEnds(es[1..], t);
      EntryEnds(es[0], "," + (WrittenAll(es[0].gap) + ListText(es[1..], t)));
    }
  }

  lemma EntryEnds(e: Entry, tail: string)
    requires tail != ""
    ensures var s := EntryText(e, tail); s != "" && s[|s| - 1] == tail[|tail| - 1]
  {
  }

  lemma SameLead(l: Layer, l': Layer, t: string)
    requires LayerOk(l, t) && l'.key == l.key && l'.lead == l.lead && LinkWord(l'.link) == LinkWord(l.link)
    requires LinkText(l.link, t) != "" && LinkText(l'.link, t) != ""
             && LinkText(l'.link, t)[0] == LinkText(l.link, t)[0]
    ensures Leads(LayerText(l', t), LinkWord(l.link))
  {
    var s, s', n := LayerText(l, t), LayerText(l', t), |l.key|;
    KeyLength(l, t);
    KeyLength(l', t);
    assert |Upper(l.key)| == n;
    assert s[n] == (l.lead + LinkText(l.link, t))[0] && s'[n] == (l.lead + LinkText(l'.link, t))[0];
  }

  function OneEntry(g: string): Entry { Entry("x", [Blank(' ')], "AS", [Blank(' ')], "", [], g, [Blank(' ')], []) }

  lemma OneEntryOk(g: string)
    requires Group(g)
    ensures EntryOk(OneEntry(g))
    ensures EntryText(OneEntry(g), "SELECT 1") == "x AS " + (g + " SELECT 1")
  {
    assert Upper("AS") == "AS" && NameChar('x') && Space(' ');
    assert WrittenAll([Blank(' ')]) == " " by { assert WrittenAll([Blank(' ')][1..]) == ""; }
    assert BodyText(OneEntry(g), "SELECT 1") == g + " SELECT 1";
    assert DefText(OneEntry(g), "SELECT 1") == " " + (g + " SELECT 1");
  }

  /** So a statement that deletes inside its WITH is routed as the read it ends with. */
  lemma WritingBodyReads(g: string)
    requires Group(g)
    ensures Classify("WITH " + ("x AS " + (g + " SELECT 1"))) == Read
  {
    OneEntryPassed(g);
    KeywordBefore("x AS " + (g + " SELECT 1"));
    assert PlainWord("WITH");
    PeeledVerdict("WITH " + ("x AS " + (g + " SELECT 1")), "WITH", "x AS " + (g + " SELECT 1"), "SELECT 1");
    SelectReads();
  }

  lemma SelectReads()
    ensures Classify("SELECT 1") == Read
  {
    assert "SELECT 1"[..6] == "SELECT" && Upper("SELECT") == "SELECT" && PlainWord("SELECT");
    LeadIsRead("SELECT 1", "SELECT");
  }

  lemma OneEntryPassed(g: string)
    requires Group(g)
    ensures Judged(PeelCore("x AS " + (g + " SELECT 1"), "WITH")) == Classify("SELECT 1")
  {
    var link := WithLink([], "", [], [OneEntry(g)]);
    OneEntryOk(g);
    assert LinkText(link, "SELECT 1") == "x AS " + (g + " SELECT 1");
    assert !Begins("x", "RECURSIVE");
    LinkPassed(link, "SELECT 1");
  }

  lemma KeywordBefore(core: string)
    requires core != "" && Trimmed(core)
    ensures Leads("WITH " + core, "WITH") && Trim(("WITH " + core)[4..]) == core
  {
    var s := "WITH " + core;
    assert s[..4] == "WITH" && Upper("WITH") == "WITH" && s[4] == ' ';
    assert s[4..] == " " + (core + "");
    TrimOf(" ", core, "");
  }
}
