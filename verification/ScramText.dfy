/** The text layer of SCRAM messages: comma-separated attributes, decimal numbers, searching. */
module ScramText {
  import opened Options

  const MAX_INT: int := 0x7FFF_FFFF_FFFF_FFFF

  // ---------------------------------------------------------------- strings.Split and strings.Cut

  /** strings.Split(s, ","): always at least one piece. */
  function Split(s: string): (r: seq<string>)
    ensures |r| >= 1
  {
    if s == [] then [""]
    else if s[0] == ',' then [""] + Split(s[1..])
    else Attach(s[0], Split(s[1..]))
  }

  /** `r` with `c` in front of its first piece. */
  function Attach(c: char, r: seq<string>): (t: seq<string>)
    requires |r| >= 1
    ensures |t| == |r|
  {
    [[c] + r[0]] + r[1..]
  }

  lemma {:induction false} SplitWhole(s: string)
    requires ',' !in s
    ensures Split(s) == [s]
  {
    if s != [] {
      SplitWhole(s[1..]);
      assert [s[0]] + s[1..] == s;
    }
  }

  lemma AttachConcat(c: char, r: seq<string>, t: seq<string>)
    requires |r| >= 1
    ensures Attach(c, r + t) == Attach(c, r) + t
  {
    assert (r + t)[1..] == r[1..] + t;
  }

  lemma {:induction false} SplitComma(a: string, b: string)
    ensures Split(a + ("," + b)) == Split(a) + Split(b)
  {
    var s := a + ("," + b);
    if a == [] {
      assert s == "," + b && s[1..] == b;
    } else {
      assert s[0] == a[0] && s[1..] == a[1..] + ("," + b);
      SplitComma(a[1..], b);
      if a[0] == ',' {
        assert Split(s) == [""] + (Split(a[1..]) + Split(b));
      } else {
        assert Split(s) == Attach(a[0], Split(a[1..]) + Split(b));
        AttachConcat(a[0], Split(a[1..]), Split(b));
      }
    }
  }

  /** The index of the first `ch`, or |s|. */
  function IndexOf(s: string, ch: char): (i: nat)
    ensures i <= |s| && (i < |s| ==> s[i] == ch) && ch !in s[..i]
    ensures ch in s <==> i < |s|
  {
    if s == [] then 0 else if s[0] == ch then 0 else 1 + IndexOf(s[1..], ch)
  }

  lemma {:induction false} IndexAfter(a: string, ch: char, b: string)
    requires ch !in a
    ensures IndexOf(a + [ch] + b, ch) == |a|
  {
    if a != [] {
      IndexAfter(a[1..], ch, b);
      assert (a + [ch] + b)[1..] == a[1..] + [ch] + b;
    }
  }

  /** A piece of the form key=value with a non-empty key. */
  predicate AttrOk(p: string) { 0 < IndexOf(p, '=') < |p| }

  function Key(p: string): string { p[..IndexOf(p, '=')] }
  function Value(p: string): string
    requires AttrOk(p)
  {
    p[IndexOf(p, '=') + 1..]
  }

  /** The map the attributes build up, later keys overwriting earlier ones. */
  function Collect(parts: seq<string>): (m: map<string, string>)
    requires forall i :: 0 <= i < |parts| ==> AttrOk(parts[i])
  {
    if parts == [] then map[] else
      var n := |parts| - 1;
      Collect(parts[..n])[Key(parts[n]) := Value(parts[n])]
  }

  /** splitSCRAMAttrs on values. */
  function Attrs(s: string): (r: Option<map<string, string>>) {
    var parts := Split(s);
    if forall i :: 0 <= i < |parts| ==> AttrOk(parts[i]) then Some(Collect(parts)) else None
  }

  lemma CollectStep(parts: seq<string>, i: nat)
    requires i < |parts| && forall j :: 0 <= j <= i ==> AttrOk(parts[j])
    ensures Collect(parts[..i + 1]) == Collect(parts[..i])[Key(parts[i]) := Value(parts[i])]
  {
    assert parts[..i + 1][..i] == parts[..i];
  }

  method SplitScramAttrs(b: string) returns (r: Option<map<string, string>>)
    ensures r == Attrs(b)
  {
    var parts := Split(b);
    var out := map[];
    var i := 0;
    while i < |parts|
      invariant 0 <= i <= |parts|
      invariant forall j :: 0 <= j < i ==> AttrOk(parts[j])
      invariant out == Collect(parts[..i])
    {
      var eq := IndexOf(parts[i], '=');
      if eq == |parts[i]| || eq == 0 {
        assert !AttrOk(parts[i]);
        return None;
      }
      CollectStep(parts, i);
      out := out[parts[i][..eq] := parts[i][eq + 1..]];
      i := i + 1;
    }
    assert parts[..i] == parts;
    r := Some(out);
  }

  lemma AttrKeyValue(k: char, v: string)
    requires k != '='
    ensures AttrOk([k, '='] + v) && Key([k, '='] + v) == [k] && Value([k, '='] + v) == v
  {
    assert [k, '='] + v == [k] + ['='] + v;
    IndexAfter([k], '=', v);
  }

  /** Every piece stands in the text, the first at its start and the others after a comma. */
  lemma {:induction false} PieceAt(s: string, i: nat) returns (j: nat)
    requires i < |Split(s)|
    ensures j + |Split(s)[i]| <= |s| && s[j..j + |Split(s)[i]|] == Split(s)[i]
    ensures if i == 0 then j == 0 else j > 0 && s[j - 1] == ','
  {
    j := 0;
    if s != [] {
      if i > 0 || s[0] != ',' {
        var k := PieceAt(s[1..], if s[0] == ',' then i - 1 else i);
        if i > 0 { j := k + 1; }
      }
    }
  }

  lemma {:induction false} CollectKeys(parts: seq<string>, k: string)
    requires forall i :: 0 <= i < |parts| ==> AttrOk(parts[i])
    ensures k in Collect(parts) <==> exists i :: 0 <= i < |parts| && Key(parts[i]) == k
  {
    if parts != [] {
      var n := |parts| - 1;
      CollectKeys(parts[..n], k);
      if i :| 0 <= i < |parts| && Key(parts[i]) == k {
        if i < n { assert Key(parts[..n][i]) == k; }
      }
    }
  }

  // ---------------------------------------------------------------- strconv

  predicate IsDigit(c: char) { '0' <= c <= '9' }

  function Itoa(n: nat): (s: string)
    ensures s != [] && forall i :: 0 <= i < |s| ==> IsDigit(s[i])
  {
    if n < 10 then ['0' + n as char] else Itoa(n / 10) + ['0' + (n % 10) as char]
  }

  function Digits(s: string): (r: Option<nat>) {
    if s == [] then Some(0)
    else if !IsDigit(s[|s| - 1]) then None
    else match Digits(s[..|s| - 1])
         case None => None
         case Some(v) => Some(10 * v + (s[|s| - 1] - '0') as int)
  }

  /** strconv.Atoi: an optional sign, at least one digit, and a value that fits a 64-bit int. */
  function Atoi(s: string): (r: Option<int>) {
    var signed := s != [] && (s[0] == '-' || s[0] == '+');
    var body := if signed then s[1..] else s;
    if body == [] then None
    else match Digits(body)
         case None => None
         case Some(v) =>
           var x := if signed && s[0] == '-' then 0 - v as int else v as int;
           if -MAX_INT - 1 <= x <= MAX_INT then Some(x) else None
  }

  lemma {:induction false} DigitsItoa(n: nat)
    ensures Digits(Itoa(n)) == Some(n)
  {
    if n >= 10 {
      DigitsItoa(n / 10);
      var s := Itoa(n);
      assert s[..|s| - 1] == Itoa(n / 10);
    } else {
      assert Itoa(n)[..0] == [];
      assert Digits([]) == Some(0);
    }
  }

  lemma AtoiItoa(n: nat)
    requires n <= MAX_INT
    ensures Atoi(Itoa(n)) == Some(n)
  {
    DigitsItoa(n);
    assert IsDigit(Itoa(n)[0]);
  }

  lemma DigitsOnly(s: string, ch: char)
    requires (forall i :: 0 <= i < |s| ==> IsDigit(s[i])) && !IsDigit(ch)
    ensures ch !in s
  {
  }

  // ---------------------------------------------------------------- bytes.LastIndex

  predicate ProofAt(s: string, i: int) { 0 <= i <= |s| - 3 && s[i] == ',' && s[i + 1] == 'p' && s[i + 2] == '=' }

  /** bytes.LastIndex(s, ",p="): the last occurrence, or -1 when there is none. */
  function LastProof(s: string): (i: int)
    ensures i == -1 || ProofAt(s, i)
    ensures forall j :: i < j ==> !ProofAt(s, j)
  {
    if |s| < 3 then -1
    else if ProofAt(s, |s| - 3) then |s| - 3
    else
      assert forall j :: j < |s| - 3 ==> ProofAt(s[..|s| - 1], j) == ProofAt(s, j);
      LastProof(s[..|s| - 1])
  }

  /** With no comma behind it, the ",p=" that was appended is the last one. */
  lemma LastProofAt(a: string, b: string)
    requires ',' !in b
    ensures LastProof(a + ",p=" + b) == |a|
  {
    var s := a + ",p=" + b;
    assert ProofAt(s, |a|);
    forall j | |a| < j ensures !ProofAt(s, j) {
      if j < |s| { assert s[j] == (",p=" + b)[j - |a|]; }
    }
  }

  /** An attribute p is written after a comma, or else it opens the message. */
  lemma ProofAttrPlace(s: string)
    requires Attrs(s).Some? && "p" in Attrs(s).value
    ensures (exists j :: ProofAt(s, j)) || "p=" <= s
  {
    var parts := Split(s);
    CollectKeys(parts, "p");
    var i :| 0 <= i < |parts| && Key(parts[i]) == "p";
    assert AttrOk(parts[i]);
    assert parts[i][0] == Key(parts[i])[0] == 'p' && parts[i][1] == '=';
    var j := PieceAt(s, i);
    assert s[j] == s[j..j + |parts[i]|][0] && s[j + 1] == s[j..j + |parts[i]|][1];
    if i > 0 { assert ProofAt(s, j - 1); }
  }

  lemma OpeningProof(s: string)
    requires "p=" <= s && Attrs(s).Some?
    ensures "p" in Attrs(s).value
  {
    var parts := Split(s);
    assert s[0] == 'p' && s[1..][0] == '=';
    assert Split(s[1..]) == Attach('=', Split(s[1..][1..]));
    assert parts[0] == ['p', '='] + parts[0][2..];
    AttrKeyValue('p', parts[0][2..]);
    CollectKeys(parts, "p");
  }
}
