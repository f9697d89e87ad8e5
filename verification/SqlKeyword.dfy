/** The first keyword of a statement, found by comparing against a table of known words before
    falling back to a fixed-size upper-casing buffer. */
module SqlKeyword {

  predicate Ident(c: char) { 'a' <= c <= 'z' || 'A' <= c <= 'Z' || '0' <= c <= '9' || c == '_' }

  function UpperChar(c: char): char { if 'a' <= c <= 'z' then (c as int - 32) as char else c }

  function Upper(s: string): string { seq(|s|, i requires 0 <= i < |s| => UpperChar(s[i])) }

  function IdentLen(s: string): (n: nat)
    ensures n <= |s|
    ensures forall i :: 0 <= i < n ==> Ident(s[i])
    ensures n < |s| ==> !Ident(s[n])
  {
    if s == [] || !Ident(s[0]) then 0 else 1 + IdentLen(s[1..])
  }

  /** The buffer holds 32 bytes; slicing it past that panics. */
  const BUFFER_SIZE: nat := 32

  datatype Keyword = Word(text: string) | Panics

  /** The leading identifier in upper case, but for two words the length switch gets wrong. */
  function FirstWord(s: string): Keyword {
    var n := IdentLen(s);
    var up := Upper(s[..n]);
    if n == 7 && up[..6] == "INSERT" then Word("INSERT")
    else if n == 9 && up == "DEALLOCAT" then Word("DEALLOCATE")
    else if n > BUFFER_SIZE then Panics
    else Word(up)
  }

  /** The text leads with more identifier characters than the buffer holds. */
  predicate Overruns(s: string) { |s| > BUFFER_SIZE && forall i :: 0 <= i <= BUFFER_SIZE ==> Ident(s[i]) }

  lemma OverrunsIff(s: string)
    ensures Overruns(s) <==> FirstWord(s) == Panics
  {
    var n := IdentLen(s);
    assert n <= BUFFER_SIZE && n < |s| ==> !Ident(s[n]);
  }

  // ---------------------------------------------------------------- a word in front

  predicate Begins(s: string, w: string) { |w| <= |s| && Upper(s[..|w|]) == w }

  /** The text leads with the word, in any case, and the word ends there. */
  predicate Leads(s: string, w: string) { Begins(s, w) && (|s| == |w| || !Ident(s[|w|])) }

  predicate PlainWord(w: string) {
    && 0 < |w| <= 7 && w != "INSERT" && (|w| == 7 ==> w[..6] != "INSERT")
    && forall i :: 0 <= i < |w| ==> 'A' <= w[i] <= 'Z'
  }

  lemma LeadsIff(s: string, w: string)
    requires PlainWord(w)
    ensures Leads(s, w) <==> FirstWord(s) == Word(w)
  {
    var n := IdentLen(s);
    if Leads(s, w) {
      forall i | 0 <= i < |w| ensures Ident(s[i]) { assert Upper(s[..|w|])[i] == w[i]; }
      assert n == |w|;
    }
    if FirstWord(s) == Word(w) {
      assert Upper(s[..n]) == w;
    }
  }

  predicate UpperWord(w: string) { w != "" && forall i :: 0 <= i < |w| ==> Ident(w[i]) && UpperChar(w[i]) == w[i] }

  /** The whole of the leading identifier is the word, in any case, up to the length of the buffer; but
      INSERT is also read off any identifier one character longer, and DEALLOCATE off the identifier one
      letter short of it. */
  lemma FirstWordIff(s: string, w: string)
    requires UpperWord(w)
    ensures FirstWord(s) == Word(w)
            <==> || (Leads(s, w) && |w| <= 32 && !(|w| == 7 && w[..6] == "INSERT") && w != "DEALLOCAT")
                 || (w == "INSERT" && Begins(s, "INSERT") && IdentLen(s) == 7)
                 || (w == "DEALLOCATE" && Leads(s, "DEALLOCAT"))
  {
    var n := IdentLen(s);
    LeadsWhole(s, w);
    if |s| >= 9 { LeadsWhole(s, "DEALLOCAT"); }
    if n == 7 { assert Upper(s[..7])[..6] == Upper(s[..6]); }
  }

  lemma LeadsWhole(s: string, w: string)
    requires UpperWord(w)
    ensures Leads(s, w) <==> Upper(s[..IdentLen(s)]) == w
  {
    var n := IdentLen(s);
    if Leads(s, w) {
      forall i | 0 <= i < |w| ensures Ident(s[i]) { assert Upper(s[..|w|])[i] == w[i]; }
      assert n == |w|;
    }
    if Upper(s[..n]) == w { assert |w| == n; }
  }

  // ---------------------------------------------------------------- the fast form

  /** A byte with the bit 0x20 set. */
  function WithBit(c: char): int
    requires c < 256 as char
  {
    if (c as int / 32) % 2 == 1 then c as int else c as int + 32
  }

  predicate EqFold(a: char, b: char)
    requires a < 256 as char && b < 256 as char
  {
    a == b || WithBit(a) == WithBit(b)
  }

  type Known = w: string | |w| <= 10 && forall i :: 0 <= i < |w| ==> 'A' <= w[i] <= 'Z' witness ""

  const WORDS_2: seq<Known> := ["DO"]
  const WORDS_3: seq<Known> := ["SET"]
  const WORDS_4: seq<Known> := ["SHOW", "CALL", "COPY", "LOCK"]
  const WORDS_5: seq<Known> := ["BEGIN", "FETCH", "MERGE", "CLOSE", "START", "TABLE", "RESET"]
  const WORDS_6: seq<Known> := ["SELECT", "UPDATE", "DELETE", "VALUES", "CREATE", "REVOKE", "COMMIT", "LISTEN"]
  const WORDS_7: seq<Known> := ["EXPLAIN", "DECLARE", "CLUSTER", "PREPARE", "REINDEX"] + WORDS_7_MORE
  const WORDS_7_MORE: seq<Known> := ["COMMENT", "REFRESH", "DISCARD", "ANALYZE", "RELEASE"]
  const WORDS_8: seq<Known> := ["ROLLBACK", "TRUNCATE", "UNLISTEN", "SECURITY"]
  const WORDS_9: seq<Known> := ["SAVEPOINT"]
  const WORDS_10: seq<Known> := ["CHECKPOINT"]

  function OfLength(i: nat): seq<Known> {
    match i
    case 2 => WORDS_2
    case 3 => WORDS_3
    case 4 => WORDS_4
    case 5 => WORDS_5
    case 6 => WORDS_6
    case 7 => WORDS_7
    case 8 => WORDS_8
    case 9 => WORDS_9
    case 10 => WORDS_10
    case _ => []
  }

  function LowerLetter(c: char): char
    requires 'A' <= c <= 'Z'
  {
    (c as int + 32) as char
  }

  lemma FoldIsUpper(a: char, w: char)
    requires Ident(a) && 'A' <= w <= 'Z'
    ensures EqFold(a, LowerLetter(w)) <==> UpperChar(a) == w
  {
  }

  /** The first n letters of the word, compared without regard to case. */
  method Matches(s: string, w: Known, n: nat) returns (ok: bool)
    requires n <= |w| && n <= |s| && forall i :: 0 <= i < n ==> Ident(s[i])
    ensures ok <==> Upper(s[..n]) == w[..n]
  {
    var i := 0;
    while i < n
      invariant 0 <= i <= n && Upper(s[..i]) == w[..i]
    {
      FoldIsUpper(s[i], w[i]);
      if !EqFold(s[i], LowerLetter(w[i])) {
        assert Upper(s[..n])[i] != w[..n][i];
        return false;
      }
      assert Upper(s[..i + 1]) == Upper(s[..i]) + [w[i]];
      i := i + 1;
    }
    return true;
  }

  /** The first word of that length that the identifier spells, or the table's length. */
  method Find(s: string, i: nat, words: seq<Known>) returns (j: nat)
    requires i <= |s| && forall m :: 0 <= m < i ==> Ident(s[m])
    ensures j <= |words| && (j < |words| ==> words[j] == Upper(s[..i]) && i <= 10)
  {
    j := 0;
    while j < |words|
      invariant j <= |words|
    {
      if |words[j]| == i {
        var same := Matches(s, words[j], i);
        if same {
          assert words[j][..i] == words[j];
          return;
        }
      }
      j := j + 1;
    }
  }

  method FirstKeyword(s: string) returns (k: Keyword)
    ensures k == FirstWord(s)
  {
    var i := 0;
    while i < |s| && Ident(s[i])
      invariant 0 <= i <= |s| && IdentLen(s) == i + IdentLen(s[i..])
    {
      assert s[i..][1..] == s[i + 1..];
      i := i + 1;
    }
    assert i == IdentLen(s);
    if i == 0 { return Word(""); }
    if i == 7 {
      var insert := Matches(s, "INSERT", 6);
      assert Upper(s[..7])[..6] == Upper(s[..6]);
      if insert { return Word("INSERT"); }
    }
    if i == 9 {
      var deallocat := Matches(s, "DEALLOCATE", 9);
      if deallocat { return Word("DEALLOCATE"); }
    }
    var words := OfLength(i);
    var hit := Find(s, i, words);
    if hit < |words| { return Word(words[hit]); }
    k := Fallback(s, i);
  }

  /** Upper-case into the buffer, dropping what does not fit, then slice it. */
  method Fallback(s: string, i: nat) returns (k: Keyword)
    requires i <= |s|
    ensures k == if i > BUFFER_SIZE then Panics else Word(Upper(s[..i]))
  {
    var buf := new char[BUFFER_SIZE](_ => ' ');
    var n := 0;
    while n < i
      invariant 0 <= n <= i
      invariant forall m :: 0 <= m < n && m < BUFFER_SIZE ==> buf[m] == UpperChar(s[m])
    {
      if n < BUFFER_SIZE { buf[n] := UpperChar(s[n]); }
      n := n + 1;
    }
    if n > BUFFER_SIZE { return Panics; }
    assert buf[..n] == Upper(s[..i]);
    k := Word(buf[..n]);
  }

  // ---------------------------------------------------------------- a word inside a text

  predicate At(h: string, n: string, j: nat) { j + |n| <= |h| && h[j..j + |n|] == n }

  /** An occurrence with no identifier character on either side. */
  predicate WholeAt(h: string, n: string, j: nat) {
    At(h, n, j) && (j == 0 || !Ident(h[j - 1])) && (j + |n| == |h| || !Ident(h[j + |n|]))
  }

  predicate HasWord(h: string, n: string) { exists j :: 0 <= j <= |h| && WholeAt(h, n, j) }

  /** strings.Index from position i on. */
  method Index(h: string, n: string, i: nat) returns (j: int)
    requires i <= |h|
    ensures j < 0 ==> forall k :: i <= k <= |h| ==> !At(h, n, k)
    ensures j >= 0 ==> i <= j && At(h, n, j) && forall k :: i <= k < j ==> !At(h, n, k)
  {
    j := i;
    while j + |n| <= |h|
      invariant i <= j && forall k :: i <= k < j ==> !At(h, n, k)
    {
      if h[j..j + |n|] == n { return; }
      j := j + 1;
    }
    j := -1;
  }

  /** Skipping past an occurrence that is only part of a word loses no whole one: an overlapping
      occurrence has a letter of the first on its left. */
  method ContainsKeyword(h: string, n: string) returns (r: bool)
    requires n != "" && forall i :: 0 <= i < |n| ==> Ident(n[i])
    ensures r <==> HasWord(h, n)
  {
    var i := 0;
    while i < |h|
      invariant 0 <= i <= |h| && forall k :: 0 <= k < i ==> !WholeAt(h, n, k)
    {
      var j := Index(h, n, i);
      if j < 0 { return false; }
      var left := j == 0 || !Ident(h[j - 1]);
      var right := j + |n| >= |h| || !Ident(h[j + |n|]);
      if left && right {
        assert WholeAt(h, n, j);
        return true;
      }
      forall k | j < k < j + |n| ensures !WholeAt(h, n, k) {
        assert h[k - 1] == h[j..j + |n|][k - 1 - j];
      }
      i := j + |n|;
    }
    assert !WholeAt(h, n, |h|);
    return false;
  }
}
