/** SCRAM-SHA-256 (RFC 5802 sections 3, 5 and 7, RFC 7677): both ends of the conversation as
    functions on values, and completeness: run against each other they always succeed. */
module Scram {
  import opened Options
  import opened ScramText

  type Bytes = seq<bv8>

  /** The primitives, uninterpreted. */
  datatype Crypto = Crypto(
    hmac: (Bytes, string) -> Bytes,
    hash: Bytes -> Bytes,
    pbkdf2: (string, Bytes, int) -> Bytes,
    enc: Bytes -> string,              // base64
    dec: string -> Option<Bytes>)

  /** "n,," as bytes: the GS2 header of a client without channel binding. */
  const GS2_HEADER: Bytes := [0x6e, 0x2c, 0x2c]

  /** The laws used: base64 decodes what it encodes and uses none of the separators, the GS2
      header encodes to the one channel-binding value the server accepts, and an HMAC-SHA-256
      is 32 bytes long. */
  ghost predicate Laws(c: Crypto) {
    && (forall b: Bytes :: c.dec(c.enc(b)) == Some(b))
    && (forall b: Bytes :: ',' !in c.enc(b) && '$' !in c.enc(b) && ':' !in c.enc(b))
    && c.enc(GS2_HEADER) == "biws"
    && (forall k: Bytes, m: string :: |c.hmac(k, m)| == 32)
  }

  function Xor(a: Bytes, b: Bytes): (r: Bytes)
    requires |a| == |b|
    ensures |r| == |a| && forall i :: 0 <= i < |a| ==> r[i] == a[i] ^ b[i]
  {
    seq(|a|, i requires 0 <= i < |a| => a[i] ^ b[i])
  }

  lemma XorBit(x: bv8, y: bv8)
    ensures (x ^ y) ^ y == x
  {
  }

  /** A signature XORed in and out again. */
  lemma XorTwice(a: Bytes, b: Bytes)
    requires |a| == |b|
    ensures Xor(Xor(a, b), b) == a
  {
    forall i | 0 <= i < |a| ensures Xor(Xor(a, b), b)[i] == a[i] { XorBit(a[i], b[i]); }
  }

  method XorLoop(a: Bytes, b: Bytes) returns (r: Bytes)
    requires |a| == |b|
    ensures r == Xor(a, b)
  {
    r := [];
    var i := 0;
    while i < |a|
      invariant 0 <= i <= |a| && |r| == i
      invariant forall j :: 0 <= j < i ==> r[j] == a[j] ^ b[j]
    {
      r := r + [a[i] ^ b[i]];
      i := i + 1;
    }
  }

  // ---------------------------------------------------------------- stored verifiers

  datatype Verifier = Verifier(iterations: int, salt: Bytes, storedKey: Bytes, serverKey: Bytes)

  function ClientKey(c: Crypto, salted: Bytes): Bytes { c.hmac(salted, "Client Key") }
  function ServerKey(c: Crypto, salted: Bytes): Bytes { c.hmac(salted, "Server Key") }

  function MakeVerifier(c: Crypto, password: string, salt: Bytes, iterations: int): (v: Option<Verifier>) {
    if iterations < 1 then None else
      var salted := c.pbkdf2(password, salt, iterations);
      Some(Verifier(iterations, salt, c.hash(ClientKey(c, salted)), ServerKey(c, salted)))
  }

  const VERIFIER_PREFIX := "SCRAM-SHA-256$"

  function PrintVerifier(c: Crypto, v: Verifier): string
    requires v.iterations >= 0
  {
    VERIFIER_PREFIX + ((Itoa(v.iterations) + ":" + c.enc(v.salt)) + "$"
                      + (c.enc(v.storedKey) + ":" + c.enc(v.serverKey)))
  }

  /** strings.Cut: the parts around the first `ch`. */
  function CutAt(s: string, ch: char): (r: Option<(string, string)>) {
    var i := IndexOf(s, ch);
    if i == |s| then None else Some((s[..i], s[i + 1..]))
  }

  function ParseVerifier(c: Crypto, s: string): (r: Option<Verifier>) {
    if !(VERIFIER_PREFIX <= s) then None else
    match CutAt(s[|VERIFIER_PREFIX|..], '$')
    case None => None
    case Some((left, right)) =>
      match CutAt(left, ':')
      case None => None
      case Some((iterStr, saltB64)) =>
        match (Atoi(iterStr), CutAt(right, ':'))
        case (Some(iter), Some((storedB64, serverB64))) =>
          if iter < 1 then None else
          (match (c.dec(saltB64), c.dec(storedB64), c.dec(serverB64))
           case (Some(salt), Some(stored), Some(server)) => Some(Verifier(iter, salt, stored, server))
           case _ => None)
        case _ => None
  }

  lemma CutAtFirst(a: string, ch: char, b: string)
    requires ch !in a
    ensures CutAt(a + [ch] + b, ch) == Some((a, b))
  {
    IndexAfter(a, ch, b);
    var s := a + [ch] + b;
    assert s[..|a|] == a && s[|a| + 1..] == b;
  }

  lemma OneText(p: string, it: string, salt: string, stored: string, server: string)
    ensures p + ((it + ":" + salt) + "$" + (stored + ":" + server))
            == p + it + ":" + salt + "$" + stored + ":" + server
  {
    var left, right := it + ":" + salt, stored + ":" + server;
    assert p + (left + "$" + right) == p + left + "$" + right;
    assert p + left == p + it + ":" + salt;
    assert p + left + "$" + right == p + left + "$" + stored + ":" + server;
  }

  /** A verifier is stored in PostgreSQL's form, and parsing that gives the verifier. */
  lemma VerifierRoundTrip(c: Crypto, v: Verifier)
    requires Laws(c) && 1 <= v.iterations <= MAX_INT
    ensures PrintVerifier(c, v)
            == "SCRAM-SHA-256$" + Itoa(v.iterations) + ":" + c.enc(v.salt) + "$" + c.enc(v.storedKey) + ":"
               + c.enc(v.serverKey)
    ensures ParseVerifier(c, PrintVerifier(c, v)) == Some(v)
  {
    var it := Itoa(v.iterations);
    OneText("SCRAM-SHA-256$", it, c.enc(v.salt), c.enc(v.storedKey), c.enc(v.serverKey));
    ParsesPrinted(c, v);
  }

  lemma ParsesPrinted(c: Crypto, v: Verifier)
    requires Laws(c) && 1 <= v.iterations <= MAX_INT
    ensures ParseVerifier(c, PrintVerifier(c, v)) == Some(v)
  {
    var it := Itoa(v.iterations);
    DigitsOnly(it, ':');
    DigitsOnly(it, '$');
    AtoiItoa(v.iterations);
    var left, right := it + ":" + c.enc(v.salt), c.enc(v.storedKey) + ":" + c.enc(v.serverKey);
    var s := PrintVerifier(c, v);
    assert s[|VERIFIER_PREFIX|..] == left + "$" + right;
    CutAtFirst(left, '$', right);
    CutAtFirst(it, ':', c.enc(v.salt));
    CutAtFirst(c.enc(v.storedKey), ':', c.enc(v.serverKey));
  }

  /** Only a text of that form parses, and the parts decode to what was read. */
  lemma ParsedShape(c: Crypto, s: string) returns (it: string, salt: string, stored: string, server: string)
    requires ParseVerifier(c, s).Some?
    ensures s == VERIFIER_PREFIX + ((it + ":" + salt) + "$" + (stored + ":" + server))
    ensures var v := ParseVerifier(c, s).value;
            && Atoi(it) == Some(v.iterations) && v.iterations >= 1
            && c.dec(salt) == Some(v.salt) && c.dec(stored) == Some(v.storedKey) && c.dec(server) == Some(v.serverKey)
  {
    var body := s[|VERIFIER_PREFIX|..];
    var (left, right) := CutAt(body, '$').value;
    var cutLeft, cutRight := CutAt(left, ':').value, CutAt(right, ':').value;
    it, salt, stored, server := cutLeft.0, cutLeft.1, cutRight.0, cutRight.1;
    CutJoins(body, '$');
    CutJoins(left, ':');
    CutJoins(right, ':');
    assert s == VERIFIER_PREFIX + body;
  }

  lemma CutJoins(s: string, ch: char)
    requires CutAt(s, ch).Some?
    ensures s == CutAt(s, ch).value.0 + [ch] + CutAt(s, ch).value.1
  {
  }

  // ---------------------------------------------------------------- the messages

  function FirstBare(user: string, nonce: string): string { ("n=" + user) + ("," + ("r=" + nonce)) }

  function ServerFirst(combined: string, saltB64: string, iterations: nat): string {
    ("r=" + combined) + ("," + (("s=" + saltB64) + ("," + ("i=" + Itoa(iterations)))))
  }

  function FinalWithoutProof(cbind: string, combined: string): string { ("c=" + cbind) + ("," + ("r=" + combined)) }

  function AuthMessage(bare: string, serverFirst: string, withoutProof: string): string {
    bare + "," + serverFirst + "," + withoutProof
  }

  // ---------------------------------------------------------------- the server

  /** stripGS2Header: everything after the second comma. */
  function StripGs2(m: string): (r: Option<string>) {
    if |m| < 3 then None
    else if m[0] != 'n' && m[0] != 'y' && m[0] != 'p' then None
    else if m[1] != ',' then None
    else var i := IndexOf(m[2..], ',');
      if i < |m| - 2 then Some(m[2 + i + 1..]) else None
  }

  datatype ServerConv = ServerConv(firstBare: string, serverFirst: string, serverNonce: string, clientNonce: string)

  function ServerStep1(c: Crypto, v: Verifier, clientFirst: string, nonceRaw: Bytes): (r: Option<ServerConv>)
    requires v.iterations >= 0
  {
    match StripGs2(clientFirst)
    case None => None
    case Some(bare) =>
      match Attrs(bare)
      case None => None
      case Some(m) =>
        if "r" !in m then None else
          var sn := c.enc(nonceRaw);
          Some(ServerConv(bare, ServerFirst(m["r"] + sn, c.enc(v.salt), v.iterations), sn, m["r"]))
  }

  datatype Verdict = Accept(final: string, clientKey: Bytes, auth: string) | Reject | Panic

  /** Step2: checks the proof and answers with the server signature.  A final message whose only
      "p" attribute is not preceded by a comma makes the slice bound negative. */
  function ServerStep2(c: Crypto, v: Verifier, conv: ServerConv, clientFinal: string): (r: Verdict) {
    match Attrs(clientFinal)
    case None => Reject
    case Some(m) =>
      if "c" !in m || "r" !in m || "p" !in m then Reject
      else if m["c"] != "biws" || m["r"] != conv.clientNonce + conv.serverNonce then Reject
      else if LastProof(clientFinal) < 0 then Panic
      else
        var auth := AuthMessage(conv.firstBare, conv.serverFirst, clientFinal[..LastProof(clientFinal)]);
        var sig := c.hmac(v.storedKey, auth);
        match c.dec(m["p"])
        case None => Reject
        case Some(proof) =>
          if |proof| != |sig| then Reject
          else if c.hash(Xor(proof, sig)) != v.storedKey then Reject
          else Accept("v=" + c.enc(c.hmac(v.serverKey, auth)), Xor(proof, sig), auth)
  }

  // ---------------------------------------------------------------- the client

  datatype ClientConv = ClientConv(salted: Bytes, auth: string, final: string)

  function ClientStep1(c: Crypto, password: string, nonce: string, firstBare: string,
                       serverFirst: string): (r: Option<ClientConv>)
    requires forall k: Bytes, m: string :: |c.hmac(k, m)| == 32
  {
    match Attrs(serverFirst)
    case None => None
    case Some(m) =>
      if "r" !in m || "s" !in m || "i" !in m then None else
      match (Atoi(m["i"]), c.dec(m["s"]))
      case (Some(iter), Some(salt)) =>
        if iter < 1 || !(nonce <= m["r"]) then None else
          var salted := c.pbkdf2(password, salt, iter);
          var key := ClientKey(c, salted);
          var withoutProof := FinalWithoutProof(c.enc(GS2_HEADER), m["r"]);
          var auth := AuthMessage(firstBare, serverFirst, withoutProof);
          var proof := Xor(key, c.hmac(c.hash(key), auth));
          Some(ClientConv(salted, auth, withoutProof + (",p=" + c.enc(proof))))
      case _ => None
  }

  /** Step2: the server is authentic if it signed the same conversation. */
  predicate ClientStep2(c: Crypto, salted: Bytes, auth: string, serverFinal: string) {
    match Attrs(serverFinal)
    case None => false
    case Some(m) =>
      "e" !in m && "v" in m && c.dec(m["v"]) == Some(c.hmac(ServerKey(c, salted), auth))
  }

  // ---------------------------------------------------------------- completeness

  /** Every comma-separated piece of the client's username attribute is itself a well-formed
      attribute; a name without commas always is. */
  predicate NameOk(user: string) { forall i :: 0 <= i < |Split("n=" + user)| ==> AttrOk(Split("n=" + user)[i]) }

  lemma CommaFreeNameOk(user: string)
    requires ',' !in user
    ensures NameOk(user)
  {
    SplitWhole("n=" + user);
    AttrKeyValue('n', user);
  }

  lemma AttrsOne(k: char, v: string)
    requires k != '=' && k != ',' && ',' !in v
    ensures Attrs([k, '='] + v) == Some(map[[k] := v])
  {
    var p := [k, '='] + v;
    SplitWhole(p);
    AttrKeyValue(k, v);
    assert [p][..0] == [];
    assert Collect([p]) == map[[k] := v];
  }

  /** Appending one well-formed attribute to a message. */
  lemma AttrsSnoc(a: string, k: char, v: string)
    requires k != '=' && k != ',' && ',' !in v
    ensures Attrs(a).None? ==> Attrs(a + ("," + ([k, '='] + v))).None?
    ensures Attrs(a).Some? ==> Attrs(a + ("," + ([k, '='] + v))) == Some(Attrs(a).value[[k] := v])
  {
    var p := [k, '='] + v;
    SplitComma(a, p);
    SplitWhole(p);
    AttrKeyValue(k, v);
    CollectSnoc(Split(a), p);
  }

  lemma CollectSnoc(parts: seq<string>, p: string)
    requires AttrOk(p)
    ensures (forall i :: 0 <= i < |parts + [p]| ==> AttrOk((parts + [p])[i]))
            <==> forall i :: 0 <= i < |parts| ==> AttrOk(parts[i])
    ensures (forall i :: 0 <= i < |parts| ==> AttrOk(parts[i]))
            ==> Collect(parts + [p]) == Collect(parts)[Key(p) := Value(p)]
  {
    var all := parts + [p];
    assert all[..|parts|] == parts;
    assert forall i :: 0 <= i < |parts| ==> all[i] == parts[i];
  }

  lemma AttrsClientFirst(user: string, nonce: string)
    requires ',' !in nonce
    ensures NameOk(user) <==> Attrs(FirstBare(user, nonce)).Some?
    ensures NameOk(user)
            ==> "r" in Attrs(FirstBare(user, nonce)).value && Attrs(FirstBare(user, nonce)).value["r"] == nonce
  {
    AttrsSnoc("n=" + user, 'r', nonce);
  }

  lemma AttrsServerFirst(combined: string, salt: string, iterations: nat)
    requires ',' !in combined && ',' !in salt
    ensures Attrs(ServerFirst(combined, salt, iterations))
            == Some(map["r" := combined, "s" := salt, "i" := Itoa(iterations)])
  {
    DigitsOnly(Itoa(iterations), ',');
    var a, b, i := "r=" + combined, "s=" + salt, "i=" + Itoa(iterations);
    AttrsOne('r', combined);
    AttrsSnoc(a, 's', salt);
    AttrsSnoc(a + ("," + b), 'i', Itoa(iterations));
    assert (a + ("," + b)) + ("," + i) == a + ("," + (b + ("," + i)));
  }

  lemma AttrsClientFinal(cbind: string, combined: string, proof: string)
    requires ',' !in cbind && ',' !in combined && ',' !in proof
    ensures Attrs(FinalWithoutProof(cbind, combined) + (",p=" + proof))
            == Some(map["c" := cbind, "r" := combined, "p" := proof])
  {
    AttrsOne('c', cbind);
    AttrsSnoc("c=" + cbind, 'r', combined);
    AttrsSnoc(FinalWithoutProof(cbind, combined), 'p', proof);
    assert ",p=" + proof == "," + ("p=" + proof);
  }

  /** What both ends compute for a given conversation, written down from RFC 5802 section 3. */
  datatype Transcript = Transcript(bare: string, serverFirst: string, withoutProof: string, auth: string,
                                   salted: Bytes, clientKey: Bytes, proof: Bytes, serverFinal: string)

  function Rfc5802(c: Crypto, user: string, password: string, salt: Bytes, iterations: nat, cn: string,
                   sn: string): Transcript
    requires forall k: Bytes, m: string :: |c.hmac(k, m)| == 32
  {
    var salted := c.pbkdf2(password, salt, iterations);
    var key := c.hmac(salted, "Client Key");
    var bare := "n=" + user + ",r=" + cn;
    var first := "r=" + cn + sn + ",s=" + c.enc(salt) + ",i=" + Itoa(iterations);
    var final := "c=biws,r=" + cn + sn;
    var auth := bare + "," + first + "," + final;
    Transcript(bare, first, final, auth, salted, key, Xor(key, c.hmac(c.hash(key), auth)),
               "v=" + c.enc(c.hmac(c.hmac(salted, "Server Key"), auth)))
  }

  lemma MessagesAsWritten(c: Crypto, user: string, cn: string, sn: string, salt: Bytes, iterations: nat)
    requires Laws(c)
    ensures FirstBare(user, cn) == "n=" + user + ",r=" + cn
    ensures ServerFirst(cn + sn, c.enc(salt), iterations)
            == "r=" + cn + sn + ",s=" + c.enc(salt) + ",i=" + Itoa(iterations)
    ensures FinalWithoutProof(c.enc(GS2_HEADER), cn + sn) == "c=biws,r=" + cn + sn
  {
    assert ("n=" + user) + ("," + ("r=" + cn)) == "n=" + user + ",r=" + cn;
    var a, b, i := "r=" + (cn + sn), "s=" + c.enc(salt), "i=" + Itoa(iterations);
    assert a == "r=" + cn + sn;
    assert a + ("," + (b + ("," + i))) == a + ",s=" + c.enc(salt) + ",i=" + Itoa(iterations);
    assert ("c=" + "biws") + ("," + ("r=" + (cn + sn))) == "c=biws,r=" + cn + sn;
  }

  lemma StripClientFirst(bare: string)
    ensures StripGs2("n,," + bare) == Some(bare)
  {
    var m := "n,," + bare;
    assert m[2..] == [] + [','] + bare;
    IndexAfter([], ',', bare);
    assert m[3..] == bare;
  }

  /** The server's half of the opening succeeds exactly when the username attribute parses. */
  lemma ServerOpens(c: Crypto, v: Verifier, user: string, cnRaw: Bytes, snRaw: Bytes)
    requires Laws(c) && v.iterations >= 0
    ensures var cn, sn := c.enc(cnRaw), c.enc(snRaw);
            var r := ServerStep1(c, v, "n,," + FirstBare(user, cn), snRaw);
            && (r.Some? <==> NameOk(user))
            && (r.Some?
                ==> r.value ==
                    ServerConv(FirstBare(user, cn), ServerFirst(cn + sn, c.enc(v.salt), v.iterations), sn, cn))
  {
    var cn := c.enc(cnRaw);
    StripClientFirst(FirstBare(user, cn));
    AttrsClientFirst(user, cn);
  }

  lemma ClientAnswers(c: Crypto, user: string, password: string, salt: Bytes, iterations: nat, cn: string, sn: string)
    requires Laws(c) && 1 <= iterations <= MAX_INT && ',' !in cn && ',' !in sn
    ensures var t := Rfc5802(c, user, password, salt, iterations, cn, sn);
            ClientStep1(c, password, cn, FirstBare(user, cn), ServerFirst(cn + sn, c.enc(salt), iterations))
            == Some(ClientConv(t.salted, t.auth, t.withoutProof + (",p=" + c.enc(t.proof))))
  {
    MessagesAsWritten(c, user, cn, sn, salt, iterations);
    AttrsServerFirst(cn + sn, c.enc(salt), iterations);
    AtoiItoa(iterations);
  }

  lemma ServerAccepts(c: Crypto, v: Verifier, user: string, password: string, salt: Bytes, iterations: nat, cn: string,
                      sn: string)
    requires Laws(c) && 1 <= iterations <= MAX_INT && ',' !in cn && ',' !in sn
    requires MakeVerifier(c, password, salt, iterations) == Some(v)
    ensures var t := Rfc5802(c, user, password, salt, iterations, cn, sn);
            ServerStep2(c, v, ServerConv(t.bare, t.serverFirst, sn, cn), t.withoutProof + (",p=" + c.enc(t.proof)))
            == Accept(t.serverFinal, t.clientKey, t.auth)
  {
    var t := Rfc5802(c, user, password, salt, iterations, cn, sn);
    MessagesAsWritten(c, user, cn, sn, salt, iterations);
    AttrsClientFinal("biws", cn + sn, c.enc(t.proof));
    var final := t.withoutProof + (",p=" + c.enc(t.proof));
    LastProofAt(t.withoutProof, c.enc(t.proof));
    assert final == t.withoutProof + ",p=" + c.enc(t.proof);
    assert final[..|t.withoutProof|] == t.withoutProof;
    XorTwice(t.clientKey, c.hmac(c.hash(t.clientKey), t.auth));
  }

  lemma ClientAccepts(c: Crypto, user: string, password: string, salt: Bytes, iterations: nat, cn: string, sn: string)
    requires Laws(c)
    ensures var t := Rfc5802(c, user, password, salt, iterations, cn, sn);
            ClientStep2(c, t.salted, t.auth, t.serverFinal)
  {
    var t := Rfc5802(c, user, password, salt, iterations, cn, sn);
    AttrsOne('v', c.enc(c.hmac(ServerKey(c, t.salted), t.auth)));
  }

  /** Completeness.  For every password, salt, iteration count and pair of nonces, the two
      state machines run against each other succeed exactly when the username attribute
      parses, which every comma-free name does.  Both compute the AuthMessage of the standard,
      byte for byte, and the server recovers exactly the client's ClientKey. */
  lemma Completeness(c: Crypto, v: Verifier, user: string, password: string, salt: Bytes, iterations: int,
                     cnRaw: Bytes, snRaw: Bytes)
    requires Laws(c) && 1 <= iterations <= MAX_INT
    requires MakeVerifier(c, password, salt, iterations) == Some(v)
    ensures var cn, sn := c.enc(cnRaw), c.enc(snRaw);
            var t := Rfc5802(c, user, password, salt, iterations, cn, sn);
            var s1 := ServerStep1(c, v, "n,," + FirstBare(user, cn), snRaw);
            && (',' !in user ==> NameOk(user))
            && (s1.Some? <==> NameOk(user))
            && (s1.Some? ==>
                  && s1.value == ServerConv(t.bare, t.serverFirst, sn, cn)
                  && var c1 := ClientStep1(c, password, cn, FirstBare(user, cn), s1.value.serverFirst);
                     && c1.Some? && c1.value.auth == t.auth
                     && var s2 := ServerStep2(c, v, s1.value, c1.value.final);
                        && s2 == Accept(t.serverFinal, t.clientKey, c1.value.auth)
                        && ClientStep2(c, c1.value.salted, c1.value.auth, s2.final))
  {
    var cn, sn := c.enc(cnRaw), c.enc(snRaw);
    if ',' !in user { CommaFreeNameOk(user); }
    ServerOpens(c, v, user, cnRaw, snRaw);
    MessagesAsWritten(c, user, cn, sn, salt, iterations);
    ClientAnswers(c, user, password, salt, iterations, cn, sn);
    ServerAccepts(c, v, user, password, salt, iterations, cn, sn);
    ClientAccepts(c, user, password, salt, iterations, cn, sn);
  }

  // ---------------------------------------------------------------- soundness

  /** The message carries `key` XORed with the signature of this conversation, and the stored key is
      the hash of `key`. */
  predicate Proves(c: Crypto, v: Verifier, conv: ServerConv, clientFinal: string, key: Bytes) {
    && Attrs(clientFinal).Some? && LastProof(clientFinal) >= 0
    && var m := Attrs(clientFinal).value;
       && "c" in m && "r" in m && "p" in m && m["c"] == "biws" && m["r"] == conv.clientNonce + conv.serverNonce
       && var sig := c.hmac(v.storedKey,
                            AuthMessage(conv.firstBare, conv.serverFirst, clientFinal[..LastProof(clientFinal)]));
          |key| == |sig| && c.dec(m["p"]) == Some(Xor(key, sig)) && c.hash(key) == v.storedKey
  }

  /** The server accepts with a key if and only if the message proves possession of that key for
      this conversation, and then it signs this conversation. */
  lemma AcceptsIff(c: Crypto, v: Verifier, conv: ServerConv, clientFinal: string, key: Bytes)
    ensures var r := ServerStep2(c, v, conv, clientFinal);
            && (r.Accept? && r.clientKey == key <==> Proves(c, v, conv, clientFinal, key))
            && (r.Accept? ==> r.final == "v=" + c.enc(c.hmac(v.serverKey, r.auth)))
  {
    if Attrs(clientFinal).Some? && LastProof(clientFinal) >= 0 {
      var m := Attrs(clientFinal).value;
      var sig := c.hmac(v.storedKey,
                        AuthMessage(conv.firstBare, conv.serverFirst, clientFinal[..LastProof(clientFinal)]));
      if |key| == |sig| { XorTwice(key, sig); }
      if "p" in m && c.dec(m["p"]).Some? && |c.dec(m["p"]).value| == |sig| { XorTwice(c.dec(m["p"]).value, sig); }
    }
  }

  /** The server panics if and only if the message opens with its proof, repeats it nowhere after a
      comma, and is otherwise one for this conversation. */
  lemma PanicsIff(c: Crypto, v: Verifier, conv: ServerConv, clientFinal: string)
    ensures ServerStep2(c, v, conv, clientFinal) == Panic
            <==> && "p=" <= clientFinal && (forall j :: !ProofAt(clientFinal, j)) && Attrs(clientFinal).Some?
                 && var m := Attrs(clientFinal).value;
                    "c" in m && "r" in m && m["c"] == "biws" && m["r"] == conv.clientNonce + conv.serverNonce
  {
    if Attrs(clientFinal).Some? {
      if "p=" <= clientFinal { OpeningProof(clientFinal); }
      if "p" in Attrs(clientFinal).value { ProofAttrPlace(clientFinal); }
    }
  }

  /** The attributes of a final message in another order, the proof first. */
  function ProofFirst(proof: string, cbind: string, combined: string): string {
    ("p=" + proof) + ("," + ("c=" + cbind)) + ("," + ("r=" + combined))
  }

  /** Such messages exist in every conversation: the attributes in this order, whatever the proof. */
  lemma ProofFirstPanics(c: Crypto, v: Verifier, conv: ServerConv, proof: string)
    requires ',' !in conv.clientNonce + conv.serverNonce && ',' !in proof
    ensures ServerStep2(c, v, conv, ProofFirst(proof, "biws", conv.clientNonce + conv.serverNonce)) == Panic
  {
    var nonce := conv.clientNonce + conv.serverNonce;
    ProofFirstAttrs(proof, "biws", nonce);
    NoLaterProof(proof, "biws", nonce);
    PanicsIff(c, v, conv, ProofFirst(proof, "biws", nonce));
  }

  lemma ProofFirstAttrs(proof: string, cbind: string, combined: string)
    requires ',' !in cbind && ',' !in combined && ',' !in proof
    ensures Attrs(ProofFirst(proof, cbind, combined)) == Some(map["p" := proof, "c" := cbind, "r" := combined])
  {
    AttrsOne('p', proof);
    AttrsSnoc("p=" + proof, 'c', cbind);
    AttrsSnoc(("p=" + proof) + ("," + ("c=" + cbind)), 'r', combined);
  }

  lemma NoLaterProof(proof: string, cbind: string, combined: string)
    requires ',' !in cbind && ',' !in combined && ',' !in proof
    ensures forall j :: !ProofAt(ProofFirst(proof, cbind, combined), j)
  {
    var s := ProofFirst(proof, cbind, combined);
    var n, m := |proof| + 2, |proof| + |cbind| + 5;
    forall j ensures !ProofAt(s, j) {
      if 2 <= j < n { assert s[j] == proof[j - 2]; }
      if n + 3 <= j < m { assert s[j] == cbind[j - n - 3]; }
      if m + 3 <= j < |s| { assert s[j] == combined[j - m - 3]; }
    }
  }

  /** The client accepts a signature if and only if it is the one of its own conversation. */
  lemma ClientAcceptsIff(c: Crypto, salted: Bytes, auth: string, sig: Bytes)
    requires Laws(c)
    ensures ClientStep2(c, salted, auth, "v=" + c.enc(sig)) <==> sig == c.hmac(ServerKey(c, salted), auth)
  {
    AttrsOne('v', c.enc(sig));
  }

  /** The client answers a server if and only if the server's nonce extends its own. */
  lemma AnswersIff(c: Crypto, password: string, nonce: string, bare: string, combined: string, salt: Bytes,
                   iterations: int)
    requires Laws(c) && 1 <= iterations <= MAX_INT && ',' !in combined
    ensures ClientStep1(c, password, nonce, bare, ServerFirst(combined, c.enc(salt), iterations)).Some?
            <==> nonce <= combined
  {
    AttrsServerFirst(combined, c.enc(salt), iterations);
    AtoiItoa(iterations);
  }
}
