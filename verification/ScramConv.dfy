/** The two conversation objects, which keep their state between steps, proved against the
    functions of module Scram. */
module ScramConv {
  import opened Options
  import opened ScramText
  import opened Scram

  class ScramClientConv {
    const c: Crypto
    const username: string
    const password: string
    var clientNonce: string
    var clientFirstBare: string
    var serverFirstMsg: string
    var saltedPwd: Bytes
    var authMessage: string

    constructor (c: Crypto, username: string, password: string)
      ensures this.c == c && this.username == username && this.password == password
    {
      this.c, this.username, this.password := c, username, password;
      clientNonce, clientFirstBare, serverFirstMsg, saltedPwd, authMessage := "", "", "", [], "";
    }

    /** Initial, with the random bytes as a parameter. */
    method Initial(nonceRaw: Bytes) returns (msg: string)
      modifies this`clientNonce, this`clientFirstBare
      ensures clientNonce == c.enc(nonceRaw) && clientFirstBare == FirstBare(username, clientNonce)
      ensures msg == "n,," + clientFirstBare
    {
      clientNonce := c.enc(nonceRaw);
      clientFirstBare := ("n=" + username) + ("," + ("r=" + clientNonce));
      msg := "n,," + clientFirstBare;
    }

    method Step1(serverFirst: string) returns (final: Option<string>)
      requires Laws(c)
      modifies this`serverFirstMsg, this`saltedPwd, this`authMessage
      ensures serverFirstMsg == serverFirst
      ensures var r := ClientStep1(c, password, clientNonce, clientFirstBare, serverFirst);
              if r.Some? then final == Some(r.value.final) && saltedPwd == r.value.salted && authMessage == r.value.auth
              else final == None && saltedPwd == old(saltedPwd) && authMessage == old(authMessage)
    {
      serverFirstMsg := serverFirst;
      var parts := SplitScramAttrs(serverFirst);
      if parts.None? { return None; }
      var m := parts.value;
      if "r" !in m || "s" !in m || "i" !in m { return None; }
      var iter := Atoi(m["i"]);
      if iter.None? || iter.value < 1 { return None; }
      if !(clientNonce <= m["r"]) { return None; }
      var salt := c.dec(m["s"]);
      if salt.None? { return None; }
      var salted := c.pbkdf2(password, salt.value, iter.value);
      var clientKey := c.hmac(salted, "Client Key");
      var storedKey := c.hash(clientKey);
      var withoutProof := ("c=" + c.enc(GS2_HEADER)) + ("," + ("r=" + m["r"]));
      var auth := clientFirstBare + "," + serverFirstMsg + "," + withoutProof;
      var proof := XorLoop(clientKey, c.hmac(storedKey, auth));
      saltedPwd, authMessage := salted, auth;
      final := Some(withoutProof + (",p=" + c.enc(proof)));
    }

    method Step2(serverFinal: string) returns (ok: bool)
      ensures ok <==> ClientStep2(c, saltedPwd, authMessage, serverFinal)
    {
      var parts := SplitScramAttrs(serverFinal);
      if parts.None? { return false; }
      var m := parts.value;
      if "e" in m || "v" !in m { return false; }
      var got := c.dec(m["v"]);
      if got.None? { return false; }
      var serverKey := c.hmac(saltedPwd, "Server Key");
      ok := got.value == c.hmac(serverKey, authMessage);
    }
  }

  class ScramServerConv {
    const c: Crypto
    const verifier: Option<Verifier>
    var clientFirstBare: string
    var serverFirstMsg: string
    var serverNonce: string
    var clientNonce: string

    constructor (c: Crypto, verifier: Option<Verifier>)
      ensures this.c == c && this.verifier == verifier
    {
      this.c, this.verifier := c, verifier;
      clientFirstBare, serverFirstMsg, serverNonce, clientNonce := "", "", "", "";
    }

    function Conv(): ServerConv
      reads this
    {
      ServerConv(clientFirstBare, serverFirstMsg, serverNonce, clientNonce)
    }

    method Step1(clientFirst: string, nonceRaw: Bytes) returns (msg: Option<string>)
      requires verifier.Some? ==> verifier.value.iterations >= 0
      modifies this
      ensures verifier.None? ==> msg == None && Conv() == old(Conv())
      ensures verifier.Some? ==>
        var r := ServerStep1(c, verifier.value, clientFirst, nonceRaw);
        if r.Some? then msg == Some(serverFirstMsg) && Conv() == r.value else msg == None
    {
      if verifier.None? { return None; }
      var v := verifier.value;
      var bare := StripGs2(clientFirst);
      if bare.None? { return None; }
      clientFirstBare := bare.value;
      var parts := SplitScramAttrs(bare.value);
      if parts.None? || "r" !in parts.value { return None; }
      clientNonce := parts.value["r"];
      serverNonce := c.enc(nonceRaw);
      serverFirstMsg := ServerFirst(clientNonce + serverNonce, c.enc(v.salt), v.iterations);
      msg := Some(serverFirstMsg);
    }

    method Step2(clientFinal: string) returns (r: Verdict)
      ensures verifier.None? ==> r == Reject
      ensures verifier.Some? ==> r == ServerStep2(c, verifier.value, Conv(), clientFinal)
    {
      if verifier.None? { return Reject; }
      var v := verifier.value;
      var parts := SplitScramAttrs(clientFinal);
      if parts.None? { return Reject; }
      var m := parts.value;
      if "c" !in m || "r" !in m || "p" !in m { return Reject; }
      if m["c"] != "biws" { return Reject; }
      if m["r"] != clientNonce + serverNonce { return Reject; }
      var at := LastProof(clientFinal);
      if at < 0 { return Panic; }
      var auth := clientFirstBare + "," + serverFirstMsg + "," + clientFinal[..at];
      var clientSignature := c.hmac(v.storedKey, auth);
      var proof := c.dec(m["p"]);
      if proof.None? || |proof.value| != |clientSignature| { return Reject; }
      var clientKey := XorLoop(proof.value, clientSignature);
      if c.hash(clientKey) != v.storedKey { return Reject; }
      r := Accept("v=" + c.enc(c.hmac(v.serverKey, auth)), clientKey, auth);
    }
  }

  /** A whole login between the two objects. */
  method Login(c: Crypto, v: Verifier, user: string, password: string, salt: Bytes, iterations: int, cnRaw: Bytes,
               snRaw: Bytes) returns (ok: bool)
    requires Laws(c) && 1 <= iterations <= MAX_INT && MakeVerifier(c, password, salt, iterations) == Some(v)
    ensures ok <==> NameOk(user)
    ensures ',' !in user ==> ok
  {
    Completeness(c, v, user, password, salt, iterations, cnRaw, snRaw);
    var client := new ScramClientConv(c, user, password);
    var server := new ScramServerConv(c, Some(v));
    var first := client.Initial(cnRaw);
    var serverFirst := server.Step1(first, snRaw);
    if serverFirst.None? { return false; }
    var final := client.Step1(serverFirst.value);
    if final.None? { return false; }
    var verdict := server.Step2(final.value);
    if !verdict.Accept? { return false; }
    ok := client.Step2(verdict.final);
  }

  // ---------------------------------------------------------------- the laws are not empty

  function Wide(b: bv8): char { (256 + b as int) as char }

  function Narrow(c: char): bv8 { if 256 <= c as int < 512 then (c as int - 256) as bv8 else 0 }

  function Widened(b: Bytes): string { seq(|b|, i requires 0 <= i < |b| => Wide(b[i])) }

  function Narrowed(s: string): Bytes { seq(|s|, i requires 0 <= i < |s| => Narrow(s[i])) }

  function ToyEnc(b: Bytes): string {
    if b == GS2_HEADER then "biws" else ['x'] + Widened(b)
  }

  function ToyDec(s: string): Option<Bytes> {
    if s == "biws" then Some(GS2_HEADER) else if s == [] then None else Some(Narrowed(s[1..]))
  }

  lemma WideBack(b: bv8)
    ensures Narrow(Wide(b)) == b && Wide(b) != ',' && Wide(b) != '$' && Wide(b) != ':'
  {
  }

  lemma WidenedBack(b: Bytes)
    ensures Narrowed(Widened(b)) == b && ',' !in Widened(b) && '$' !in Widened(b) && ':' !in Widened(b)
  {
    forall i | 0 <= i < |b|
      ensures Narrowed(Widened(b))[i] == b[i] && Widened(b)[i] != ',' && Widened(b)[i] != '$' && Widened(b)[i] != ':'
    {
      WideBack(b[i]);
    }
  }

  lemma ToyRoundTrip(b: Bytes)
    ensures ToyDec(ToyEnc(b)) == Some(b) && ',' !in ToyEnc(b) && '$' !in ToyEnc(b) && ':' !in ToyEnc(b)
  {
    if b != GS2_HEADER {
      WidenedBack(b);
      var s := ['x'] + Widened(b);
      assert s[0] != "biws"[0] && s[1..] == Widened(b);
    }
  }

  /** Some primitives obey the laws, so the theorems above speak about something. */
  lemma LawsHoldSomewhere() returns (c: Crypto)
    ensures Laws(c)
  {
    c := Crypto((k: Bytes, m: string) => seq(32, _ => 0), (b: Bytes) => b, (p: string, s: Bytes, n: int) => s, ToyEnc,
                ToyDec);
    forall b: Bytes ensures c.dec(c.enc(b)) == Some(b) && ',' !in c.enc(b) && '$' !in c.enc(b) && ':' !in c.enc(b) {
      ToyRoundTrip(b);
    }
  }
}
