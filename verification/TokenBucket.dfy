/** The token bucket behind the per-tenant rate cap, over real numbers and an explicit clock. */
module TokenBucket {

  datatype Bucket = Bucket(tokens: real, last: real)

  /** A request for `n` tokens at time `at`. */
  datatype Request = Request(at: real, n: real)

  /** The tokens accrued since time zero; the proofs only need that it never falls. */
  type Credit = real -> real

  function PerSecond(rate: real): Credit { t => t * rate }

  ghost predicate Monotone(credit: Credit) { forall a, b :: a <= b ==> credit(a) <= credit(b) }

  function Refilled(capacity: real, credit: Credit, b: Bucket, now: real): real {
    var t := b.tokens + credit(now) - credit(b.last);
    if t > capacity then capacity else t
  }

  predicate Grants(capacity: real, credit: Credit, b: Bucket, q: Request) { Refilled(capacity, credit, b, q.at) >= q.n }

  function Taken(capacity: real, credit: Credit, b: Bucket, q: Request): Bucket {
    Bucket(Refilled(capacity, credit, b, q.at) - (if Grants(capacity, credit, b, q) then q.n else 0.0), q.at)
  }

  class TokenBucket {
    const capacity: real
    const rate: real
    var tokens: real
    var last: real

    function Value(): Bucket
      reads this
    {
      Bucket(tokens, last)
    }

    constructor (capacity: real, rate: real, now: real)
      ensures this.capacity == capacity && this.rate == rate && Value() == Bucket(capacity, now)
    {
      this.capacity, this.rate, tokens, last := capacity, rate, capacity, now;
    }

    method TakeN(now: real, n: real) returns (ok: bool)
      modifies this
      ensures Value() == Taken(capacity, PerSecond(rate), old(Value()), Request(now, n))
      ensures ok <==> Grants(capacity, PerSecond(rate), old(Value()), Request(now, n))
      ensures !ok ==> forall m :: Grants(capacity, PerSecond(rate), Value(), Request(now, m))
                                  == Grants(capacity, PerSecond(rate), old(Value()), Request(now, m))
    {
      var elapsed := now - last;
      last := now;
      tokens := tokens + elapsed * rate;
      if tokens > capacity {
        tokens := capacity;
      }
      if tokens < n {
        return false;
      }
      tokens := tokens - n;
      return true;
    }

    /** What a TakeN at this moment would find: it grants exactly the requests up to this balance. */
    method Available(now: real) returns (avail: real)
      ensures forall n :: avail >= n <==> Grants(capacity, PerSecond(rate), Value(), Request(now, n))
    {
      var elapsed := now - last;
      avail := tokens + elapsed * rate;
      if avail > capacity {
        avail := capacity;
      }
    }
  }

  // ---------------------------------------------------------------- runs

  /** A clock that does not go back, from time `t` on, and requests that give nothing back. */
  predicate Ordered(t: real, qs: seq<Request>)
    decreases |qs|
  {
    qs == [] || (t <= qs[0].at && qs[0].n >= 0.0 && Ordered(qs[0].at, qs[1..]))
  }

  function Run(capacity: real, credit: Credit, b: Bucket, qs: seq<Request>): Bucket
    decreases |qs|
  {
    if qs == [] then b else Run(capacity, credit, Taken(capacity, credit, b, qs[0]), qs[1..])
  }

  /** The tokens handed out over a run. */
  function Granted(capacity: real, credit: Credit, b: Bucket, qs: seq<Request>): real
    decreases |qs|
  {
    if qs == [] then 0.0
    else
      (if Grants(capacity, credit, b, qs[0]) then qs[0].n else 0.0) +
      Granted(capacity, credit, Taken(capacity, credit, b, qs[0]), qs[1..])
  }

  predicate Sane(capacity: real, b: Bucket) { 0.0 <= b.tokens <= capacity }

  function End(t: real, qs: seq<Request>): real { if qs == [] then t else qs[|qs| - 1].at }

  lemma RefillBounds(capacity: real, credit: Credit, b: Bucket, now: real)
    requires Sane(capacity, b) && Monotone(credit) && b.last <= now
    ensures b.tokens <= Refilled(capacity, credit, b, now) <= capacity
    ensures Refilled(capacity, credit, b, now) <= b.tokens + credit(now) - credit(b.last)
  {
    assert credit(b.last) <= credit(now);
  }

  /** The balance stays between nothing and the capacity, and what is handed out was in the bucket
      or accrued meanwhile. */
  lemma {:induction false} Conserved(capacity: real, credit: Credit, b: Bucket, qs: seq<Request>)
    requires Sane(capacity, b) && Monotone(credit) && Ordered(b.last, qs)
    ensures Sane(capacity, Run(capacity, credit, b, qs))
    ensures b.last <= End(b.last, qs) == Run(capacity, credit, b, qs).last
    ensures Granted(capacity, credit, b, qs) + Run(capacity, credit, b, qs).tokens
            <= b.tokens + credit(End(b.last, qs)) - credit(b.last)
    decreases |qs|
  {
    if qs != [] {
      var b' := Taken(capacity, credit, b, qs[0]);
      RefillBounds(capacity, credit, b, qs[0].at);
      Conserved(capacity, credit, b', qs[1..]);
      assert End(b'.last, qs[1..]) == End(b.last, qs);
    }
  }

  lemma {:induction false} OrderedInit(t: real, qs: seq<Request>, i: nat)
    requires Ordered(t, qs) && i <= |qs|
    ensures Ordered(t, qs[..i])
    decreases |qs|
  {
    if i > 0 {
      OrderedInit(qs[0].at, qs[1..], i - 1);
      assert qs[1..][..i - 1] == qs[..i][1..];
    }
  }

  lemma EndStep(t: real, qs: seq<Request>, i: nat)
    requires 0 < i <= |qs|
    ensures End(qs[0].at, qs[1..][..i - 1]) == End(t, qs[..i])
  {
  }

  lemma {:induction false} OrderedTail(t: real, qs: seq<Request>, i: nat)
    requires Ordered(t, qs) && i <= |qs|
    ensures Ordered(End(t, qs[..i]), qs[i..])
    decreases |qs|
  {
    if i == 0 {
      assert qs[0..] == qs;
    } else {
      var rest := qs[1..];
      OrderedTail(qs[0].at, rest, i - 1);
      assert rest[i - 1..] == qs[i..];
      EndStep(t, qs, i);
    }
  }

  lemma OrderedParts(t: real, qs: seq<Request>, i: nat)
    requires Ordered(t, qs) && i <= |qs|
    ensures Ordered(t, qs[..i]) && Ordered(End(t, qs[..i]), qs[i..])
  {
    OrderedInit(t, qs, i);
    OrderedTail(t, qs, i);
  }

  /** What is granted from the first request on depends only on the balance it finds. */
  lemma FromFirst(capacity: real, credit: Credit, b: Bucket, qs: seq<Request>)
    requires Sane(capacity, b) && Monotone(credit) && Ordered(b.last, qs) && qs != []
    ensures Granted(capacity, credit, b, qs) <= capacity + credit(End(b.last, qs)) - credit(qs[0].at)
  {
    RefillBounds(capacity, credit, b, qs[0].at);
    var found := Bucket(Refilled(capacity, credit, b, qs[0].at), qs[0].at);
    assert Refilled(capacity, credit, found, qs[0].at) == found.tokens;
    assert Granted(capacity, credit, b, qs) == Granted(capacity, credit, found, qs);
    Conserved(capacity, credit, found, qs);
    assert End(found.last, qs) == End(b.last, qs);
  }

  /** The credit between two times is the rate times the time between them. */
  predicate Accrues(credit: Credit, rate: real, from: real, to: real) {
    credit(to) - credit(from) == rate * (to - from)
  }

  /** In every window of every run the balance is between nothing and the capacity, and at most the
      capacity plus what accrues in the window is granted. */
  lemma WindowBound(capacity: real, credit: Credit, rate: real, b: Bucket, qs: seq<Request>, i: nat, j: nat)
    requires Sane(capacity, b) && Monotone(credit) && Ordered(b.last, qs) && i < j <= |qs|
             && Accrues(credit, rate, qs[i].at, qs[j - 1].at)
    ensures 0.0 <= Run(capacity, credit, b, qs[..i]).tokens <= capacity
    ensures Granted(capacity, credit, Run(capacity, credit, b, qs[..i]), qs[i..j])
            <= capacity + rate * (qs[j - 1].at - qs[i].at)
  {
    OrderedParts(b.last, qs, i);
    Conserved(capacity, credit, b, qs[..i]);
    OrderedParts(End(b.last, qs[..i]), qs[i..], j - i);
    assert qs[i..][..j - i] == qs[i..j];
    FromFirst(capacity, credit, Run(capacity, credit, b, qs[..i]), qs[i..j]);
  }

  /** The bucket's own credit is of that kind. */
  lemma RateAccrues(rate: real, from: real, to: real)
    requires 0.0 <= rate
    ensures Monotone(PerSecond(rate)) && Accrues(PerSecond(rate), rate, from, to)
  {
    forall a, b | a <= b ensures PerSecond(rate)(a) <= PerSecond(rate)(b) {
      assert (b - a) * rate >= 0.0;
    }
  }

  // ---------------------------------------------------------------- exactly which requests are served

  /** Which requests of a run are served. */
  function Served(capacity: real, credit: Credit, b: Bucket, qs: seq<Request>): (flags: seq<bool>)
    ensures |flags| == |qs|
  {
    if qs == [] then []
    else
      var init := qs[..|qs| - 1];
      Served(capacity, credit, b, init) + [Grants(capacity, credit, Run(capacity, credit, b, init), qs[|qs| - 1])]
  }

  /** What the served ones among the requests took. */
  function Spent(qs: seq<Request>, flags: seq<bool>): real
    requires |flags| == |qs|
  {
    if qs == [] then 0.0
    else
      var n := |qs| - 1;
      Spent(qs[..n], flags[..n]) + if flags[n] then qs[n].n else 0.0
  }

  /** The room a window that starts at request i leaves for the request j at its end. */
  function Room(capacity: real, credit: Credit, qs: seq<Request>, flags: seq<bool>, i: nat, j: nat): real
    requires i <= j < |qs| == |flags|
  {
    capacity + credit(qs[j].at) - credit(qs[i].at) - Spent(qs[i..j], flags[i..j])
  }

  /** A run split before its last request. */
  lemma {:induction false} Snoc(capacity: real, credit: Credit, b: Bucket, qs: seq<Request>)
    requires qs != []
    ensures var init, last := qs[..|qs| - 1], qs[|qs| - 1];
            Run(capacity, credit, b, qs) == Taken(capacity, credit, Run(capacity, credit, b, init), last)
    decreases |qs|
  {
    if |qs| > 1 {
      Snoc(capacity, credit, Taken(capacity, credit, b, qs[0]), qs[1..]);
      assert qs[1..][..|qs| - 2] == qs[..|qs| - 1][1..];
    }
  }

  lemma {:induction false} ServedPrefix(capacity: real, credit: Credit, b: Bucket, qs: seq<Request>, j: nat)
    requires j <= |qs|
    ensures Served(capacity, credit, b, qs)[..j] == Served(capacity, credit, b, qs[..j])
    decreases |qs|
  {
    if j < |qs| {
      ServedPrefix(capacity, credit, b, qs[..|qs| - 1], j);
      assert qs[..|qs| - 1][..j] == qs[..j];
    } else {
      assert qs[..j] == qs;
    }
  }

  /** The balance found at a request. */
  function Found(capacity: real, credit: Credit, b: Bucket, qs: seq<Request>, j: nat): real
    requires j < |qs|
  {
    Refilled(capacity, credit, Run(capacity, credit, b, qs[..j]), qs[j].at)
  }

  lemma ServedByFound(capacity: real, credit: Credit, b: Bucket, qs: seq<Request>, j: nat)
    requires j < |qs|
    ensures Served(capacity, credit, b, qs)[j] <==> qs[j].n <= Found(capacity, credit, b, qs, j)
  {
    ServedPrefix(capacity, credit, b, qs, j + 1);
    assert qs[..j + 1][..j] == qs[..j];
    assert Served(capacity, credit, b, qs)[..j + 1][j] == Served(capacity, credit, b, qs)[j];
  }

  lemma RoomStep(capacity: real, credit: Credit, qs: seq<Request>, flags: seq<bool>, i: nat, j: nat)
    requires i < j < |qs| == |flags|
    ensures Room(capacity, credit, qs, flags, i, j)
            == Room(capacity, credit, qs, flags, i, j - 1) - (if flags[j - 1] then qs[j - 1].n else 0.0)
               + credit(qs[j].at) - credit(qs[j - 1].at)
  {
    assert qs[i..j][..j - 1 - i] == qs[i..j - 1] && qs[i..j][j - 1 - i] == qs[j - 1];
    assert flags[i..j][..j - 1 - i] == flags[i..j - 1] && flags[i..j][j - 1 - i] == flags[j - 1];
  }

  /** What is found at a request: what the one before it found, less what that one took, plus what
      accrued since, up to the capacity. */
  lemma FoundStep(capacity: real, credit: Credit, b: Bucket, qs: seq<Request>, j: nat)
    requires 0 < j < |qs|
    ensures var took := if Served(capacity, credit, b, qs)[j - 1] then qs[j - 1].n else 0.0;
            var t := Found(capacity, credit, b, qs, j - 1) - took + credit(qs[j].at) - credit(qs[j - 1].at);
            Found(capacity, credit, b, qs, j) == if t > capacity then capacity else t
  {
    ServedByFound(capacity, credit, b, qs, j - 1);
    Snoc(capacity, credit, b, qs[..j]);
    assert qs[..j][..j - 1] == qs[..j - 1];
  }

  /** The balance found at a request is the least room any window leaves. */
  lemma {:induction false} FoundIsLeastRoom(capacity: real, credit: Credit, b: Bucket, qs: seq<Request>, j: nat)
    returns (i: nat)
    requires b.tokens == capacity && Monotone(credit) && Ordered(b.last, qs) && j < |qs|
    ensures var flags := Served(capacity, credit, b, qs);
            var found := Found(capacity, credit, b, qs, j);
            && (forall k :: 0 <= k <= j ==> found <= Room(capacity, credit, qs, flags, k, j))
            && i <= j && found == Room(capacity, credit, qs, flags, i, j)
  {
    var flags := Served(capacity, credit, b, qs);
    assert qs[j..j] == [] && Room(capacity, credit, qs, flags, j, j) == capacity;
    if j == 0 {
      assert qs[..0] == [] && credit(b.last) <= credit(qs[0].at);
      i := 0;
    } else {
      FoundStep(capacity, credit, b, qs, j);
      i := FoundIsLeastRoom(capacity, credit, b, qs, j - 1);
      forall k | 0 <= k < j ensures Found(capacity, credit, b, qs, j) <= Room(capacity, credit, qs, flags, k, j) {
        RoomStep(capacity, credit, qs, flags, k, j);
      }
      RoomStep(capacity, credit, qs, flags, i, j);
      if Found(capacity, credit, b, qs, j) == capacity { i := j; }
    }
  }

  /** From a full bucket, whatever was refused before, a request is served if and only if no window
      that ends with it leaves less: the capacity, plus what accrues between the window's ends, less
      what the requests served in the window took.  A refusal takes nothing. */
  lemma ServedIff(capacity: real, credit: Credit, b: Bucket, qs: seq<Request>, j: nat)
    requires b.tokens == capacity && Monotone(credit) && Ordered(b.last, qs) && j < |qs|
    ensures var flags := Served(capacity, credit, b, qs);
            flags[j] <==> forall i :: 0 <= i <= j ==> qs[j].n <= Room(capacity, credit, qs, flags, i, j)
  {
    ServedByFound(capacity, credit, b, qs, j);
    var i := FoundIsLeastRoom(capacity, credit, b, qs, j);
  }
}
