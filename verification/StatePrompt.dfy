/**
  The robot state in the policy's prompt: each joint is put into one of 257 bins, and the bins are
  spelled out in tokens. A reader of the tokens can recover the bins.
 */
module StatePrompt {

  const EDGES := 256

  /** Edges are -1 + k/128. */
  function Edge(k: int): real { -1.0 + k as real / 128.0 }

  /** How many of the first n edges are not above x. */
  function Passed(x: real, n: nat): nat {
    if n == 0 then 0 else Passed(x, n - 1) + if Edge(n - 1) <= x then 1 else 0
  }

  /** Edges are in order: what is passed is exactly the first ones. */
  lemma {:induction false} PassedAreTheFirst(x: real, n: nat, m: nat)
    requires m <= n
    requires m > 0 ==> Edge(m - 1) <= x
    requires m < n ==> x < Edge(m)
    ensures Passed(x, n) == m
  {
    if n > m {
      PassedAreTheFirst(x, n - 1, m);
    } else if m > 0 {
      PassedAreTheFirst(x, n - 1, m - 1);
    }
  }

  /**
    The bin of x from any first guess: the two loops repair whatever rounding did to the guess, so the
    result is the number of edges passed, minus one.
   */
  method BinFrom(x: real, guess: nat) returns (k: int)
    requires Edge(0) <= x && guess < EDGES
    ensures k == Passed(x, EDGES) - 1
  {
    k := guess;
    while k < 255 && Edge(k + 1) <= x
      invariant 0 <= k <= 255 && (k > guess ==> Edge(k) <= x)
    {
      k := k + 1;
    }
    while k > 0 && Edge(k) > x
      invariant 0 <= k <= 255 && (k < 255 ==> x < Edge(k + 1))
    {
      k := k - 1;
    }
    PassedAreTheFirst(x, EDGES, k + 1);
  }

  method StateBin(x: real) returns (k: int)
    ensures k == Passed(x, EDGES) - 1 && -1 <= k <= 255
    ensures (k == -1 || Edge(k) <= x) && (k == 255 || x < Edge(k + 1))
  {
    if x < Edge(0) {
      PassedAreTheFirst(x, EDGES, 0);
      return -1;
    }
    var guess := ((x + 1.0) * 128.0).Floor;
    k := BinFrom(x, if guess < 0 then 0 else if guess > 255 then 255 else guess);
    PassedBounds(x, EDGES);
    BinBrackets(x, EDGES);
  }

  lemma {:induction false} PassedBounds(x: real, n: nat)
    ensures Passed(x, n) <= n
    ensures n > 0 && Edge(0) <= x ==> Passed(x, n) > 0
  {
    if n > 0 { PassedBounds(x, n - 1); }
  }

  lemma {:induction false} BinBrackets(x: real, n: nat)
    ensures Passed(x, n) > 0 ==> Edge(Passed(x, n) - 1) <= x
    ensures Passed(x, n) < n ==> x < Edge(Passed(x, n))
  {
    if n > 0 {
      BinBrackets(x, n - 1);
      PassedBounds(x, n - 1);
    }
  }

  // ---- Tokens ----

  datatype Vocabulary = Vocabulary(sep: int, neg: int, digits: seq<int>)
  {
    ghost predicate Distinct() {
      && |digits| == 10 && sep != neg && sep !in digits && neg !in digits
      && forall i, j | 0 <= i < j < 10 :: digits[i] != digits[j]
    }

    predicate IsMark(t: int) { t == sep || t == neg }
  }

  /** Decimal digits, without leading zeros. */
  function Decimal(n: nat): (ds: seq<nat>)
    ensures ds != [] && forall d <- ds :: d < 10
  {
    if n < 10 then [n] else Decimal(n / 10) + [n % 10]
  }

  function Spelled(v: Vocabulary, ds: seq<nat>): (ts: seq<int>)
    requires |v.digits| == 10 && forall d <- ds :: d < 10
    ensures |ts| == |ds|
  {
    seq(|ds|, i requires 0 <= i < |ds| => assert ds[i] in ds; v.digits[ds[i]])
  }

  function Magnitude(bin: int): nat { if bin < 0 then -bin else bin }

  function Chunk(v: Vocabulary, bin: int): seq<int>
    requires |v.digits| == 10
  {
    [if bin < 0 then v.neg else v.sep] + Spelled(v, Decimal(Magnitude(bin)))
  }

  function Body(v: Vocabulary, bins: seq<int>): seq<int>
    requires |v.digits| == 10
  {
    if bins == [] then [] else Chunk(v, bins[0]) + Body(v, bins[1..])
  }

  // ---- Reading it back ----

  function IndexOf(ts: seq<int>, t: int): (i: nat)
    ensures i <= |ts| && (i < |ts| ==> ts[i] == t) && (forall j | 0 <= j < i :: ts[j] != t)
  {
    if ts == [] || ts[0] == t then 0 else 1 + IndexOf(ts[1..], t)
  }

  function Run(v: Vocabulary, ts: seq<int>): (n: nat)
    ensures n <= |ts|
  {
    if ts == [] || v.IsMark(ts[0]) then 0 else 1 + Run(v, ts[1..])
  }

  function Number(v: Vocabulary, ts: seq<int>): int {
    if ts == [] then 0 else 10 * Number(v, ts[..|ts| - 1]) + IndexOf(v.digits, ts[|ts| - 1])
  }

  /** The bins in a prompt body: a mark, then digits up to the next mark. */
  function Parse(v: Vocabulary, body: seq<int>): seq<int>
    decreases |body|
  {
    if body == [] then [] else
    var n := Run(v, body[1..]);
    var value := Number(v, body[1..1 + n]);
    [if body[0] == v.neg then -value else value] + Parse(v, body[1 + n..])
  }

  lemma DigitFound(v: Vocabulary, d: nat)
    requires v.Distinct() && d < 10
    ensures IndexOf(v.digits, v.digits[d]) == d && !v.IsMark(v.digits[d])
  {
    var i := IndexOf(v.digits, v.digits[d]);
    assert i < 10 ==> v.digits[i] == v.digits[d];
  }

  lemma {:induction false} NumberOfSpelled(v: Vocabulary, n: nat)
    requires v.Distinct()
    ensures Number(v, Spelled(v, Decimal(n))) == n
  {
    var ts := Spelled(v, Decimal(n));
    if n < 10 {
      DigitFound(v, n);
      assert ts[..0] == [];
    } else {
      NumberOfSpelled(v, n / 10);
      DigitFound(v, n % 10);
      assert ts[..|ts| - 1] == Spelled(v, Decimal(n / 10));
    }
  }

  lemma {:induction false} RunOfDigits(v: Vocabulary, ds: seq<nat>, rest: seq<int>)
    requires v.Distinct() && forall i | 0 <= i < |ds| :: ds[i] < 10
    requires rest == [] || v.IsMark(rest[0])
    ensures Run(v, Spelled(v, ds) + rest) == |ds|
  {
    if ds == [] {
      assert Spelled(v, ds) + rest == rest;
    } else {
      DigitFound(v, ds[0]);
      RunOfDigits(v, ds[1..], rest);
      assert (Spelled(v, ds) + rest)[1..] == Spelled(v, ds[1..]) + rest;
    }
  }

  lemma ParseOfChunk(v: Vocabulary, bin: int, rest: seq<int>)
    requires v.Distinct() && bin >= -1 && (rest == [] || v.IsMark(rest[0]))
    ensures Parse(v, Chunk(v, bin) + rest) == [bin] + Parse(v, rest)
  {
    var ds := Decimal(Magnitude(bin));
    var body, ts := Chunk(v, bin) + rest, Spelled(v, ds);
    assert body[1..] == ts + rest;
    forall i | 0 <= i < |ds| ensures ds[i] < 10 { assert ds[i] in ds; }
    RunOfDigits(v, ds, rest);
    assert body[1..1 + |ds|] == ts && body[1 + |ds|..] == rest;
    NumberOfSpelled(v, Magnitude(bin));
  }

  /** For distinct tokens, whatever the bins, reading the composed tokens gives them back. */
  lemma {:induction false} BinsAreRecovered(v: Vocabulary, bins: seq<int>)
    requires v.Distinct() && forall i | 0 <= i < |bins| :: -1 <= bins[i] <= 255
    ensures Parse(v, Body(v, bins)) == bins
  {
    if bins != [] {
      var rest := Body(v, bins[1..]);
      BinsAreRecovered(v, bins[1..]);
      ParseOfChunk(v, bins[0], rest);
    }
  }

  lemma ChunkIsShort(v: Vocabulary, bin: int)
    requires |v.digits| == 10 && -1 <= bin <= 255
    ensures 2 <= |Chunk(v, bin)| <= 4
  {
    var n := Magnitude(bin);
    assert n >= 10 ==> |Decimal(n)| == |Decimal(n / 10)| + 1;
    assert n >= 100 ==> |Decimal(n / 10)| == |Decimal(n / 100)| + 1;
  }

  lemma {:induction false} BodyIsShort(v: Vocabulary, bins: seq<int>)
    requires |v.digits| == 10 && forall i | 0 <= i < |bins| :: -1 <= bins[i] <= 255
    ensures |Body(v, bins)| <= 4 * |bins|
  {
    if bins != [] {
      ChunkIsShort(v, bins[0]);
      BodyIsShort(v, bins[1..]);
    }
  }

  // ---- Composing ----

  datatype Prompt = Prompt(heads: map<string, seq<int>>, words: Vocabulary, tail: seq<int>)

  datatype Composed = Refused | Composed(ids: seq<int>)

  lemma {:induction false} BodyGrows(v: Vocabulary, bins: seq<int>, k: nat)
    requires |v.digits| == 10 && k < |bins|
    ensures Body(v, bins[..k + 1]) == Body(v, bins[..k]) + Chunk(v, bins[k])
  {
    if k == 0 {
      assert bins[..1] == [bins[0]] && bins[..0] == [];
    } else {
      BodyGrows(v, bins[1..], k - 1);
      assert bins[..k + 1][1..] == bins[1..][..k] && bins[..k][1..] == bins[1..][..k - 1];
    }
  }

  lemma BodyOfNothing(v: Vocabulary)
    requires |v.digits| == 10
    ensures Body(v, []) == []
  {}

  method Compose(p: Prompt, task: string, bins: seq<int>) returns (r: Composed)
    requires |p.words.digits| == 10
    ensures r.Composed? <==> task in p.heads && forall i | 0 <= i < |bins| :: -1 <= bins[i] <= 255
    ensures r.Composed? ==> r.ids == p.heads[task] + Body(p.words, bins) + p.tail
  {
    hide Body, Decimal, Spelled, Magnitude;
    BodyOfNothing(p.words);
    if task !in p.heads { return Refused; }
    var ids, i := p.heads[task], 0;
    while i < |bins|
      invariant 0 <= i <= |bins| && forall k | 0 <= k < i :: -1 <= bins[k] <= 255
      invariant ids == p.heads[task] + Body(p.words, bins[..i])
    {
      if bins[i] < -1 || bins[i] > 255 { return Refused; }
      ids := ids + [if bins[i] < 0 then p.words.neg else p.words.sep] + Spelled(p.words, Decimal(Magnitude(bins[i])));
      BodyGrows(p.words, bins, i);
      i := i + 1;
    }
    assert bins[..i] == bins;
    return Composed(ids + p.tail);
  }

  method Longest(p: Prompt, dim: nat) returns (n: nat)
    ensures forall task <- p.heads :: |p.heads[task]| + 4 * dim + |p.tail| <= n
    ensures p.heads != map[] ==> exists task <- p.heads :: |p.heads[task]| + 4 * dim + |p.tail| == n
  {
    var head, left := 0, p.heads.Keys;
    ghost var longest := "";
    while left != {}
      invariant left <= p.heads.Keys
      invariant forall task <- p.heads.Keys - left :: |p.heads[task]| <= head
      invariant left != p.heads.Keys ==> longest in p.heads && |p.heads[longest]| == head
      invariant left == p.heads.Keys ==> head == 0
      decreases left
    {
      var task :| task in left;
      if |p.heads[task]| >= head { longest := task; }
      head := if head >= |p.heads[task]| then head else |p.heads[task]|;
      left := left - {task};
    }
    n := head + 4 * dim + |p.tail|;
  }

  /** A prompt for `dim` joints never exceeds the longest one. */
  lemma PromptFits(p: Prompt, task: string, bins: seq<int>, longest: nat)
    requires |p.words.digits| == 10 && task in p.heads && forall i | 0 <= i < |bins| :: -1 <= bins[i] <= 255
    requires |p.heads[task]| + 4 * |bins| + |p.tail| <= longest
    ensures |p.heads[task] + Body(p.words, bins) + p.tail| <= longest
  {
    BodyIsShort(p.words, bins);
  }
}
