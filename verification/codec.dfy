/**
 * Run-length decoding of a grid row's result sequence (decodeRLE).
 *
 * An encoded row is a flat sequence [value, count, value, count, ...] of
 * 32-bit integers. Decoding expands each pair into `count` copies of
 * `value`, in pair order; a count of zero or less contributes nothing, and
 * an input of odd length decodes to nothing at all.
 */
module Codec {

  const MaxInt32: int := 0x7fff_ffff

  /** Go's int32. */
  type int32 = x: int | -0x8000_0000 <= x <= 0x7fff_ffff

  /** How many cells a pair with this count yields: the repeat loop runs only while the count is positive. */
  function Copies(count: int32): (r: nat)
  {
    if count > 0 then count as nat else 0
  }

  function Repeat(v: int32, n: nat): (r: seq<int32>)
    ensures |r| == n
    ensures forall i :: 0 <= i < n ==> r[i] == v
  {
    seq(n, _ => v)
  }

  /**
   * Expansion of an even-length pair sequence. It is defined from the last
   * pair backwards, mirroring a decoder that appends pair after pair.
   */
  function Expand(e: seq<int32>): (r: seq<int32>)
    requires |e| % 2 == 0
    decreases |e|
  {
    if e == [] then []
    else Expand(e[..|e| - 2]) + Repeat(e[|e| - 2], Copies(e[|e| - 1]))
  }

  /** The meaning of decodeRLE: odd-length input is malformed and yields nothing. */
  function Decode(e: seq<int32>): (r: seq<int32>)
    ensures |e| % 2 == 1 ==> r == []
  {
    if |e| % 2 == 0 then Expand(e) else []
  }

  /** Sum of the positive counts, reading the pairs from the front. */
  function TotalRun(e: seq<int32>): (r: nat)
    decreases |e|
  {
    if |e| < 2 then 0 else Copies(e[1]) + TotalRun(e[2..])
  }

  /** decodeRLE: a nested loop that appends each value `count` times. */
  method DecodeRLE(encoded: seq<int32>) returns (decoded: seq<int32>)
    ensures decoded == Decode(encoded)
    ensures |encoded| % 2 == 1 ==> decoded == []
  {
    decoded := [];
    var n := |encoded|;
    if n % 2 == 0 {
      var i := 0;
      while i < n
        invariant 0 <= i <= n && i % 2 == 0
        invariant decoded == Expand(encoded[..i])
      {
        var value := encoded[i];
        var count := encoded[i + 1];
        ghost var before := decoded;
        while count > 0
          invariant count <= encoded[i + 1]
          invariant decoded == before + Repeat(value, Copies(encoded[i + 1]) - Copies(count))
        {
          assert Repeat(value, Copies(encoded[i + 1]) - Copies(count)) + [value]
              == Repeat(value, Copies(encoded[i + 1]) - Copies(count - 1));
          decoded := decoded + [value];
          count := count - 1;
        }
        assert encoded[..i + 2][..i] == encoded[..i];
        i := i + 2;
      }
      assert encoded[..n] == encoded;
    }
  }

  /** Decoding distributes over concatenation of well-formed encodings: pairs decode in order. */
  lemma {:induction false} DecodeConcat(a: seq<int32>, b: seq<int32>)
    requires |a| % 2 == 0 && |b| % 2 == 0
    ensures Decode(a + b) == Decode(a) + Decode(b)
    decreases |b|
  {
    if b == [] {
      assert a + b == a;
    } else {
      var ab := a + b;
      var b' := b[..|b| - 2];
      var run := Repeat(b[|b| - 2], Copies(b[|b| - 1]));
      assert ab[..|ab| - 2] == a + b';
      assert ab[|ab| - 2] == b[|b| - 2] && ab[|ab| - 1] == b[|b| - 1];
      assert Expand(ab) == Expand(a + b') + run;
      DecodeConcat(a, b');
      assert Expand(a + b') == Expand(a) + Expand(b');
      assert Expand(b) == Expand(b') + run;
    }
  }

  /** The first pair of an encoding becomes the first run of its decoding. */
  lemma DecodeFirstPair(value: int32, count: int32, rest: seq<int32>)
    requires |rest| % 2 == 0
    ensures Decode([value, count] + rest) == Repeat(value, Copies(count)) + Decode(rest)
  {
    var pair := [value, count];
    assert pair[..|pair| - 2] == [];
    assert Expand(pair) == Expand([]) + Repeat(value, Copies(count));
    assert Decode(pair) == Repeat(value, Copies(count));
    DecodeConcat(pair, rest);
  }

  /** The decoded length is the sum of the positive counts; odd input decodes to nothing. */
  lemma {:induction false} DecodeLength(e: seq<int32>)
    ensures |Decode(e)| == if |e| % 2 == 0 then TotalRun(e) else 0
    decreases |e|
  {
    if |e| % 2 == 0 && e != [] {
      assert e == [e[0], e[1]] + e[2..];
      DecodeFirstPair(e[0], e[1], e[2..]);
      DecodeLength(e[2..]);
    }
  }

  /** The example from decodeRLE's documentation. */
  lemma DecodeExample()
    ensures Decode([0, 3, 5, 4]) == [0, 0, 0, 5, 5, 5, 5]
  {
    DecodeFirstPair(0, 3, [5, 4]);
    DecodeFirstPair(5, 4, []);
  }

  /**
   * Length of the run of equal values at the head of `s`, capped so that it
   * fits in an int32 count.
   */
  function HeadRun(s: seq<int32>): (n: nat)
    requires s != []
    ensures 1 <= n <= |s| && n <= MaxInt32
    ensures forall i :: 0 <= i < n ==> s[i] == s[0]
    decreases |s|
  {
    if |s| == 1 || s[1] != s[0] then 1
    else
      var t := HeadRun(s[1..]);
      if t < MaxInt32 then t + 1 else t
  }

  /**
   * Greedy run-length encoding with positive counts. The repository's
   * decoder has no encoder beside it; this one is the reference against
   * which decoding is shown to be a left inverse.
   */
  function Encode(s: seq<int32>): (e: seq<int32>)
    ensures |e| % 2 == 0
    ensures forall i :: 0 <= i < |e| && i % 2 == 1 ==> e[i] > 0
    decreases |s|
  {
    if s == [] then []
    else
      var n := HeadRun(s);
      var rest := Encode(s[n..]);
      var e := [s[0], n as int32] + rest;
      assert forall i :: 2 <= i < |e| ==> e[i] == rest[i - 2];
      e
  }

  /** Every sequence of results is the decoding of its run-length encoding. */
  lemma {:induction false} DecodeEncode(s: seq<int32>)
    ensures Decode(Encode(s)) == s
    decreases |s|
  {
    if s != [] {
      var n := HeadRun(s);
      DecodeFirstPair(s[0], n as int32, Encode(s[n..]));
      DecodeEncode(s[n..]);
      assert Repeat(s[0], n) == s[..n];
      assert s[..n] + s[n..] == s;
    }
  }
}
