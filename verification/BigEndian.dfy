/** Numbers as bytes, most significant first. */
module BigEndian {
  import opened Bits

  function Pow256(k: nat): (p: nat)
    ensures p > 0
  {
    if k == 0 then 1 else 256 * Pow256(k - 1)
  }

  function Value(b: Bytes): (v: nat)
    decreases |b|
  {
    if b == [] then 0 else Value(b[..|b| - 1]) * 256 + b[|b| - 1] as nat
  }

  /** The shortest bytes for a number, none for zero. */
  function Shortest(v: nat): (b: Bytes)
    ensures v == 0 <==> b == []
  {
    if v == 0 then [] else Shortest(v / 256) + [(v % 256) as Byte]
  }

  function Zeros(k: nat): (b: Bytes)
    ensures |b| == k
  {
    seq(k, _ => 0)
  }

  /** Bytes filled up with zeros on the left; too many bytes are left as they are. */
  function LeftPad(b: Bytes, k: nat): (r: Bytes)
    ensures |r| == if |b| >= k then |b| else k
  {
    if |b| >= k then b else Zeros(k - |b|) + b
  }

  /** A number in `k` bytes. */
  function Fixed(v: nat, k: nat): (b: Bytes)
    ensures |b| == k
  {
    if k == 0 then [] else Fixed(v / 256, k - 1) + [(v % 256) as Byte]
  }

  lemma {:induction false} ValueShortest(v: nat)
    ensures Value(Shortest(v)) == v
    decreases v
  {
    if v > 0 {
      ValueShortest(v / 256);
      assert Shortest(v)[..|Shortest(v)| - 1] == Shortest(v / 256);
    }
  }

  lemma {:induction false} ValueFixed(v: nat, k: nat)
    requires v < Pow256(k)
    ensures Value(Fixed(v, k)) == v
    decreases k
  {
    if k > 0 {
      ValueFixed(v / 256, k - 1);
      assert Fixed(v, k)[..k - 1] == Fixed(v / 256, k - 1);
    }
  }

  lemma {:induction false} ShortestSize(v: nat, k: nat)
    requires v < Pow256(k)
    ensures |Shortest(v)| <= k
    decreases k
  {
    if k > 0 { ShortestSize(v / 256, k - 1); }
  }

  lemma {:induction false} ValuePadded(b: Bytes, n: nat)
    ensures Value(Zeros(n) + b) == Value(b)
    decreases |b|, n
  {
    var p := Zeros(n) + b;
    if b == [] {
      if n > 0 {
        assert p[..n - 1] == Zeros(n - 1) + [];
        ValuePadded([], n - 1);
      } else {
        assert p == b;
      }
    } else {
      assert p[..|p| - 1] == Zeros(n) + b[..|b| - 1];
      ValuePadded(b[..|b| - 1], n);
    }
  }

  /** A number in range is padded to `k` bytes and read back. */
  lemma {:induction false} PaddedNumber(v: nat, k: nat)
    requires v < Pow256(k)
    ensures |LeftPad(Shortest(v), k)| == k && Value(LeftPad(Shortest(v), k)) == v
  {
    ShortestSize(v, k);
    ValueShortest(v);
    if |Shortest(v)| < k { ValuePadded(Shortest(v), k - |Shortest(v)|); }
  }
}
