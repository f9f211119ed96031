/**
 Unsigned machine words as natural numbers, and the little-endian bit strings they stand for.
 `BitOr` is the bitwise `|`; a shift by `k` is a multiplication (`Shl`) or a division by `Pow2(k)`, and a mask
 with `Pow2(k) - 1` is a remainder.
 */
module Bits {

  type Byte = x: int | 0 <= x < 256

  type Bytes = seq<Byte>

  function Pow2(k: nat): (r: nat)
    ensures r > 0
  {
    if k == 0 then 1 else 2 * Pow2(k - 1)
  }

  /** `v << k`. */
  function Shl(v: nat, k: nat): (r: nat)
  {
    v * Pow2(k)
  }

  function BitOr(a: nat, b: nat): (r: nat)
    decreases a + b
  {
    if a == 0 then b
    else if b == 0 then a
    else (if a % 2 == 1 || b % 2 == 1 then 1 else 0) + 2 * BitOr(a / 2, b / 2)
  }

  /** The number whose binary digits, least significant first, are `bits`. */
  function Val(bits: seq<bool>): (v: nat)
  {
    if |bits| == 0 then 0 else (if bits[0] then 1 else 0) + 2 * Val(bits[1..])
  }

  /** The `k` least significant digits of `v`. */
  function Digits(v: nat, k: nat): (bits: seq<bool>)
    ensures |bits| == k
  {
    if k == 0 then [] else [v % 2 == 1] + Digits(v / 2, k - 1)
  }

  /** Or-ing a shifted word into a queue that has no digit there yet is an addition. */
  lemma {:induction false} OrIsAdd(a: nat, b: nat, k: nat)
    requires a < Pow2(k)
    ensures BitOr(a, Shl(b, k)) == a + Shl(b, k)
  {
    if k > 0 && a > 0 && b * Pow2(k) > 0 {
      var h := b * Pow2(k - 1);
      assert b * Pow2(k) == 2 * h;
      OrIsAdd(a / 2, b, k - 1);
    }
  }

  lemma {:induction false} ValBound(bits: seq<bool>)
    ensures Val(bits) < Pow2(|bits|)
  {
    if |bits| > 0 { ValBound(bits[1..]); }
  }

  lemma {:induction false} ValAppend(a: seq<bool>, b: seq<bool>)
    ensures Val(a + b) == Val(a) + Shl(Val(b), |a|)
  {
    if |a| == 0 {
      assert a + b == b;
    } else {
      ValAppend(a[1..], b);
      assert (a + b)[1..] == a[1..] + b;
      var m := Val(b);
      assert m * Pow2(|a|) == 2 * (m * Pow2(|a| - 1));
    }
  }

  lemma {:induction false} DigitsOfVal(bits: seq<bool>)
    ensures Digits(Val(bits), |bits|) == bits
  {
    if |bits| > 0 { DigitsOfVal(bits[1..]); }
  }

  lemma {:induction false} ValOfDigits(v: nat, k: nat)
    requires v < Pow2(k)
    ensures Val(Digits(v, k)) == v
  {
    if k > 0 { ValOfDigits(v / 2, k - 1); }
  }

  lemma {:induction false} DivModUnique(q: nat, r: nat, d: nat)
    requires r < d
    ensures (r + q * d) / d == q && (r + q * d) % d == r
  {
    var n := r + q * d;
    assert n == (n / d) * d + n % d;
    var e := n / d - q;
    assert e * d == r - n % d;
    assert e >= 1 ==> e * d >= 1 * d;
    assert e <= -1 ==> e * d <= (-1) * d;
  }

  /** Taking and dropping `k` digits is a remainder and a quotient. */
  lemma {:induction false} ValSplit(bits: seq<bool>, k: nat)
    requires k <= |bits|
    ensures Val(bits[..k]) == Val(bits) % Pow2(k)
    ensures Val(bits[k..]) == Val(bits) / Pow2(k)
  {
    assert bits == bits[..k] + bits[k..];
    ValAppend(bits[..k], bits[k..]);
    ValBound(bits[..k]);
    DivModUnique(Val(bits[k..]), Val(bits[..k]), Pow2(k));
  }

  lemma {:induction false} PowersOfTwo()
    ensures Pow2(0) == 1 && Pow2(7) == 128 && Pow2(8) == 256 && Pow2(13) == 8192 && Pow2(14) == 16384
  {
    assert Pow2(4) == 16;
    assert Pow2(7) == 8 * Pow2(4);
    assert Pow2(8) == 2 * Pow2(7);
    assert Pow2(11) == 8 * Pow2(8);
    assert Pow2(13) == 4 * Pow2(11);
  }

  lemma {:induction false} Pow2Monotone(j: nat, k: nat)
    requires j <= k
    ensures Pow2(j) <= Pow2(k)
  {
    if j < k { Pow2Monotone(j, k - 1); }
  }
}
