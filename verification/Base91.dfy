/**
 The base91 text encoding of common/base91.go. The specification works on bit strings: the encoder
 cuts the input into chunks of 13 or 14 bits and writes each chunk as two base 91 digits.
 */
module Base91Spec {
  import opened Bits

  /** A base 91 digit. */
  type Sym = x: int | 0 <= x < 91

  function BitsOf(src: seq<Byte>): (bits: seq<bool>)
    ensures |bits| == 8 * |src|
  {
    if |src| == 0 then [] else Digits(src[0], 8) + BitsOf(src[1..])
  }

  /** The whole bytes of a bit string; a tail of fewer than eight bits is dropped. */
  function Pack(bits: seq<bool>): (bytes: seq<Byte>)
    ensures |bytes| == |bits| / 8
  {
    if |bits| < 8 then [] else
      ValBound(bits[..8]);
      PowersOfTwo();
      [Val(bits[..8])] + Pack(bits[8..])
  }

  /** The bits that do not fill a byte yet. */
  function Rest(bits: seq<bool>): (r: seq<bool>)
    ensures |r| < 8 && |bits| == 8 * |Pack(bits)| + |r|
  {
    bits[|bits| / 8 * 8..]
  }

  /** How many bits a pair of digits carries, from the value the pair spells. */
  function Width(v: nat): (k: nat)
    ensures 13 <= k <= 14
  {
    if v % 8192 > 88 then 13 else 14
  }

  function EncodeBits(bits: seq<bool>): (syms: seq<Sym>)
    decreases |bits|
  {
    if |bits| >= 14 then
      var k := Width(Val(bits[..13]));
      PairBound(bits);
      var v := Val(bits[..k]);
      [v % 91, v / 91] + EncodeBits(bits[k..])
    else if |bits| == 0 then []
    else
      ShortBound(bits);
      var q := Val(bits);
      if |bits| > 7 || q > 90 then [q % 91, q / 91] else [q]
  }

  function PairValue(a: Sym, b: Sym): (v: nat)
    ensures v < 91 * 91
  {
    a + 91 * (b as int)
  }

  /** The waiting bits after a pair of digits has been read. */
  function PairBits(pending: seq<bool>, a: Sym, b: Sym): (bits: seq<bool>)
    ensures |pending| + 13 <= |bits| <= |pending| + 14
  {
    var v := PairValue(a, b);
    pending + Digits(v, Width(v))
  }

  /** The byte written for an odd last digit. */
  function TailByte(pending: seq<bool>, s: Sym): (b: Byte)
  {
    var low := (pending + Digits(s, 8))[..8];
    ValBound(low);
    PowersOfTwo();
    Val(low)
  }

  /** The bytes written for the digits `syms` when the bits `pending` are still waiting. */
  function DecodeSyms(pending: seq<bool>, syms: seq<Sym>): (bytes: seq<Byte>)
    decreases |syms|
  {
    if |syms| == 0 then []
    else if |syms| == 1 then [TailByte(pending, syms[0])]
    else
      var bits := PairBits(pending, syms[0], syms[1]);
      Pack(bits) + DecodeSyms(Rest(bits), syms[2..])
  }

  /** The bits still waiting after an even number of digits. */
  function PendingAfter(pending: seq<bool>, syms: seq<Sym>): (r: seq<bool>)
    requires |pending| < 8
    ensures |r| < 8
    decreases |syms|
  {
    if |syms| < 2 then pending
    else
      PendingAfter(Rest(PairBits(pending, syms[0], syms[1])), syms[2..])
  }

  function EncodedLen(n: nat): (r: nat)
  {
    (n * 16 + 12) / 13
  }

  function DecodedLen(n: nat): (r: nat)
  {
    (n * 14 + 15) / 16
  }

  lemma {:induction false} ShortBound(bits: seq<bool>)
    requires |bits| <= 13
    ensures Val(bits) < 8192
  {
    ValBound(bits);
    Pow2Monotone(|bits|, 13);
    PowersOfTwo();
  }

  /** The chosen width always leaves a value two base 91 digits can hold, and the decoder re-derives it. */
  lemma {:induction false} PairBound(bits: seq<bool>)
    requires |bits| >= 14
    ensures var k := Width(Val(bits[..13]));
            Val(bits[..k]) < 91 * 91 && Width(Val(bits[..k])) == k
  {
    ValBound(bits[..13]);
    PowersOfTwo();
    ValSplit(bits[..14], 13);
    assert bits[..14][..13] == bits[..13];
    ValBound(bits[..14][13..]);
    assert Pow2(1) == 2 * Pow2(0);
  }

  lemma {:induction false} PackAppend(a: seq<bool>, b: seq<bool>)
    requires |a| % 8 == 0
    ensures Pack(a + b) == Pack(a) + Pack(b)
    decreases |a|
  {
    if |a| == 0 {
      assert a + b == b;
    } else {
      PackAppend(a[8..], b);
      assert (a + b)[8..] == a[8..] + b && (a + b)[..8] == a[..8];
    }
  }

  lemma {:induction false} PackOfBits(src: seq<Byte>)
    ensures Pack(BitsOf(src)) == src
  {
    if |src| > 0 {
      PackOfBits(src[1..]);
      var bits := BitsOf(src);
      assert bits[..8] == Digits(src[0], 8) && bits[8..] == BitsOf(src[1..]);
      PowersOfTwo();
      ValOfDigits(src[0], 8);
    }
  }

  /** Whole bytes can be written out at any point of the stream. */
  lemma {:induction false} PackSplit(bits: seq<bool>, more: seq<bool>)
    ensures Pack(bits + more) == Pack(bits) + Pack(Rest(bits) + more)
  {
    var w := |bits| / 8 * 8;
    assert bits + more == bits[..w] + (bits[w..] + more);
    assert bits == bits[..w] + bits[w..];
    PackAppend(bits[..w], bits[w..] + more);
    PackAppend(bits[..w], bits[w..]);
  }

  lemma {:induction false} PackPadding(bits: seq<bool>, pad: seq<bool>)
    requires |bits| % 8 == 0 && |pad| < 8
    ensures Pack(bits + pad) == Pack(bits)
  {
    PackAppend(bits, pad);
  }

  /** A value written in more digits than it needs is padded with zeros. */
  lemma {:induction false} DigitsPadded(bits: seq<bool>, k: nat)
    requires |bits| <= k
    ensures Digits(Val(bits), k) == bits + seq(k - |bits|, _ => false)
  {
    var pad := seq(k - |bits|, _ => false);
    ValAppend(bits, pad);
    ValOfZeros(k - |bits|);
    DigitsOfVal(bits + pad);
  }

  lemma {:induction false} ValOfZeros(k: nat)
    ensures Val(seq(k, _ => false)) == 0
  {
    if k > 0 {
      assert seq(k, _ => false)[1..] == seq(k - 1, _ => false);
      ValOfZeros(k - 1);
    }
  }

  /** Reading back a pair: the value is re-assembled and its bits join the pending ones. */
  lemma {:induction false} DecodePair(pending: seq<bool>, v: nat, rest: seq<Sym>)
    requires v < 91 * 91
    ensures var bits := pending + Digits(v, Width(v));
            DecodeSyms(pending, [v % 91, v / 91] + rest)
            == Pack(bits) + DecodeSyms(Rest(bits), rest)
  {
    var syms: seq<Sym> := [v % 91, v / 91] + rest;
    assert syms[2..] == rest;
    assert v == PairValue(syms[0], syms[1]);
  }

  /** The last chunk as a pair: its padding never makes up another byte. */
  lemma {:induction false} RoundTripLastPair(pending: seq<bool>, bits: seq<bool>)
    requires |pending| < 8 && 7 <= |bits| < 14 && (|pending| + |bits|) % 8 == 0
    requires |bits| == 7 ==> Val(bits) > 90
    ensures DecodeSyms(pending, EncodeBits(bits)) == Pack(pending + bits)
  {
    ShortBound(bits);
    var q := Val(bits);
    var k := Width(q);
    DigitsPadded(bits, k);
    var pad := seq(k - |bits|, _ => false);
    assert pending + Digits(q, k) == (pending + bits) + pad;
    LastPairWidth(|pending|, |bits|, q, k);
    PackPadding(pending + bits, pad);
    assert EncodeBits(bits) == [q % 91, q / 91] + [];
    DecodePair(pending, q, []);
  }

  lemma {:induction false} LastPairWidth(p: nat, b: nat, q: nat, k: nat)
    requires p < 8 && 7 <= b < 14 && (p + b) % 8 == 0
    requires k == Width(q) && q < 8192 && (b == 7 ==> q > 90)
    ensures k - b < 8 && (p + k) / 8 == (p + b) / 8
  {
  }

  /** The last chunk as a single digit. */
  lemma {:induction false} RoundTripLastDigit(pending: seq<bool>, bits: seq<bool>)
    requires |pending| < 8 && 0 < |bits| <= 7 && (|pending| + |bits|) % 8 == 0
    requires Val(bits) <= 90
    ensures DecodeSyms(pending, EncodeBits(bits)) == Pack(pending + bits)
  {
    assert |pending| + |bits| == 8;
    var all := pending + bits;
    DigitsPadded(bits, 8);
    assert (pending + Digits(Val(bits), 8))[..8] == all;
    assert all[..8] == all;
    assert Pack(all[8..]) == [];
    assert EncodeBits(bits) == [Val(bits)];
  }

  /** A value above 90 needs seven bits. */
  lemma {:induction false} LargeNeedsSeven(bits: seq<bool>)
    requires Val(bits) > 90
    ensures |bits| >= 7
  {
    ValBound(bits);
    PowersOfTwo();
    assert Pow2(7) == 2 * Pow2(6);
    if |bits| < 7 { Pow2Monotone(|bits|, 6); }
  }

  /** A full chunk is read back as the bits it was cut from. */
  lemma {:induction false} RoundTripChunk(pending: seq<bool>, bits: seq<bool>)
    requires |bits| >= 14
    ensures var k := Width(Val(bits[..13]));
            var all := pending + bits[..k];
            DecodeSyms(pending, EncodeBits(bits)) == Pack(all) + DecodeSyms(Rest(all), EncodeBits(bits[k..]))
  {
    var k := Width(Val(bits[..13]));
    PairBound(bits);
    DigitsOfVal(bits[..k]);
    DecodePair(pending, Val(bits[..k]), EncodeBits(bits[k..]));
  }

  lemma {:induction false} RoundTripTail(pending: seq<bool>, bits: seq<bool>, m: nat)
    requires |pending| < 8 && |bits| < 14 && |pending| + |bits| == 8 * m
    ensures DecodeSyms(pending, EncodeBits(bits)) == Pack(pending + bits)
  {
    if |bits| == 0 {
      assert pending + bits == pending;
    } else if |bits| > 7 {
      RoundTripLastPair(pending, bits);
    } else if Val(bits) > 90 {
      LargeNeedsSeven(bits);
      RoundTripLastPair(pending, bits);
    } else {
      RoundTripLastDigit(pending, bits);
    }
  }

  lemma {:induction false} RoundTripBits(pending: seq<bool>, bits: seq<bool>, m: nat)
    requires |pending| < 8 && |pending| + |bits| == 8 * m
    ensures DecodeSyms(pending, EncodeBits(bits)) == Pack(pending + bits)
    decreases |bits|
  {
    hide DecodeSyms, EncodeBits, Pack, Val, Digits;
    if |bits| >= 14 {
      var k := Width(Val(bits[..13]));
      RoundTripChunk(pending, bits);
      var all := pending + bits[..k];
      RoundTripBits(Rest(all), bits[k..], m - |Pack(all)|);
      PackSplit(all, bits[k..]);
      assert all + bits[k..] == pending + bits;
    } else {
      RoundTripTail(pending, bits, m);
    }
  }

  /** Decoding undoes encoding for every byte string, whatever the length of its ragged tail. */
  lemma {:induction false} RoundTrip(src: seq<Byte>)
    ensures DecodeSyms([], EncodeBits(BitsOf(src))) == src
  {
    RoundTripBits([], BitsOf(src), |src|);
    assert [] + BitsOf(src) == BitsOf(src);
    PackOfBits(src);
  }

  /** Every pair of digits stands for at least 13 bits. */
  lemma {:induction false} EncodedBound(bits: seq<bool>)
    ensures 13 * |EncodeBits(bits)| <= 2 * |bits| + 12
    decreases |bits|
  {
    if |bits| >= 14 {
      EncodedBound(bits[Width(Val(bits[..13]))..]);
    } else if Val(bits) > 90 {
      LargeNeedsSeven(bits);
    }
  }

  /** Every pair of digits stands for at most 14 bits. */
  lemma {:induction false} DecodedBits(pending: seq<bool>, syms: seq<Sym>, m: nat)
    requires |pending| < 8 && 2 * m <= |syms| <= 2 * m + 1
    ensures 8 * |DecodeSyms(pending, syms)| <= |pending| + 14 * m + 8 * (|syms| - 2 * m)
    decreases |syms|
  {
    if |syms| >= 2 {
      var bits := PairBits(pending, syms[0], syms[1]);
      DecodedBits(Rest(bits), syms[2..], m - 1);
      assert DecodeSyms(pending, syms) == Pack(bits) + DecodeSyms(Rest(bits), syms[2..]);
    }
  }

  lemma {:induction false} DecodeHead(pending: seq<bool>, syms: seq<Sym>, rest: seq<Sym>)
    requires |syms| >= 2 && rest == syms[2..]
    ensures var bits := PairBits(pending, syms[0], syms[1]);
            DecodeSyms(pending, syms) == Pack(bits) + DecodeSyms(Rest(bits), rest)
  {
  }

  lemma {:induction false} NoSyms(pending: seq<bool>, syms: seq<Sym>)
    requires syms == []
    ensures DecodeSyms(pending, syms) == []
  {
  }

  /** Digits may be decoded pair by pair. */
  lemma {:induction false} DecodeAppend(pending: seq<bool>, a: seq<Sym>, b: seq<Sym>, m: nat)
    requires |pending| < 8 && |a| == 2 * m
    ensures DecodeSyms(pending, a + b) == DecodeSyms(pending, a) + DecodeSyms(PendingAfter(pending, a), b)
    decreases |a|
  {
    hide DecodeSyms, Pack, PairBits;
    if m == 0 {
      assert a + b == b;
      NoSyms(pending, a);
    } else {
      var bits := PairBits(pending, a[0], a[1]);
      assert (a + b)[2..] == a[2..] + b;
      DecodeAppend(Rest(bits), a[2..], b, m - 1);
      DecodeHead(pending, a + b, a[2..] + b);
      DecodeHead(pending, a, a[2..]);
      var x, y, z := Pack(bits), DecodeSyms(Rest(bits), a[2..]), DecodeSyms(PendingAfter(Rest(bits), a[2..]), b);
      assert x + (y + z) == (x + y) + z;
    }
  }

  lemma {:induction false} PendingAppend(pending: seq<bool>, a: seq<Sym>, b: seq<Sym>, m: nat)
    requires |pending| < 8 && |a| == 2 * m
    ensures PendingAfter(pending, a + b) == PendingAfter(PendingAfter(pending, a), b)
    decreases |a|
  {
    if m == 0 {
      assert a + b == b;
    } else {
      assert (a + b)[2..] == a[2..] + b;
      PendingAppend(Rest(PairBits(pending, a[0], a[1])), a[2..], b, m - 1);
    }
  }

  /** No string of digits overruns a buffer of `DecodedLen`. */
  lemma {:induction false} DecodedBound(syms: seq<Sym>)
    ensures |DecodeSyms([], syms)| <= DecodedLen(|syms|)
  {
    DecodedBits([], syms, |syms| / 2);
  }

  // ---- The same as arithmetic

  /** The bytes as one number, the first byte least significant. */
  function Number(src: seq<Byte>): (v: nat)
  {
    if src == [] then 0 else src[0] + 256 * Number(src[1..])
  }

  /** The digits of a number of so many bits: 13 bits at a time, or 14 where the 13 spell at most 88. */
  function NumberDigits(v: nat, bits: nat): (syms: seq<nat>)
    decreases bits
  {
    if bits >= 14 then
      var k := if v % 8192 > 88 then 13 else 14;
      var chunk := v % (if k == 13 then 8192 else 16384);
      [chunk % 91, chunk / 91] + NumberDigits(v / (if k == 13 then 8192 else 16384), bits - k)
    else if bits == 0 then []
    else if bits > 7 || v > 90 then [v % 91, v / 91]
    else [v]
  }

  lemma {:induction false} ValNumber(src: seq<Byte>)
    ensures Val(BitsOf(src)) == Number(src)
    decreases |src|
  {
    if src != [] {
      ValNumber(src[1..]);
      PowersOfTwo();
      ValOfDigits(src[0], 8);
      ValAppend(Digits(src[0], 8), BitsOf(src[1..]));
    } else {
      assert BitsOf(src) == [];
    }
  }

  lemma {:induction false} ChunkOf(bits: seq<bool>)
    requires |bits| >= 14
    ensures Width(Val(bits[..13])) == if Val(bits) % 8192 > 88 then 13 else 14
    ensures var k, d := Width(Val(bits[..13])), if Val(bits) % 8192 > 88 then 8192 else 16384;
            Val(bits[..k]) == Val(bits) % d && Val(bits[k..]) == Val(bits) / d
  {
    hide Val;
    PowersOfTwo();
    ValSplit(bits, 13);
    ValSplit(bits, 14);
    assert Val(bits) % 8192 % 8192 == Val(bits) % 8192;
  }

  ghost predicate SameDigits(syms: seq<Sym>, digits: seq<nat>)
  {
    |syms| == |digits| && forall i :: 0 <= i < |syms| ==> syms[i] == digits[i]
  }

  lemma {:induction false} EncodeNumber(bits: seq<bool>)
    ensures SameDigits(EncodeBits(bits), NumberDigits(Val(bits), |bits|))
    decreases |bits|
  {
    hide Val;
    if |bits| >= 14 {
      ChunkOf(bits);
      PairBound(bits);
      var k := Width(Val(bits[..13]));
      hide Width;
      EncodeNumber(bits[k..]);
      var chunk := Val(bits[..k]);
      var rest, digits := EncodeBits(bits[k..]), NumberDigits(Val(bits[k..]), |bits[k..]|);
      assert EncodeBits(bits) == [chunk % 91, chunk / 91] + rest;
      assert NumberDigits(Val(bits), |bits|) == [chunk % 91, chunk / 91] + digits;
    } else if bits != [] {
      ShortBound(bits);
    }
  }

  /** The text of some bytes spells the digits of the number they are, least significant first. */
  lemma {:induction false} EncodeArithmetic(src: seq<Byte>)
    ensures SameDigits(EncodeBits(BitsOf(src)), NumberDigits(Number(src), 8 * |src|))
  {
    ValNumber(src);
    EncodeNumber(BitsOf(src));
  }
}
