/** The encoder and decoder loops of common/base91.go, over caller-supplied buffers. */
module Base91Codec {
  import opened Bits
  import opened Base91Spec

  datatype Result<T> = Ok(value: T) | InvalidCharacter

  class Encoding {
    const encode: seq<Byte>
    const decodeMap: seq<Byte>

    ghost predicate Valid()
    {
      && |encode| == 91 && |decodeMap| == 256
      && (forall i :: 0 <= i < 91 ==> decodeMap[encode[i]] == i)
      && (forall c :: 0 <= c < 256 && decodeMap[c] != 255 ==> decodeMap[c] < 91 && encode[decodeMap[c]] == c)
    }

    ghost function Text(syms: seq<Sym>): (text: seq<Byte>)
      requires Valid()
      ensures |text| == |syms|
    {
      seq(|syms|, i requires 0 <= i < |syms| => encode[syms[i]])
    }

    ghost predicate InAlphabet(text: seq<Byte>)
      requires Valid()
    {
      forall i :: 0 <= i < |text| ==> decodeMap[text[i]] != 255
    }

    ghost function Syms(text: seq<Byte>): (syms: seq<Sym>)
      requires Valid() && InAlphabet(text)
      ensures |syms| == |text|
    {
      seq(|text|, i requires 0 <= i < |text| => decodeMap[text[i]] as Sym)
    }

    /** The alphabet table and the digit table are inverse to each other. */
    lemma {:induction false} SymsOfText(syms: seq<Sym>)
      requires Valid()
      ensures InAlphabet(Text(syms)) && Syms(Text(syms)) == syms
    {
    }

    constructor (encoder: seq<Byte>)
      requires |encoder| == 91
      requires forall i, j :: 0 <= i < j < 91 ==> encoder[i] != encoder[j]
      ensures Valid() && encode == encoder
    {
      var m := new Byte[256](_ => 255);
      var i := 0;
      while i < |encoder|
        invariant 0 <= i <= 91
        invariant forall k :: 0 <= k < i ==> m[encoder[k]] == k
        invariant forall c :: 0 <= c < 256 && m[c] != 255 ==> m[c] < i && encoder[m[c]] == c
      {
        m[encoder[i]] := i;
        i := i + 1;
      }
      encode := encoder;
      decodeMap := m[..];
    }

    /** Writes one digit after the `n` already written. */
    method Put(dst: array<Byte>, n: nat, s: Sym, ghost done: seq<Sym>)
      requires Valid() && n < dst.Length && |done| == n && dst[..n] == Text(done)
      modifies dst
      ensures dst[..n + 1] == Text(done + [s])
      ensures forall k :: n < k < dst.Length ==> dst[k] == old(dst[k])
    {
      dst[n] := encode[s];
      assert dst[..n + 1] == dst[..n] + [encode[s]];
    }

    /** Cuts one chunk off a queue of at least 14 bits and writes its two digits. */
    method PutChunk(dst: array<Byte>, n: nat, queue: nat, numBits: nat,
                    ghost q: seq<bool>, ghost done: seq<Sym>, ghost more: seq<bool>)
      returns (queue': nat, numBits': nat, ghost q': seq<bool>, ghost done': seq<Sym>)
      requires Valid() && 14 <= numBits <= 21 && queue == Val(q) && numBits == |q|
      requires n + 2 <= dst.Length && |done| == n && dst[..n] == Text(done)
      modifies dst
      ensures queue' == Val(q') && numBits' == |q'| <= 13
      ensures |done'| == n + 2 && dst[..n + 2] == Text(done')
      ensures done + EncodeBits(q + more) == done' + EncodeBits(q' + more)
      ensures forall k :: n + 2 <= k < dst.Length ==> dst[k] == old(dst[k])
    {
      ChunkOfQueue(q, more);
      ghost var k := Width(Val(q[..13]));
      var v := queue % 8192;
      if v > 88 {
        queue', numBits' := queue / 8192, numBits - 13;
      } else {
        v := queue % 16384;
        queue', numBits' := queue / 16384, numBits - 14;
      }
      Put(dst, n, v % 91, done);
      Put(dst, n + 1, v / 91, done + [v % 91]);
      done', q' := done + [v % 91] + [v / 91], q[k..];
    }

    /** Writes the fewer than 14 bits that are left, as one digit or two. */
    method PutTail(dst: array<Byte>, n0: nat, queue: nat, numBits: nat, ghost q: seq<bool>, ghost done: seq<Sym>)
      returns (n: nat)
      requires Valid() && numBits <= 13 && queue == Val(q) && numBits == |q|
      requires n0 + |EncodeBits(q)| <= dst.Length && |done| == n0 && dst[..n0] == Text(done)
      modifies dst
      ensures n == n0 + |EncodeBits(q)| && dst[..n] == Text(done + EncodeBits(q))
      ensures forall k :: n <= k < dst.Length ==> dst[k] == old(dst[k])
    {
      n := n0;
      if numBits > 0 {
        ShortBound(q);
        Put(dst, n, queue % 91, done);
        n := n + 1;
        if numBits > 7 || queue > 90 {
          Put(dst, n, queue / 91, done + [queue % 91]);
          n := n + 1;
          assert done + EncodeBits(q) == done + [queue % 91] + [queue / 91];
        }
      }
    }

    /** Writes the encoding of `src`, and nothing past it, however tight the buffer. */
    method Encode(dst: array<Byte>, src: seq<Byte>) returns (n: nat)
      requires Valid() && dst.Length >= EncodedLen(|src|)
      modifies dst
      ensures n <= EncodedLen(|src|)
      ensures dst[..n] == Text(EncodeBits(BitsOf(src)))
      ensures forall k :: n <= k < dst.Length ==> dst[k] == old(dst[k])
    {
      hide EncodeBits, Val, Digits;
      ghost var all := EncodeBits(BitsOf(src));
      EncodedBound(BitsOf(src));
      assert Val([]) == 0 by { Empty(); }
      var queue: nat, numBits: nat := 0, 0;
      ghost var q: seq<bool>, done: seq<Sym> := [], [];
      n := 0;
      var i := 0;
      assert src[0..] == src && [] + BitsOf(src) == BitsOf(src);
      while i < |src|
        invariant 0 <= i <= |src|
        invariant queue == Val(q) && numBits == |q| <= 13
        invariant n == |done| && all == done + EncodeBits(q + BitsOf(src[i..]))
        invariant n <= |all| <= dst.Length && dst[..n] == Text(done)
        invariant forall k :: n <= k < dst.Length ==> dst[k] == old(dst[k])
      {
        ghost var more := BitsOf(src[i + 1..]);
        assert q + BitsOf(src[i..]) == (q + Digits(src[i], 8)) + more;
        queue := QueueByte(q, queue, numBits, src[i]);
        q := q + Digits(src[i], 8);
        numBits := numBits + 8;
        if numBits > 13 {
          ChunkOfQueue(q, more);
          queue, numBits, q, done := PutChunk(dst, n, queue, numBits, q, done, more);
          n := n + 2;
        }
        i := i + 1;
      }
      assert q + BitsOf(src[|src|..]) == q;
      n := PutTail(dst, n, queue, numBits, q, done);
    }

    /** Moves every whole byte of the queue to `dst`, at least one. */
    method PutBytes(dst: array<Byte>, n0: nat, queue0: nat, numBits0: nat, ghost q: seq<bool>)
      returns (n: nat, queue: nat, numBits: nat)
      requires 13 <= numBits0 == |q| && queue0 == Val(q) && n0 + |Pack(q)| <= dst.Length
      modifies dst
      ensures n == n0 + |Pack(q)| && dst[..n] == old(dst[..n0]) + Pack(q)
      ensures queue == Val(Rest(q)) && numBits == |Rest(q)|
      ensures forall k :: n <= k < dst.Length ==> dst[k] == old(dst[k])
    {
      n, queue, numBits := n0, queue0, numBits0;
      ghost var b := q;
      var ok := true;
      while ok
        invariant n0 <= n && queue == Val(b) && numBits == |b|
        invariant ok <==> numBits > 7
        invariant n + |Pack(b)| == n0 + |Pack(q)|
        invariant dst[..n] + Pack(b) == old(dst[..n0]) + Pack(q)
        invariant Rest(b) == Rest(q)
        invariant forall k :: n <= k < dst.Length ==> dst[k] == old(dst[k])
        decreases numBits
      {
        ByteOfQueue(b);
        dst[n] := queue % 256;
        assert dst[..n + 1] == dst[..n] + [queue % 256];
        n := n + 1;
        queue := queue / 256;
        numBits := numBits - 8;
        b := b[8..];
        ok := numBits > 7;
      }
      assert Pack(b) == [] && Rest(b) == b;
    }

    /** The byte of an odd last digit, computed with the shifted or of the source. */
    method LastByte(queue: nat, numBits: nat, v: Sym, ghost q: seq<bool>) returns (b: Byte)
      requires queue == Val(q) && numBits == |q| < 8
      ensures b == TailByte(q, v)
    {
      b := BitOr(queue, Shl(v, numBits)) % 256;
      TailByteValue(q, v);
    }

    /** Reads the pair of digits after the first `m` pairs. */
    method PutPair(dst: array<Byte>, n0: nat, queue0: nat, numBits0: nat, first: Sym, second: Sym,
                   ghost src: seq<Byte>, ghost m: nat)
      returns (n: nat, queue: nat, numBits: nat)
      requires Valid() && 2 * m + 1 < |src| && InAlphabet(src[..2 * m + 2])
      requires first == decodeMap[src[2 * m]] && second == decodeMap[src[2 * m + 1]]
      requires dst.Length >= DecodedLen(|src|) && Progress(src[..2 * m], dst[..], n0, queue0, numBits0)
      modifies dst
      ensures Progress(src[..2 * m + 2], dst[..], n, queue, numBits) && n0 <= n
      ensures forall k :: n <= k < dst.Length ==> dst[k] == old(dst[k])
    {
      PrefixBound(src, 2 * m + 2);
      ghost var q := PendingAfter([], Syms(src[..2 * m]));
      PairDecoded(src, m);
      var v: nat := first + 91 * (second as int);
      QueuePair(q, first, second);
      queue := BitOr(queue0, Shl(v, numBits0));
      numBits := if v % 8192 > 88 then numBits0 + 13 else numBits0 + 14;
      n, queue, numBits := PutBytes(dst, n0, queue, numBits, PairBits(q, first, second));
    }

    /**
     Writes the bytes `src` spells. A character outside the alphabet stops the decoder after the pairs
     before it; no input makes it write past `DecodedLen`.
     */
    method Decode(dst: array<Byte>, src: seq<Byte>) returns (n: nat, ok: bool)
      requires Valid() && dst.Length >= DecodedLen(|src|)
      modifies dst
      ensures ok <==> InAlphabet(src)
      ensures n <= DecodedLen(|src|)
      ensures ok ==> dst[..n] == DecodeSyms([], Syms(src))
      ensures !ok ==> exists m :: StoppedAfter(src, m, dst[..n])
      ensures forall k :: n <= k < dst.Length ==> dst[k] == old(dst[k])
    {
      hide DecodeSyms, PendingAfter, Val, StoppedAfter;
      var queue: nat, numBits: nat, v: int := 0, 0, -1;
      n := 0;
      var i := 0;
      ghost var m := 0;
      NothingRead(src[..0], dst[..]);
      while i < |src|
        invariant 0 <= i <= |src| && InAlphabet(src[..i])
        invariant i == if v == -1 then 2 * m else 2 * m + 1
        invariant v != -1 ==> v == decodeMap[src[2 * m]]
        invariant Progress(src[..2 * m], dst[..], n, queue, numBits)
        invariant forall k :: n <= k < dst.Length ==> dst[k] == old(dst[k])
      {
        if decodeMap[src[i]] == 255 {
          PrefixBound(src, 2 * m);
          Stops(src, m, dst[..], n, queue, numBits, i);
          return n, false;
        }
        if v == -1 {
          v := decodeMap[src[i]];
        } else {
          n, queue, numBits := PutPair(dst, n, queue, numBits, v, decodeMap[src[i]], src, m);
          v := -1;
          m := m + 1;
        }
        i := i + 1;
      }
      assert src[..|src|] == src;
      if v != -1 {
        n := PutLast(dst, n, queue, numBits, v, src, m);
      } else {
        PrefixBound(src, |src|);
      }
      ok := true;
    }

    /** An odd last digit. */
    method PutLast(dst: array<Byte>, n0: nat, queue: nat, numBits: nat, v: Sym, ghost src: seq<Byte>, ghost m: nat)
      returns (n: nat)
      requires Valid() && |src| == 2 * m + 1 && InAlphabet(src) && v == decodeMap[src[2 * m]]
      requires dst.Length >= DecodedLen(|src|) && Progress(src[..2 * m], dst[..], n0, queue, numBits)
      modifies dst
      ensures n == n0 + 1 <= DecodedLen(|src|) && dst[..n] == DecodeSyms([], Syms(src))
      ensures forall k :: n <= k < dst.Length ==> dst[k] == old(dst[k])
    {
      ghost var a := Syms(src[..2 * m]);
      assert Syms(src) == a + [v];
      DecodeAppend([], a, [v], m);
      DecodedBound(Syms(src));
      var b := LastByte(queue, numBits, v, PendingAfter([], a));
      dst[n0] := b;
      assert dst[..n0 + 1] == dst[..n0] + [b];
      n := n0 + 1;
    }

    /** The digits of `text` have been decoded into the first `n` bytes of `out`. */
    ghost predicate Progress(text: seq<Byte>, out: seq<Byte>, n: nat, queue: nat, numBits: nat)
      requires Valid()
    {
      && InAlphabet(text) && n <= |out|
      && out[..n] == DecodeSyms([], Syms(text))
      && queue == Val(PendingAfter([], Syms(text))) && numBits == |PendingAfter([], Syms(text))|
    }

    lemma {:induction false} NothingRead(text: seq<Byte>, out: seq<Byte>)
      requires Valid() && text == []
      ensures Progress(text, out, 0, 0, 0)
    {
    }

    lemma {:induction false} Stops(src: seq<Byte>, m: nat, out: seq<Byte>, n: nat, queue: nat, numBits: nat, i: nat)
      requires Valid() && i < |src| && (i == 2 * m || i == 2 * m + 1) && InAlphabet(src[..i]) && decodeMap[src[i]] == 255
      requires Progress(src[..2 * m], out, n, queue, numBits)
      ensures !InAlphabet(src) && StoppedAfter(src, m, out[..n])
    {
      assert i == 2 * m + 1 ==> src[..i][2 * m] == src[2 * m];
    }

    lemma {:induction false} PrefixBound(src: seq<Byte>, i: nat)
      requires Valid() && i <= |src| && InAlphabet(src[..i])
      ensures |DecodeSyms([], Syms(src[..i]))| <= DecodedLen(i) <= DecodedLen(|src|)
    {
      DecodedBound(Syms(src[..i]));
    }

    /** One more pair of digits: what it adds to the output and what it leaves waiting. */
    lemma {:induction false} PairDecoded(src: seq<Byte>, m: nat)
      requires Valid() && 2 * m + 2 <= |src| && InAlphabet(src[..2 * m]) && InAlphabet(src[..2 * m + 2])
      ensures decodeMap[src[2 * m]] < 91 && decodeMap[src[2 * m + 1]] < 91
      ensures var bits := PairBits(PendingAfter([], Syms(src[..2 * m])), decodeMap[src[2 * m]], decodeMap[src[2 * m + 1]]);
              && DecodeSyms([], Syms(src[..2 * m + 2])) == DecodeSyms([], Syms(src[..2 * m])) + Pack(bits)
              && PendingAfter([], Syms(src[..2 * m + 2])) == Rest(bits)
    {
      var text := src[..2 * m + 2];
      assert decodeMap[text[2 * m]] != 255 && decodeMap[text[2 * m + 1]] != 255;
      var a, b := Syms(src[..2 * m]), [decodeMap[src[2 * m]] as Sym, decodeMap[src[2 * m + 1]] as Sym];
      assert Syms(text) == a + b;
      DecodeAppend([], a, b, m);
      PendingAppend([], a, b, m);
      DecodeHead(PendingAfter([], a), b, []);
    }

    /** The decoder met its first foreign character in the pair after the first `m`, and wrote those. */
    ghost predicate StoppedAfter(src: seq<Byte>, m: nat, written: seq<Byte>)
      requires Valid()
    {
      && 2 * m < |src| && InAlphabet(src[..2 * m])
      && written == DecodeSyms([], Syms(src[..2 * m]))
      && (decodeMap[src[2 * m]] == 255
          || (2 * m + 1 < |src| && decodeMap[src[2 * m]] != 255 && decodeMap[src[2 * m + 1]] == 255))
    }
  }

  lemma {:induction false} Empty()
    ensures Val([]) == 0
  {
  }

  lemma {:induction false} ByteOfQueue(b: seq<bool>)
    requires |b| >= 8
    ensures Val(b) % 256 == Val(b[..8]) && Val(b) / 256 == Val(b[8..])
    ensures Pack(b) == [Val(b) % 256] + Pack(b[8..]) && Rest(b) == Rest(b[8..])
  {
    PowersOfTwo();
    ValSplit(b, 8);
  }

  lemma {:induction false} PairFits(a: Sym, b: Sym)
    ensures PairValue(a, b) < Pow2(Width(PairValue(a, b)))
  {
    PowersOfTwo();
  }

  lemma {:induction false} QueuePair(q: seq<bool>, a: Sym, b: Sym)
    ensures BitOr(Val(q), Shl(PairValue(a, b), |q|)) == Val(PairBits(q, a, b))
  {
    var v := PairValue(a, b);
    PairFits(a, b);
    ValOfDigits(v, Width(v));
    ValBound(q);
    OrIsAdd(Val(q), v, |q|);
    ValAppend(q, Digits(v, Width(v)));
  }

  lemma {:induction false} TailByteValue(q: seq<bool>, v: Sym)
    requires |q| < 8
    ensures BitOr(Val(q), Shl(v, |q|)) % 256 == TailByte(q, v)
  {
    ValBound(q);
    OrIsAdd(Val(q), v, |q|);
    var bits := q + Digits(v, 8);
    ValAppend(q, Digits(v, 8));
    PowersOfTwo();
    ValOfDigits(v, 8);
    ValSplit(bits, 8);
  }

  /** The queue word after a byte has been or-ed in above the waiting bits. */
  method QueueByte(ghost q: seq<bool>, queue: nat, numBits: nat, b: Byte) returns (r: nat)
    requires queue == Val(q) && numBits == |q|
    ensures r == Val(q + Digits(b, 8))
  {
    r := BitOr(queue, Shl(b, numBits));
    ValBound(q);
    OrIsAdd(queue, b, numBits);
    ValAppend(q, Digits(b, 8));
    PowersOfTwo();
    ValOfDigits(b, 8);
  }

  /** What the masks and shifts compute once at least 14 bits wait. */
  lemma {:induction false} ChunkOfQueue(q: seq<bool>, more: seq<bool>)
    requires |q| >= 14
    ensures var k := Width(Val(q[..13]));
            && Val(q[..k]) < 91 * 91
            && (Val(q) % 8192 > 88 <==> k == 13)
            && (k == 13 ==> Val(q[..k]) == Val(q) % 8192 && Val(q[k..]) == Val(q) / 8192)
            && (k == 14 ==> Val(q[..k]) == Val(q) % 16384 && Val(q[k..]) == Val(q) / 16384)
            && EncodeBits(q + more) == [Val(q[..k]) % 91, Val(q[..k]) / 91] + EncodeBits(q[k..] + more)
  {
    PairBound(q);
    ValSplit(q, 13);
    ValSplit(q, 14);
    PowersOfTwo();
    var all := q + more;
    var k := Width(Val(q[..13]));
    assert all[..13] == q[..13] && all[..k] == q[..k] && all[k..] == q[k..] + more;
  }

  /**
   The alphabet: A-Z, a-z, 0-9, then ! # $ % & ( ) * + , . / : ; < = > ? @ [ ] ^ _ ` { | } ~ and -.
   Of the printable characters it leaves out the space, the double quote, the apostrophe and the backslash.
   */
  function StdCharacter(i: Sym): (c: Byte)
  {
    if i < 26 then 65 + i
    else if i < 52 then 71 + i
    else if i < 62 then i - 4
    else if i == 62 then 33
    else if i < 67 then i - 28
    else if i < 72 then i - 27
    else if i < 74 then i - 26
    else if i < 81 then i - 16
    else if i == 81 then 91
    else if i < 86 then i + 11
    else if i < 90 then i + 37
    else 45
  }

  function EncodeStd(): (r: seq<Byte>)
    ensures |r| == 91 && forall i, j :: 0 <= i < j < 91 ==> r[i] != r[j]
    ensures forall i :: 0 <= i < 91 ==> 33 <= r[i] <= 126 && r[i] != 34 && r[i] != 39 && r[i] != 92
  {
    seq(91, i requires 0 <= i < 91 => StdCharacter(i))
  }

  function StdText(syms: seq<Sym>): (text: seq<Byte>)
    ensures |text| == |syms|
  {
    seq(|syms|, i requires 0 <= i < |syms| => StdCharacter(syms[i]))
  }

  /** `Base91Encode`: a buffer of `EncodedLen` bytes, cut to what was written. */
  method Base91Encode(src: seq<Byte>) returns (text: seq<Byte>)
    ensures text == StdText(EncodeBits(BitsOf(src)))
    ensures |text| <= EncodedLen(|src|)
  {
    var std := new Encoding(EncodeStd());
    var dst := new Byte[EncodedLen(|src|)];
    var n := std.Encode(dst, src);
    text := dst[..n];
  }

  /** `Base91Decode`: fails exactly on a text that is not spelt in the alphabet. */
  method Base91Decode(src: seq<Byte>) returns (r: Result<seq<Byte>>)
    ensures r.Ok? <==> exists syms :: StdText(syms) == src
    ensures forall syms :: StdText(syms) == src ==> r == Ok(DecodeSyms([], syms))
  {
    var std := new Encoding(EncodeStd());
    var dst := new Byte[DecodedLen(|src|)];
    var n, ok := std.Decode(dst, src);
    r := if ok then Ok(dst[..n]) else InvalidCharacter;
    if ok { assert StdText(std.Syms(src)) == src; }
    forall syms | StdText(syms) == src ensures ok && std.Syms(src) == syms {
      std.SymsOfText(syms);
      assert std.Text(syms) == src;
    }
  }

  /** Storing bytes as text and reading them back loses nothing. */
  method StoreAndLoad(src: seq<Byte>) returns (text: seq<Byte>, back: Result<seq<Byte>>)
    ensures back == Ok(src)
  {
    text := Base91Encode(src);
    back := Base91Decode(text);
    RoundTrip(src);
  }
}
