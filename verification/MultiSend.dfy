/**
 The packed calls of a multi-send: built from a list of outputs, and read back by offset.

 An address is its 20 bytes; its text is the checksummed spelling of them.
 */
module MultiSend {
  import opened Bits
  import opened BigEndian

  type Address = b: Bytes | |b| == 20 witness Zeros(20)

  const EMPTY: Address := Zeros(20)
  const CALL: Byte := 0
  const TRANSFER: Bytes := [0xa9, 0x05, 0x9c, 0xbb]
  const GUARD_SAFE: Bytes := [0x59, 0x33, 0x5a, 0xa2]

  /** What a transaction pays: a token, or the native coin for the empty address. */
  datatype Output = Output(token: Address, destination: Address, amount: nat)

  predicate InRange(amount: nat)
  {
    amount < Pow256(32)
  }

  // ---- Building

  function TransferData(receiver: Address, amount: nat): (data: Bytes)
  {
    TRANSFER + LeftPad(receiver, 32) + LeftPad(Shortest(amount), 32)
  }

  function MetaTx(to: Address, amount: nat, data: Bytes): (meta: Bytes)
  {
    [CALL] + to + LeftPad(Shortest(amount), 32) + LeftPad(Shortest(|data|), 32) + data
  }

  function Call(o: Output): (meta: Bytes)
  {
    if o.token == EMPTY then MetaTx(o.destination, o.amount, [])
    else MetaTx(o.token, 0, TransferData(o.destination, o.amount))
  }

  function Packed(outputs: seq<Output>): (data: Bytes)
    decreases |outputs|
  {
    if outputs == [] then [] else Packed(outputs[..|outputs| - 1]) + Call(outputs[|outputs| - 1])
  }

  /** `buildMultiSendData`, up to the contract encoding around it. */
  method BuildMultiSendData(outputs: seq<Output>) returns (data: Bytes)
    ensures data == Packed(outputs)
    ensures (forall i :: 0 <= i < |outputs| ==> InRange(outputs[i].amount)) ==> Parsed(data) == Read(outputs)
  {
    hide Parsed, MetaTx, TransferData, InRange;
    data := [];
    for n := 0 to |outputs|
      invariant data == Packed(outputs[..n])
    {
      var o := outputs[n];
      var to, amount, inner := o.destination, o.amount, [];
      if o.token != EMPTY {
        to, amount, inner := o.token, 0, TransferData(o.destination, o.amount);
      }
      assert outputs[..n + 1][..n] == outputs[..n];
      data := data + MetaTx(to, amount, inner);
    }
    assert outputs[..|outputs|] == outputs;
    if forall i :: 0 <= i < |outputs| ==> InRange(outputs[i].amount) { PackedReads(outputs); }
  }

  lemma {:induction false} PackedReads(outputs: seq<Output>)
    requires forall i :: 0 <= i < |outputs| ==> InRange(outputs[i].amount)
    ensures Parsed(Packed(outputs)) == Read(outputs)
  {
    assert Parsed([]) == Read([]);
    hide Parsed, Packed;
    PackedParses(outputs, []);
    assert Packed(outputs) + [] == Packed(outputs);
    assert outputs + [] == outputs;
  }

  // ---- Reading back

  /** What comes of reading: a value, an error, or a slice past the end. */
  datatype Reading<+T> = Read(value: T) | Malformed | Panic
  {
    predicate IsFailure() { !Read? }

    function PropagateFailure<U>(): Reading<U>
      requires !Read?
    {
      if Malformed? then Malformed else Panic
    }

    function Extract(): T
      requires Read?
    {
      value
    }
  }

  function Prepended(outputs: seq<Output>, r: Reading<seq<Output>>): Reading<seq<Output>>
  {
    match r
    case Read(more) => Read(outputs + more)
    case Malformed => Malformed
    case Panic => Panic
  }

  const HEAD: nat := 85
  const TRANSFER_SIZE: nat := 68

  /** One call at the start of the bytes, and how many bytes it takes. */
  function ParsedCall(b: Bytes): (r: Reading<(Output, nat)>)
    ensures r.Read? ==> 0 < r.value.1
  {
    if |b| < HEAD then Panic
    else
      var to: Address := b[1..21];
      var plain := Output(EMPTY, to, Value(b[21..53]));
      var size := Value(b[53..85]);
      if size == TRANSFER_SIZE then
        if |b| < HEAD + TRANSFER_SIZE then Panic
        else
          var data := b[85..153];
          if data[..4] == GUARD_SAFE then Read((plain, HEAD + TRANSFER_SIZE))
          else if data[..4] == TRANSFER then Read((Output(to, data[16..36], Value(data[36..68])), HEAD + TRANSFER_SIZE))
          else Malformed
      else Read((plain, HEAD + size))
  }

  function Parsed(b: Bytes): (r: Reading<seq<Output>>)
    decreases |b|
  {
    if b == [] then Read([])
    else
      var (o, n) :- ParsedCall(b);
      if n > |b| then Panic
      else
        var rest :- Parsed(b[n..]);
        Read([o] + rest)
  }

  /** `parseMultiSendData`: walks over the calls by offset. */
  method ParseMultiSendData(b: Bytes) returns (r: Reading<seq<Output>>)
    ensures r == Parsed(b)
  {
    hide ParsedCall;
    var outputs := [];
    var offset := 0;
    assert b[0..] == b && (Parsed(b).Read? ==> [] + Parsed(b).value == Parsed(b).value);
    while offset != |b|
      invariant offset <= |b|
      invariant Parsed(b) == Prepended(outputs, Parsed(b[offset..]))
      decreases |b| - offset
    {
      var call := ParsedCall(b[offset..]);
      if call.Malformed? { return Malformed; }
      if call.Panic? { return Panic; }
      var (o, n) := call.value;
      if offset + n > |b| { return Panic; }
      assert b[offset..][n..] == b[offset + n..];
      ghost var rest := Parsed(b[offset + n..]);
      if rest.Read? { assert outputs + ([o] + rest.value) == (outputs + [o]) + rest.value; }
      outputs := outputs + [o];
      offset := offset + n;
    }
    assert b[offset..] == [] && outputs + [] == outputs;
    return Read(outputs);
  }

  // ---- The round trip

  lemma {:induction false} Fields(to: Bytes, a: Bytes, n: Bytes, data: Bytes, rest: Bytes)
    requires |to| == 20 && |a| == 32 && |n| == 32
    ensures var b := [CALL] + to + a + n + data + rest;
            b[1..21] == to && b[21..53] == a && b[53..85] == n && b[85..85 + |data|] == data && b[85 + |data|..] == rest
  {
  }

  lemma {:induction false} HeadOf(to: Address, amount: nat, data: Bytes, rest: Bytes)
    requires InRange(amount) && |data| < 256
    ensures var b := MetaTx(to, amount, data) + rest;
            && |MetaTx(to, amount, data)| == HEAD + |data|
            && b[1..21] == to && Value(b[21..53]) == amount && Value(b[53..85]) == |data|
            && b[85..85 + |data|] == data && b[85 + |data|..] == rest
  {
    hide Value, Shortest, Pow256;
    PaddedNumber(amount, 32);
    Small256();
    PaddedNumber(|data|, 32);
    Fields(to, LeftPad(Shortest(amount), 32), LeftPad(Shortest(|data|), 32), data, rest);
  }

  lemma {:induction false} Small256()
    ensures 256 <= Pow256(32)
  {
    assert Pow256(1) == 256;
    Growing(1, 32);
  }

  lemma {:induction false} Growing(j: nat, k: nat)
    requires j <= k
    ensures Pow256(j) <= Pow256(k)
    decreases k - j
  {
    if j < k { Growing(j, k - 1); }
  }

  lemma {:induction false} TransferOf(receiver: Address, amount: nat)
    requires InRange(amount)
    ensures var data := TransferData(receiver, amount);
            |data| == TRANSFER_SIZE && data[..4] == TRANSFER && data[16..36] == receiver && Value(data[36..68]) == amount
  {
    PaddedNumber(amount, 32);
    var data := TransferData(receiver, amount);
    assert LeftPad(receiver, 32)[12..] == receiver;
    assert data[..4] == TRANSFER;
    assert data[4..36] == LeftPad(receiver, 32);
    assert data[16..36] == receiver;
    assert data[36..68] == LeftPad(Shortest(amount), 32);
  }

  lemma {:induction false} CallParses(o: Output, rest: Bytes)
    requires InRange(o.amount)
    ensures ParsedCall(Call(o) + rest) == Read((o, |Call(o)|)) && (Call(o) + rest)[|Call(o)|..] == rest && Call(o) != []
  {
    hide Value, Shortest, Pow256, LeftPad, MetaTx, TransferData;
    if o.token == EMPTY {
      HeadOf(o.destination, o.amount, [], rest);
    } else {
      TransferOf(o.destination, o.amount);
      assert InRange(0) by { Small256(); }
      HeadOf(o.token, 0, TransferData(o.destination, o.amount), rest);
    }
  }

  lemma {:induction false} FirstCall(o: Output, rest: Bytes)
    requires InRange(o.amount)
    ensures Parsed(Call(o) + rest) == Prepended([o], Parsed(rest))
  {
    hide ParsedCall, Call, Value, InRange;
    CallParses(o, rest);
  }

  /** The calls of a list of outputs, with more after them, are read back in order. */
  lemma {:induction false} PackedParses(outputs: seq<Output>, rest: Bytes)
    requires forall i :: 0 <= i < |outputs| ==> InRange(outputs[i].amount)
    ensures Parsed(Packed(outputs) + rest) == Prepended(outputs, Parsed(rest))
    decreases |outputs|
  {
    hide Parsed, Call, InRange;
    if outputs == [] {
      assert Packed(outputs) + rest == rest;
      if Parsed(rest).Read? { assert outputs + Parsed(rest).value == Parsed(rest).value; }
    } else {
      var before, o := outputs[..|outputs| - 1], outputs[|outputs| - 1];
      FirstCall(o, rest);
      PackedParses(before, Call(o) + rest);
      assert Packed(outputs) + rest == Packed(before) + (Call(o) + rest);
      if Parsed(rest).Read? { assert before + ([o] + Parsed(rest).value) == outputs + Parsed(rest).value; }
    }
  }
}
