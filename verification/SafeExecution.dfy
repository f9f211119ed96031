/**
 What a safe transaction does when it is executed: a plain call to its destination or, for the multi-send contract,
 one call after another as that contract unpacks them.
 */
module SafeExecution {
  import opened Options
  import opened Bits
  import opened BigEndian
  import opened MultiSend
  import opened SafeTransaction

  /** Operation 0 is a call, operation 1 runs the code of the destination in the safe itself. */
  datatype Execution = Execution(operation: nat, to: Address, value: nat, data: Bytes)

  function Prefixed(c: Execution, r: Option<seq<Execution>>): Option<seq<Execution>>
  {
    if r.None? then None else Some([c] + r.value)
  }

  /** The multi-send contract: operation in 1 byte, destination in 20, value and length of the data in 32 each, the data. */
  function Executed(b: Bytes): (r: Option<seq<Execution>>)
    decreases |b|
  {
    if b == [] then Some([])
    else if |b| < 85 || |b| < 85 + Value(b[53..85]) then None
    else
      var n := Value(b[53..85]);
      Prefixed(Execution(b[0] as nat, b[1..21], Value(b[21..53]), b[85..85 + n]), Executed(b[85 + n..]))
  }

  /** The call moves the native coin, or asks the token contract for a transfer to the destination. */
  predicate Transfers(c: Execution, o: Output)
  {
    && c.operation == 0
    && (if o.token == Zeros(20) then c == Execution(0, o.destination, o.amount, [])
        else
          && c.to == o.token && c.value == 0 && |c.data| == 68 && c.data[..4] == [0xa9, 0x05, 0x9c, 0xbb]
          && c.data[4..16] == Zeros(12) && c.data[16..36] == o.destination && Value(c.data[36..68]) == o.amount)
  }

  ghost predicate AllTransfer(cs: seq<Execution>, outputs: seq<Output>)
  {
    |cs| == |outputs| && forall i :: 0 <= i < |cs| ==> Transfers(cs[i], outputs[i])
  }

  lemma {:induction false} TransferCall(o: Output)
    requires InRange(o.amount) && o.token != EMPTY
    ensures Transfers(Execution(0, o.token, 0, TransferData(o.destination, o.amount)), o)
  {
    TransferOf(o.destination, o.amount);
    hide Value;
    var data := TransferData(o.destination, o.amount);
    assert data[4..36] == LeftPad(o.destination, 32);
    assert data[4..16] == data[4..36][..12] == Zeros(12);
  }

  lemma {:induction false} CallExecutes(o: Output, rest: Bytes) returns (c: Execution)
    requires InRange(o.amount)
    ensures Transfers(c, o) && Executed(Call(o) + rest) == Prefixed(c, Executed(rest))
  {
    hide Value, Shortest, Pow256, LeftPad, TransferData;
    var to, amount, data := o.destination, o.amount, [];
    if o.token != EMPTY {
      TransferOf(o.destination, o.amount);
      TransferCall(o);
      to, amount, data := o.token, 0, TransferData(o.destination, o.amount);
      assert InRange(0) by { Small256(); }
    }
    c := Execution(0, to, amount, data);
    HeadOf(to, amount, data, rest);
    assert (MetaTx(to, amount, data) + rest)[0] == 0;
  }

  /** The packed calls, executed by the multi-send contract, make exactly the payments they were packed from, in order. */
  lemma {:induction false} PackedExecutes(outputs: seq<Output>, rest: Bytes) returns (cs: seq<Execution>)
    requires forall i :: 0 <= i < |outputs| ==> InRange(outputs[i].amount)
    ensures AllTransfer(cs, outputs)
    ensures Executed(Packed(outputs) + rest) == if Executed(rest).None? then None else Some(cs + Executed(rest).value)
    decreases |outputs|
  {
    hide Executed, Call, InRange, Transfers;
    if outputs == [] {
      cs := [];
      assert Packed(outputs) + rest == rest;
      if Executed(rest).Some? { assert cs + Executed(rest).value == Executed(rest).value; }
    } else {
      var before, o := outputs[..|outputs| - 1], outputs[|outputs| - 1];
      var c := CallExecutes(o, rest);
      var first := PackedExecutes(before, Call(o) + rest);
      cs := first + [c];
      assert Packed(outputs) + rest == Packed(before) + (Call(o) + rest);
      if Executed(rest).Some? { assert first + ([c] + Executed(rest).value) == cs + Executed(rest).value; }
    }
  }

  /** What is asked for is what the transaction does when it is executed, and nothing else is in it. */
  ghost predicate Does(ch: Chain, t: Transaction, outputs: seq<Output>)
  {
    if |outputs| == 1 then Transfers(Execution(t.operation, t.destination, t.value, t.data), outputs[0])
    else
      && t.operation == 1 && t.destination == ch.multiSend && t.value == 0
      && exists b: Bytes, cs: seq<Execution> :: Carries(ch, t, b, cs) && AllTransfer(cs, outputs)
  }

  predicate Carries(ch: Chain, t: Transaction, b: Bytes, cs: seq<Execution>)
  {
    t.data == ch.pack(b) && Executed(b) == Some(cs)
  }

  /** Every list of outputs with amounts in range gives a transaction of this safe and nonce that pays exactly them. */
  lemma {:induction false} CreateExecutes(ch: Chain, chain: nat, id: Bytes, safe: Bytes, outputs: seq<Output>, nonce: nat)
    requires outputs != [] && forall i :: 0 <= i < |outputs| ==> InRange(outputs[i].amount)
    ensures var r := Create(ch, KindOf(outputs), chain, id, safe, outputs, nonce);
            && r.Some?
            && var t := r.value;
               && t.chain == chain && t.safe == safe && t.nonce == nonce && t.signatures == [[], [], []]
               && t.message == ch.digest(t.(hash := [], message := [])) && t.hash == ch.name(id, t.message)
               && Does(ch, t, outputs)
  {
    hide Executed, Packed, TransferData, Value, InRange, Transfers;
    var t := Create(ch, KindOf(outputs), chain, id, safe, outputs, nonce).value;
    if |outputs| > 1 {
      var cs := PackedExecutes(outputs, []);
      NothingExecutes();
      assert Packed(outputs) + [] == Packed(outputs) && cs + [] == cs;
      assert Carries(ch, t, Packed(outputs), cs);
    } else {
      assert outputs == [outputs[0]];
      if outputs[0].token != EMPTY { TransferCall(outputs[0]); } else { PlainCall(outputs[0]); }
    }
  }

  lemma {:induction false} PlainCall(o: Output)
    requires o.token == EMPTY
    ensures Transfers(Execution(0, o.destination, o.amount, []), o)
  {
  }

  lemma {:induction false} NothingExecutes()
    ensures Executed([]) == Some([])
  {
  }
}
