/** The deposit notice an observer sends to the keeper: written here, read there. */
module DepositExtra {
  import opened Options
  import opened Bits
  import opened BigEndian

  const BITCOIN: Byte := 1
  const ETHEREUM: Byte := 2
  const POLYGON: Byte := 6
  const LITECOIN: Byte := 5

  predicate Utxo(chain: Byte)
  {
    chain == BITCOIN || chain == LITECOIN
  }

  predicate Evm(chain: Byte)
  {
    chain == ETHEREUM || chain == POLYGON
  }

  /** `address` is the contract of an Ethereum asset; other chains have none. */
  datatype Deposit = Deposit(chain: Byte, asset: Bytes, hash: Bytes, address: Bytes, index: nat, amount: nat)
  {
    predicate Valid()
    {
      && (Utxo(chain) || Evm(chain))
      && |asset| == 16 && |hash| == 32
      && |address| == (if Evm(chain) then 20 else 0)
      && index < Pow256(8)
    }
  }

  const INT64: nat := 0x8000_0000_0000_0000

  /** `encodeKeeperExtra`. */
  function Encode(d: Deposit): (extra: Bytes)
  {
    [d.chain] + d.asset + d.hash + (if Evm(d.chain) then d.address else []) + Fixed(d.index, 8) + Shortest(d.amount)
  }

  /** `parseDepositExtra`; an extra too short for its chain panics in the source. */
  function Parse(extra: Bytes): (r: Option<Deposit>)
  {
    if |extra| < 57 then None
    else
      var chain := extra[0];
      if Utxo(chain) then
        var amount := Value(extra[57..]);
        if amount >= INT64 then None
        else Some(Deposit(chain, extra[1..17], extra[17..49], [], Value(extra[49..57]), amount))
      else if Evm(chain) && |extra| >= 77 then
        Some(Deposit(chain, extra[1..17], extra[17..49], extra[49..69], Value(extra[69..77]), Value(extra[77..])))
      else None
  }

  /** Where each part is written: chain, asset, transaction, contract if there is one, index in 8 bytes, shortest amount. */
  lemma {:induction false} Layout(d: Deposit)
    requires d.Valid()
    ensures var e, n := Encode(d), if Evm(d.chain) then 69 else 49;
            && |e| >= n + 8 && e[0] == d.chain && e[1..17] == d.asset && e[17..49] == d.hash && e[49..n] == d.address
            && Value(e[n..n + 8]) == d.index && Value(e[n + 8..]) == d.amount && (|e| > n + 8 ==> e[n + 8] != 0)
  {
    hide Value, Fixed, Shortest, Pow256;
    ValueFixed(d.index, 8);
    ValueShortest(d.amount);
    NoLeadingZero(d.amount);
    var e, n := Encode(d), if Evm(d.chain) then 69 else 49;
    assert e[1..17] == d.asset && e[17..49] == d.hash && e[49..n] == d.address && e[n..n + 8] == Fixed(d.index, 8) && e[n + 8..] == Shortest(d.amount);
  }

  lemma {:induction false} NoLeadingZero(v: nat)
    ensures v > 0 ==> Shortest(v) != [] && Shortest(v)[0] != 0
    decreases v
  {
    if v >= 256 {
      NoLeadingZero(v / 256);
    } else if v > 0 {
      assert Shortest(v / 256) == [];
    }
  }

  /** The keeper reads exactly the deposit that was written, unless the amount is too large for its chain. */
  lemma {:induction false} RoundTrip(d: Deposit)
    requires d.Valid()
    ensures Parse(Encode(d)) == if Utxo(d.chain) && d.amount >= INT64 then None else Some(d)
  {
    hide Value, Fixed, Shortest, Pow256;
    Layout(d);
    assert !Evm(d.chain) ==> d.address == [];
  }

  /** No two deposits are written the same way. */
  lemma {:induction false} Injective(d: Deposit, e: Deposit)
    requires d.Valid() && e.Valid() && Encode(d) == Encode(e)
    requires Utxo(d.chain) ==> d.amount < INT64
    ensures d == e
  {
    RoundTrip(d);
    RoundTrip(e);
  }
}
