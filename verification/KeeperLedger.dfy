/**
 The tables of the keeper that carry Bitcoin and Litecoin safes, and the store transactions on them.

 A store transaction either commits, and is then a function from the tables to the new tables, or fails,
 in which case nothing changes and the caller stops.
 */
module KeeperLedger {
  import opened Options
  import opened KeeperTypes

  datatype Chain = Bitcoin | Litecoin

  /** `ValueDust`, in satoshi. */
  function Dust(chain: Chain): (d: nat)
  {
    match chain
    case Bitcoin => 1000
    case Litecoin => 10000
  }

  const MAX_UNSPENT: nat := 512

  /** `SafeSignatureTimeout`, in seconds. */
  const SIGNATURE_TIMEOUT: nat := 600

  datatype TxOut = Pay(address: Address, satoshi: nat) | Data

  datatype Request = Request(state: State, amount: nat)

  datatype Safe = Safe(chain: Chain, address: Address, signer: Key, observer: Key, state: State, nonce: nat)

  datatype Output = Output(address: Address, satoshi: nat, multisig: bool, state: State, spentBy: Option<Hash>)

  /** `recipients` is the data column; `inputs`, `outs` and `sighashes` are those of the raw transaction. */
  datatype Transaction = Transaction(
    holder: Holder, state: State, requestId: Rid, proposed: bool,
    inputs: seq<OutPoint>, outs: seq<TxOut>, sighashes: seq<string>, recipients: seq<TxOut>)

  datatype SignatureRequest = SignatureRequest(
    hash: Hash, index: nat, signer: Key, message: string, signature: Option<Sig>, state: State, createdAt: int)

  /** `order` lists the outputs as they were recorded. */
  datatype Ledger = Ledger(
    requests: map<Rid, Request>,
    results: map<string, Reply>,
    safes: map<Holder, Safe>,
    order: seq<OutPoint>,
    outputs: map<OutPoint, Output>,
    deposits: set<OutPoint>,
    transactions: map<Hash, Transaction>,
    signatures: map<Rid, SignatureRequest>)

  function Empty(): Ledger
  {
    Ledger(map[], map[], map[], [], map[], {}, map[], map[])
  }

  // ---- Requests and action results

  /** `WriteRequestIfNotExist`. */
  function WriteRequest(l: Ledger, rid: Rid, amount: nat): (l': Ledger)
  {
    if rid in l.requests then l else l.(requests := l.requests[rid := Request(Initial, amount)])
  }

  function MarkDone(l: Ledger, rid: Rid): (r: Option<Ledger>)
  {
    if rid !in l.requests then None
    else Some(l.(requests := l.requests[rid := l.requests[rid].(state := Done)]))
  }

  function WriteResult(l: Ledger, oid: string, reply: Reply): (r: Option<Ledger>)
  {
    if oid in l.results then None else Some(l.(results := l.results[oid := reply]))
  }

  /** `FailRequest`. */
  function FailRequest(l: Ledger, rid: Rid, oid: string, reply: Reply): (r: Option<Ledger>)
  {
    if rid !in l.requests || l.requests[rid].state != Initial then None
    else WriteResult(l.(requests := l.requests[rid := l.requests[rid].(state := Failed)]), oid, reply)
  }

  // ---- Safes and deposits

  /** The unique indexes of the table. */
  predicate Unused(l: Ledger, s: Safe)
  {
    forall h :: h in l.safes ==>
      l.safes[h].address != s.address && l.safes[h].signer != s.signer && l.safes[h].observer != s.observer
  }

  function WriteSafe(l: Ledger, holder: Holder, s: Safe, rid: Rid, oid: string, reply: Reply): (r: Option<Ledger>)
  {
    if holder in l.safes || !Unused(l, s) then None
    else
      var l1 :- MarkDone(l.(safes := l.safes[holder := s]), rid);
      WriteResult(l1, oid, reply)
  }

  /** `WriteBitcoinOutputFromRequest`. */
  function WriteOutput(l: Ledger, s: Safe, point: OutPoint, satoshi: nat, rid: Rid, oid: string, reply: Reply): (r: Option<Ledger>)
  {
    if point in l.outputs || point in l.deposits then None
    else
      var l1 :- MarkDone(
        l.(order := l.order + [point],
           outputs := l.outputs[point := Output(s.address, satoshi, true, Initial, None)],
           deposits := l.deposits + {point}), rid);
      WriteResult(l1, oid, reply)
  }

  /** `ListAllBitcoinUTXOsForHolder`: the unspent outputs of an address. */
  function Unspent(outputs: map<OutPoint, Output>, order: seq<OutPoint>, address: Address): (s: seq<OutPoint>)
    decreases |order|
  {
    if order == [] then []
    else
      var o := order[0];
      (if o in outputs && outputs[o].address == address && outputs[o].state == Initial then [o] else [])
      + Unspent(outputs, order[1..], address)
  }

  function SumSatoshi(outputs: map<OutPoint, Output>, points: seq<OutPoint>): (n: nat)
    decreases |points|
  {
    if points == [] then 0
    else (if points[0] in outputs then outputs[points[0]].satoshi else 0) + SumSatoshi(outputs, points[1..])
  }

  // ---- Transactions

  predicate RequestTaken(l: Ledger, rid: Rid)
  {
    exists h :: h in l.transactions && l.transactions[h].requestId == rid
  }

  /** The updates of one loop: every point gets the state and the spender, and must exist. */
  function Spend(outputs: map<OutPoint, Output>, points: seq<OutPoint>, hash: Hash, state: State): (r: Option<map<OutPoint, Output>>)
    decreases |points|
  {
    if points == [] then Some(outputs)
    else if points[0] !in outputs then None
    else Spend(outputs[points[0] := outputs[points[0]].(state := state, spentBy := Some(hash))], points[1..], hash, state)
  }

  /** `writeTransactionWithRequest`. */
  function InsertTransaction(l: Ledger, hash: Hash, t: Transaction, points: seq<OutPoint>, state: State): (r: Option<Ledger>)
  {
    if hash in l.transactions || RequestTaken(l, t.requestId) then None
    else
      var l1 :- MarkDone(l.(transactions := l.transactions[hash := t]), t.requestId);
      var outputs :- Spend(l1.outputs, points, hash, state);
      Some(l1.(outputs := outputs))
  }

  /** `WriteTransactionWithRequest`. */
  function WriteTransaction(l: Ledger, hash: Hash, t: Transaction, points: seq<OutPoint>, oid: string, reply: Reply): (r: Option<Ledger>)
  {
    var l1 :- InsertTransaction(l, hash, t, points, Pending);
    WriteResult(l1, oid, reply)
  }

  /** `CloseAccountByTransactionWithRequest`. */
  function CloseByTransaction(l: Ledger, hash: Hash, t: Transaction, points: seq<OutPoint>, oid: string, reply: Reply): (r: Option<Ledger>)
  {
    if hash in l.transactions then
      var l1 :- MarkDone(l, t.requestId);
      WriteResult(l1, oid, reply)
    else
      var l1 :- CloseSafe(l, t.holder);
      var l2 :- InsertTransaction(l1, hash, t, points, Done);
      WriteResult(l2, oid, reply)
  }

  function CloseSafe(l: Ledger, holder: Holder): (r: Option<Ledger>)
  {
    if holder !in l.safes || l.safes[holder].state != Done then None
    else Some(l.(safes := l.safes[holder := l.safes[holder].(state := Failed)]))
  }

  /** Gives every input back, if it is still held by the transaction. */
  function Release(outputs: map<OutPoint, Output>, points: seq<OutPoint>, hash: Hash, address: Address): (r: Option<map<OutPoint, Output>>)
    decreases |points|
  {
    if points == [] then Some(outputs)
    else if points[0] !in outputs || outputs[points[0]].spentBy != Some(hash) || outputs[points[0]].address != address then None
    else Release(outputs[points[0] := outputs[points[0]].(state := Initial, spentBy := None)], points[1..], hash, address)
  }

  function SetState(l: Ledger, hash: Hash, state: State): (l': Ledger)
    requires hash in l.transactions
  {
    l.(transactions := l.transactions[hash := l.transactions[hash].(state := state)])
  }

  /** `RevokeTransactionWithRequest`. */
  function RevokeTransaction(l: Ledger, hash: Hash, t: Transaction, s: Safe, rid: Rid, oid: string, reply: Reply): (r: Option<Ledger>)
  {
    var outputs :- Release(l.outputs, t.inputs, hash, s.address);
    if hash !in l.transactions || l.transactions[hash].state != Initial then None
    else
      var l1 :- MarkDone(SetState(l.(outputs := outputs), hash, Failed), rid);
      WriteResult(l1, oid, reply)
  }

  // ---- Signature requests

  type Wanted = (Rid, SignatureRequest)

  function InsertSignatures(sigs: map<Rid, SignatureRequest>, wanted: seq<Wanted>): (r: Option<map<Rid, SignatureRequest>>)
    decreases |wanted|
  {
    if wanted == [] then Some(sigs)
    else if wanted[0].0 in sigs then None
    else InsertSignatures(sigs[wanted[0].0 := wanted[0].1], wanted[1..])
  }

  /** `WriteSignatureRequestsWithRequest`. */
  function WriteSignatures(l: Ledger, wanted: seq<Wanted>, hash: Hash, rid: Rid, oid: string, reply: Reply): (r: Option<Ledger>)
    requires wanted != []
  {
    var l1 :- MarkDone(l, rid);
    var id := wanted[0].0;
    if id in l1.signatures && l1.signatures[id].state == Initial then WriteResult(l1, oid, reply)
    else if hash !in l1.transactions || (l1.transactions[hash].state != Initial && l1.transactions[hash].state != Pending) then None
    else
      var sigs :- InsertSignatures(l1.signatures, wanted);
      WriteResult(SetState(l1, hash, Pending).(signatures := sigs), oid, reply)
  }

  /** `CloseAccountBySignatureRequestsWithRequest`. */
  function CloseBySignatures(l: Ledger, holder: Holder, wanted: seq<Wanted>, hash: Hash, rid: Rid, oid: string, reply: Reply): (r: Option<Ledger>)
    requires wanted != []
  {
    var l1 :- CloseSafe(l, holder);
    WriteSignatures(l1, wanted, hash, rid, oid, reply)
  }

  /** `FinishSignatureRequest`: records the answer once; a repeated call finds it and changes nothing. */
  function FinishSignature(l: Ledger, rid: Rid, sig: Sig): (r: Option<Ledger>)
  {
    if rid !in l.signatures then None
    else if l.signatures[rid].state == Pending then Some(l)
    else if l.signatures[rid].state != Initial then None
    else Some(l.(signatures := l.signatures[rid := l.signatures[rid].(signature := Some(sig), state := Pending)]))
  }

  function AllDone(sigs: map<Rid, SignatureRequest>, hash: Hash): (s: map<Rid, SignatureRequest>)
  {
    map r | r in sigs :: if sigs[r].hash == hash then sigs[r].(state := Done) else sigs[r]
  }

  function SpentBy(outputs: map<OutPoint, Output>, hash: Hash): (s: set<OutPoint>)
  {
    set o | o in outputs && outputs[o].spentBy == Some(hash)
  }

  function AllSpent(outputs: map<OutPoint, Output>, hash: Hash): (m: map<OutPoint, Output>)
  {
    map o | o in outputs :: if outputs[o].spentBy == Some(hash) then outputs[o].(state := Done) else outputs[o]
  }

  /** `FinishTransactionSignaturesWithRequest`, which insists on the number of outputs it changes. */
  function FinishTransaction(l: Ledger, hash: Hash, count: nat, holder: Holder, rid: Rid, oid: string, reply: Reply): (r: Option<Ledger>)
  {
    if hash !in l.transactions || |SpentBy(l.outputs, hash)| != count || holder !in l.safes then None
    else
      var s := l.safes[holder];
      var l1 :- MarkDone(
        SetState(l, hash, Done).(
          signatures := AllDone(l.signatures, hash),
          outputs := AllSpent(l.outputs, hash),
          safes := l.safes[holder := s.(nonce := s.nonce + 1)]), rid);
      WriteResult(l1, oid, reply)
  }
}
