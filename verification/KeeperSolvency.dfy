/**
 The bonds of a Bitcoin or Litecoin safe stay covered.

 The group's outputs are given by what each carries, the chain by the transactions that were mined. Bonds in
 circulation are what the keeper has sent out minus what it has taken in, over the outputs it has handled.
 */
module KeeperSolvency {
  import opened Options
  import opened Sums
  import opened KeeperTypes
  import opened KeeperLedger
  import opened KeeperBitcoin
  import opened KeeperCoupling
  import opened KeeperInvariant
  import opened KeeperRuns
  import opened KeeperHistory

  type Blocks = map<Hash, ChainTx>

  /** Whose bonds an output carries, and how many. */
  type Carried = string -> (Option<Holder>, nat)

  // ---- Bonds

  function Paid(es: seq<Emitted>, s: Holder): (n: nat)
    decreases |es|
  {
    if es == [] then 0
    else (match es[0] case Bond(h, v) => (if h == s then v else 0) case _ => 0) + Paid(es[1..], s)
  }

  function Taken(c: Carried, oid: string, s: Holder): (n: nat)
  {
    if c(oid).0 == Some(s) then c(oid).1 else 0
  }

  ghost function NetOf(l: Ledger, c: Carried, s: Holder): string -> int
  {
    oid => if oid in l.results then Paid(l.results[oid].emitted, s) - Taken(c, oid, s) else 0
  }

  /** The bonds of a safe in circulation. */
  ghost function Circulating(l: Ledger, c: Carried, s: Holder): int
  {
    SumOf(l.results.Keys, NetOf(l, c, s))
  }

  // ---- What covers them

  ghost function UnspentOf(l: Ledger, a: Address): OutPoint -> int
  {
    o => if o in l.outputs && l.outputs[o].address == a && l.outputs[o].state == Initial then l.outputs[o].satoshi else 0
  }

  /** The unspent outputs of an address. */
  ghost function TotalUnspent(l: Ledger, a: Address): int
  {
    SumOf(l.outputs.Keys, UnspentOf(l, a))
  }

  /** Inputs minus amounts. */
  function Surplus(l: Ledger, t: Transaction): int
  {
    SumSatoshi(l.outputs, t.inputs) - SumPaid(t.recipients)
  }

  /** The change output, if the surplus is worth one. */
  function ChangeOf(l: Ledger, t: Transaction, chain: Chain): int
  {
    if Surplus(l, t) > Dust(chain) then Surplus(l, t) else 0
  }

  /** The chain transaction that spends the inputs of `t` has had its change deposited. */
  ghost predicate ChangeRecorded(l: Ledger, blocks: Blocks, t: Transaction)
  {
    exists h :: h in blocks && Spends(blocks[h], t) && OutPoint(h, |t.recipients|) in l.outputs
  }

  predicate Spends(tx: ChainTx, t: Transaction)
  {
    tx.vin != [] && t.inputs != [] && tx.vin[0] == t.inputs[0]
  }

  ghost function WeightOf(l: Ledger, blocks: Blocks, s: Holder): Hash -> int
    requires s in l.safes
  {
    h => if h in l.transactions && l.transactions[h].proposed && l.transactions[h].holder == s
         then Weight(l, blocks, l.transactions[h], l.safes[s].chain) else 0
  }

  /** An open transaction still covers its surplus; a finished one covers its change until that is deposited. */
  ghost function Weight(l: Ledger, blocks: Blocks, t: Transaction, chain: Chain): int
  {
    match t.state
    case Done => (if ChangeRecorded(l, blocks, t) then 0 else ChangeOf(l, t, chain)) + Dust(chain)
    case Failed => 0
    case _ => Surplus(l, t) - (if ChangeRecorded(l, blocks, t) then ChangeOf(l, t, chain) else 0)
  }

  ghost function Cover(l: Ledger, blocks: Blocks, s: Holder): int
    requires s in l.safes
  {
    TotalUnspent(l, l.safes[s].address) + SumOf(l.transactions.Keys, WeightOf(l, blocks, s))
  }

  // ---- Assumptions about the chain

  /** Nothing is spent twice, and an output recorded for this safe is spent only by the recorded transaction. */
  ghost predicate Honest(l: Ledger, blocks: Blocks, s: Holder)
  {
    && (forall g, h, o :: g in blocks && h in blocks && o in blocks[g].vin && o in blocks[h].vin ==> g == h)
    && (forall h, o :: h in blocks && o in blocks[h].vin && OfSafe(l, s, o) ==> SpentAsRecorded(l, blocks[h], l.outputs[o].spentBy))
  }

  predicate OfSafe(l: Ledger, s: Holder, o: OutPoint)
  {
    s in l.safes && o in l.outputs && l.outputs[o].address == l.safes[s].address
  }

  predicate SpentAsRecorded(l: Ledger, tx: ChainTx, spentBy: Option<Hash>)
  {
    spentBy.Some? && spentBy.value in l.transactions && Spends(tx, l.transactions[spentBy.value])
    && tx.outs == l.transactions[spentBy.value].outs
  }

  // ---- What the ledger keeps besides the coupling

  ghost predicate Shaped(l: Ledger, t: Transaction)
  {
    t.holder in l.safes && Surplus(l, t) >= 0
    && t.outs == BuildOuts(t.recipients, l.safes[t.holder].address, Surplus(l, t), l.safes[t.holder].chain)
  }

  ghost predicate Owned(l: Ledger, o: OutPoint)
    requires o in l.outputs
  {
    exists s :: s in l.safes && l.safes[s].address == l.outputs[o].address
  }

  ghost predicate Books(l: Ledger, blocks: Blocks)
  {
    && (forall h :: h in l.transactions && l.transactions[h].proposed ==> Shaped(l, l.transactions[h]))
    && (forall o :: o in l.outputs ==> o.hash in blocks && Owned(l, o))
  }

  /** Covered while the safe is open; nothing in circulation before it exists. */
  ghost predicate Covered(l: Ledger, blocks: Blocks, c: Carried, s: Holder)
  {
    && (s !in l.safes ==> Circulating(l, c, s) <= 0)
    && (s in l.safes && l.safes[s].state == Done ==> Circulating(l, c, s) <= Cover(l, blocks, s))
  }

  // ---- Sums over the tables

  /** Recording a result adds what was sent and takes what came in. */
  lemma {:induction false} ResultBonds(l: Ledger, l': Ledger, c: Carried, s: Holder, oid: string, reply: Reply)
    requires oid !in l.results && l'.results == l.results[oid := reply]
    ensures Circulating(l', c, s) == Circulating(l, c, s) + Paid(reply.emitted, s) - Taken(c, oid, s)
  {
    assert l'.results.Keys == l.results.Keys + {oid};
    SumInsert(l.results.Keys, NetOf(l, c, s), NetOf(l', c, s), oid);
  }

  lemma {:induction false} SameBonds(l: Ledger, l': Ledger, c: Carried, s: Holder)
    requires l'.results == l.results
    ensures Circulating(l', c, s) == Circulating(l, c, s)
  {
    SumEqual(l.results.Keys, NetOf(l, c, s), NetOf(l', c, s));
  }

  lemma {:induction false} SatoshiKept(a: map<OutPoint, Output>, b: map<OutPoint, Output>, points: seq<OutPoint>)
    requires OutputsMove(a, b) && forall o :: o in points ==> o in a
    ensures SumSatoshi(a, points) == SumSatoshi(b, points)
    decreases |points|
  {
    if points != [] {
      assert points[0] in a;
      SatoshiKept(a, b, points[1..]);
    }
  }

  lemma {:induction false} SumShift(keys: set<OutPoint>, f: OutPoint -> int, g: OutPoint -> int, outputs: map<OutPoint, Output>, points: seq<OutPoint>)
    requires Distinct(points) && (forall o :: o in points ==> o in keys && o in outputs)
    requires forall o :: o in keys ==> g(o) == f(o) + if o in points then outputs[o].satoshi else 0
    ensures SumOf(keys, g) == SumOf(keys, f) + SumSatoshi(outputs, points)
    decreases |points|
  {
    if points == [] {
      SumEqual(keys, f, g);
    } else {
      var p, rest := points[0], points[1..];
      var f1 := (o: OutPoint) => f(o) + if o in rest && o in outputs then outputs[o].satoshi else 0;
      assert p !in rest;
      forall o | o in rest ensures o in points { }
      assert forall o :: o in points <==> o == p || o in rest;
      SumShift(keys, f, f1, outputs, rest);
      SumChange(keys, f1, g, p);
    }
  }

  // ---- Frames

  lemma {:induction false} WeightKept(l: Ledger, l': Ledger, blocks: Blocks, t: Transaction)
    requires OutputsMove(l.outputs, l'.outputs) && l'.outputs.Keys == l.outputs.Keys
    requires forall o :: o in t.inputs ==> o in l.outputs
    ensures Surplus(l', t) == Surplus(l, t)
    ensures ChangeRecorded(l', blocks, t) <==> ChangeRecorded(l, blocks, t)
  {
    SatoshiKept(l.outputs, l'.outputs, t.inputs);
  }

  /** The other transactions weigh what they weighed. */
  lemma {:induction false} WeightsKept(l: Ledger, l': Ledger, verify: Verifier, blocks: Blocks, s: Holder, h: Hash)
    requires Inv(l, verify) && s in l.safes && s in l'.safes && l'.safes[s].chain == l.safes[s].chain
    requires OutputsMove(l.outputs, l'.outputs) && l'.outputs.Keys == l.outputs.Keys
    requires h in l.transactions && h in l'.transactions && l'.transactions[h] == l.transactions[h]
    ensures WeightOf(l', blocks, s)(h) == WeightOf(l, blocks, s)(h)
  {
    var t := l.transactions[h];
    assert TransactionOk(l, h);
    if t.proposed { WeightKept(l, l', blocks, t); }
  }

  /** Nothing of the safe changes if its outputs, its transactions and its row stay. */
  lemma {:induction false} CoverFrame(l: Ledger, l': Ledger, blocks: Blocks, s: Holder)
    requires l'.outputs == l.outputs && l'.transactions == l.transactions
    requires s in l.safes && s in l'.safes && l'.safes[s].chain == l.safes[s].chain && l'.safes[s].address == l.safes[s].address
    ensures Cover(l', blocks, s) == Cover(l, blocks, s)
  {
    var a := l.safes[s].address;
    SumEqual(l.outputs.Keys, UnspentOf(l, a), UnspentOf(l', a));
    forall h | h in l.transactions ensures WeightOf(l', blocks, s)(h) == WeightOf(l, blocks, s)(h) {
      assert ChangeRecorded(l', blocks, l.transactions[h]) <==> ChangeRecorded(l, blocks, l.transactions[h]);
    }
    SumEqual(l.transactions.Keys, WeightOf(l, blocks, s), WeightOf(l', blocks, s));
  }

  // ---- Proposing

  lemma {:induction false} SpendMoves(l: Ledger, verify: Verifier, a: Address, hash: Hash, state: State, outputs: map<OutPoint, Output>)
    requires Inv(l, verify) && Spend(l.outputs, Unspent(l.outputs, l.order, a), hash, state) == Some(outputs)
    ensures OutputsMove(l.outputs, outputs) && outputs.Keys == l.outputs.Keys
    ensures forall o :: o in l.outputs ==>
              outputs[o] == if l.outputs[o].address == a && l.outputs[o].state == Initial
                            then l.outputs[o].(state := state, spentBy := Some(hash)) else l.outputs[o]
  {
    UnspentOk(l, verify, a);
    SpendExact(l.outputs, Unspent(l.outputs, l.order, a), hash, state);
  }

  lemma {:induction false} ProposeUnspent(l: Ledger, l': Ledger, verify: Verifier, a: Address, hash: Hash, state: State)
    requires Inv(l, verify) && Spend(l.outputs, Unspent(l.outputs, l.order, a), hash, state) == Some(l'.outputs) && state != Initial
    ensures TotalUnspent(l', a) == TotalUnspent(l, a) - SumSatoshi(l.outputs, Unspent(l.outputs, l.order, a))
  {
    UnspentOk(l, verify, a);
    SpendMoves(l, verify, a, hash, state, l'.outputs);
    SumShift(l.outputs.Keys, UnspentOf(l', a), UnspentOf(l, a), l.outputs, Unspent(l.outputs, l.order, a));
  }

  lemma {:induction false} OthersUnspent(l: Ledger, l': Ledger, verify: Verifier, a: Address, b: Address, hash: Hash, state: State)
    requires Inv(l, verify) && Spend(l.outputs, Unspent(l.outputs, l.order, a), hash, state) == Some(l'.outputs) && a != b
    ensures TotalUnspent(l', b) == TotalUnspent(l, b)
  {
    SpendMoves(l, verify, a, hash, state, l'.outputs);
    SumEqual(l.outputs.Keys, UnspentOf(l, b), UnspentOf(l', b));
  }

  /** The inputs are unspent on the chain as well, so the new transaction has no change yet. */
  lemma {:induction false} NoChangeYet(l: Ledger, verify: Verifier, blocks: Blocks, s: Holder, t: Transaction, outputs: map<OutPoint, Output>)
    requires Inv(l, verify) && Honest(l, blocks, s) && s in l.safes
    requires t.inputs != [] && OfSafe(l, s, t.inputs[0]) && l.outputs[t.inputs[0]].state == Initial
    ensures !ChangeRecorded(l.(outputs := outputs), blocks, t)
  {
    assert OutputOk(l, t.inputs[0]);
    forall h | h in blocks ensures !Spends(blocks[h], t) {
      assert t.inputs[0] in blocks[h].vin ==> SpentAsRecorded(l, blocks[h], l.outputs[t.inputs[0]].spentBy);
    }
  }

  /** What a proposal does to the tables: it takes every unspent output of the safe. */
  ghost predicate Inserted(l: Ledger, l': Ledger, hash: Hash, t: Transaction, a: Address, state: State)
  {
    && hash !in l.transactions && l'.transactions == l.transactions[hash := t] && l'.safes == l.safes
    && Spend(l.outputs, Unspent(l.outputs, l.order, a), hash, state) == Some(l'.outputs) && state != Initial
  }

  lemma {:induction false} InsertWeights(l: Ledger, l': Ledger, verify: Verifier, blocks: Blocks, s: Holder, hash: Hash, t: Transaction, a: Address, state: State)
    requires Inv(l, verify) && s in l.safes && Inserted(l, l', hash, t, a, state)
    ensures SumOf(l'.transactions.Keys, WeightOf(l', blocks, s)) == SumOf(l.transactions.Keys, WeightOf(l, blocks, s)) + WeightOf(l', blocks, s)(hash)
  {
    SpendMoves(l, verify, a, hash, state, l'.outputs);
    forall h | h in l.transactions ensures WeightOf(l', blocks, s)(h) == WeightOf(l, blocks, s)(h) {
      WeightsKept(l, l', verify, blocks, s, h);
    }
    assert l'.transactions.Keys == l.transactions.Keys + {hash};
    SumInsert(l.transactions.Keys, WeightOf(l, blocks, s), WeightOf(l', blocks, s), hash);
  }

  /** Proposing for the safe itself lowers the cover by the amount, exactly. */
  lemma {:induction false} ProposeCover(l: Ledger, l': Ledger, verify: Verifier, blocks: Blocks, s: Holder, hash: Hash, t: Transaction)
    requires Inv(l, verify) && Honest(l, blocks, s) && s in l.safes && Inserted(l, l', hash, t, l.safes[s].address, Pending)
    requires Open(t) && t.proposed && t.holder == s && t.inputs != [] && t.inputs == Unspent(l.outputs, l.order, l.safes[s].address)
    ensures Cover(l', blocks, s) == Cover(l, blocks, s) - SumPaid(t.recipients)
  {
    hide SumOf, OutputOk, SignatureOk, TransactionOk, FullySigned, TotalUnspent;
    var a := l.safes[s].address;
    ProposeUnspent(l, l', verify, a, hash, Pending);
    InsertWeights(l, l', verify, blocks, s, hash, t, a, Pending);
    UnspentOk(l, verify, a);
    assert t.inputs[0] in t.inputs;
    NoChangeYet(l, verify, blocks, s, t, l'.outputs);
    assert ChangeRecorded(l', blocks, t) <==> ChangeRecorded(l.(outputs := l'.outputs), blocks, t);
    SpendMoves(l, verify, a, hash, Pending, l'.outputs);
    SatoshiKept(l.outputs, l'.outputs, t.inputs);
  }

  /** A transaction of another safe, proposed or closing, changes nothing. */
  lemma {:induction false} OtherCover(l: Ledger, l': Ledger, verify: Verifier, blocks: Blocks, s: Holder, hash: Hash, t: Transaction, a: Address, state: State)
    requires Inv(l, verify) && s in l.safes && a != l.safes[s].address && Inserted(l, l', hash, t, a, state) && t.holder != s
    ensures Cover(l', blocks, s) == Cover(l, blocks, s)
  {
    OthersUnspent(l, l', verify, a, l.safes[s].address, hash, state);
    InsertWeights(l, l', verify, blocks, s, hash, t, a, state);
  }

  // ---- Revoking, asking, finishing

  /** One transaction changed its state; the outputs kept their values. */
  ghost predicate StateSet(l: Ledger, l': Ledger, hash: Hash, state: State)
  {
    && hash in l.transactions && l'.transactions == l.transactions[hash := l.transactions[hash].(state := state)]
    && OutputsMove(l.outputs, l'.outputs) && l'.outputs.Keys == l.outputs.Keys
    && SafesMove(l.safes, l'.safes)
  }

  lemma {:induction false} StateWeights(l: Ledger, l': Ledger, verify: Verifier, blocks: Blocks, s: Holder, hash: Hash, state: State)
    requires Inv(l, verify) && s in l.safes && StateSet(l, l', hash, state)
    ensures s in l'.safes
    ensures SumOf(l'.transactions.Keys, WeightOf(l', blocks, s))
         == SumOf(l.transactions.Keys, WeightOf(l, blocks, s)) - WeightOf(l, blocks, s)(hash) + WeightOf(l', blocks, s)(hash)
  {
    forall h | h in l.transactions && h != hash ensures WeightOf(l', blocks, s)(h) == WeightOf(l, blocks, s)(h) {
      WeightsKept(l, l', verify, blocks, s, h);
    }
    assert l'.transactions.Keys == l.transactions.Keys;
    SumChange(l.transactions.Keys, WeightOf(l, blocks, s), WeightOf(l', blocks, s), hash);
  }

  /** How much one transaction's change of state moves the sum. */
  lemma {:induction false} StateWeight(l: Ledger, l': Ledger, verify: Verifier, blocks: Blocks, s: Holder, hash: Hash, state: State)
    requires Inv(l, verify) && s in l.safes && StateSet(l, l', hash, state) && Open(l.transactions[hash])
    ensures s in l'.safes
    ensures l.transactions[hash].holder != s ==> WeightOf(l', blocks, s)(hash) == WeightOf(l, blocks, s)(hash)
    ensures state == Pending ==> WeightOf(l', blocks, s)(hash) == WeightOf(l, blocks, s)(hash)
    ensures state == Done ==> WeightOf(l', blocks, s)(hash) >= WeightOf(l, blocks, s)(hash)
    ensures l.transactions[hash].holder == s && state == Failed ==>
              WeightOf(l', blocks, s)(hash) == 0 && WeightOf(l, blocks, s)(hash) <= Surplus(l, l.transactions[hash])
  {
    hide SumSatoshi, SumPaid, OutputOk, SignatureOk, FullySigned, OrderOk;
    var t := l.transactions[hash];
    assert TransactionOk(l, hash);
    WeightKept(l, l', blocks, t);
    assert ChangeRecorded(l', blocks, t) <==> ChangeRecorded(l', blocks, t.(state := state));
  }

  lemma {:induction false} ReleaseUnspent(l: Ledger, l': Ledger, verify: Verifier, hash: Hash, b: Address)
    requires Inv(l, verify) && Released(l, hash, l'.outputs)
    ensures l.transactions[hash].holder in l.safes
    ensures TotalUnspent(l', b) == TotalUnspent(l, b) +
              if b == l.safes[l.transactions[hash].holder].address then SumSatoshi(l.outputs, l.transactions[hash].inputs) else 0
  {
    var t := l.transactions[hash];
    assert TransactionOk(l, hash);
    forall o | o in t.inputs ensures Held(l, hash, o, Pending) && l.outputs[o].address == l.safes[t.holder].address { }
    if b == l.safes[t.holder].address {
      SumShift(l.outputs.Keys, UnspentOf(l, b), UnspentOf(l', b), l.outputs, t.inputs);
    } else {
      SumEqual(l.outputs.Keys, UnspentOf(l, b), UnspentOf(l', b));
    }
  }

  /** Revoking gives the safe back at least the amount, and takes nothing from any other safe. */
  lemma {:induction false} RevokeCover(l: Ledger, l': Ledger, verify: Verifier, blocks: Blocks, s: Holder, hash: Hash)
    requires Inv(l, verify) && s in l.safes && Released(l, hash, l'.outputs)
    requires StateSet(l, l', hash, Failed)
    ensures s in l'.safes
    ensures Cover(l', blocks, s) >= Cover(l, blocks, s) + if l.transactions[hash].holder == s then SumPaid(l.transactions[hash].recipients) else 0
  {
    assert TransactionOk(l, hash);
    StateWeights(l, l', verify, blocks, s, hash, Failed);
    StateWeight(l, l', verify, blocks, s, hash, Failed);
    ReleaseUnspent(l, l', verify, hash, l.safes[s].address);
  }

  /** Outputs that pass between states other than unspent do not count. */
  lemma {:induction false} SpentUnspent(l: Ledger, l': Ledger, verify: Verifier, hash: Hash, b: Address)
    requires Inv(l, verify) && (l'.outputs == l.outputs || l'.outputs == AllSpent(l.outputs, hash))
    ensures TotalUnspent(l', b) == TotalUnspent(l, b)
  {
    assert l'.outputs.Keys == l.outputs.Keys;
    forall o | o in l.outputs ensures UnspentOf(l', b)(o) == UnspentOf(l, b)(o) { assert OutputOk(l, o); }
    SumEqual(l.outputs.Keys, UnspentOf(l, b), UnspentOf(l', b));
  }

  /** Asking for signatures and finishing never lower the cover: what is not change is at most dust. */
  lemma {:induction false} SignCover(l: Ledger, l': Ledger, verify: Verifier, blocks: Blocks, s: Holder, hash: Hash, state: State)
    requires Inv(l, verify) && s in l.safes && StateSet(l, l', hash, state) && Open(l.transactions[hash])
    requires state == Pending || state == Done
    requires l'.outputs == l.outputs || l'.outputs == AllSpent(l.outputs, hash)
    ensures s in l'.safes && Cover(l', blocks, s) >= Cover(l, blocks, s)
  {
    StateWeights(l, l', verify, blocks, s, hash, state);
    StateWeight(l, l', verify, blocks, s, hash, state);
    SpentUnspent(l, l', verify, hash, l.safes[s].address);
  }

  // ---- Depositing

  /** What a deposit of the holder `x` adds, as the chain has it. */
  ghost predicate Arrived(l: Ledger, l': Ledger, blocks: Blocks, x: Holder, p: OutPoint, v: nat, change: bool)
  {
    && x in l.safes && p !in l.outputs && p.hash in blocks && blocks[p.hash].vin != []
    && l'.outputs == l.outputs[p := Output(l.safes[x].address, v, true, Initial, None)]
    && l'.transactions == l.transactions && l'.safes == l.safes
    && IsChange(l, blocks[p.hash], p.index) == Some(change)
    && p.index < |blocks[p.hash].outs| && blocks[p.hash].outs[p.index] == Pay(l.safes[x].address, v)
  }

  /** The deposit is the change of this transaction. */
  ghost predicate IsChangeOf(l: Ledger, blocks: Blocks, p: OutPoint, t: Transaction)
  {
    p.hash in blocks && Spends(blocks[p.hash], t) && p.index == |t.recipients|
  }

  lemma {:induction false} RecordedAfter(l: Ledger, l': Ledger, blocks: Blocks, x: Holder, p: OutPoint, v: nat, change: bool, t: Transaction)
    requires Arrived(l, l', blocks, x, p, v, change) && forall o :: o in t.inputs ==> o in l.outputs
    ensures Surplus(l', t) == Surplus(l, t)
    ensures ChangeRecorded(l', blocks, t) <==> ChangeRecorded(l, blocks, t) || IsChangeOf(l, blocks, p, t)
  {
    SatoshiKept(l.outputs, l'.outputs, t.inputs);
    if IsChangeOf(l, blocks, p, t) { assert OutPoint(p.hash, |t.recipients|) in l'.outputs; }
    if ChangeRecorded(l, blocks, t) {
      var h :| h in blocks && Spends(blocks[h], t) && OutPoint(h, |t.recipients|) in l.outputs;
      assert OutPoint(h, |t.recipients|) in l'.outputs;
    }
  }

  /** For a held transaction of the safe, a deposit of its change has the value and the holder it was built with. */
  lemma {:induction false} ChangeArrives(l: Ledger, l': Ledger, verify: Verifier, blocks: Blocks, s: Holder, x: Holder, p: OutPoint, v: nat, change: bool, h: Hash)
    requires Inv(l, verify) && Books(l, blocks) && Honest(l, blocks, s) && Arrived(l, l', blocks, x, p, v, change)
    requires h in l.transactions && l.transactions[h].proposed && l.transactions[h].holder == s && l.transactions[h].state != Failed
    requires IsChangeOf(l, blocks, p, l.transactions[h])
    ensures x == s && change && v == ChangeOf(l, l.transactions[h], l.safes[s].chain) && !ChangeRecorded(l, blocks, l.transactions[h])
  {
    var t, o := l.transactions[h], l.transactions[h].inputs[0];
    assert TransactionOk(l, h) && Shaped(l, t);
    assert o in t.inputs;
    assert Held(l, h, o, Pending) || Held(l, h, o, Done);
    assert o in blocks[p.hash].vin && OfSafe(l, s, o);
    assert SpentAsRecorded(l, blocks[p.hash], l.outputs[o].spentBy);
    forall g | g in blocks && Spends(blocks[g], t) ensures g == p.hash { assert o in blocks[g].vin; }
  }

  lemma {:induction false} DepositWeight(l: Ledger, l': Ledger, verify: Verifier, blocks: Blocks, s: Holder, x: Holder, p: OutPoint, v: nat, change: bool, h: Hash)
    requires Inv(l, verify) && Books(l, blocks) && Honest(l, blocks, s) && Arrived(l, l', blocks, x, p, v, change)
    requires s in l.safes && h in l.transactions
    ensures WeightOf(l', blocks, s)(h) == WeightOf(l, blocks, s)(h)
            || (WeightOf(l', blocks, s)(h) == WeightOf(l, blocks, s)(h) - v && x == s && change && Spender(l, blocks, p) == Some(h))
  {
    var t := l.transactions[h];
    assert TransactionOk(l, h);
    if t.proposed && t.holder == s && t.state != Failed {
      RecordedAfter(l, l', blocks, x, p, v, change, t);
      if IsChangeOf(l, blocks, p, t) {
        ChangeArrives(l, l', verify, blocks, s, x, p, v, change, h);
        assert t.inputs[0] in t.inputs;
        assert Held(l, h, t.inputs[0], Pending) || Held(l, h, t.inputs[0], Done);
      }
    }
  }

  /** The recorded spender of the first input of the transaction that made the deposit. */
  function Spender(l: Ledger, blocks: Blocks, p: OutPoint): Option<Hash>
  {
    if p.hash in blocks && blocks[p.hash].vin != [] && blocks[p.hash].vin[0] in l.outputs
    then l.outputs[blocks[p.hash].vin[0]].spentBy else None
  }

  lemma {:induction false} DepositUnspent(l: Ledger, l': Ledger, verify: Verifier, blocks: Blocks, s: Holder, x: Holder, p: OutPoint, v: nat, change: bool)
    requires Inv(l, verify) && s in l.safes && Arrived(l, l', blocks, x, p, v, change)
    ensures TotalUnspent(l', l.safes[s].address) == TotalUnspent(l, l.safes[s].address) + if x == s then v else 0
  {
    var a := l.safes[s].address;
    assert l'.outputs.Keys == l.outputs.Keys + {p};
    SumInsert(l.outputs.Keys, UnspentOf(l, a), UnspentOf(l', a), p);
  }

  lemma {:induction false} DepositWeights(l: Ledger, l': Ledger, verify: Verifier, blocks: Blocks, s: Holder, x: Holder, p: OutPoint, v: nat, change: bool)
    requires Inv(l, verify) && Books(l, blocks) && Honest(l, blocks, s) && s in l.safes && Arrived(l, l', blocks, x, p, v, change)
    ensures SumOf(l'.transactions.Keys, WeightOf(l', blocks, s))
         >= SumOf(l.transactions.Keys, WeightOf(l, blocks, s)) - if x == s && change then v else 0
  {
    var w, w' := WeightOf(l, blocks, s), WeightOf(l', blocks, s);
    forall h | h in l.transactions
      ensures w'(h) == w(h) || (w'(h) == w(h) - v && x == s && change && Spender(l, blocks, p) == Some(h))
    {
      DepositWeight(l, l', verify, blocks, s, x, p, v, change, h);
    }
    var r := Spender(l, blocks, p);
    if r.Some? && r.value in l.transactions {
      SumChange(l.transactions.Keys, w, w', r.value);
    } else {
      SumEqual(l.transactions.Keys, w, w');
    }
  }

  /** A deposit raises the cover by what it issues; change only turns one kind of cover into another. */
  lemma {:induction false} DepositCover(l: Ledger, l': Ledger, verify: Verifier, blocks: Blocks, s: Holder, x: Holder, p: OutPoint, v: nat, change: bool)
    requires Inv(l, verify) && Books(l, blocks) && Honest(l, blocks, s) && s in l.safes && Arrived(l, l', blocks, x, p, v, change)
    ensures Cover(l', blocks, s) >= Cover(l, blocks, s) + if x == s && !change then v else 0
  {
    DepositUnspent(l, l', verify, blocks, s, x, p, v, change);
    DepositWeights(l, l', verify, blocks, s, x, p, v, change);
  }
}
