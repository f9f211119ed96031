/**
 What the keeper does with a request that is in order: each handling, told by the tables before and after it and by what
 is sent, so that a keeper that took requests and did less would not do.
 */
module KeeperProgress {
  import opened Options
  import opened KeeperTypes
  import opened KeeperLedger
  import opened KeeperBitcoin
  import opened KeeperCoupling
  import opened KeeperInvariant
  import opened KeeperHistory
  import N = KeeperNode
  import opened KeeperSafety
  import opened KeeperSolvency

  type Blocks = map<Hash, ChainTx>

  /** A request that has not been seen, in an output that has not been seen. */
  ghost predicate NewRequest(l: Ledger, i: Input)
  {
    && i.rid !in l.requests && i.oid !in l.results && !i.action.Ignore?
    && forall m :: Derived(i.rid, m) !in l.signatures
  }

  function Begun(l: Ledger, i: Input): Ledger
  {
    l.(requests := l.requests[i.rid := Request(Initial, i.amount)])
  }

  /** The request is settled and its reply is recorded. */
  function Settled(l: Ledger, i: Input, state: State, reply: Reply): Ledger
  {
    l.(requests := l.requests[i.rid := Request(state, i.amount)], results := l.results[i.oid := reply])
  }

  const SENT: Reply := Reply([Storage, Notify], false)

  /** The ledger after the output has been handled. */
  ghost function Final(l: Ledger, chain: Blocks, verify: Verifier, i: Input): Ledger
  {
    Last(l, Process(l, chain, verify, i))
  }

  /** Handling the output ends with this ledger and this reply. */
  ghost predicate Gives(l: Ledger, chain: Blocks, verify: Verifier, i: Input, l': Ledger, reply: Reply)
  {
    Process(l, chain, verify, i).reply == Some(reply) && Final(l, chain, verify, i) == l'
  }

  lemma {:induction false} ProcessNew(l: Ledger, chain: Blocks, verify: Verifier, i: Input, run: Run)
    requires NewRequest(l, i) && run == Handle(Begun(l, i), chain, verify, i)
    ensures Process(l, chain, verify, i).reply == run.reply
    ensures Final(l, chain, verify, i) == Last(Begun(l, i), run)
  {
    hide Handle;
    assert WriteRequest(l, i.rid, i.amount) == Begun(l, i);
    assert Process(l, chain, verify, i).commits == [Begun(l, i)] + run.commits;
  }

  lemma {:induction false} GivesNew(l: Ledger, chain: Blocks, verify: Verifier, i: Input, run: Run, l': Ledger, reply: Reply)
    requires NewRequest(l, i) && run == Handle(Begun(l, i), chain, verify, i) && run == Commit(Some(l'), reply)
    ensures Gives(l, chain, verify, i, l', reply)
  {
    hide Handle, Process, Final;
    ProcessNew(l, chain, verify, i, run);
  }

  /** Which handler an action goes to. */
  lemma {:induction false} Dispatched(l: Ledger, chain: Blocks, verify: Verifier, i: Input)
    ensures i.action.ApproveAccount? ==> Handle(l, chain, verify, i) == HandleApproveAccount(l, i)
    ensures i.action.Deposit? ==> Handle(l, chain, verify, i) == HandleDeposit(l, chain, i)
    ensures i.action.Propose? ==> Handle(l, chain, verify, i) == HandlePropose(l, i)
    ensures i.action.Approve? ==> Handle(l, chain, verify, i) == HandleApprove(l, i)
    ensures i.action.Revoke? ==> Handle(l, chain, verify, i) == HandleRevoke(l, i)
    ensures i.action.Respond? ==> Handle(l, chain, verify, i) == HandleRespond(l, verify, i)
    ensures i.action.CloseWithHolder? ==> Handle(l, chain, verify, i) == HandleCloseWithHolder(l, i)
    ensures i.action.CloseWithoutHolder? ==> Handle(l, chain, verify, i) == HandleCloseWithoutHolder(l, i)
  {
    hide HandleApproveAccount, HandleDeposit, HandlePropose, HandleApprove, HandleRevoke, HandleRespond, HandleCloseWithHolder, HandleCloseWithoutHolder;
  }

  /** A request that was settled before changes no table but the results. */
  lemma {:induction false} ProcessCases(l: Ledger, chain: Blocks, verify: Verifier, i: Input)
    requires !i.action.Ignore?
    ensures var l0 := WriteRequest(l, i.rid, i.amount);
            var run := Handle(l0, chain, verify, i);
            || (Process(l, chain, verify, i).reply == run.reply && Final(l, chain, verify, i) == Last(l0, run))
            || Final(l, chain, verify, i) == l.(results := Final(l, chain, verify, i).results)
  {
    hide Handle;
    var l0 := WriteRequest(l, i.rid, i.amount);
    var run := Handle(l0, chain, verify, i);
    if !(i.rid in l.requests && l.requests[i.rid].state != Initial) {
      assert Process(l, chain, verify, i).commits == [l0] + run.commits;
    }
  }

  /** A new request that is marked done, or failed, ends with its result recorded. */
  lemma {:induction false} Ends(l: Ledger, l1: Ledger, i: Input, reply: Reply)
    requires NewRequest(l, i) && l1.requests == Begun(l, i).requests && l1.results == l.results
    ensures MarkDone(l1, i.rid).Some? && WriteResult(MarkDone(l1, i.rid).value, i.oid, reply) == Some(Settled(l1, i, Done, reply))
    ensures FailRequest(l1, i.rid, i.oid, reply) == Some(Settled(l1, i, Failed, reply))
    ensures Settled(l1, i, Done, reply).requests == l.requests[i.rid := Request(Done, i.amount)]
  {
  }

  lemma {:induction false} WrittenTwice(l: Ledger, i: Input, state: State)
    ensures Begun(l, i).requests[i.rid := Request(state, i.amount)] == l.requests[i.rid := Request(state, i.amount)]
  {
  }

  lemma {:induction false} BondPaid(h: Holder, v: nat, s: Holder)
    ensures Paid([Bond(h, v)], s) == if h == s then v else 0
    ensures Paid([], s) == 0 && Paid([Storage, Notify], s) == 0
  {
    assert [Bond(h, v)][1..] == [];
    assert [Storage, Notify][1..] == [Notify] && [Notify][1..] == [];
    assert Paid([Notify], s) == 0;
  }

  // ---- Accounts

  /** An account nobody has, with keys and an address nobody has. */
  predicate AccountInOrder(l: Ledger, i: Input)
    requires i.action.ApproveAccount?
  {
    && i.action.valid && i.action.sendable && i.holder !in l.safes
    && forall h :: h in l.safes ==>
         && l.safes[h].address != i.action.safe.address && l.safes[h].signer != i.action.safe.signer
         && l.safes[h].observer != i.action.safe.observer
  }

  lemma {:induction false} AccountOpens(l: Ledger, chain: Blocks, verify: Verifier, i: Input)
    requires NewRequest(l, i) && i.action.ApproveAccount? && AccountInOrder(l, i)
    ensures var s := i.action.safe;
            Gives(l, chain, verify, i,
                  Settled(l.(safes := l.safes[i.holder := Safe(s.chain, s.address, s.signer, s.observer, Done, 0)]), i, Done, SENT), SENT)
  {
    hide Handle, Gives, HandleDeposit, HandlePropose, HandleApprove, HandleRevoke, HandleRespond, HandleCloseWithHolder, HandleCloseWithoutHolder;
    var l0 := Begun(l, i);
    Dispatched(l0, chain, verify, i);
    var l1 := l0.(safes := l0.safes[i.holder := i.action.safe.(state := Done, nonce := 0)]);
    Ends(l, l1, i, SENT);
    GivesNew(l, chain, verify, i, HandleApproveAccount(l0, i), Settled(l1, i, Done, SENT), SENT);
    assert Settled(l1, i, Done, SENT) == Settled(l.(safes := l1.safes), i, Done, SENT);
  }

  // ---- Deposits

  /** The output comes back from a transaction of the keeper's own: it is past what that transaction pays to others. */
  predicate ComesBack(l: Ledger, tx: ChainTx, index: nat)
  {
    && tx.vin != [] && tx.vin[0] in l.outputs && l.outputs[tx.vin[0]].spentBy.Some?
    && l.outputs[tx.vin[0]].spentBy.value in l.transactions
    && 0 < |l.transactions[l.outputs[tx.vin[0]].spentBy.value].recipients| <= index
  }

  lemma {:induction false} FailAddsNothing(l: Ledger, i: Input)
    ensures Last(l, Fail(l, i)).outputs == l.outputs && Last(l, Stop()).outputs == l.outputs
  {
  }

  lemma {:induction false} WrittenOutput(l: Ledger, s: Safe, point: OutPoint, satoshi: nat, i: Input, reply: Reply)
    ensures var run := Commit(WriteOutput(l, s, point, satoshi, i.rid, i.oid, reply), reply);
            Last(l, run).outputs == l.outputs
            || (Last(l, run).outputs == l.outputs[point := Output(s.address, satoshi, true, Initial, None)] && run.reply == Some(reply))
  {
  }

  lemma {:induction false} DepositRunPays(l: Ledger, tx: ChainTx, i: Input, s: Safe, change: bool, p: OutPoint)
    requires i.action.Deposit? && p !in l.outputs && p in Last(l, DepositRun(l, tx, i, s, change)).outputs
    ensures var run := DepositRun(l, tx, i, s, change);
            && p == i.action.point && run.reply == Some(Deposited(i, change))
            && Last(l, run).outputs[p] == Output(s.address, i.action.value, true, Initial, None)
            && p.index < |tx.outs| && tx.outs[p.index] == Pay(s.address, i.action.value)
  {
    hide Fail, WriteOutput, Commit, Last, Stop;
    FailAddsNothing(l, i);
    WrittenOutput(l, s, i.action.point, i.action.value, i, Deposited(i, change));
  }

  /** Whenever a deposit adds an output, bonds are issued for exactly its value, to its holder alone, unless it is change. */
  lemma {:induction false} DepositPays(l: Ledger, chain: Blocks, verify: Verifier, i: Input, p: OutPoint, s: Holder)
    requires i.action.Deposit? && p in Final(l, chain, verify, i).outputs && p !in l.outputs
    ensures var reply, u := Process(l, chain, verify, i).reply, Final(l, chain, verify, i).outputs[p];
            && p == i.action.point && p.hash in chain && reply.Some? && !reply.value.compaction
            && i.holder in l.safes && u == Output(l.safes[i.holder].address, i.action.value, true, Initial, None)
            && p.index < |chain[p.hash].outs| && chain[p.hash].outs[p.index] == Pay(u.address, u.satoshi)
            && Paid(reply.value.emitted, s) == if s == i.holder && !ComesBack(l, chain[p.hash], p.index) then u.satoshi else 0
  {
    var l0 := WriteRequest(l, i.rid, i.amount);
    hide Handle, Process, DepositRun, Fail, CountUnspent, Paid, Stop, Final, Last;
    Dispatched(l0, chain, verify, i);
    ProcessCases(l, chain, verify, i);
    FailAddsNothing(l0, i);
    BondPaid(i.holder, i.action.value, s);
    var a := i.action;
    var tx := chain[a.point.hash];
    var change := IsChange(l0, tx, a.point.index).value;
    DepositRunPays(l0, tx, i, l0.safes[i.holder], change, p);
    assert change <==> ComesBack(l, tx, a.point.index);
  }

  /** It can be told whether the output comes back: its first input is not ours, or its spender is known. */
  predicate Traceable(l: Ledger, tx: ChainTx)
  {
    && tx.vin != []
    && (tx.vin[0] in l.outputs ==>
          && l.outputs[tx.vin[0]].spentBy.Some? && l.outputs[tx.vin[0]].spentBy.value in l.transactions
          && l.transactions[l.outputs[tx.vin[0]].spentBy.value].recipients != [])
  }

  /** A new output that pays the safe, on the chain for good; what does not come back must reach the minimum. */
  predicate DepositInOrder(l: Ledger, chain: Blocks, i: Input)
    requires i.action.Deposit?
  {
    var a := i.action;
    && i.holder in l.safes && l.safes[i.holder].state == Done && a.valid && a.informed && a.final
    && a.point !in l.outputs && a.point !in l.deposits && a.point.hash in chain
    && var tx, s := chain[a.point.hash], l.safes[i.holder];
       && CountUnspent(l, s.address) < 512 && a.value >= (if s.chain == Bitcoin then 1000 else 10000) && Traceable(l, tx)
       && a.point.index < |tx.outs| && tx.outs[a.point.index] == Pay(s.address, a.value)
       && (ComesBack(l, tx, a.point.index) || (a.minimum && a.payable))
  }

  /** A deposit in order is recorded, and bonds are issued for it unless it comes back. */
  lemma {:induction false} DepositTaken(l: Ledger, chain: Blocks, verify: Verifier, i: Input)
    requires NewRequest(l, i) && i.action.Deposit? && DepositInOrder(l, chain, i)
    ensures var a, s := i.action, l.safes[i.holder];
            var reply := Reply(if ComesBack(l, chain[a.point.hash], a.point.index) then [] else [Bond(i.holder, a.value)], false);
            Gives(l, chain, verify, i,
                  Settled(l.(outputs := l.outputs[a.point := Output(s.address, a.value, true, Initial, None)],
                             order := l.order + [a.point], deposits := l.deposits + {a.point}), i, Done, reply), reply)
  {
    hide Handle, Gives;
    var a, s, l0 := i.action, l.safes[i.holder], Begun(l, i);
    var change := ComesBack(l, chain[a.point.hash], a.point.index);
    Dispatched(l0, chain, verify, i);
    assert CountUnspent(l0, s.address) == CountUnspent(l, s.address);
    assert IsChange(l0, chain[a.point.hash], a.point.index) == Some(change);
    var l1 := l0.(outputs := l0.outputs[a.point := Output(s.address, a.value, true, Initial, None)],
                  order := l0.order + [a.point], deposits := l0.deposits + {a.point});
    Ends(l, l1, i, Deposited(i, change));
    GivesNew(l, chain, verify, i, HandleDeposit(l0, chain, i), Settled(l1, i, Done, Deposited(i, change)), Deposited(i, change));
    assert Settled(l1, i, Done, Deposited(i, change)) == Settled(l1.(requests := l.requests), i, Done, Deposited(i, change));
  }

  // ---- Proposing

  /** Every unspent output of the address and nothing else, each once. */
  ghost predicate Everything(l: Ledger, address: Address, points: seq<OutPoint>)
  {
    && Distinct(points)
    && forall o :: o in points <==> o in l.outputs && l.outputs[o].address == address && l.outputs[o].state == Initial
  }

  lemma {:induction false} UnspentEverything(l: Ledger, verify: Verifier, address: Address)
    requires Inv(l, verify)
    ensures Everything(l, address, Unspent(l.outputs, l.order, address))
  {
    var points := Unspent(l.outputs, l.order, address);
    UnspentDistinct(l.outputs, l.order, address);
    forall o ensures o in points <==> o in l.outputs && l.outputs[o].address == address && l.outputs[o].state == Initial {
      UnspentExact(l.outputs, l.order, address, o);
    }
  }

  /** The outputs with every point handed to the transaction. */
  function HandedOver(outputs: map<OutPoint, Output>, points: seq<OutPoint>, hash: Hash, state: State): map<OutPoint, Output>
  {
    map o | o in outputs :: if o in points then Output(outputs[o].address, outputs[o].satoshi, outputs[o].multisig, state, Some(hash)) else outputs[o]
  }

  lemma {:induction false} SpendHandsOver(outputs: map<OutPoint, Output>, points: seq<OutPoint>, hash: Hash, state: State)
    requires forall o :: o in points ==> o in outputs
    ensures Spend(outputs, points, hash, state) == Some(HandedOver(outputs, points, hash, state))
  {
    SpendExact(outputs, points, hash, state);
    assert Spend(outputs, points, hash, state).value == HandedOver(outputs, points, hash, state);
  }

  /** A proposal that can be paid for and built. */
  predicate ProposalInOrder(l: Ledger, i: Input)
    requires i.action.Propose? && i.holder in l.safes
  {
    var a, points := i.action, Unspent(l.outputs, l.order, l.safes[i.holder].address);
    && l.safes[i.holder].state == Done && i.bondOf == Some(i.holder)
    && a.priced && a.valid && a.buildable && a.sendable && 0 < |a.recipients| <= 256 && SumPaid(a.recipients) == i.amount
    && i.amount <= SumSatoshi(l.outputs, points) && points != [] && |a.sighashes| == |points|
  }

  /** A proposal in order: all that is unspent, paid to the recipients and, above dust, back to the safe. */
  lemma {:induction false} ProposalTaken(l: Ledger, chain: Blocks, verify: Verifier, i: Input) returns (points: seq<OutPoint>)
    requires Inv(l, verify) && NewRequest(l, i) && i.action.Propose? && i.holder in l.safes && ProposalInOrder(l, i)
    requires i.action.hash !in l.transactions && !RequestTaken(l, i.rid)
    ensures var a, s := i.action, l.safes[i.holder];
            && Everything(l, s.address, points) && i.amount <= SumSatoshi(l.outputs, points)
            && var change := SumSatoshi(l.outputs, points) - i.amount;
               var outs := a.recipients + (if change > Dust(s.chain) then [Pay(s.address, change)] else []) + [Data];
               var t := Transaction(i.holder, Initial, i.rid, true, points, outs, a.sighashes, a.recipients);
               Gives(l, chain, verify, i,
                     Settled(l.(transactions := l.transactions[a.hash := t], outputs := HandedOver(l.outputs, points, a.hash, Pending)), i, Done, SENT),
                     SENT)
  {
    hide Inv, Everything, Unspent, SumSatoshi, SumPaid, HandedOver, Handle, HandlePropose, Gives, WriteTransaction, Settled, RequestTaken, ProposalInOrder;
    var l0 := Begun(l, i);
    points := Unspent(l.outputs, l.order, l.safes[i.holder].address);
    UnspentEverything(l, verify, l.safes[i.holder].address);
    EverythingThere(l, l.safes[i.holder].address, points);
    Dispatched(l0, chain, verify, i);
    ProposalUnfolds(l, i);
    var t := Proposal(l, i, l.safes[i.holder]);
    ProposalWritten(l, i, t);
    GivesNew(l, chain, verify, i, HandlePropose(l0, i), WriteTransaction(l0, i.action.hash, t, t.inputs, i.oid, SENT).value, SENT);
  }

  lemma {:induction false} ProposalUnfolds(l: Ledger, i: Input)
    requires i.action.Propose? && i.holder in l.safes && ProposalInOrder(l, i)
    ensures i.amount <= Funds(l, l.safes[i.holder])
    ensures var t, l0 := Proposal(l, i, l.safes[i.holder]), Begun(l, i);
            HandlePropose(l0, i) == Commit(WriteTransaction(l0, i.action.hash, t, t.inputs, i.oid, SENT), SENT)
  {
    hide Unspent, SumSatoshi, SumPaid, WriteTransaction;
  }

  lemma {:induction false} EverythingThere(l: Ledger, address: Address, points: seq<OutPoint>)
    requires Everything(l, address, points)
    ensures forall o :: o in points ==> o in l.outputs
  {
  }

  lemma {:induction false} ProposalWritten(l: Ledger, i: Input, t: Transaction)
    requires NewRequest(l, i) && i.action.Propose? && i.action.hash !in l.transactions && !RequestTaken(l, i.rid) && t.requestId == i.rid
    requires forall o :: o in t.inputs ==> o in l.outputs
    ensures WriteTransaction(Begun(l, i), i.action.hash, t, t.inputs, i.oid, SENT) ==
              Some(Settled(l.(transactions := l.transactions[i.action.hash := t], outputs := HandedOver(l.outputs, t.inputs, i.action.hash, Pending)), i, Done, SENT))
  {
    var h, l0 := i.action.hash, Begun(l, i);
    assert !RequestTaken(l0, i.rid);
    SpendHandsOver(l.outputs, t.inputs, h, Pending);
    hide HandedOver, Spend;
    Ends(l, l0.(transactions := l.transactions[h := t], outputs := HandedOver(l.outputs, t.inputs, h, Pending)), i, SENT);
  }

  // ---- Signatures come back

  /** The answer in its place, if there was none. */
  function WithAnswer(l: Ledger, i: Input): Ledger
    requires i.action.Respond? && i.rid in l.signatures
  {
    var q := l.signatures[i.rid];
    if q.state != Initial then l
    else l.(signatures := l.signatures[i.rid := SignatureRequest(q.hash, q.index, q.signer, q.message, Some(i.action.sig), Pending, q.createdAt)])
  }

  /** The latest answer for an input is to its own hash, and verifies. */
  ghost predicate GoodAnswer(l: Ledger, verify: Verifier, hash: Hash, idx: nat, r: Rid)
    requires hash in l.transactions && idx < |l.transactions[hash].sighashes| && l.transactions[hash].holder in l.safes
  {
    var t := l.transactions[hash];
    && r in l.signatures && l.signatures[r].hash == hash && l.signatures[r].index == idx
    && l.signatures[r].state == Pending && l.signatures[r].signature.Some? && l.signatures[r].message == t.sighashes[idx]
    && verify(l.safes[t.holder].signer, t.sighashes[idx], l.signatures[r].signature.value)
    && forall q :: q in l.signatures && l.signatures[q].hash == hash && l.signatures[q].index == idx ==>
         l.signatures[q].state == Pending && l.signatures[q].signature.Some? ==> l.signatures[q].createdAt <= l.signatures[r].createdAt
  }

  ghost predicate InputAnswered(l: Ledger, verify: Verifier, hash: Hash, idx: nat)
    requires hash in l.transactions && idx < |l.transactions[hash].sighashes| && l.transactions[hash].holder in l.safes
  {
    exists r :: GoodAnswer(l, verify, hash, idx, r)
  }

  ghost predicate AllAnswered(l: Ledger, verify: Verifier, hash: Hash)
    requires hash in l.transactions && l.transactions[hash].holder in l.safes
  {
    var t := l.transactions[hash];
    |t.sighashes| == |t.inputs| && forall idx :: 0 <= idx < |t.inputs| ==> InputAnswered(l, verify, hash, idx)
  }

  lemma {:induction false} OneLatestAnswer(l: Ledger, hash: Hash, idx: nat, a: Rid, b: Rid)
    requires Spaced(l.signatures) && Latest(l, hash, idx, a) && Latest(l, hash, idx, b)
    ensures a == b
  {
    assert Same(l.signatures[b], l.signatures[a].hash, l.signatures[a].index);
    assert l.signatures[a].createdAt == l.signatures[b].createdAt;
  }

  lemma {:induction false} GoodIsLatest(l: Ledger, verify: Verifier, hash: Hash, idx: nat, r: Rid)
    requires hash in l.transactions && idx < |l.transactions[hash].sighashes| && l.transactions[hash].holder in l.safes
    ensures GoodAnswer(l, verify, hash, idx, r) <==>
              && Latest(l, hash, idx, r) && l.signatures[r].message == l.transactions[hash].sighashes[idx]
              && verify(l.safes[l.transactions[hash].holder].signer, l.transactions[hash].sighashes[idx], l.signatures[r].signature.value)
  {
    assert forall q :: Answered(l, hash, idx, q) <==>
             q in l.signatures && l.signatures[q].hash == hash && l.signatures[q].index == idx && l.signatures[q].state == Pending && l.signatures[q].signature.Some?;
  }

  /** The scan finds everything in order exactly if every input has a good answer. */
  lemma {:induction false} ScanExactly(l: Ledger, verify: Verifier, hash: Hash, idx: nat)
    requires Spaced(l.signatures) && hash in l.transactions && l.transactions[hash].holder in l.safes
    requires idx <= |l.transactions[hash].inputs| == |l.transactions[hash].sighashes|
    requires forall o :: o in l.transactions[hash].inputs ==> o in l.outputs && l.outputs[o].multisig
    ensures ScanInputs(l, verify, l.safes[l.transactions[hash].holder].signer, hash, l.transactions[hash], idx) == AllSigned <==>
              forall k :: idx <= k < |l.transactions[hash].inputs| ==> InputAnswered(l, verify, hash, k)
    decreases |l.transactions[hash].inputs| - idx
  {
    var t := l.transactions[hash];
    var key := l.safes[t.holder].signer;
    if idx < |t.inputs| {
      ScanExactly(l, verify, hash, idx + 1);
      hide Spaced, GoodAnswer, Latest;
      assert t.inputs[idx] in t.inputs;
      forall r ensures GoodAnswer(l, verify, hash, idx, r) ==> Latest(l, hash, idx, r) { GoodIsLatest(l, verify, hash, idx, r); }
      if exists r :: Latest(l, hash, idx, r) {
        var r :| Latest(l, hash, idx, r);
        forall q | Latest(l, hash, idx, q) ensures q == r { OneLatestAnswer(l, hash, idx, q, r); }
        GoodIsLatest(l, verify, hash, idx, r);
        assert InputAnswered(l, verify, hash, idx) <==> GoodAnswer(l, verify, hash, idx, r);
      } else {
        assert !InputAnswered(l, verify, hash, idx);
      }
    }
  }

  /** The transaction, its inputs and its signature requests are done, and the safe has signed once more. */
  function Completed(l: Ledger, hash: Hash): Ledger
    requires hash in l.transactions && l.transactions[hash].holder in l.safes
  {
    var t := l.transactions[hash];
    var s := l.safes[t.holder];
    l.(transactions := l.transactions[hash := t.(state := Done)],
       outputs := (map o | o in l.outputs :: if o in t.inputs then l.outputs[o].(state := Done) else l.outputs[o]),
       signatures := (map r | r in l.signatures :: if l.signatures[r].hash == hash then l.signatures[r].(state := Done) else l.signatures[r]),
       safes := l.safes[t.holder := s.(nonce := s.nonce + 1)])
  }

  lemma {:induction false} InputsSpent(l: Ledger, verify: Verifier, hash: Hash, o: OutPoint)
    requires Inv(l, verify) && hash in l.transactions && l.transactions[hash].state == Pending && o in l.outputs
    ensures l.outputs[o].spentBy == Some(hash) <==> o in l.transactions[hash].inputs
    ensures |SpentBy(l.outputs, hash)| == |l.transactions[hash].inputs|
  {
    Coupled(l, verify, hash);
    hide Inv;
    assert o in SpentBy(l.outputs, hash) <==> o in l.transactions[hash].inputs;
  }

  lemma {:induction false} FinishCompletes(l: Ledger, verify: Verifier, hash: Hash)
    requires Inv(l, verify) && hash in l.transactions && l.transactions[hash].state == Pending && l.transactions[hash].holder in l.safes
    ensures AllSpent(l.outputs, hash) == Completed(l, hash).outputs && AllDone(l.signatures, hash) == Completed(l, hash).signatures
  {
    hide Inv;
    forall o | o in l.outputs ensures l.outputs[o].spentBy == Some(hash) <==> o in l.transactions[hash].inputs { InputsSpent(l, verify, hash, o); }
  }

  lemma {:induction false} FinishWrites(l: Ledger, l1: Ledger, verify: Verifier, i: Input, hash: Hash)
    requires NewRequest(l, i) && Inv(l1, verify) && l1.requests == Begun(l, i).requests && l1.results == l.results
    requires hash in l1.transactions && l1.transactions[hash].state == Pending && l1.transactions[hash].holder in l1.safes
    ensures FinishTransaction(l1, hash, |l1.transactions[hash].inputs|, l1.transactions[hash].holder, i.rid, i.oid, SENT) ==
              Some(Settled(Completed(l1, hash), i, Done, SENT))
  {
    hide Inv, AllSpent, AllDone, SpentBy, MarkDone, WriteResult, Settled;
    Coupled(l1, verify, hash);
    FinishCompletes(l1, verify, hash);
    Ends(l, Completed(l1, hash), i, SENT);
  }

  /** A response to an open request of a transaction that is being signed, by the safe's signer, that verifies. */
  ghost predicate GoodResponse(l: Ledger, verify: Verifier, i: Input)
  {
    && i.action.Respond? && i.rid in l.signatures && l.signatures[i.rid].hash in l.transactions
    && var t := l.transactions[l.signatures[i.rid].hash];
       && t.state == Pending && t.holder in l.safes && l.safes[t.holder].signer == i.holder
       && verify(i.holder, l.signatures[i.rid].message, i.action.sig)
  }

  lemma {:induction false} AnswerTables(l: Ledger, i: Input)
    requires i.action.Respond? && i.rid in l.signatures && (l.signatures[i.rid].state == Initial || l.signatures[i.rid].state == Pending)
    ensures var l0 := Begun(l, i);
            var l1 := WithAnswer(l0, i);
            && FinishSignature(l0, i.rid, i.action.sig) == Some(l1)
            && l1.requests == l0.requests && l1.results == l.results && l1.transactions == l.transactions && l1.safes == l.safes
            && l1.outputs == l.outputs && l1.signatures == WithAnswer(l, i).signatures
            && WithAnswer(l, i) == l.(signatures := l1.signatures)
  {
  }

  lemma {:induction false} AnswerSpaced(l: Ledger, i: Input)
    requires i.action.Respond? && i.rid in l.signatures && Spaced(l.signatures)
    ensures Spaced(WithAnswer(l, i).signatures)
  {
  }

  lemma {:induction false} NotOver(l: Ledger, verify: Verifier, rid: Rid)
    requires Inv(l, verify) && rid in l.signatures
    ensures l.signatures[rid].hash in l.transactions && l.transactions[l.signatures[rid].hash].holder in l.safes
    ensures l.transactions[l.signatures[rid].hash].state == Pending ==> l.signatures[rid].state == Initial || l.signatures[rid].state == Pending
  {
    assert SignatureOk(l, verify, rid);
  }

  lemma {:induction false} AnswerRecorded(l: Ledger, verify: Verifier, i: Input)
    requires Inv(l, verify) && Spaced(l.signatures) && NewRequest(l, i) && GoodResponse(l, verify, i)
    ensures var l1 := WithAnswer(Begun(l, i), i);
            Inv(l1, verify) && Spaced(l1.signatures) && (l.signatures[i.rid].state == Initial || l.signatures[i.rid].state == Pending)
  {
    hide Inv, Spaced, WithAnswer, FinishSignature;
    var l0 := Begun(l, i);
    NotOver(l, verify, i.rid);
    RequestsInv(l, l0, verify);
    AnswerTables(l, i);
    AnswerInv(l0, verify, i.rid, i.action.sig);
    AnswerSpaced(l, i);
  }

  lemma {:induction false} PendingShape(l: Ledger, verify: Verifier, hash: Hash)
    requires Inv(l, verify) && hash in l.transactions && l.transactions[hash].state == Pending
    ensures |l.transactions[hash].inputs| == |l.transactions[hash].sighashes|
    ensures forall o :: o in l.transactions[hash].inputs ==> o in l.outputs && l.outputs[o].multisig
  {
    assert TransactionOk(l, hash);
    forall o | o in l.transactions[hash].inputs ensures o in l.outputs && l.outputs[o].multisig { assert OutputOk(l, o); }
  }

  /** Answers are told from requests and transactions alone. */
  lemma {:induction false} SameAnswers(a: Ledger, b: Ledger, verify: Verifier, hash: Hash)
    requires a.transactions == b.transactions && a.safes == b.safes && a.signatures == b.signatures
    requires hash in a.transactions && a.transactions[hash].holder in a.safes
    ensures AllAnswered(a, verify, hash) <==> AllAnswered(b, verify, hash)
  {
    if |a.transactions[hash].sighashes| == |a.transactions[hash].inputs| {
      forall idx | 0 <= idx < |a.transactions[hash].inputs| ensures InputAnswered(a, verify, hash, idx) <==> InputAnswered(b, verify, hash, idx) {
        assert forall r :: GoodAnswer(a, verify, hash, idx, r) <==> GoodAnswer(b, verify, hash, idx, r);
      }
    }
  }

  lemma {:induction false} FinishingRuns(l: Ledger, l1: Ledger, verify: Verifier, i: Input, hash: Hash)
    requires NewRequest(l, i) && i.action.Respond? && Inv(l1, verify) && Spaced(l1.signatures)
    requires l1.requests == Begun(l, i).requests && l1.results == l.results
    requires hash in l1.transactions && l1.transactions[hash].state == Pending && l1.transactions[hash].holder in l1.safes
    ensures var t := l1.transactions[hash];
            var run := Finishing(l1, verify, i, hash, t, l1.safes[t.holder]);
            if AllAnswered(l1, verify, hash) && i.action.sendable then run == Commit(Some(Settled(Completed(l1, hash), i, Done, SENT)), SENT)
            else run == Commit(Some(Settled(l1, i, Failed, Reply([], false))), Reply([], false)) || run == Stop()
  {
    hide Inv, Spaced, ScanInputs, FinishTransaction, FailRequest, InputAnswered, Completed, Settled;
    PendingShape(l1, verify, hash);
    ScanExactly(l1, verify, hash, 0);
    FinishWrites(l, l1, verify, i, hash);
    Ends(l, l1, i, Reply([], false));
  }

  lemma {:induction false} RespondUnfolds(l: Ledger, verify: Verifier, i: Input)
    requires GoodResponse(l, verify, i) && (l.signatures[i.rid].state == Initial || l.signatures[i.rid].state == Pending)
    ensures var l0, hash := Begun(l, i), l.signatures[i.rid].hash;
            var l1, t := WithAnswer(l0, i), l.transactions[hash];
            var run := Finishing(l1, verify, i, hash, t, l.safes[t.holder]);
            HandleRespond(l0, verify, i) == Run([l1] + run.commits, run.reply)
  {
    hide FinishSignature, Finishing, WithAnswer;
    AnswerTables(l, i);
  }

  lemma {:induction false} RespondRuns(l: Ledger, verify: Verifier, i: Input)
    requires Inv(l, verify) && Spaced(l.signatures) && NewRequest(l, i) && GoodResponse(l, verify, i)
    ensures var l0, hash := Begun(l, i), l.signatures[i.rid].hash;
            var l1, run := WithAnswer(l0, i), HandleRespond(l0, verify, i);
            if AllAnswered(WithAnswer(l, i), verify, hash) && i.action.sendable then run == Run([l1, Settled(Completed(l1, hash), i, Done, SENT)], Some(SENT))
            else run == Run([l1, Settled(l1, i, Failed, Reply([], false))], Some(Reply([], false))) || run == Run([l1], None)
  {
    hide Inv, Spaced, AllAnswered, Completed, WithAnswer, Settled, HandleRespond, Finishing, FinishSignature;
    var l0, hash := Begun(l, i), l.signatures[i.rid].hash;
    var l1 := WithAnswer(l0, i);
    AnswerRecorded(l, verify, i);
    AnswerTables(l, i);
    SameAnswers(l1, WithAnswer(l, i), verify, hash);
    FinishingRuns(l, l1, verify, i, hash);
    RespondUnfolds(l, verify, i);
  }

  /**
   A good response: its answer is recorded, and the transaction becomes done, with all its inputs and requests, if and
   only if with it every input has a good latest answer and the group can send storage and notice, which it then does.
   */
  lemma {:induction false} RespondExactly(l: Ledger, chain: Blocks, verify: Verifier, i: Input)
    requires Inv(l, verify) && Spaced(l.signatures) && NewRequest(l, i) && GoodResponse(l, verify, i)
    ensures var hash := l.signatures[i.rid].hash;
            var answered := WithAnswer(l, i);
            if AllAnswered(answered, verify, hash) && i.action.sendable then
              Gives(l, chain, verify, i, Settled(Completed(answered, hash), i, Done, SENT), SENT)
            else
              var l' := Final(l, chain, verify, i);
              && l'.signatures == answered.signatures && l'.transactions == l.transactions && l'.outputs == l.outputs && l'.safes == l.safes
              && Process(l, chain, verify, i).reply != Some(SENT)
  {
    hide Handle, Inv, Spaced, HandleRespond, AllAnswered, Process, Final, WithAnswer, Completed, FinishSignature;
    var l0, hash := Begun(l, i), l.signatures[i.rid].hash;
    Dispatched(l0, chain, verify, i);
    RespondRuns(l, verify, i);
    ProcessNew(l, chain, verify, i, HandleRespond(l0, verify, i));
    NotOver(l, verify, i.rid);
    AnswerTables(l, i);
    SettledSame(l, i);
  }

  lemma {:induction false} SettledSame(l: Ledger, i: Input)
    requires i.action.Respond? && i.rid in l.signatures && l.signatures[i.rid].hash in l.transactions
    requires l.transactions[l.signatures[i.rid].hash].holder in l.safes
    ensures var hash := l.signatures[i.rid].hash;
            Settled(Completed(WithAnswer(Begun(l, i), i), hash), i, Done, SENT) == Settled(Completed(WithAnswer(l, i), hash), i, Done, SENT)
  {
    assert WithAnswer(Begun(l, i), i) == WithAnswer(l, i).(requests := Begun(l, i).requests);
  }

  /** The transaction with all its inputs is done, the safe has signed once more, and the request is over. */
  ghost predicate IsDone(l: Ledger, l': Ledger, i: Input, hash: Hash)
    requires hash in l.transactions && l.transactions[hash].holder in l.safes
  {
    var t := l.transactions[hash];
    && hash in l'.transactions && l'.transactions[hash] == t.(state := Done)
    && (forall o :: o in t.inputs ==> o in l'.outputs && l'.outputs[o].state == Done)
    && t.holder in l'.safes && l'.safes[t.holder].nonce == l.safes[t.holder].nonce + 1
    && i.rid in l'.requests && l'.requests[i.rid].state == Done
  }

  lemma {:induction false} CompletedIsDone(l: Ledger, verify: Verifier, i: Input, hash: Hash)
    requires Inv(l, verify) && hash in l.transactions && l.transactions[hash].state == Pending && l.transactions[hash].holder in l.safes
    requires i.action.Respond? && i.rid in l.signatures
    ensures IsDone(l, Settled(Completed(WithAnswer(l, i), hash), i, Done, SENT), i, hash)
  {
    PendingShape(l, verify, hash);
    hide Inv;
  }

  /** The same in every state the keeper can reach. */
  lemma {:induction false} RespondAlways(verify: Verifier, es: seq<N.Event>, l: Ledger, chain: Blocks, i: Input)
    requires N.AllAllowed(N.Start(), verify, es) && l == N.After(N.Start(), verify, es).ledger
    requires NewRequest(l, i) && GoodResponse(l, verify, i)
    ensures var hash, run := l.signatures[i.rid].hash, Process(l, chain, verify, i);
            var all := AllAnswered(WithAnswer(l, i), verify, hash) && i.action.sendable;
            && (all ==> IsDone(l, Last(l, run), i, hash) && run.reply == Some(SENT))
            && (!all ==> Last(l, run).transactions == l.transactions && run.reply != Some(SENT))
  {
    N.RunOk(verify, es);
    SpacedAlways(verify, es, |es|);
    assert es[..|es|] == es;
    hide Inv, Spaced, Process, AllAnswered, N.AllAllowed, N.After, IsDone, WithAnswer;
    RespondExactly(l, chain, verify, i);
    CompletedIsDone(l, verify, i, l.signatures[i.rid].hash);
  }

  // ---- Asking for signatures

  /** The inputs to ask for: those the holder has signed that have no answer and no request still in time. */
  ghost predicate Asked(l: Ledger, now: int, hash: Hash, same: seq<bool>, idx: nat)
    requires idx < |same|
  {
    && same[idx]
    && forall r :: r in l.signatures && l.signatures[r].hash == hash && l.signatures[r].index == idx ==>
         l.signatures[r].state == Initial && l.signatures[r].createdAt + 600 <= now
  }

  ghost predicate AnyAsked(l: Ledger, now: int, hash: Hash, same: seq<bool>)
  {
    exists n :: 0 <= n < |same| && Asked(l, now, hash, same, n)
  }

  /** The inputs to ask for have different messages. */
  ghost predicate DifferentAsked(l: Ledger, now: int, hash: Hash, same: seq<bool>, messages: seq<string>)
    requires |same| == |messages|
  {
    forall m, n :: 0 <= m < n < |same| && Asked(l, now, hash, same, m) && Asked(l, now, hash, same, n) ==> messages[m] != messages[n]
  }

  /** The request for one input. */
  function Asking(i: Input, hash: Hash, messages: seq<string>, idx: nat, signer: Key): Wanted
    requires idx < |messages|
  {
    (Derived(i.rid, messages[idx]), SignatureRequest(hash, idx, signer, messages[idx], None, Initial, i.createdAt))
  }

  lemma {:induction false} AskedNeeds(l: Ledger, now: int, hash: Hash, t: Transaction, same: seq<bool>, idx: nat)
    requires idx < |same| == |t.inputs| && t.inputs[idx] in l.outputs && l.outputs[t.inputs[idx]].multisig
    ensures NeedsSignature(l, hash, t, now, same, idx) <==> Asked(l, now, hash, same, idx)
  {
  }

  /** The requests made are those asked for, in the order of the inputs. */
  ghost predicate AskedFrom(l: Ledger, i: Input, hash: Hash, same: seq<bool>, messages: seq<string>, signer: Key, wanted: seq<Wanted>, idx: nat)
    requires |same| == |messages|
  {
    && (forall k :: 0 <= k < |wanted| ==>
          var n := wanted[k].1.index;
          idx <= n < |same| && Asked(l, i.createdAt, hash, same, n) && wanted[k] == Asking(i, hash, messages, n, signer))
    && (forall n :: idx <= n < |same| && Asked(l, i.createdAt, hash, same, n) ==> Asking(i, hash, messages, n, signer) in wanted)
    && (forall j, k :: 0 <= j < k < |wanted| ==> wanted[j].1.index < wanted[k].1.index)
  }

  lemma {:induction false} NewExactly(l: Ledger, i: Input, hash: Hash, t: Transaction, same: seq<bool>, messages: seq<string>, signer: Key, idx: nat)
    requires idx <= |same| == |t.inputs| == |messages|
    requires forall o :: o in t.inputs ==> o in l.outputs && l.outputs[o].multisig
    ensures AskedFrom(l, i, hash, same, messages, signer, NewSignatures(l, hash, t, signer, i.rid, i.createdAt, same, messages, idx), idx)
    decreases |t.inputs| - idx
  {
    if idx < |t.inputs| {
      NewExactly(l, i, hash, t, same, messages, signer, idx + 1);
      assert t.inputs[idx] in t.inputs;
      AskedNeeds(l, i.createdAt, hash, t, same, idx);
      hide NeedsSignature, Asked;
      var rest := NewSignatures(l, hash, t, signer, i.rid, i.createdAt, same, messages, idx + 1);
      var wanted := NewSignatures(l, hash, t, signer, i.rid, i.createdAt, same, messages, idx);
      assert wanted == (if Asked(l, i.createdAt, hash, same, idx) then [Asking(i, hash, messages, idx, signer)] else []) + rest;
      if Asked(l, i.createdAt, hash, same, idx) { assert wanted[0] == Asking(i, hash, messages, idx, signer); }
    }
  }

  lemma {:induction false} InsertSucceeds(sigs: map<Rid, SignatureRequest>, wanted: seq<Wanted>)
    requires forall k :: 0 <= k < |wanted| ==> wanted[k].0 !in sigs
    requires forall j, k :: 0 <= j < k < |wanted| ==> wanted[j].0 != wanted[k].0
    ensures InsertSignatures(sigs, wanted).Some?
    decreases |wanted|
  {
    if wanted != [] { InsertSucceeds(sigs[wanted[0].0 := wanted[0].1], wanted[1..]); }
  }

  function SignOf(w: Wanted): Emitted
  {
    Sign(w.0, w.1.message)
  }

  lemma {:induction false} SignsExactly(wanted: seq<Wanted>)
    ensures SignRequests(wanted) == seq(|wanted|, k requires 0 <= k < |wanted| => SignOf(wanted[k]))
    decreases |wanted|
  {
    if wanted != [] { SignsExactly(wanted[1..]); }
  }

  lemma {:induction false} FoundByRequest(l: Ledger, verify: Verifier, hash: Hash)
    requires Inv(l, verify) && hash in l.transactions
    ensures ByRequest(l, l.transactions[hash].requestId) == Some(hash)
  {
    assert OneEach(l);
    assert RequestTaken(l, l.transactions[hash].requestId);
  }

  /** The table with exactly the wanted requests added. */
  ghost predicate Added(sigs: map<Rid, SignatureRequest>, wanted: seq<Wanted>, sigs': map<Rid, SignatureRequest>)
  {
    && (forall r :: r in sigs ==> r in sigs' && sigs'[r] == sigs[r])
    && (forall k :: 0 <= k < |wanted| ==> wanted[k].0 in sigs' && sigs'[wanted[k].0] == wanted[k].1)
    && (forall r :: r in sigs' && r !in sigs ==> (r, sigs'[r]) in wanted)
  }

  function SignAll(wanted: seq<Wanted>): Reply
  {
    Reply(seq(|wanted|, k requires 0 <= k < |wanted| => SignOf(wanted[k])), false)
  }

  lemma {:induction false} WantedAdded(l: Ledger, i: Input, hash: Hash, t: Transaction, same: seq<bool>, messages: seq<string>, signer: Key) returns (wanted: seq<Wanted>, sigs: map<Rid, SignatureRequest>)
    requires |same| == |t.inputs| == |messages| && DifferentAsked(l, i.createdAt, hash, same, messages) && NewRequest(l, i)
    requires (forall o :: o in t.inputs ==> o in l.outputs && l.outputs[o].multisig) && AnyAsked(l, i.createdAt, hash, same)
    ensures wanted == NewSignatures(l, hash, t, signer, i.rid, i.createdAt, same, messages, 0) && wanted != []
    ensures AskedFrom(l, i, hash, same, messages, signer, wanted, 0) && Added(l.signatures, wanted, sigs)
    ensures InsertSignatures(l.signatures, wanted) == Some(sigs) && wanted[0].0 !in l.signatures
    ensures Reply(SignRequests(wanted), false) == SignAll(wanted)
  {
    wanted := NewSignatures(l, hash, t, signer, i.rid, i.createdAt, same, messages, 0);
    NewExactly(l, i, hash, t, same, messages, signer, 0);
    WantedNew(l, i, hash, same, messages, signer, wanted);
    InsertSucceeds(l.signatures, wanted);
    InsertExact(l.signatures, wanted);
    sigs := InsertSignatures(l.signatures, wanted).value;
    SignsExactly(wanted);
  }

  /** The holder approves an own transaction that is not over, and there is something to ask for. */
  ghost predicate ApprovalInOrder(l: Ledger, i: Input, hash: Hash)
    requires i.action.Approve?
  {
    && i.action.valid && i.action.sendable && hash in l.transactions && Open(l.transactions[hash])
    && var t := l.transactions[hash];
       && t.holder == i.holder && i.action.target == t.requestId && |i.action.same| == |t.inputs| == |t.sighashes|
       && AnyAsked(l, i.createdAt, hash, i.action.same) && DifferentAsked(l, i.createdAt, hash, i.action.same, t.sighashes)
  }

  /** Approving a transaction that is not over: exactly the inputs to ask for are asked for, and it waits for answers. */
  lemma {:induction false} ApprovalTaken(l: Ledger, chain: Blocks, verify: Verifier, i: Input, hash: Hash) returns (wanted: seq<Wanted>, sigs: map<Rid, SignatureRequest>)
    requires Inv(l, verify) && NewRequest(l, i) && i.action.Approve? && ApprovalInOrder(l, i, hash)
    ensures var t := l.transactions[hash];
            && t.holder in l.safes && |t.sighashes| == |t.inputs|
            && AskedFrom(l, i, hash, i.action.same, t.sighashes, l.safes[t.holder].signer, wanted, 0) && Added(l.signatures, wanted, sigs)
            && Gives(l, chain, verify, i,
                     Settled(l.(transactions := l.transactions[hash := t.(state := Pending)], signatures := sigs), i, Done, SignAll(wanted)), SignAll(wanted))
  {
    var l0, t := Begun(l, i), l.transactions[hash];
    OpenShape(l, verify, hash);
    hide Inv, HandleApprove, Handle, AskedFrom, NewSignatures, InsertSignatures, SignRequests, Gives, Added, SignAll, AnyAsked;
    wanted, sigs := WantedAdded(l, i, hash, t, i.action.same, t.sighashes, l.safes[t.holder].signer);
    ApprovalWritten(l, verify, i, hash, wanted, sigs);
    Dispatched(l0, chain, verify, i);
    GivesNew(l, chain, verify, i, HandleApprove(l0, i),
             Settled(l.(transactions := l.transactions[hash := t.(state := Pending)], signatures := sigs), i, Done, SignAll(wanted)), SignAll(wanted));
  }

  lemma {:induction false} OpenShape(l: Ledger, verify: Verifier, hash: Hash)
    requires Inv(l, verify) && hash in l.transactions && Open(l.transactions[hash])
    ensures var t := l.transactions[hash];
            t.holder in l.safes && |t.inputs| == |t.sighashes| && forall o :: o in t.inputs ==> o in l.outputs && l.outputs[o].multisig
  {
    assert TransactionOk(l, hash);
    forall o | o in l.transactions[hash].inputs ensures o in l.outputs && l.outputs[o].multisig { assert OutputOk(l, o); }
  }

  lemma {:induction false} WantedNew(l: Ledger, i: Input, hash: Hash, same: seq<bool>, messages: seq<string>, signer: Key, wanted: seq<Wanted>)
    requires |same| == |messages| && AskedFrom(l, i, hash, same, messages, signer, wanted, 0)
    requires DifferentAsked(l, i.createdAt, hash, same, messages) && NewRequest(l, i)
    ensures forall k :: 0 <= k < |wanted| ==> wanted[k].0 !in l.signatures
    ensures forall j, k :: 0 <= j < k < |wanted| ==> wanted[j].0 != wanted[k].0
  {
    forall j, k | 0 <= j < k < |wanted| ensures wanted[j].0 != wanted[k].0 {
      var a, b := wanted[j].1.index, wanted[k].1.index;
      assert a < b && messages[a] != messages[b];
    }
  }

  lemma {:induction false} ApprovalWritten(l: Ledger, verify: Verifier, i: Input, hash: Hash, wanted: seq<Wanted>, sigs: map<Rid, SignatureRequest>)
    requires Inv(l, verify) && NewRequest(l, i) && i.action.Approve? && i.action.valid && i.action.sendable
    requires hash in l.transactions && Open(l.transactions[hash]) && l.transactions[hash].holder == i.holder && i.action.target == l.transactions[hash].requestId
    requires var t := l.transactions[hash];
             && t.holder in l.safes && |i.action.same| == |t.inputs| == |t.sighashes| && (forall o :: o in t.inputs ==> o in l.outputs)
             && wanted == NewSignatures(l, hash, t, l.safes[t.holder].signer, i.rid, i.createdAt, i.action.same, t.sighashes, 0)
    requires wanted != [] && InsertSignatures(l.signatures, wanted) == Some(sigs) && wanted[0].0 !in l.signatures
    ensures var reply := Reply(SignRequests(wanted), false);
            HandleApprove(Begun(l, i), i) ==
              Commit(Some(Settled(l.(transactions := l.transactions[hash := l.transactions[hash].(state := Pending)], signatures := sigs), i, Done, reply)), reply)
  {
    var l0, t := Begun(l, i), l.transactions[hash];
    var reply := Reply(SignRequests(wanted), false);
    RequestsInv(l, l0, verify);
    FoundByRequest(l0, verify, hash);
    NewSame(l, l0, hash, t, l.safes[t.holder].signer, i.rid, i.createdAt, i.action.same, t.sighashes, 0);
    hide Inv, ByRequest, NewSignatures, InsertSignatures, SignRequests, Settled;
    SignaturesWritten(l, i, wanted, hash, sigs, reply);
  }

  lemma {:induction false} SignaturesWritten(l: Ledger, i: Input, wanted: seq<Wanted>, hash: Hash, sigs: map<Rid, SignatureRequest>, reply: Reply)
    requires NewRequest(l, i) && wanted != [] && InsertSignatures(l.signatures, wanted) == Some(sigs) && wanted[0].0 !in l.signatures
    requires hash in l.transactions && Open(l.transactions[hash])
    ensures WriteSignatures(Begun(l, i), wanted, hash, i.rid, i.oid, reply) ==
              Some(Settled(l.(transactions := l.transactions[hash := l.transactions[hash].(state := Pending)], signatures := sigs), i, Done, reply))
  {
    hide InsertSignatures;
    WrittenTwice(l, i, Done);
  }

  /** What is wanted depends on the outputs and the requests for signatures only. */
  lemma {:induction false} NewSame(a: Ledger, b: Ledger, hash: Hash, t: Transaction, signer: Key, rid: Rid, now: int,
                                   same: seq<bool>, messages: seq<string>, idx: nat)
    requires idx <= |t.inputs| == |same| == |messages| && a.outputs == b.outputs && a.signatures == b.signatures
    ensures NewSignatures(a, hash, t, signer, rid, now, same, messages, idx) == NewSignatures(b, hash, t, signer, rid, now, same, messages, idx)
    decreases |t.inputs| - idx
  {
    if idx < |t.inputs| {
      NewSame(a, b, hash, t, signer, rid, now, same, messages, idx + 1);
      assert SignaturePending(a, hash, idx, now) == SignaturePending(b, hash, idx, now);
    }
  }

  // ---- Revoking

  /** The outputs with every point given back. */
  function GivenBack(outputs: map<OutPoint, Output>, points: seq<OutPoint>): map<OutPoint, Output>
  {
    map o | o in outputs :: if o in points then Output(outputs[o].address, outputs[o].satoshi, outputs[o].multisig, Initial, None) else outputs[o]
  }

  lemma {:induction false} ReleaseGivesBack(l: Ledger, verify: Verifier, hash: Hash)
    requires Inv(l, verify) && hash in l.transactions && Open(l.transactions[hash])
    ensures l.transactions[hash].holder in l.safes
    ensures Release(l.outputs, l.transactions[hash].inputs, hash, l.safes[l.transactions[hash].holder].address) ==
              Some(GivenBack(l.outputs, l.transactions[hash].inputs))
  {
    var t := l.transactions[hash];
    assert TransactionOk(l, hash);
    Coupled(l, verify, hash);
    ReleaseExact(l.outputs, t.inputs, hash, l.safes[t.holder].address);
    assert Release(l.outputs, t.inputs, hash, l.safes[t.holder].address).value == GivenBack(l.outputs, t.inputs);
  }

  /** The holder revokes an own transaction that has not been approved. */
  predicate RevokeInOrder(l: Ledger, i: Input, hash: Hash)
    requires i.action.Revoke?
  {
    && i.action.valid && i.action.payable && hash in l.transactions && l.transactions[hash].state == Initial
    && l.transactions[hash].holder == i.holder && i.action.target == l.transactions[hash].requestId
  }

  /** Revoking a transaction that has not been approved: its inputs are free and what was paid for it is paid back. */
  lemma {:induction false} RevokeTaken(l: Ledger, chain: Blocks, verify: Verifier, i: Input, hash: Hash, s: Holder)
    requires Inv(l, verify) && NewRequest(l, i) && i.action.Revoke? && RevokeInOrder(l, i, hash)
    ensures var t := l.transactions[hash];
            && t.requestId in l.requests && l.requests[t.requestId].amount == SumPaid(t.recipients)
            && var reply := Reply([Bond(i.holder, SumPaid(t.recipients))], false);
               && Gives(l, chain, verify, i,
                        Settled(l.(transactions := l.transactions[hash := t.(state := Failed)], outputs := GivenBack(l.outputs, t.inputs)), i, Done, reply), reply)
               && Paid(reply.emitted, s) == if s == i.holder then SumPaid(t.recipients) else 0
  {
    var l0, t := Begun(l, i), l.transactions[hash];
    assert TransactionOk(l, hash);
    hide SumPaid, Paid, Gives, Handle, Release, GivenBack, HandleRevoke, ByRequest;
    BondPaid(i.holder, SumPaid(t.recipients), s);
    RequestsInv(l, l0, verify);
    FoundByRequest(l0, verify, hash);
    ReleaseGivesBack(l0, verify, hash);
    hide Inv;
    Dispatched(l0, chain, verify, i);
    var reply := Reply([Bond(i.holder, SumPaid(t.recipients))], false);
    RevokeWritten(l, i, hash, reply);
    GivesNew(l, chain, verify, i, HandleRevoke(l0, i),
             Settled(l.(transactions := l.transactions[hash := t.(state := Failed)], outputs := GivenBack(l.outputs, t.inputs)), i, Done, reply), reply);
  }

  lemma {:induction false} RevokeWritten(l: Ledger, i: Input, hash: Hash, reply: Reply)
    requires NewRequest(l, i) && i.action.Revoke? && i.action.valid && i.action.payable && i.holder in l.safes
    requires hash in l.transactions && l.transactions[hash].state == Initial && l.transactions[hash].holder == i.holder
    requires i.action.target in l.requests && reply == Reply([Bond(i.holder, l.requests[i.action.target].amount)], false)
    requires ByRequest(Begun(l, i), i.action.target) == Some(hash)
    requires Release(l.outputs, l.transactions[hash].inputs, hash, l.safes[i.holder].address) == Some(GivenBack(l.outputs, l.transactions[hash].inputs))
    ensures var t := l.transactions[hash];
            HandleRevoke(Begun(l, i), i) ==
              Commit(Some(Settled(l.(transactions := l.transactions[hash := t.(state := Failed)], outputs := GivenBack(l.outputs, t.inputs)), i, Done, reply)), reply)
  {
    hide Release, GivenBack, ByRequest;
    WrittenTwice(l, i, Done);
  }

  // ---- Closing

  lemma {:induction false} NoneUnfinished(l: Ledger, holder: Holder)
    ensures Unfinished(l, holder) == {} <==>
              forall h :: h in l.transactions && l.transactions[h].holder == holder ==> l.transactions[h].state != Initial && l.transactions[h].state != Pending
  {
    if Unfinished(l, holder) == {} {
      forall h | h in l.transactions && l.transactions[h].holder == holder ensures l.transactions[h].state != Initial && l.transactions[h].state != Pending {
        assert h !in Unfinished(l, holder);
      }
    }
  }

  /** A signed recovery transaction that is not known yet, for an open safe with nothing unfinished. */
  predicate CloseInOrder(l: Ledger, i: Input)
    requires i.action.CloseWithHolder?
  {
    && i.holder in l.safes && l.safes[i.holder].state == Done
    && i.action.valid && i.action.signed && i.action.sendable && i.action.outs != [] && i.action.hash !in l.transactions && !RequestTaken(l, i.rid)
    && forall h :: h in l.transactions && l.transactions[h].holder == i.holder ==> l.transactions[h].state != Initial && l.transactions[h].state != Pending
  }

  /** Closing with a signed recovery transaction: the safe is closed, and everything it had is spent by that transaction. */
  lemma {:induction false} CloseTaken(l: Ledger, chain: Blocks, verify: Verifier, i: Input) returns (points: seq<OutPoint>)
    requires Inv(l, verify) && NewRequest(l, i) && i.action.CloseWithHolder? && CloseInOrder(l, i)
    ensures var a, s := i.action, l.safes[i.holder];
            && Everything(l, s.address, points)
            && var t := Transaction(i.holder, Done, i.rid, false, a.inputs, a.outs, [], [a.outs[0]]);
               Gives(l, chain, verify, i,
                     Settled(l.(safes := l.safes[i.holder := s.(state := Failed)], transactions := l.transactions[a.hash := t],
                                outputs := HandedOver(l.outputs, points, a.hash, Done)), i, Done, SENT), SENT)
  {
    var a, s, l0 := i.action, l.safes[i.holder], Begun(l, i);
    points := Unspent(l.outputs, l.order, s.address);
    UnspentEverything(l, verify, s.address);
    EverythingThere(l, s.address, points);
    NoneUnfinished(l0, i.holder);
    SpendHandsOver(l.outputs, points, a.hash, Done);
    hide Inv, Everything, Unspent, HandedOver, Handle, Gives, Spend, HandleCloseWithHolder, Unfinished;
    CloseWritten(l, i, points);
    Dispatched(l0, chain, verify, i);
    var t := Transaction(i.holder, Done, i.rid, false, a.inputs, a.outs, [], [a.outs[0]]);
    GivesNew(l, chain, verify, i, HandleCloseWithHolder(l0, i),
             Settled(l.(safes := l.safes[i.holder := s.(state := Failed)], transactions := l.transactions[a.hash := t],
                        outputs := HandedOver(l.outputs, points, a.hash, Done)), i, Done, SENT), SENT);
  }

  lemma {:induction false} CloseWritten(l: Ledger, i: Input, points: seq<OutPoint>)
    requires NewRequest(l, i) && i.action.CloseWithHolder? && i.holder in l.safes && l.safes[i.holder].state == Done
    requires i.action.valid && i.action.signed && i.action.sendable && i.action.outs != [] && i.action.hash !in l.transactions && !RequestTaken(l, i.rid)
    requires Unfinished(Begun(l, i), i.holder) == {} && points == Unspent(l.outputs, l.order, l.safes[i.holder].address)
    requires Spend(l.outputs, points, i.action.hash, Done) == Some(HandedOver(l.outputs, points, i.action.hash, Done))
    ensures var a, s := i.action, l.safes[i.holder];
            var t := Transaction(i.holder, Done, i.rid, false, a.inputs, a.outs, [], [a.outs[0]]);
            HandleCloseWithHolder(Begun(l, i), i) ==
              Commit(Some(Settled(l.(safes := l.safes[i.holder := s.(state := Failed)], transactions := l.transactions[a.hash := t],
                                     outputs := HandedOver(l.outputs, points, a.hash, Done)), i, Done, SENT)), SENT)
  {
    hide Unspent, HandedOver, Spend, Unfinished;
    WrittenTwice(l, i, Done);
    assert RequestTaken(Begun(l, i).(safes := l.safes[i.holder := l.safes[i.holder].(state := Failed)]), i.rid) == RequestTaken(l, i.rid);
  }

  function All(n: nat): (same: seq<bool>)
    ensures |same| == n && forall k :: 0 <= k < n ==> same[k]
  {
    seq(n, _ => true)
  }

  /** The proposed recovery transaction is the one thing unfinished and takes everything. */
  ghost predicate RecoveryInOrder(l: Ledger, i: Input, hash: Hash)
    requires i.action.CloseWithoutHolder?
  {
    && i.holder in l.safes && (l.safes[i.holder].state == Done || l.safes[i.holder].state == Failed)
    && i.action.valid && i.action.matured && i.action.totals && i.action.sendable && i.action.hash == hash
    && hash in l.transactions && l.transactions[hash].holder == i.holder && i.action.target == l.transactions[hash].requestId
    && Unfinished(l, i.holder) == {hash} && Unspent(l.outputs, l.order, l.safes[i.holder].address) == []
    && |i.action.messages| == |l.transactions[hash].inputs|
    && AnyAsked(l, i.createdAt, hash, All(|i.action.messages|)) && DifferentAsked(l, i.createdAt, hash, All(|i.action.messages|), i.action.messages)
  }

  /** Closing with the recovery transaction that was proposed: the safe is closed and every input is asked for. */
  lemma {:induction false} RecoveryTaken(l: Ledger, chain: Blocks, verify: Verifier, i: Input, hash: Hash) returns (wanted: seq<Wanted>, sigs: map<Rid, SignatureRequest>)
    requires Inv(l, verify) && NewRequest(l, i) && i.action.CloseWithoutHolder? && RecoveryInOrder(l, i, hash)
    ensures var t, s := l.transactions[hash], l.safes[i.holder];
            && AskedFrom(l, i, hash, All(|t.inputs|), i.action.messages, s.signer, wanted, 0) && Added(l.signatures, wanted, sigs)
            && Gives(l, chain, verify, i,
                     Settled(l.(safes := l.safes[i.holder := s.(state := Failed)], transactions := l.transactions[hash := t.(state := Pending)],
                                signatures := sigs), i, Done, SignAll(wanted)), SignAll(wanted))
  {
    var l0, t, s := Begun(l, i), l.transactions[hash], l.safes[i.holder];
    assert hash in Unfinished(l, i.holder);
    OpenShape(l, verify, hash);
    hide Inv, HandleCloseWithoutHolder, Handle, AskedFrom, NewSignatures, InsertSignatures, SignRequests, Gives, Added, SignAll, AnyAsked, Unspent, Unfinished;
    wanted, sigs := WantedAdded(l, i, hash, t, All(|t.inputs|), i.action.messages, s.signer);
    RecoveryWritten(l, verify, i, hash, wanted, sigs);
    Dispatched(l0, chain, verify, i);
    GivesNew(l, chain, verify, i, HandleCloseWithoutHolder(l0, i),
             Settled(l.(safes := l.safes[i.holder := s.(state := Failed)], transactions := l.transactions[hash := t.(state := Pending)],
                        signatures := sigs), i, Done, SignAll(wanted)), SignAll(wanted));
  }

  lemma {:induction false} RecoveryWritten(l: Ledger, verify: Verifier, i: Input, hash: Hash, wanted: seq<Wanted>, sigs: map<Rid, SignatureRequest>)
    requires Inv(l, verify) && NewRequest(l, i) && i.action.CloseWithoutHolder? && Closable(l, i.holder)
    requires i.action.valid && i.action.matured && i.action.totals && i.action.sendable && i.action.hash == hash
    requires hash in l.transactions && Open(l.transactions[hash]) && l.transactions[hash].holder == i.holder && i.action.target == l.transactions[hash].requestId
    requires Unfinished(l, i.holder) == {hash} && Unspent(l.outputs, l.order, l.safes[i.holder].address) == []
    requires var t := l.transactions[hash];
             && |i.action.messages| == |t.inputs| && (forall o :: o in t.inputs ==> o in l.outputs)
             && wanted == NewSignatures(l, hash, t, l.safes[i.holder].signer, i.rid, i.createdAt, All(|t.inputs|), i.action.messages, 0)
    requires wanted != [] && InsertSignatures(l.signatures, wanted) == Some(sigs) && wanted[0].0 !in l.signatures
    ensures var reply, s := Reply(SignRequests(wanted), false), l.safes[i.holder];
            HandleCloseWithoutHolder(Begun(l, i), i) ==
              Commit(Some(Settled(l.(safes := l.safes[i.holder := s.(state := Failed)], transactions := l.transactions[hash := l.transactions[hash].(state := Pending)],
                                     signatures := sigs), i, Done, reply)), reply)
  {
    var l0, t, s := Begun(l, i), l.transactions[hash], l.safes[i.holder];
    var reply := Reply(SignRequests(wanted), false);
    assert Unfinished(l0, i.holder) == Unfinished(l, i.holder);
    hide Inv, ByRequest, NewSignatures, InsertSignatures, SignRequests, Settled, Unspent, Unfinished, WriteSignatures, HandleCloseWithoutHolder;
    RequestsInv(l, l0, verify);
    FoundByRequest(l0, verify, hash);
    NewSame(l, l0, hash, t, s.signer, i.rid, i.createdAt, All(|t.inputs|), i.action.messages, 0);
    SignaturesWritten(l.(safes := l.safes[i.holder := s.(state := Failed)]), i, wanted, hash, sigs, reply);
    RecoveryUnfolds(l0, i, hash, wanted);
    if s.state == Done {
      assert CloseSafe(l0, i.holder) == Some(Begun(l.(safes := l.safes[i.holder := s.(state := Failed)]), i));
    } else {
      assert l.safes[i.holder := s.(state := Failed)] == l.safes;
    }
  }

  lemma {:induction false} RecoveryUnfolds(l: Ledger, i: Input, hash: Hash, wanted: seq<Wanted>)
    requires i.action.CloseWithoutHolder? && Closable(l, i.holder)
    requires i.action.valid && i.action.matured && i.action.totals && i.action.sendable && i.action.hash == hash
    requires hash in l.transactions && Open(l.transactions[hash]) && l.transactions[hash].holder == i.holder && ByRequest(l, i.action.target) == Some(hash)
    requires Unfinished(l, i.holder) == {hash} && Unspent(l.outputs, l.order, l.safes[i.holder].address) == []
    requires var t := l.transactions[hash];
             && |i.action.messages| == |t.inputs| && (forall o :: o in t.inputs ==> o in l.outputs)
             && wanted == NewSignatures(l, hash, t, l.safes[i.holder].signer, i.rid, i.createdAt, All(|t.inputs|), i.action.messages, 0)
    requires wanted != []
    ensures var reply := Reply(SignRequests(wanted), false);
            HandleCloseWithoutHolder(l, i) ==
              Commit(if l.safes[i.holder].state == Done then CloseBySignatures(l, i.holder, wanted, hash, i.rid, i.oid, reply)
                     else WriteSignatures(l, wanted, hash, i.rid, i.oid, reply), reply)
  {
    hide ByRequest, NewSignatures, SignRequests, Unspent, Unfinished, CloseBySignatures, WriteSignatures;
    assert seq(|l.transactions[hash].inputs|, _ => true) == All(|l.transactions[hash].inputs|);
  }
}
