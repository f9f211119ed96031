/** Every commit of every handler keeps the bonds covered, and so does every run. */
module KeeperSolvent {
  import opened Options
  import opened Sums
  import opened KeeperTypes
  import opened KeeperLedger
  import opened KeeperBitcoin
  import opened KeeperCoupling
  import opened KeeperInvariant
  import opened KeeperRuns
  import opened KeeperHistory
  import opened KeeperNode
  import opened KeeperSafety
  import opened KeeperSolvency

  /** The books are in order and the safe is covered. */
  ghost predicate Sound(l: Ledger, blocks: Blocks, c: Carried, s: Holder)
  {
    Books(l, blocks) && Covered(l, blocks, c, s)
  }

  ghost predicate AllSound(run: Run, blocks: Blocks, c: Carried, s: Holder)
  {
    forall k :: 0 <= k < |run.commits| ==> Sound(run.commits[k], blocks, c, s)
  }

  /** What was circulating, plus what is sent, minus what came in, is covered by the new tables. */
  ghost predicate Balanced(l: Ledger, l1: Ledger, blocks: Blocks, c: Carried, s: Holder, oid: string, reply: Reply)
  {
    var n := Circulating(l, c, s) + Paid(reply.emitted, s) - Taken(c, oid, s);
    && (s !in l1.safes ==> n <= 0)
    && (s in l1.safes && l1.safes[s].state == Done ==> n <= Cover(l1, blocks, s))
  }

  ghost predicate SameTables(l: Ledger, l': Ledger)
  {
    l'.outputs == l.outputs && l'.transactions == l.transactions && l'.safes == l.safes
  }

  lemma {:induction false} BooksFrame(l: Ledger, l': Ledger, blocks: Blocks)
    requires Books(l, blocks) && SameTables(l, l')
    ensures Books(l', blocks)
  {
    forall h | h in l'.transactions && l'.transactions[h].proposed ensures Shaped(l', l'.transactions[h]) {
      assert Shaped(l, l.transactions[h]);
    }
    forall o | o in l'.outputs ensures o.hash in blocks && Owned(l', o) {
      assert Owned(l, o);
      var s :| s in l.safes && l.safes[s].address == l.outputs[o].address;
      assert s in l'.safes && l'.safes[s].address == l'.outputs[o].address;
    }
  }

  /** Requests and results alone do not touch the tables that count. */
  lemma {:induction false} SoundFrame(l: Ledger, l': Ledger, blocks: Blocks, c: Carried, s: Holder)
    requires Sound(l, blocks, c, s) && SameTables(l, l') && l'.results == l.results
    ensures Sound(l', blocks, c, s)
  {
    BooksFrame(l, l', blocks);
    SameBonds(l, l', c, s);
    if s in l.safes { CoverFrame(l, l', blocks, s); }
  }

  lemma {:induction false} ResultSound(l: Ledger, l1: Ledger, l2: Ledger, blocks: Blocks, c: Carried, s: Holder, oid: string, reply: Reply)
    requires Books(l1, blocks) && l1.results == l.results && Balanced(l, l1, blocks, c, s, oid, reply)
    requires SameTables(l1, l2) && l2.results == l.results
    ensures AllSound(Commit(WriteResult(l2, oid, reply), reply), blocks, c, s)
  {
    var r := WriteResult(l2, oid, reply);
    if r.Some? {
      BooksFrame(l1, r.value, blocks);
      ResultBonds(l, r.value, c, s, oid, reply);
      if s in l1.safes { CoverFrame(l1, r.value, blocks, s); }
    }
  }

  lemma {:induction false} DoneSound(l: Ledger, l1: Ledger, blocks: Blocks, c: Carried, s: Holder, rid: Rid, oid: string, reply: Reply)
    requires Books(l1, blocks) && l1.results == l.results && Balanced(l, l1, blocks, c, s, oid, reply)
    ensures var r := MarkDone(l1, rid);
            r.Some? ==> AllSound(Commit(WriteResult(r.value, oid, reply), reply), blocks, c, s)
  {
    var r := MarkDone(l1, rid);
    if r.Some? { ResultSound(l, l1, r.value, blocks, c, s, oid, reply); }
  }

  lemma {:induction false} FailsSound(l: Ledger, blocks: Blocks, c: Carried, s: Holder, rid: Rid, oid: string, reply: Reply)
    requires Sound(l, blocks, c, s) && Paid(reply.emitted, s) <= Taken(c, oid, s)
    ensures AllSound(Commit(FailRequest(l, rid, oid, reply), reply), blocks, c, s)
  {
    if rid in l.requests && l.requests[rid].state == Initial {
      var l2 := l.(requests := l.requests[rid := l.requests[rid].(state := Failed)]);
      ResultSound(l, l, l2, blocks, c, s, oid, reply);
    }
  }

  /** The output is what the group says it is. */
  predicate Matches(c: Carried, i: Input)
  {
    c(i.oid) == (i.bondOf, i.amount)
  }

  lemma {:induction false} FailSound(l: Ledger, blocks: Blocks, c: Carried, s: Holder, i: Input)
    requires Sound(l, blocks, c, s)
    ensures AllSound(Fail(l, i), blocks, c, s)
    ensures AllSound(Commit(FailRequest(l, i.rid, i.oid, Reply([], true)), Reply([], true)), blocks, c, s)
  {
    FailsSound(l, blocks, c, s, i.rid, i.oid, Nothing());
    FailsSound(l, blocks, c, s, i.rid, i.oid, Reply([], true));
  }

  lemma {:induction false} PaidOne(h: Holder, v: nat, s: Holder)
    ensures Paid([Bond(h, v)], s) == if h == s then v else 0
    ensures Paid([], s) == 0 && Paid(Sent().emitted, s) == 0
  {
    assert [Bond(h, v)][1..] == [];
    assert Sent().emitted[1..] == [Notify] && [Notify][1..] == [];
    assert Paid([Notify], s) == 0;
  }

  lemma {:induction false} RefundSound(l: Ledger, blocks: Blocks, c: Carried, s: Holder, i: Input, refundable: bool)
    requires Sound(l, blocks, c, s) && Matches(c, i) && i.bondOf == Some(i.holder)
    ensures AllSound(Refund(l, i, refundable), blocks, c, s)
  {
    FailSound(l, blocks, c, s, i);
    PaidOne(i.holder, i.amount, s);
    FailsSound(l, blocks, c, s, i.rid, i.oid, Reply([Bond(i.holder, i.amount)], false));
  }

  // ---- New safes

  lemma {:induction false} NewSafeBooks(l: Ledger, blocks: Blocks, x: Holder, safe: Safe)
    requires Books(l, blocks) && x !in l.safes
    ensures Books(l.(safes := l.safes[x := safe]), blocks)
  {
    var l1 := l.(safes := l.safes[x := safe]);
    forall h | h in l1.transactions && l1.transactions[h].proposed ensures Shaped(l1, l1.transactions[h]) {
      assert Shaped(l, l.transactions[h]);
    }
    forall o | o in l1.outputs ensures o.hash in blocks && Owned(l1, o) {
      assert Owned(l, o);
      var y :| y in l.safes && l.safes[y].address == l.outputs[o].address;
      assert y in l1.safes && l1.safes[y].address == l1.outputs[o].address;
    }
  }

  /** A new safe has nothing yet. */
  lemma {:induction false} NewSafeCover(l: Ledger, blocks: Blocks, s: Holder, safe: Safe)
    requires Books(l, blocks) && s !in l.safes && Unused(l, safe)
    ensures Cover(l.(safes := l.safes[s := safe]), blocks, s) == 0
  {
    var l1 := l.(safes := l.safes[s := safe]);
    forall o | o in l1.outputs ensures UnspentOf(l1, safe.address)(o) == 0 {
      assert Owned(l, o);
      var y :| y in l.safes && l.safes[y].address == l.outputs[o].address;
    }
    SumZero(l1.outputs.Keys, UnspentOf(l1, safe.address));
    forall h | h in l1.transactions ensures WeightOf(l1, blocks, s)(h) == 0 {
      if l.transactions[h].proposed { assert Shaped(l, l.transactions[h]); }
    }
    SumZero(l1.transactions.Keys, WeightOf(l1, blocks, s));
  }

  lemma {:induction false} ApproveAccountSound(l: Ledger, blocks: Blocks, c: Carried, s: Holder, i: Input)
    requires Sound(l, blocks, c, s) && i.action.ApproveAccount?
    ensures AllSound(HandleApproveAccount(l, i), blocks, c, s)
  {
    FailSound(l, blocks, c, s, i);
    var safe := i.action.safe.(state := Done, nonce := 0);
    if i.holder !in l.safes && Unused(l, safe) {
      var l1 := l.(safes := l.safes[i.holder := safe]);
      NewSafeBooks(l, blocks, i.holder, safe);
      PaidOne(s, 0, s);
      if i.holder == s {
        NewSafeCover(l, blocks, s, safe);
      } else if s in l.safes {
        CoverFrame(l, l1, blocks, s);
      }
      DoneSound(l, l1, blocks, c, s, i.rid, i.oid, Sent());
    }
  }

  // ---- Deposits

  lemma {:induction false} DepositBooks(l: Ledger, l': Ledger, verify: Verifier, blocks: Blocks, x: Holder, p: OutPoint, v: nat, change: bool)
    requires Inv(l, verify) && Books(l, blocks) && Arrived(l, l', blocks, x, p, v, change)
    ensures Books(l', blocks)
  {
    forall h | h in l'.transactions && l'.transactions[h].proposed ensures Shaped(l', l'.transactions[h]) {
      assert Shaped(l, l.transactions[h]) && TransactionOk(l, h);
      RecordedAfter(l, l', blocks, x, p, v, change, l.transactions[h]);
    }
    forall o | o in l'.outputs ensures o.hash in blocks && Owned(l', o) {
      if o != p {
        assert Owned(l, o);
        var y :| y in l.safes && l.safes[y].address == l.outputs[o].address;
        assert y in l'.safes && l'.safes[y].address == l'.outputs[o].address;
      } else {
        assert x in l'.safes && l'.safes[x].address == l'.outputs[o].address;
      }
    }
  }

  lemma {:induction false} ArrivedSound(l: Ledger, l1: Ledger, verify: Verifier, blocks: Blocks, c: Carried, s: Holder, i: Input, p: OutPoint, change: bool)
    requires Inv(l, verify) && Sound(l, blocks, c, s) && Honest(l, blocks, s) && i.action.Deposit?
    requires Arrived(l, l1, blocks, i.holder, p, i.action.value, change) && l1.results == l.results
    ensures Books(l1, blocks) && Balanced(l, l1, blocks, c, s, i.oid, Deposited(i, change))
  {
    DepositBooks(l, l1, verify, blocks, i.holder, p, i.action.value, change);
    PaidOne(i.holder, i.action.value, s);
    if s in l.safes { DepositCover(l, l1, verify, blocks, s, i.holder, p, i.action.value, change); }
  }

  lemma {:induction false} DepositSound(l: Ledger, verify: Verifier, chain: Blocks, blocks: Blocks, c: Carried, s: Holder, i: Input)
    requires Inv(l, verify) && Sound(l, blocks, c, s) && Honest(l, blocks, s) && i.action.Deposit?
    requires forall h :: h in chain ==> h in blocks && blocks[h] == chain[h]
    ensures AllSound(HandleDeposit(l, chain, i), blocks, c, s)
  {
    hide Inv, Books, Balanced, Covered;
    FailSound(l, blocks, c, s, i);
    var p := i.action.point;
    if i.holder in l.safes && p !in l.outputs && p.hash in chain && chain[p.hash].vin != [] {
      var safe := l.safes[i.holder];
      var r := IsChange(l, chain[p.hash], p.index);
      if r.Some? && p.index < |chain[p.hash].outs| && chain[p.hash].outs[p.index] == Pay(safe.address, i.action.value) {
        var l1 := l.(order := l.order + [p], outputs := l.outputs[p := Output(safe.address, i.action.value, true, Initial, None)],
                     deposits := l.deposits + {p});
        ArrivedSound(l, l1, verify, blocks, c, s, i, p, r.value);
        DoneSound(l, l1, blocks, c, s, i.rid, i.oid, Deposited(i, r.value));
      }
    }
  }

  // ---- Proposing

  /** Transactions keep their shape when outputs keep their values and safes their addresses. */
  lemma {:induction false} ShapesKept(l: Ledger, l': Ledger, verify: Verifier, h: Hash, t: Transaction)
    requires Inv(l, verify) && h in l.transactions && l.transactions[h].proposed && Shaped(l, l.transactions[h])
    requires OutputsMove(l.outputs, l'.outputs) && SafesMove(l.safes, l'.safes) && t == l.transactions[h].(state := t.state)
    ensures Shaped(l', t)
  {
    assert TransactionOk(l, h);
    SatoshiKept(l.outputs, l'.outputs, t.inputs);
  }

  lemma {:induction false} OwnedKept(l: Ledger, l': Ledger, blocks: Blocks, o: OutPoint)
    requires Books(l, blocks) && o in l.outputs && OutputsMove(l.outputs, l'.outputs) && SafesMove(l.safes, l'.safes)
    ensures o.hash in blocks && o in l'.outputs && Owned(l', o)
  {
    assert Owned(l, o);
    var y :| y in l.safes && l.safes[y].address == l.outputs[o].address;
    assert y in l'.safes && l'.safes[y].address == l'.outputs[o].address;
  }

  /** The books stay in order when only states change. */
  lemma {:induction false} StateBooks(l: Ledger, l': Ledger, verify: Verifier, blocks: Blocks, hash: Hash, state: State)
    requires Inv(l, verify) && Books(l, blocks) && StateSet(l, l', hash, state)
    ensures Books(l', blocks)
  {
    forall h | h in l'.transactions && l'.transactions[h].proposed ensures Shaped(l', l'.transactions[h]) {
      ShapesKept(l, l', verify, h, l'.transactions[h]);
    }
    forall o | o in l'.outputs ensures o.hash in blocks && Owned(l', o) { OwnedKept(l, l', blocks, o); }
  }

  lemma {:induction false} InsertBooks(l: Ledger, l': Ledger, verify: Verifier, blocks: Blocks, hash: Hash, t: Transaction, a: Address, state: State)
    requires Inv(l, verify) && Books(l, blocks) && Inserted(l, l', hash, t, a, state) && (t.proposed ==> Shaped(l', t))
    ensures Books(l', blocks)
  {
    SpendMoves(l, verify, a, hash, state, l'.outputs);
    forall h | h in l'.transactions && l'.transactions[h].proposed ensures Shaped(l', l'.transactions[h]) {
      if h != hash { ShapesKept(l, l', verify, h, l'.transactions[h]); }
    }
    forall o | o in l'.outputs ensures o.hash in blocks && Owned(l', o) { OwnedKept(l, l', blocks, o); }
  }

  lemma {:induction false} ProposalShaped(l: Ledger, l': Ledger, verify: Verifier, i: Input, hash: Hash)
    requires Inv(l, verify) && i.action.Propose? && i.holder in l.safes && i.amount <= Funds(l, l.safes[i.holder])
    requires SumPaid(i.action.recipients) == i.amount
    requires Inserted(l, l', hash, Proposal(l, i, l.safes[i.holder]), l.safes[i.holder].address, Pending)
    ensures Shaped(l', Proposal(l, i, l.safes[i.holder]))
  {
    var t := Proposal(l, i, l.safes[i.holder]);
    SpendMoves(l, verify, l.safes[i.holder].address, hash, Pending, l'.outputs);
    UnspentOk(l, verify, l.safes[i.holder].address);
    SatoshiKept(l.outputs, l'.outputs, t.inputs);
  }

  lemma {:induction false} ProposalSound(l: Ledger, l1: Ledger, verify: Verifier, blocks: Blocks, c: Carried, s: Holder, i: Input)
    requires Inv(l, verify) && Sound(l, blocks, c, s) && Honest(l, blocks, s) && Matches(c, i) && i.bondOf == Some(i.holder)
    requires i.action.Propose? && i.holder in l.safes && i.amount <= Funds(l, l.safes[i.holder]) && SumPaid(i.action.recipients) == i.amount
    requires Unspent(l.outputs, l.order, l.safes[i.holder].address) != []
    requires Inserted(l, l1, i.action.hash, Proposal(l, i, l.safes[i.holder]), l.safes[i.holder].address, Pending)
    ensures Books(l1, blocks) && Balanced(l, l1, blocks, c, s, i.oid, Sent())
  {
    var t, a := Proposal(l, i, l.safes[i.holder]), l.safes[i.holder].address;
    ProposalShaped(l, l1, verify, i, i.action.hash);
    InsertBooks(l, l1, verify, blocks, i.action.hash, t, a, Pending);
    PaidOne(s, 0, s);
    if i.holder == s {
      ProposeCover(l, l1, verify, blocks, s, i.action.hash, t);
    } else if s in l.safes {
      OtherCover(l, l1, verify, blocks, s, i.action.hash, t, a, Pending);
    }
  }

  /** An insertion seen as a change of tables. */
  lemma {:induction false} InsertTables(l: Ledger, hash: Hash, t: Transaction, a: Address, state: State)
    requires state != Initial
    ensures var r := InsertTransaction(l, hash, t, Unspent(l.outputs, l.order, a), state);
            r.Some? ==> Inserted(l, r.value, hash, t, a, state) && r.value.results == l.results
  {
  }

  lemma {:induction false} ProposeSound(l: Ledger, verify: Verifier, blocks: Blocks, c: Carried, s: Holder, i: Input)
    requires Inv(l, verify) && Sound(l, blocks, c, s) && Honest(l, blocks, s) && Matches(c, i) && i.action.Propose?
    ensures AllSound(HandlePropose(l, i), blocks, c, s)
  {
    hide Inv, Books, Balanced, Covered;
    FailSound(l, blocks, c, s, i);
    if i.bondOf == Some(i.holder) { RefundSound(l, blocks, c, s, i, i.action.refundable); }
    if i.holder in l.safes && i.bondOf == Some(i.holder) && i.amount <= Funds(l, l.safes[i.holder]) && SumPaid(i.action.recipients) == i.amount {
      var t := Proposal(l, i, l.safes[i.holder]);
      InsertTables(l, i.action.hash, t, l.safes[i.holder].address, Pending);
      var r := InsertTransaction(l, i.action.hash, t, t.inputs, Pending);
      if t.inputs != [] && r.Some? {
        ProposalSound(l, r.value, verify, blocks, c, s, i);
        ResultSound(l, r.value, r.value, blocks, c, s, i.oid, Sent());
      }
    }
  }

  // ---- Signing

  lemma {:induction false} PaidForSigning(wanted: seq<Wanted>, s: Holder)
    ensures Paid(SignRequests(wanted), s) == 0
    decreases |wanted|
  {
    if wanted != [] {
      PaidForSigning(wanted[1..], s);
      assert SignRequests(wanted)[1..] == SignRequests(wanted[1..]);
    }
  }

  /** Asking for signatures: the transaction is being signed, the safe may have been closed. */
  lemma {:induction false} AskSound(l: Ledger, l0: Ledger, verify: Verifier, blocks: Blocks, c: Carried, s: Holder, wanted: seq<Wanted>, hash: Hash, rid: Rid, oid: string)
    requires Inv(l, verify) && Sound(l, blocks, c, s) && wanted != []
    requires l0 == l.(safes := l0.safes) && SafesMove(l.safes, l0.safes) && l0.safes.Keys == l.safes.Keys
    ensures var reply := Reply(SignRequests(wanted), false);
            AllSound(Commit(WriteSignatures(l0, wanted, hash, rid, oid, reply), reply), blocks, c, s)
  {
    hide Inv, Books, Balanced, Covered, SafesMove, Sound;
    var reply := Reply(SignRequests(wanted), false);
    PaidForSigning(wanted, s);
    ClosedSound(l, l0, blocks, c, s, oid, reply);
    DoneSound(l, l0, blocks, c, s, rid, oid, reply);
    var sigs := InsertSignatures(l0.signatures, wanted);
    if hash in l0.transactions && Open(l0.transactions[hash]) && sigs.Some? {
      var l1 := SetState(l0, hash, Pending).(signatures := sigs.value);
      AskedSound(l, l0, l1, verify, blocks, c, s, hash, oid, reply);
      DoneSound(l, l1, blocks, c, s, rid, oid, reply);
      SignaturesOrder(l0, wanted, hash, rid, oid, reply);
    }
  }

  lemma {:induction false} ClosedSound(l: Ledger, l0: Ledger, blocks: Blocks, c: Carried, s: Holder, oid: string, reply: Reply)
    requires Sound(l, blocks, c, s) && Paid(reply.emitted, s) == 0
    requires l0 == l.(safes := l0.safes) && SafesMove(l.safes, l0.safes) && l0.safes.Keys == l.safes.Keys
    ensures Books(l0, blocks) && Balanced(l, l0, blocks, c, s, oid, reply)
  {
    forall h | h in l0.transactions && l0.transactions[h].proposed ensures Shaped(l0, l0.transactions[h]) {
      assert Shaped(l, l.transactions[h]);
    }
    forall o | o in l0.outputs ensures o.hash in blocks && Owned(l0, o) { OwnedKept(l, l0, blocks, o); }
    if s in l.safes { CoverFrame(l, l0, blocks, s); }
  }

  lemma {:induction false} AskedSound(l: Ledger, l0: Ledger, l1: Ledger, verify: Verifier, blocks: Blocks, c: Carried, s: Holder, hash: Hash, oid: string, reply: Reply)
    requires Inv(l, verify) && Sound(l, blocks, c, s) && Paid(reply.emitted, s) == 0
    requires l0 == l.(safes := l0.safes) && SafesMove(l.safes, l0.safes) && l0.safes.Keys == l.safes.Keys
    requires hash in l.transactions && Open(l.transactions[hash])
    requires l1 == SetState(l0, hash, Pending).(signatures := l1.signatures)
    ensures Books(l1, blocks) && Balanced(l, l1, blocks, c, s, oid, reply)
  {
    StateBooks(l, l1, verify, blocks, hash, Pending);
    if s in l.safes { SignCover(l, l1, verify, blocks, s, hash, Pending); }
  }

  lemma {:induction false} ApproveSound(l: Ledger, verify: Verifier, blocks: Blocks, c: Carried, s: Holder, i: Input)
    requires Inv(l, verify) && Sound(l, blocks, c, s) && i.action.Approve?
    ensures AllSound(HandleApprove(l, i), blocks, c, s)
  {
    hide Inv, Books, Balanced, Covered;
    FailSound(l, blocks, c, s, i);
    var a, h := i.action, ByRequest(l, i.action.target);
    if i.holder in l.safes && h.Some? {
      var t := l.transactions[h.value];
      if |a.same| == |t.inputs| == |t.sighashes| {
        var wanted := NewSignatures(l, h.value, t, l.safes[i.holder].signer, i.rid, i.createdAt, a.same, t.sighashes, 0);
        if wanted != [] { AskSound(l, l, verify, blocks, c, s, wanted, h.value, i.rid, i.oid); }
      }
    }
  }

  lemma {:induction false} CloseWithoutHolderSound(l: Ledger, verify: Verifier, blocks: Blocks, c: Carried, s: Holder, i: Input)
    requires Inv(l, verify) && Sound(l, blocks, c, s) && i.action.CloseWithoutHolder?
    ensures AllSound(HandleCloseWithoutHolder(l, i), blocks, c, s)
  {
    hide Inv, Books, Balanced, Covered;
    FailSound(l, blocks, c, s, i);
    var a, h := i.action, ByRequest(l, i.action.target);
    if Closable(l, i.holder) && h.Some? && |a.messages| == |l.transactions[h.value].inputs| {
      var t, safe := l.transactions[h.value], l.safes[i.holder];
      var wanted := NewSignatures(l, h.value, t, safe.signer, i.rid, i.createdAt, seq(|t.inputs|, _ => true), a.messages, 0);
      if wanted != [] {
        AskSound(l, l, verify, blocks, c, s, wanted, h.value, i.rid, i.oid);
        CloseSafeMoves(l, i.holder);
        if safe.state == Done {
          var l0 := CloseSafe(l, i.holder).value;
          assert l0.safes.Keys == l.safes.Keys;
          AskSound(l, l0, verify, blocks, c, s, wanted, h.value, i.rid, i.oid);
        }
      }
    }
  }

  lemma {:induction false} FinishedTables(l: Ledger, hash: Hash, holder: Holder)
    requires hash in l.transactions && holder in l.safes
    ensures StateSet(l, Finished(l, hash, holder), hash, Done)
    ensures var l1 := Finished(l, hash, holder);
            l1.outputs == AllSpent(l.outputs, hash) && l1.safes.Keys == l.safes.Keys
  {
    var l1 := Finished(l, hash, holder);
    assert l1.outputs.Keys == l.outputs.Keys;
    assert OutputsMove(l.outputs, l1.outputs);
  }

  lemma {:induction false} FinishedSound(l: Ledger, l1: Ledger, verify: Verifier, blocks: Blocks, c: Carried, s: Holder, hash: Hash, holder: Holder, oid: string)
    requires Inv(l, verify) && Sound(l, blocks, c, s) && hash in l.transactions && Open(l.transactions[hash]) && holder in l.safes
    requires l1 == Finished(l, hash, holder)
    ensures Books(l1, blocks) && Balanced(l, l1, blocks, c, s, oid, Sent())
  {
    PaidOne(s, 0, s);
    FinishedTables(l, hash, holder);
    hide Inv, Books, Cover, Finished, StateSet;
    StateBooks(l, l1, verify, blocks, hash, Done);
    if s in l.safes { SignCover(l, l1, verify, blocks, s, hash, Done); }
  }

  lemma {:induction false} FinishingSound(l: Ledger, verify: Verifier, blocks: Blocks, c: Carried, s: Holder, i: Input, hash: Hash)
    requires Inv(l, verify) && Sound(l, blocks, c, s) && i.action.Respond?
    requires hash in l.transactions && Open(l.transactions[hash]) && l.transactions[hash].holder in l.safes
    ensures AllSound(Finishing(l, verify, i, hash, l.transactions[hash], l.safes[l.transactions[hash].holder]), blocks, c, s)
  {
    hide Inv, Books, Balanced, Covered, ScanInputs;
    FailSound(l, blocks, c, s, i);
    var t := l.transactions[hash];
    FinishedSound(l, Finished(l, hash, t.holder), verify, blocks, c, s, hash, t.holder, i.oid);
    DoneSound(l, Finished(l, hash, t.holder), blocks, c, s, i.rid, i.oid, Sent());
  }

  lemma {:induction false} RespondSound(l: Ledger, verify: Verifier, blocks: Blocks, c: Carried, s: Holder, i: Input)
    requires Inv(l, verify) && Sound(l, blocks, c, s) && i.action.Respond?
    ensures AllSound(HandleRespond(l, verify, i), blocks, c, s)
  {
    RespondCases(l, verify, i);
    FailSound(l, blocks, c, s, i);
    if Answerable(l, verify, i) { AnsweringSound(l, verify, blocks, c, s, i); }
    hide HandleRespond, Answering, Inv, Sound;
  }

  lemma {:induction false} AnsweringSound(l: Ledger, verify: Verifier, blocks: Blocks, c: Carried, s: Holder, i: Input)
    requires Inv(l, verify) && Sound(l, blocks, c, s) && i.action.Respond? && Answerable(l, verify, i)
    ensures AllSound(Answering(l, verify, i), blocks, c, s)
  {
    hide Inv, Sound, AfterAnswer;
    var l1 := FinishSignature(l, i.rid, i.action.sig).value;
    AnswerInv(l, verify, i.rid, i.action.sig);
    SoundFrame(l, l1, blocks, c, s);
    AfterAnswerSound(l1, verify, blocks, c, s, i, l.signatures[i.rid].hash);
  }

  lemma {:induction false} AfterAnswerSound(l: Ledger, verify: Verifier, blocks: Blocks, c: Carried, s: Holder, i: Input, hash: Hash)
    requires Inv(l, verify) && Sound(l, blocks, c, s) && i.action.Respond?
    requires hash in l.transactions && Open(l.transactions[hash]) && l.transactions[hash].holder in l.safes
    ensures AllSound(AfterAnswer(l, verify, i, hash, l.transactions[hash], l.safes[l.transactions[hash].holder]), blocks, c, s)
  {
    hide Inv, Books, Balanced, Covered;
    FinishingSound(l, verify, blocks, c, s, i, hash);
  }

  // ---- Revoking and closing

  lemma {:induction false} RevokedSound(l: Ledger, l1: Ledger, verify: Verifier, blocks: Blocks, c: Carried, s: Holder, hash: Hash, i: Input)
    requires Inv(l, verify) && Sound(l, blocks, c, s) && Released(l, hash, l1.outputs) && l.transactions[hash].holder == i.holder
    requires l1 == SetState(l.(outputs := l1.outputs), hash, Failed)
    ensures l.transactions[hash].requestId in l.requests
    ensures Books(l1, blocks)
    ensures Balanced(l, l1, blocks, c, s, i.oid, Reply([Bond(i.holder, l.requests[l.transactions[hash].requestId].amount)], false))
  {
    var t := l.transactions[hash];
    assert TransactionOk(l, hash);
    PaidOne(i.holder, l.requests[t.requestId].amount, s);
    assert StateSet(l, l1, hash, Failed);
    StateBooks(l, l1, verify, blocks, hash, Failed);
    if s in l.safes { RevokeCover(l, l1, verify, blocks, s, hash); }
  }

  lemma {:induction false} RevokeSound(l: Ledger, verify: Verifier, blocks: Blocks, c: Carried, s: Holder, i: Input)
    requires Inv(l, verify) && Sound(l, blocks, c, s) && i.action.Revoke?
    ensures AllSound(HandleRevoke(l, i), blocks, c, s)
  {
    FailSound(l, blocks, c, s, i);
    var h := ByRequest(l, i.action.target);
    if i.holder in l.safes && h.Some? {
      var t := l.transactions[h.value];
      if t.holder == i.holder && t.state == Initial {
        assert TransactionOk(l, h.value);
        ReleaseExact(l.outputs, t.inputs, h.value, l.safes[i.holder].address);
        var r := Release(l.outputs, t.inputs, h.value, l.safes[i.holder].address);
        if r.Some? {
          var l1 := SetState(l.(outputs := r.value), h.value, Failed);
          RevokedSound(l, l1, verify, blocks, c, s, h.value, i);
          DoneSound(l, l1, blocks, c, s, i.rid, i.oid, Reply([Bond(i.holder, l.requests[i.action.target].amount)], false));
        }
      }
    }
  }

  lemma {:induction false} ClosingSound(l: Ledger, l0: Ledger, l1: Ledger, verify: Verifier, blocks: Blocks, c: Carried, s: Holder, x: Holder, hash: Hash, t: Transaction, oid: string)
    requires Inv(l, verify) && Sound(l, blocks, c, s) && x in l.safes && !t.proposed && t.holder == x
    requires l0 == l.(safes := l.safes[x := l.safes[x].(state := Failed)]) && l.safes[x].state == Done
    requires Inserted(l0, l1, hash, t, l.safes[x].address, Done)
    ensures Books(l1, blocks) && Balanced(l, l1, blocks, c, s, oid, Sent())
  {
    PaidOne(s, 0, s);
    CloseSafeInv(l, verify, x, l.safes[x].(state := Failed));
    ClosedSound(l, l0, blocks, c, s, oid, Sent());
    InsertBooks(l0, l1, verify, blocks, hash, t, l.safes[x].address, Done);
    if s in l.safes && s != x {
      OtherCover(l0, l1, verify, blocks, s, hash, t, l.safes[x].address, Done);
    }
  }

  lemma {:induction false} CloseWithHolderSound(l: Ledger, verify: Verifier, blocks: Blocks, c: Carried, s: Holder, i: Input)
    requires Inv(l, verify) && Sound(l, blocks, c, s) && i.action.CloseWithHolder?
    ensures AllSound(HandleCloseWithHolder(l, i), blocks, c, s)
  {
    hide Inv, Books, Balanced, Covered;
    FailSound(l, blocks, c, s, i);
    PaidOne(s, 0, s);
    Still(l, i.rid);
    ClosedSound(l, l, blocks, c, s, i.oid, Sent());
    DoneSound(l, l, blocks, c, s, i.rid, i.oid, Sent());
    if i.holder in l.safes && i.action.outs != [] && l.safes[i.holder].state == Done {
      var t, a := Closing(i), l.safes[i.holder].address;
      var l0 := CloseSafe(l, i.holder).value;
      InsertTables(l0, i.action.hash, t, a, Done);
      var r := InsertTransaction(l0, i.action.hash, t, Unspent(l.outputs, l.order, a), Done);
      if r.Some? {
        ClosingSound(l, l0, r.value, verify, blocks, c, s, i.holder, i.action.hash, t, i.oid);
        ResultSound(l, r.value, r.value, blocks, c, s, i.oid, Sent());
      }
    }
  }

  // ---- One output

  lemma {:induction false} HandleSound(l: Ledger, verify: Verifier, chain: Blocks, blocks: Blocks, c: Carried, s: Holder, i: Input)
    requires Inv(l, verify) && Sound(l, blocks, c, s) && Honest(l, blocks, s) && Matches(c, i)
    requires forall h :: h in chain ==> h in blocks && blocks[h] == chain[h]
    ensures AllSound(Handle(l, chain, verify, i), blocks, c, s)
  {
    hide Inv, Sound, Honest;
    match i.action
    case Ignore =>
    case ApproveAccount(_, _, _) => ApproveAccountSound(l, blocks, c, s, i);
    case Deposit(_, _, _, _, _, _, _) => DepositSound(l, verify, chain, blocks, c, s, i);
    case Propose(_, _, _, _, _, _, _, _) => ProposeSound(l, verify, blocks, c, s, i);
    case Approve(_, _, _, _) => ApproveSound(l, verify, blocks, c, s, i);
    case Revoke(_, _, _) => RevokeSound(l, verify, blocks, c, s, i);
    case Respond(_, _) => RespondSound(l, verify, blocks, c, s, i);
    case CloseWithHolder(_, _, _, _, _, _) => CloseWithHolderSound(l, verify, blocks, c, s, i);
    case CloseWithoutHolder(_, _, _, _, _, _, _) => CloseWithoutHolderSound(l, verify, blocks, c, s, i);
  }

  ghost predicate Within(chain: Blocks, blocks: Blocks)
  {
    forall h :: h in chain ==> h in blocks && blocks[h] == chain[h]
  }

  lemma {:induction false} InnerSound(l0: Ledger, verify: Verifier, chain: Blocks, blocks: Blocks, c: Carried, s: Holder, i: Input, k: nat, l1: Ledger)
    requires Inv(l0, verify) && Sound(l0, blocks, c, s) && Honest(l0, blocks, s) && Matches(c, i) && Within(chain, blocks)
    requires k <= |Handle(l0, chain, verify, i).commits| && l1 == StateAt(l0, Handle(l0, chain, verify, i), k)
    ensures Sound(l1, blocks, c, s)
  {
    hide Inv, Sound, Honest, Handle;
    HandleSound(l0, verify, chain, blocks, c, s, i);
  }

  lemma {:induction false} RepeatSound(l: Ledger, verify: Verifier, chain: Blocks, blocks: Blocks, c: Carried, s: Holder, i: Input, k: nat)
    requires Sound(l, blocks, c, s) && (Handled(l, i) || i.action.Ignore?)
    requires k <= |Process(l, chain, verify, i).commits|
    ensures Sound(StateAt(l, Process(l, chain, verify, i), k), blocks, c, s)
  {
    hide Handle, Books, Cover;
    ResultSound(l, l, l, blocks, c, s, i.oid, Nothing());
  }

  lemma {:induction false} HonestFrame(l: Ledger, l0: Ledger, blocks: Blocks, s: Holder)
    requires Honest(l, blocks, s) && SameTables(l, l0)
    ensures Honest(l0, blocks, s)
  {
    forall h, o | h in blocks && o in blocks[h].vin && OfSafe(l0, s, o) ensures SpentAsRecorded(l0, blocks[h], l0.outputs[o].spentBy) {
      assert OfSafe(l, s, o);
      assert SpentAsRecorded(l, blocks[h], l.outputs[o].spentBy);
    }
  }

  lemma {:induction false} ProcessSound(n: Node, verify: Verifier, e: Event, blocks: Blocks, c: Carried, s: Holder, k: nat, l1: Ledger)
    requires NodeOk(n, verify) && Allowed(n, e) && !Handled(n.ledger, e.i) && !e.i.action.Ignore?
    requires Sound(n.ledger, blocks, c, s) && Honest(n.ledger, blocks, s) && Matches(c, e.i) && Within(e.chain, blocks)
    requires 0 < k <= |Process(n.ledger, e.chain, verify, e.i).commits|
    requires l1 == StateAt(n.ledger, Process(n.ledger, e.chain, verify, e.i), k)
    ensures Sound(l1, blocks, c, s)
  {
    hide Inv, Sound, Honest, Process, NodeOk, Handle, Allowed;
    var l0 := Inner(n, verify, e, k, l1);
    SoundFrame(n.ledger, l0, blocks, c, s);
    HonestFrame(n.ledger, l0, blocks, s);
    InnerSound(l0, verify, e.chain, blocks, c, s, e.i, k - 1, l1);
  }

  /** One attempt at an output, complete or not, keeps the bonds covered. */
  lemma {:induction false} NextSound(n: Node, verify: Verifier, e: Event, blocks: Blocks, c: Carried, s: Holder)
    requires NodeOk(n, verify) && Allowed(n, e)
    requires Sound(n.ledger, blocks, c, s) && Honest(n.ledger, blocks, s) && Matches(c, e.i) && Within(e.chain, blocks)
    ensures Sound(Next(n, verify, e).ledger, blocks, c, s)
  {
    hide Inv, Sound, Honest, Process, NodeOk, Handle, Next, Allowed;
    var run := Process(n.ledger, e.chain, verify, e.i);
    var k := if Completes(run, e) then |run.commits| else StopsAt(run, e);
    NextState(n, verify, e, k);
    if Handled(n.ledger, e.i) || e.i.action.Ignore? {
      RepeatSound(n.ledger, verify, e.chain, blocks, c, s, e.i, k);
    } else if k > 0 {
      ProcessSound(n, verify, e, blocks, c, s, k, StateAt(n.ledger, run, k));
    }
  }

  // ---- Runs

  /** A block that is mined spends nothing whose change is already recorded. */
  lemma {:induction false} MinedSound(l: Ledger, blocks: Blocks, blocks': Blocks, c: Carried, s: Holder)
    requires Sound(l, blocks, c, s) && Within(blocks, blocks')
    ensures Sound(l, blocks', c, s)
  {
    forall t ensures ChangeRecorded(l, blocks', t) <==> ChangeRecorded(l, blocks, t) {
      if ChangeRecorded(l, blocks', t) {
        var h :| h in blocks' && Spends(blocks'[h], t) && OutPoint(h, |t.recipients|) in l.outputs;
        assert h in blocks && Spends(blocks[h], t);
      }
      if ChangeRecorded(l, blocks, t) {
        var h :| h in blocks && Spends(blocks[h], t) && OutPoint(h, |t.recipients|) in l.outputs;
        assert h in blocks' && Spends(blocks'[h], t);
      }
    }
    if s in l.safes {
      SumEqual(l.transactions.Keys, WeightOf(l, blocks, s), WeightOf(l, blocks', s));
    }
  }

  /** At every step the chain is as assumed for this safe, and outputs are what the group says. */
  ghost predicate WorldOk(verify: Verifier, es: seq<Event>, chains: seq<Blocks>, c: Carried, s: Holder)
  {
    && AllAllowed(Start(), verify, es) && |chains| == |es|
    && (forall k :: 0 <= k < |es| ==>
          Honest(At(verify, es, k), chains[k], s) && Matches(c, es[k].i) && Within(es[k].chain, chains[k]))
    && (forall k :: 0 < k < |es| ==> Within(chains[k - 1], chains[k]))
  }

  lemma {:induction false} RunSound(verify: Verifier, es: seq<Event>, chains: seq<Blocks>, c: Carried, s: Holder, j: nat)
    requires WorldOk(verify, es, chains, c, s) && 0 < j <= |es|
    ensures Sound(At(verify, es, j), chains[j - 1], c, s)
    decreases j
  {
    if j == 1 {
      assert es[..0] == [];
      StartSound(chains[0], c, s);
    } else {
      RunSound(verify, es, chains, c, s, j - 1);
      assert Within(chains[j - 2], chains[j - 1]);
      MinedSound(At(verify, es, j - 1), chains[j - 2], chains[j - 1], c, s);
    }
    StepSound(verify, es, chains[j - 1], c, s, j - 1);
  }

  lemma {:induction false} StartSound(blocks: Blocks, c: Carried, s: Holder)
    ensures Sound(Empty(), blocks, c, s)
  {
    assert Empty().results.Keys == {};
  }

  lemma {:induction false} StepSound(verify: Verifier, es: seq<Event>, blocks: Blocks, c: Carried, s: Holder, j: nat)
    requires AllAllowed(Start(), verify, es) && j < |es|
    requires Sound(At(verify, es, j), blocks, c, s) && Honest(At(verify, es, j), blocks, s)
    requires Matches(c, es[j].i) && Within(es[j].chain, blocks)
    ensures Sound(At(verify, es, j + 1), blocks, c, s)
  {
    hide Sound, Honest, Next, NodeOk;
    PrefixAllowed(verify, es, j);
    RunOk(verify, es[..j]);
    assert es[..j + 1][..j] == es[..j];
    NextSound(After(Start(), verify, es[..j]), verify, es[j], blocks, c, s);
  }

  // ---- The statement

  ghost predicate ProposedBy(l: Ledger, s: Holder, h: Hash)
  {
    h in l.transactions && l.transactions[h].proposed && l.transactions[h].holder == s
  }

  ghost function OpenOf(l: Ledger, s: Holder): Hash -> int
  {
    h => if ProposedBy(l, s, h) && Open(l.transactions[h]) then Surplus(l, l.transactions[h]) else 0
  }

  /** Inputs minus amounts of the unfinished transactions. */
  ghost function UnfinishedSurplus(l: Ledger, s: Holder): int
  {
    SumOf(l.transactions.Keys, OpenOf(l, s))
  }

  ghost function LateOf(l: Ledger, blocks: Blocks, s: Holder): Hash -> int
    requires s in l.safes
  {
    h => if ProposedBy(l, s, h) && l.transactions[h].state == Done && !ChangeRecorded(l, blocks, l.transactions[h])
         then ChangeOf(l, l.transactions[h], l.safes[s].chain) else 0
  }

  /** Change of finished transactions that has not been deposited yet. */
  ghost function UndepositedChange(l: Ledger, blocks: Blocks, s: Holder): int
    requires s in l.safes
  {
    SumOf(l.transactions.Keys, LateOf(l, blocks, s))
  }

  ghost function FinishedBy(l: Ledger, s: Holder): set<Hash>
  {
    set h | h in l.transactions && ProposedBy(l, s, h) && l.transactions[h].state == Done
  }

  lemma {:induction false} CoverAtMost(l: Ledger, blocks: Blocks, s: Holder)
    requires Books(l, blocks) && s in l.safes
    ensures Cover(l, blocks, s) <= TotalUnspent(l, l.safes[s].address) + UnfinishedSurplus(l, s)
              + UndepositedChange(l, blocks, s) + Dust(l.safes[s].chain) * |FinishedBy(l, s)|
  {
    var keys, d := l.transactions.Keys, Dust(l.safes[s].chain);
    var done := FinishedBy(l, s);
    var f, g := OpenOf(l, s), LateOf(l, blocks, s);
    var u := (h: Hash) => if h in done then d else 0;
    var fg := (h: Hash) => f(h) + g(h);
    var all := (h: Hash) => fg(h) + u(h);
    forall h | h in keys ensures WeightOf(l, blocks, s)(h) <= all(h) {
      if ProposedBy(l, s, h) { assert Shaped(l, l.transactions[h]); }
    }
    SumAtMost(keys, WeightOf(l, blocks, s), all);
    SumPlus(keys, f, g, fg);
    SumPlus(keys, fg, u, all);
    SumCount(keys, done, d, u);
  }

  /**
   While the safe is open, the bonds in circulation never exceed its unspent outputs, plus the inputs minus the
   amounts of its unfinished transactions, plus change not deposited yet, by more than the dust limit for each
   finished transaction. This holds after every step of every run, interrupted or not.
   */
  lemma {:induction false} Solvency(verify: Verifier, es: seq<Event>, chains: seq<Blocks>, c: Carried, s: Holder, j: nat)
    requires WorldOk(verify, es, chains, c, s) && 0 < j <= |es|
    requires s in At(verify, es, j).safes && At(verify, es, j).safes[s].state == Done
    ensures var l := At(verify, es, j);
            Circulating(l, c, s) <= TotalUnspent(l, l.safes[s].address) + UnfinishedSurplus(l, s)
              + UndepositedChange(l, chains[j - 1], s) + Dust(l.safes[s].chain) * |FinishedBy(l, s)|
  {
    RunSound(verify, es, chains, c, s, j);
    CoverAtMost(At(verify, es, j), chains[j - 1], s);
  }
}
