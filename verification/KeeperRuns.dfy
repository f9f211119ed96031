/** Handlers keep the coupling, and so do whole runs with interruptions at any commit. */
module KeeperRuns {
  import opened Options
  import opened KeeperTypes
  import opened KeeperLedger
  import opened KeeperBitcoin
  import opened KeeperCoupling
  import opened KeeperInvariant

  ghost predicate AllInv(run: Run, verify: Verifier)
  {
    forall k :: 0 <= k < |run.commits| ==> Inv(run.commits[k], verify)
  }

  lemma {:induction false} ResultInv(l: Ledger, verify: Verifier, oid: string, reply: Reply)
    requires Inv(l, verify)
    ensures AllInv(Commit(WriteResult(l, oid, reply), reply), verify)
  {
    ClosingSteps(l, Rid(""), oid, reply);
    if WriteResult(l, oid, reply).Some? { RequestsInv(l, WriteResult(l, oid, reply).value, verify); }
  }

  /** Marking the request done and recording the result come last. */
  lemma {:induction false} CloseInv(l: Ledger, verify: Verifier, rid: Rid, oid: string, reply: Reply)
    requires Inv(l, verify)
    ensures var r := MarkDone(l, rid);
            r.Some? ==> Inv(r.value, verify) && AllInv(Commit(WriteResult(r.value, oid, reply), reply), verify)
  {
    ClosingSteps(l, rid, oid, reply);
    var r := MarkDone(l, rid);
    if r.Some? {
      RequestsInv(l, r.value, verify);
      ResultInv(r.value, verify, oid, reply);
    }
  }

  lemma {:induction false} FailsInv(l: Ledger, verify: Verifier, rid: Rid, oid: string, reply: Reply)
    requires Inv(l, verify)
    ensures AllInv(Commit(FailRequest(l, rid, oid, reply), reply), verify)
  {
    ClosingSteps(l, rid, oid, reply);
    if FailRequest(l, rid, oid, reply).Some? { RequestsInv(l, FailRequest(l, rid, oid, reply).value, verify); }
  }

  lemma {:induction false} FailInv(l: Ledger, verify: Verifier, i: Input, refundable: bool)
    requires Inv(l, verify)
    ensures AllInv(Fail(l, i), verify) && AllInv(Refund(l, i, refundable), verify)
  {
    FailsInv(l, verify, i.rid, i.oid, Nothing());
    FailsInv(l, verify, i.rid, i.oid, Reply([Bond(i.holder, i.amount)], false));
    FailsInv(l, verify, i.rid, i.oid, Reply([], true));
  }

  lemma {:induction false} ApproveAccountInv(l: Ledger, verify: Verifier, i: Input)
    requires Inv(l, verify) && i.action.ApproveAccount?
    ensures AllInv(HandleApproveAccount(l, i), verify)
  {
    FailInv(l, verify, i, false);
    var s := i.action.safe.(state := Done, nonce := 0);
    if i.holder !in l.safes && Unused(l, s) {
      SafeInv(l, verify, i.holder, s);
      CloseInv(l.(safes := l.safes[i.holder := s]), verify, i.rid, i.oid, Sent());
    }
  }

  lemma {:induction false} WriteOutputInv(l: Ledger, verify: Verifier, s: Safe, point: OutPoint, satoshi: nat, rid: Rid, oid: string, reply: Reply)
    requires Inv(l, verify)
    ensures AllInv(Commit(WriteOutput(l, s, point, satoshi, rid, oid, reply), reply), verify)
  {
    if point !in l.outputs && point !in l.deposits {
      var u := Output(s.address, satoshi, true, Initial, None);
      OutputInv(l, verify, point, u);
      CloseInv(l.(order := l.order + [point], outputs := l.outputs[point := u], deposits := l.deposits + {point}), verify, rid, oid, reply);
    }
  }

  lemma {:induction false} DepositInv(l: Ledger, chain: map<Hash, ChainTx>, verify: Verifier, i: Input)
    requires Inv(l, verify) && i.action.Deposit?
    ensures AllInv(HandleDeposit(l, chain, i), verify)
  {
    FailInv(l, verify, i, false);
    if i.holder in l.safes {
      var s, p := l.safes[i.holder], i.action.point;
      WriteOutputInv(l, verify, s, p, i.action.value, i.rid, i.oid, Deposited(i, true));
      WriteOutputInv(l, verify, s, p, i.action.value, i.rid, i.oid, Deposited(i, false));
    }
  }

  /** What is listed as unspent is unspent, once each. */
  lemma {:induction false} UnspentOk(l: Ledger, verify: Verifier, address: Address)
    requires Inv(l, verify)
    ensures Distinct(Unspent(l.outputs, l.order, address))
    ensures forall o :: o in Unspent(l.outputs, l.order, address) <==>
              o in l.outputs && l.outputs[o].address == address && l.outputs[o].state == Initial
  {
    UnspentDistinct(l.outputs, l.order, address);
    forall o ensures o in Unspent(l.outputs, l.order, address) <==>
                       o in l.outputs && l.outputs[o].address == address && l.outputs[o].state == Initial {
      UnspentExact(l.outputs, l.order, address, o);
    }
  }

  lemma {:induction false} InsertTransactionInv(l: Ledger, verify: Verifier, hash: Hash, t: Transaction, points: seq<OutPoint>, state: State)
    requires Inv(l, verify) && InsertTransaction(l, hash, t, points, state).Some?
    requires forall o :: o in points ==> o in l.outputs && l.outputs[o].state == Initial
    requires (state == Pending && Open(t) && t.proposed && t.inputs == points && BodyOk(l, t)) || (state == Done && t.state == Done && !t.proposed)
    ensures Inv(InsertTransaction(l, hash, t, points, state).value, verify)
  {
    var outputs := Spend(l.outputs, points, hash, state).value;
    InsertInv(l, verify, hash, t, points, outputs, state);
    var l1 := l.(transactions := l.transactions[hash := t], outputs := outputs);
    ClosingSteps(l1, t.requestId, "", Nothing());
    RequestsInv(l1, MarkDone(l1, t.requestId).value, verify);
    assert InsertTransaction(l, hash, t, points, state) == MarkDone(l1, t.requestId);
  }

  lemma {:induction false} ProposeInv(l: Ledger, verify: Verifier, i: Input)
    requires Inv(l, verify) && i.action.Propose? && i.rid in l.requests && l.requests[i.rid].amount == i.amount
    ensures AllInv(HandlePropose(l, i), verify)
  {
    var a := i.action;
    FailInv(l, verify, i, a.refundable);
    if i.holder in l.safes && i.amount <= Funds(l, l.safes[i.holder]) {
      var t := Proposal(l, i, l.safes[i.holder]);
      UnspentOk(l, verify, l.safes[i.holder].address);
      if |t.sighashes| == |t.inputs| && t.inputs != [] && t.recipients != [] && SumPaid(a.recipients) == i.amount {
        assert BodyOk(l, t);
        WriteTransactionInv(l, verify, a.hash, t, t.inputs, i.oid, Sent());
      }
    }
  }

  lemma {:induction false} WriteTransactionInv(l: Ledger, verify: Verifier, hash: Hash, t: Transaction, points: seq<OutPoint>, oid: string, reply: Reply)
    requires Inv(l, verify) && Open(t) && t.proposed && t.inputs == points && BodyOk(l, t)
    requires forall o :: o in points ==> o in l.outputs && l.outputs[o].state == Initial
    ensures AllInv(Commit(WriteTransaction(l, hash, t, points, oid, reply), reply), verify)
  {
    if InsertTransaction(l, hash, t, points, Pending).Some? {
      InsertTransactionInv(l, verify, hash, t, points, Pending);
      ResultInv(InsertTransaction(l, hash, t, points, Pending).value, verify, oid, reply);
    }
  }

  // ---- Asking for signatures

  lemma {:induction false} NewSignaturesShape(l: Ledger, hash: Hash, t: Transaction, signer: Key, rid: Rid, now: int,
                                              same: seq<bool>, messages: seq<string>, idx: nat)
    requires idx <= |t.inputs| == |same| == |messages|
    ensures forall k :: 0 <= k < |NewSignatures(l, hash, t, signer, rid, now, same, messages, idx)| ==>
              var q := NewSignatures(l, hash, t, signer, rid, now, same, messages, idx)[k].1;
              && q.hash == hash && idx <= q.index < |t.inputs| && q.state == Initial && q.signature.None? && q.createdAt == now
              && NeedsSignature(l, hash, t, now, same, q.index)
    decreases |t.inputs| - idx
  {
    if idx < |t.inputs| { NewSignaturesShape(l, hash, t, signer, rid, now, same, messages, idx + 1); }
  }

  lemma {:induction false} WriteSignaturesInv(l: Ledger, verify: Verifier, wanted: seq<Wanted>, hash: Hash, rid: Rid, oid: string, reply: Reply)
    requires Inv(l, verify) && wanted != [] && hash in l.transactions
    requires Open(l.transactions[hash]) ==> Fresh(l, wanted, hash)
    ensures AllInv(Commit(WriteSignatures(l, wanted, hash, rid, oid, reply), reply), verify)
  {
    CloseInv(l, verify, rid, oid, reply);
    if MarkDone(l, rid).Some? {
      var l1 := MarkDone(l, rid).value;
      ClosingSteps(l, rid, oid, reply);
      var sigs := InsertSignatures(l1.signatures, wanted);
      if Open(l1.transactions[hash]) && sigs.Some? {
        AskInv(l1, verify, hash, wanted, sigs.value);
        ResultInv(SetState(l1, hash, Pending).(signatures := sigs.value), verify, oid, reply);
      }
    }
  }

  lemma {:induction false} ApproveInv(l: Ledger, verify: Verifier, i: Input)
    requires Inv(l, verify) && i.action.Approve?
    ensures AllInv(HandleApprove(l, i), verify)
  {
    FailInv(l, verify, i, false);
    var a, h := i.action, ByRequest(l, i.action.target);
    if i.holder in l.safes && h.Some? {
      var t := l.transactions[h.value];
      if |a.same| == |t.inputs| == |t.sighashes| {
        var wanted := NewSignatures(l, h.value, t, l.safes[i.holder].signer, i.rid, i.createdAt, a.same, t.sighashes, 0);
        NewSignaturesShape(l, h.value, t, l.safes[i.holder].signer, i.rid, i.createdAt, a.same, t.sighashes, 0);
        if wanted != [] { WriteSignaturesInv(l, verify, wanted, h.value, i.rid, i.oid, Reply(SignRequests(wanted), false)); }
      }
    }
  }

  // ---- Signatures come back

  lemma {:induction false} FinishTransactionInv(l: Ledger, verify: Verifier, hash: Hash, count: nat, holder: Holder, rid: Rid, oid: string, reply: Reply)
    requires Inv(l, verify) && hash in l.transactions && Open(l.transactions[hash]) && FullySigned(l, verify, hash)
    ensures AllInv(Commit(FinishTransaction(l, hash, count, holder, rid, oid, reply), reply), verify)
  {
    if holder in l.safes {
      FinishInv(l, verify, hash, holder);
      CloseInv(Finished(l, hash, holder), verify, rid, oid, reply);
    }
  }

  lemma {:induction false} FinishingInv(l: Ledger, verify: Verifier, i: Input, hash: Hash)
    requires Inv(l, verify) && i.action.Respond? && hash in l.transactions && l.transactions[hash].state == Pending
    requires l.transactions[hash].holder in l.safes
    ensures AllInv(Finishing(l, verify, i, hash, l.transactions[hash], l.safes[l.transactions[hash].holder]), verify)
  {
    FailInv(l, verify, i, false);
    var t := l.transactions[hash];
    var s := l.safes[t.holder];
    assert TransactionOk(l, hash);
    if ScanInputs(l, verify, s.signer, hash, t, 0) == AllSigned {
      ScanSigned(l, verify, hash, 0);
      FinishTransactionInv(l, verify, hash, |t.inputs|, t.holder, i.rid, i.oid, Sent());
    }
  }

  /** A verified answer that can be recorded, to a transaction that is being signed. */
  ghost predicate Answerable(l: Ledger, verify: Verifier, i: Input)
    requires i.action.Respond?
  {
    && Verified(l, verify, i.rid, i.action.sig) && FinishSignature(l, i.rid, i.action.sig).Some?
    && l.transactions[l.signatures[i.rid].hash].state == Pending
  }

  /** The rest of the handling, once the answer is recorded. */
  ghost function Answering(l: Ledger, verify: Verifier, i: Input): Run
    requires i.action.Respond? && Answerable(l, verify, i)
  {
    var h := l.signatures[i.rid].hash;
    AfterAnswer(FinishSignature(l, i.rid, i.action.sig).value, verify, i, h, l.transactions[h], l.safes[l.transactions[h].holder])
  }

  lemma {:induction false} RespondCases(l: Ledger, verify: Verifier, i: Input)
    requires Inv(l, verify) && i.action.Respond?
    ensures var run := HandleRespond(l, verify, i);
            run == Fail(l, i) || run == Stop() || (Answerable(l, verify, i) && run == Answering(l, verify, i))
  {
    if i.rid in l.signatures { assert SignatureOk(l, verify, i.rid); }
    hide Inv, AfterAnswer;
  }

  lemma {:induction false} AnsweringInv(l: Ledger, verify: Verifier, i: Input)
    requires Inv(l, verify) && i.action.Respond? && Answerable(l, verify, i)
    ensures AllInv(Answering(l, verify, i), verify)
  {
    hide Inv, Finishing;
    AnswerInv(l, verify, i.rid, i.action.sig);
    FinishingInv(FinishSignature(l, i.rid, i.action.sig).value, verify, i, l.signatures[i.rid].hash);
  }

  lemma {:induction false} RespondInv(l: Ledger, verify: Verifier, i: Input)
    requires Inv(l, verify) && i.action.Respond?
    ensures AllInv(HandleRespond(l, verify, i), verify)
  {
    RespondCases(l, verify, i);
    FailInv(l, verify, i, false);
    if Answerable(l, verify, i) { AnsweringInv(l, verify, i); }
    hide HandleRespond, Answering, Inv;
  }

  // ---- Revoking and closing

  lemma {:induction false} RevokeTransactionInv(l: Ledger, verify: Verifier, hash: Hash, rid: Rid, oid: string, reply: Reply)
    requires Inv(l, verify) && hash in l.transactions && l.transactions[hash].holder in l.safes
    requires l.transactions[hash].state == Initial
    ensures var t := l.transactions[hash];
            AllInv(Commit(RevokeTransaction(l, hash, t, l.safes[t.holder], rid, oid, reply), reply), verify)
  {
    var t := l.transactions[hash];
    var s := l.safes[t.holder];
    assert TransactionOk(l, hash);
    ReleaseExact(l.outputs, t.inputs, hash, s.address);
    var r := Release(l.outputs, t.inputs, hash, s.address);
    if r.Some? {
      RevokeInv(l, verify, hash, r.value);
      CloseInv(SetState(l.(outputs := r.value), hash, Failed), verify, rid, oid, reply);
    }
  }

  lemma {:induction false} HandleRevokeInv(l: Ledger, verify: Verifier, i: Input)
    requires Inv(l, verify) && i.action.Revoke?
    ensures AllInv(HandleRevoke(l, i), verify)
  {
    FailInv(l, verify, i, false);
    FailsInv(l, verify, i.rid, i.oid, Reply([], true));
    var h := ByRequest(l, i.action.target);
    if i.holder in l.safes && h.Some? && i.action.target in l.requests {
      var t := l.transactions[h.value];
      if t.holder == i.holder && t.state == Initial {
        RevokeTransactionInv(l, verify, h.value, i.rid, i.oid, Reply([Bond(i.holder, l.requests[i.action.target].amount)], false));
      }
    }
  }

  lemma {:induction false} CloseWithHolderInv(l: Ledger, verify: Verifier, i: Input)
    requires Inv(l, verify) && i.action.CloseWithHolder?
    ensures AllInv(HandleCloseWithHolder(l, i), verify)
  {
    FailInv(l, verify, i, false);
    var a := i.action;
    if i.holder in l.safes && a.outs != [] {
      var inputs := Unspent(l.outputs, l.order, l.safes[i.holder].address);
      UnspentOk(l, verify, l.safes[i.holder].address);
      var t := Closing(i);
      CloseByTransactionInv(l, verify, a.hash, t, inputs, i.oid, Sent());
    }
  }

  lemma {:induction false} CloseByTransactionInv(l: Ledger, verify: Verifier, hash: Hash, t: Transaction, points: seq<OutPoint>, oid: string, reply: Reply)
    requires Inv(l, verify) && t.state == Done && !t.proposed
    requires forall o :: o in points ==> o in l.outputs && l.outputs[o].state == Initial
    ensures AllInv(Commit(CloseByTransaction(l, hash, t, points, oid, reply), reply), verify)
  {
    CloseInv(l, verify, t.requestId, oid, reply);
    if hash !in l.transactions && CloseSafe(l, t.holder).Some? {
      CloseSafeInv(l, verify, t.holder, l.safes[t.holder].(state := Failed));
      var l1 := CloseSafe(l, t.holder).value;
      if InsertTransaction(l1, hash, t, points, Done).Some? {
        InsertTransactionInv(l1, verify, hash, t, points, Done);
        ResultInv(InsertTransaction(l1, hash, t, points, Done).value, verify, oid, reply);
      }
    }
  }

  lemma {:induction false} CloseWithoutHolderInv(l: Ledger, verify: Verifier, i: Input)
    requires Inv(l, verify) && i.action.CloseWithoutHolder?
    ensures AllInv(HandleCloseWithoutHolder(l, i), verify)
  {
    FailInv(l, verify, i, false);
    var a, h := i.action, ByRequest(l, i.action.target);
    if Closable(l, i.holder) && h.Some? && |a.messages| == |l.transactions[h.value].inputs| {
      var t, s := l.transactions[h.value], l.safes[i.holder];
      var same := seq(|t.inputs|, _ => true);
      var wanted := NewSignatures(l, h.value, t, s.signer, i.rid, i.createdAt, same, a.messages, 0);
      NewSignaturesShape(l, h.value, t, s.signer, i.rid, i.createdAt, same, a.messages, 0);
      if wanted != [] {
        var reply := Reply(SignRequests(wanted), false);
        WriteSignaturesInv(l, verify, wanted, h.value, i.rid, i.oid, reply);
        if CloseSafe(l, i.holder).Some? {
          CloseSafeInv(l, verify, i.holder, s.(state := Failed));
          WriteSignaturesInv(CloseSafe(l, i.holder).value, verify, wanted, h.value, i.rid, i.oid, reply);
        }
      }
    }
  }
}
