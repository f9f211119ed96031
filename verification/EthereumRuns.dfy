/** Every handler keeps the books of Ethereum safes, and so does every run. */
module EthereumRuns {
  import opened Options
  import opened KeeperTypes
  import opened EthereumLedger
  import opened KeeperEthereum
  import opened EthereumInvariant

  ghost predicate AllInv(run: Run, keyOf: Assigned)
  {
    forall k :: 0 <= k < |run.commits| ==> Inv(run.commits[k], keyOf)
  }

  lemma {:induction false} CloseInv(l: Books, keyOf: Assigned, rid: Rid, oid: string, reply: Reply)
    requires Inv(l, keyOf)
    ensures AllInv(Commit(Close(l, rid, oid, reply), reply), keyOf)
  {
    hide Inv;
    var r := Close(l, rid, oid, reply);
    if r.Some? { RequestsInv(l, r.value, keyOf); }
  }

  lemma {:induction false} FailsInv(l: Books, keyOf: Assigned, rid: Rid, oid: string, reply: Reply)
    requires Inv(l, keyOf)
    ensures AllInv(Commit(FailRequest(l, rid, oid, reply), reply), keyOf)
  {
    hide Inv;
    var r := FailRequest(l, rid, oid, reply);
    if r.Some? { RequestsInv(l, r.value, keyOf); }
  }

  lemma {:induction false} FailInv(l: Books, keyOf: Assigned, i: Input)
    requires Inv(l, keyOf)
    ensures AllInv(Fail(l, i), keyOf) && AllInv(Stop(), keyOf)
    ensures AllInv(GiveBack(l, i, true), keyOf) && AllInv(GiveBack(l, i, false), keyOf)
    ensures AllInv(Commit(FailRequest(l, i.rid, i.oid, Reply([], true)), Reply([], true)), keyOf)
  {
    hide Inv;
    FailsInv(l, keyOf, i.rid, i.oid, Reply([], false));
    FailsInv(l, keyOf, i.rid, i.oid, Reply([], true));
    FailsInv(l, keyOf, i.rid, i.oid, Reply([Bond(i.holder, i.amount)], false));
  }

  lemma {:induction false} HandleProposeAccountInv(l: Books, keyOf: Assigned, i: Input)
    requires Inv(l, keyOf) && i.action.ProposeAccount?
    ensures AllInv(HandleProposeAccount(l, keyOf, i), keyOf)
  {
    hide Inv;
    FailInv(l, keyOf, i);
    var p := Proposal(i.holder, keyOf(i.holder), i.action.address, i.action.hash);
    if i.rid !in l.proposals && ProposalFree(l, p) && p.setup !in l.transactions {
      ProposeAccountInv(l, keyOf, i.rid, p, i.action.raw);
      CloseInv(l.(proposals := l.proposals[i.rid := p],
                  transactions := l.transactions[p.setup := SafeTx(p.holder, Initial, i.rid, true, false, i.action.raw)]), keyOf, i.rid, i.oid, Sent());
    }
  }

  // ---- Asking for a signature

  /** The request that is being handled is still open. */
  predicate Handling(l: Books, rid: Rid)
  {
    rid in l.requests && l.requests[rid].state == Initial
  }

  /** No signature request can have been derived from a request that is still open. */
  lemma {:induction false} NewId(l: Books, keyOf: Assigned, rid: Rid, message: string)
    requires Inv(l, keyOf) && Handling(l, rid)
    ensures Derived(rid, message) !in l.answers
  {
    hide BalancesOk, NoncesOk, OneOpen, ProposalsOk, ClosersOk;
    assert Derived(rid, message) in l.answers ==> AnswerOk(l, Derived(rid, message));
  }

  lemma {:induction false} AskedAnswers(l: Books, l1: Books, rid: Rid, id: Rid, q: Answer)
    requires AnswersOk(l) && id == Derived(rid, q.message) && q.hash in l.transactions && q.state == Initial
    requires l1.answers == l.answers[id := q] && rid in l1.requests && l1.requests[rid].state != Initial
    requires forall r :: r in l.requests && l.requests[r].state != Initial ==> r in l1.requests && l1.requests[r].state != Initial
    requires forall x :: x in l.transactions ==> x in l1.transactions && (l.transactions[x].state == Pending ==> l1.transactions[x].state == Pending)
    requires l1.transactions[q.hash].state == Pending
    ensures AnswersOk(l1)
  {
    forall r | r in l1.answers ensures AnswerOk(l1, r) { if r != id { assert AnswerOk(l, r); } }
  }

  lemma {:induction false} AnswerInv(l: Books, keyOf: Assigned, i: Input, q: Answer, raw: Raw, reply: Reply)
    requires Inv(l, keyOf) && Handling(l, i.rid) && q.state == Initial
    ensures AllInv(Commit(WriteAnswer(l, Derived(i.rid, q.message), q, raw, i.rid, i.oid, reply), reply), keyOf)
  {
    hide BalancesOk, NoncesOk, OneOpen, ProposalsOk, ClosersOk, AnswersOk;
    var id := Derived(i.rid, q.message);
    NewId(l, keyOf, i.rid, q.message);
    if OpenAt(l, q.hash) {
      SetOpenInv(l, keyOf, q.hash, Pending, raw);
      var l1 := SetTx(l, q.hash, Pending, raw);
      var r := Close(l1.(answers := l.answers[id := q]), i.rid, i.oid, reply);
      if r.Some? {
        AskedAnswers(l, r.value, i.rid, id, q);
        BalancesFrame(l1, r.value);
        NoncesFrame(l1, r.value);
        OpenKept(l1, r.value);
        HoldersKept(l1, r.value, keyOf);
        ClosersKept(l1, r.value);
      }
    }
  }

  lemma {:induction false} AskForInv(l: Books, keyOf: Assigned, i: Input, hash: Hash, raw: Raw, sendable: bool)
    requires Inv(l, keyOf) && Handling(l, i.rid)
    ensures AllInv(AskFor(l, i, hash, raw, sendable), keyOf)
  {
    hide Inv, WriteAnswer;
    FailInv(l, keyOf, i);
    AnswerInv(l, keyOf, i, Answer(hash, raw.message, None, Initial, i.createdAt), raw, Reply([Sign(Derived(i.rid, raw.message), raw.message)], false));
  }

  lemma {:induction false} UnfinishedInv(l: Books, keyOf: Assigned, holder: Holder, a: Account)
    requires Inv(l, keyOf) && a.nonce == 0 && HasProposal(l, holder)
    ensures var r := WriteUnfinished(l, holder, a);
            r.Some? ==> Inv(r.value, keyOf) && r.value == l.(safes := r.value.safes)
  {
    hide Inv;
    var r := WriteUnfinished(l, holder, a);
    if r.Some? && r.value != l { SafesInv(l, r.value, keyOf); }
  }

  lemma {:induction false} HandleApproveAccountInv(l: Books, keyOf: Assigned, i: Input)
    requires Inv(l, keyOf) && Handling(l, i.rid) && i.action.ApproveAccount?
    ensures AllInv(HandleApproveAccount(l, i), keyOf)
  {
    hide Inv, AskFor, WriteUnfinished;
    FailInv(l, keyOf, i);
    if i.action.target in l.proposals && l.proposals[i.action.target].holder == i.holder && l.proposals[i.action.target].setup in l.transactions {
      var p := l.proposals[i.action.target];
      assert HasProposal(l, i.holder);
      UnfinishedInv(l, keyOf, i.holder, Account(p.signer, p.address, Pending, 0));
      var r := WriteUnfinished(l, i.holder, Account(p.signer, p.address, Pending, 0));
      if r.Some? { AskForInv(r.value, keyOf, i, p.setup, l.transactions[p.setup].raw, i.action.sendable); }
    }
  }

  lemma {:induction false} HandleApproveInv(l: Books, keyOf: Assigned, i: Input)
    requires Inv(l, keyOf) && Handling(l, i.rid) && i.action.Approve?
    ensures AllInv(HandleApprove(l, i), keyOf)
  {
    hide Inv, AskFor;
    FailInv(l, keyOf, i);
    var h := ByRequest(l, i.action.target);
    if h.Some? { AskForInv(l, keyOf, i, h.value, i.action.raw, i.action.sendable); }
  }

  lemma {:induction false} CloseSafeInv(l: Books, keyOf: Assigned, holder: Holder)
    requires Inv(l, keyOf)
    ensures var r := CloseSafe(l, holder);
            r.Some? ==> Inv(r.value, keyOf) && r.value == l.(safes := r.value.safes)
  {
    hide Inv;
    var r := CloseSafe(l, holder);
    if r.Some? { SafesInv(l, r.value, keyOf); }
  }

  lemma {:induction false} HandleCloseWithoutHolderInv(l: Books, keyOf: Assigned, i: Input)
    requires Inv(l, keyOf) && Handling(l, i.rid) && i.action.CloseWithoutHolder?
    ensures AllInv(HandleCloseWithoutHolder(l, i), keyOf)
  {
    hide Inv, AskFor, Unfinished;
    FailInv(l, keyOf, i);
    CloseSafeInv(l, keyOf, i.holder);
    var h := ByRequest(l, i.action.target);
    if h.Some? {
      AskForInv(l, keyOf, i, h.value, i.action.raw, i.action.sendable);
      var r := CloseSafe(l, i.holder);
      if r.Some? { AskForInv(r.value, keyOf, i, h.value, i.action.raw, i.action.sendable); }
    }
  }

  // ---- Deposits, proposals, revocations

  lemma {:induction false} HandleDepositInv(l: Books, keyOf: Assigned, i: Input)
    requires Inv(l, keyOf) && i.action.Deposit?
    ensures AllInv(HandleDeposit(l, i), keyOf)
  {
    hide Inv;
    FailInv(l, keyOf, i);
    var a := i.action;
    if a.point !in l.deposits {
      DepositInv(l, keyOf, i.holder, a.point, a.token, a.value);
      CloseInv(l.(balances := l.balances[(i.holder, a.token) := Balance(l.balances, i.holder, a.token) + a.value],
                  deposits := l.deposits[a.point := Deposited(i.holder, a.token, a.value)]),
               keyOf, i.rid, i.oid, Reply([Bond(i.holder, a.value)], false));
    }
  }

  lemma {:induction false} HandleProposeInv(l: Books, keyOf: Assigned, i: Input)
    requires Inv(l, keyOf) && i.action.Propose?
    ensures AllInv(HandlePropose(l, i), keyOf)
  {
    hide Inv, Unfinished;
    FailInv(l, keyOf, i);
    var t := SafeTx(i.holder, Initial, i.rid, false, false, i.action.raw);
    if i.holder in l.safes && Unfinished(l, i.holder) == {} && i.action.hash !in l.transactions {
      InsertInv(l, keyOf, i.action.hash, t);
      CloseInv(l.(transactions := l.transactions[i.action.hash := t]), keyOf, i.rid, i.oid, Sent());
    }
  }

  lemma {:induction false} HandleCloseWithHolderInv(l: Books, keyOf: Assigned, i: Input)
    requires Inv(l, keyOf) && i.action.CloseWithHolder?
    ensures AllInv(HandleCloseWithHolder(l, i), keyOf)
  {
    hide Inv, Unfinished;
    FailInv(l, keyOf, i);
    CloseInv(l, keyOf, i.rid, i.oid, Sent());
    CloseSafeInv(l, keyOf, i.holder);
    var t := SafeTx(i.holder, Done, i.rid, false, true, i.action.raw);
    var r := CloseSafe(l, i.holder);
    if r.Some? && i.action.hash !in l.transactions {
      InsertInv(r.value, keyOf, i.action.hash, t);
      CloseInv(r.value.(transactions := l.transactions[i.action.hash := t]), keyOf, i.rid, i.oid, Sent());
    }
  }

  lemma {:induction false} HandleRevokeInv(l: Books, keyOf: Assigned, i: Input)
    requires Inv(l, keyOf) && i.action.Revoke?
    ensures AllInv(HandleRevoke(l, i), keyOf)
  {
    hide Inv;
    FailInv(l, keyOf, i);
    var h := ByRequest(l, i.action.target);
    if h.Some? && l.transactions[h.value].state == Initial && i.action.target in l.requests {
      SetOpenInv(l, keyOf, h.value, Failed, l.transactions[h.value].raw);
      CloseInv(SetTx(l, h.value, Failed, l.transactions[h.value].raw), keyOf, i.rid, i.oid,
               Reply([Bond(i.holder, l.requests[i.action.target].amount)], false));
    }
  }

  // ---- Finishing and refunding

  /** Once all its requests are marked, a transaction may leave the state of being signed. */
  lemma {:induction false} AllAnsweredOk(l: Books, l': Books, hash: Hash)
    requires AnswersOk(l) && l'.answers == AllAnswered(l.answers, hash) && l'.requests == l.requests
    requires forall x :: x in l.transactions ==> x in l'.transactions && (x != hash ==> l'.transactions[x].state == l.transactions[x].state)
    ensures AnswersOk(l')
  {
    forall r | r in l'.answers ensures AnswerOk(l', r) { assert AnswerOk(l, r); }
  }

  lemma {:induction false} SteppedOpen(l: Books, l': Books, hash: Hash, state: State)
    requires OneOpen(l) && hash in l.transactions && (state == Done || state == Failed)
    requires l'.transactions == l.transactions[hash := l.transactions[hash].(state := state)]
    ensures OneOpen(l')
  {
    OpenKept(l, l');
  }

  lemma {:induction false} FinishedInv(l: Books, keyOf: Assigned, hash: Hash, state: State, balances: Balances)
    requires Inv(l, keyOf) && hash in l.transactions && l.transactions[hash].state == Pending && l.transactions[hash].holder in l.safes
    requires Settles(l, balances, l.transactions[hash])
    requires state == l.safes[l.transactions[hash].holder].state || l.safes[l.transactions[hash].holder].state == Pending
    ensures Inv(Finished(l, hash, l.transactions[hash].holder, state, balances), keyOf)
  {
    hide BalancesOk, NoncesOk, OneOpen, ProposalsOk, ClosersOk, AnswersOk, Settles;
    var t := l.transactions[hash];
    var l' := Finished(l, hash, t.holder, state, balances);
    ClosersOpen(l, hash);
    FinishBalances(l, l', hash);
    StepNonces(l, l', hash, Done);
    SteppedOpen(l, l', hash, Done);
    HoldersKept(l, l', keyOf);
    ClosersKept(l, l');
    AllAnsweredOk(l, l', hash);
  }

  ghost function Refunded(l: Books, hash: Hash, holder: Holder, balances: Balances): Books
    requires hash in l.transactions && holder in l.safes
  {
    SetTx(l, hash, Failed, l.transactions[hash].raw).(
      balances := balances, safes := l.safes[holder := Advanced(l.safes[holder], -1, Done)])
  }

  lemma {:induction false} RefundAnswers(l: Books, l': Books, hash: Hash)
    requires AnswersOk(l) && l'.answers == l.answers && l'.requests == l.requests && hash in l.transactions && l.transactions[hash].state == Done
    requires forall x :: x in l.transactions ==> x in l'.transactions && (x != hash ==> l'.transactions[x].state == l.transactions[x].state)
    ensures AnswersOk(l')
  {
    AnswersKept(l, l');
  }

  lemma {:induction false} NotByHolder(l: Books, hash: Hash)
    requires ClosersOk(l) && hash in l.transactions && l.transactions[hash].holder in l.safes
    requires l.safes[l.transactions[hash].holder].state != Failed
    ensures !l.transactions[hash].byHolder
  {
  }

  lemma {:induction false} RefundedInv(l: Books, keyOf: Assigned, hash: Hash, balances: Balances)
    requires Inv(l, keyOf) && hash in l.transactions && l.transactions[hash].state == Done && l.transactions[hash].holder in l.safes
    requires l.safes[l.transactions[hash].holder].state == Done
    requires Credit(l.balances, l.transactions[hash].holder, l.transactions[hash].raw.payments) == Some(balances)
    ensures Inv(Refunded(l, hash, l.transactions[hash].holder, balances), keyOf)
  {
    hide BalancesOk, NoncesOk, OneOpen, ProposalsOk, ClosersOk, AnswersOk, Credit;
    var t := l.transactions[hash];
    var l' := Refunded(l, hash, t.holder, balances);
    NotByHolder(l, hash);
    RefundBalances(l, l', hash);
    StepNonces(l, l', hash, Failed);
    SteppedOpen(l, l', hash, Failed);
    HoldersKept(l, l', keyOf);
    ClosersKept(l, l');
    RefundAnswers(l, l', hash);
  }

  lemma {:induction false} HandleRefundInv(l: Books, keyOf: Assigned, i: Input)
    requires Inv(l, keyOf) && i.action.Refund?
    ensures AllInv(HandleRefund(l, i), keyOf)
  {
    hide Inv, Credit;
    FailInv(l, keyOf, i);
    var h := ByRequest(l, i.action.target);
    if h.Some? && l.transactions[h.value].holder == i.holder && l.transactions[h.value].state == Done
       && i.holder in l.safes && l.safes[i.holder].state == Done {
      var r := Credit(l.balances, i.holder, l.transactions[h.value].raw.payments);
      if r.Some? {
        RefundedInv(l, keyOf, h.value, r.value);
        CloseInv(Refunded(l, h.value, i.holder, r.value), keyOf, i.rid, i.oid, Reply([Bond(i.holder, i.action.scaled)], false));
      }
    }
  }

  lemma {:induction false} FinishingInv(l: Books, keyOf: Assigned, verify: Verifier, i: Input, hash: Hash)
    requires Inv(l, keyOf) && i.action.Respond? && hash in l.transactions && l.transactions[hash].state == Pending
    requires l.transactions[hash].holder in l.safes
    ensures AllInv(Finishing(l, verify, i, hash, l.transactions[hash], l.safes[l.transactions[hash].holder]), keyOf)
  {
    hide Inv, Debit, Latest;
    FailInv(l, keyOf, i);
    var t := l.transactions[hash];
    var s := l.safes[t.holder];
    if s.state == Pending && PaysNothing(t.raw.payments) {
      FinishedInv(l, keyOf, hash, Done, l.balances);
      CloseInv(Finished(l, hash, t.holder, Done, l.balances), keyOf, i.rid, i.oid, Sent());
    }
    var d := Debit(l.balances, t.holder, t.raw.payments);
    if d.Debited? {
      FinishedInv(l, keyOf, hash, s.state, d.balances);
      CloseInv(Finished(l, hash, t.holder, s.state, d.balances), keyOf, i.rid, i.oid, Sent());
    }
  }

  lemma {:induction false} OpenAnswer(l: Books, keyOf: Assigned, r: Rid)
    requires Inv(l, keyOf) && r in l.answers && l.answers[r].state != Done
    ensures l.answers[r].hash in l.transactions && l.transactions[l.answers[r].hash].state == Pending
  {
    assert AnswerOk(l, r);
  }

  lemma {:induction false} HandleRespondInv(l: Books, keyOf: Assigned, verify: Verifier, i: Input)
    requires Inv(l, keyOf) && i.action.Respond?
    ensures AllInv(HandleRespond(l, verify, i), keyOf)
  {
    hide Inv, Finishing;
    FailInv(l, keyOf, i);
    if i.rid in l.answers && l.answers[i.rid].state != Done {
      OpenAnswer(l, keyOf, i.rid);
      var r := FinishAnswer(l, i.rid, i.action.sig);
      var h := l.answers[i.rid].hash;
      if r.Some? && l.transactions[h].holder in l.safes {
        FinishAnswerInv(l, keyOf, i.rid, i.action.sig);
        FinishingInv(r.value, keyOf, verify, i, h);
      }
    }
  }

  lemma {:induction false} HandleInv(l: Books, keyOf: Assigned, verify: Verifier, i: Input)
    requires Inv(l, keyOf) && Handling(l, i.rid)
    ensures AllInv(Handle(l, keyOf, verify, i), keyOf)
  {
    hide Inv, AllInv, HandleProposeAccount, HandleApproveAccount, HandleDeposit, HandlePropose, HandleApprove, HandleRevoke, HandleRefund,
         HandleRespond, HandleCloseWithHolder, HandleCloseWithoutHolder;
    match i.action
    case Ignore => FailInv(l, keyOf, i);
    case ProposeAccount(_, _, _, _, _, _, _, _, _) => HandleProposeAccountInv(l, keyOf, i);
    case ApproveAccount(_, _, _) => HandleApproveAccountInv(l, keyOf, i);
    case Deposit(_, _, _, _, _, _, _) => HandleDepositInv(l, keyOf, i);
    case Propose(_, _, _, _, _, _) => HandleProposeInv(l, keyOf, i);
    case Approve(_, _, _, _) => HandleApproveInv(l, keyOf, i);
    case Revoke(_, _, _) => HandleRevokeInv(l, keyOf, i);
    case Refund(_, _, _, _) => HandleRefundInv(l, keyOf, i);
    case Respond(_, _, _) => HandleRespondInv(l, keyOf, verify, i);
    case CloseWithHolder(_, _, _, _, _, _) => HandleCloseWithHolderInv(l, keyOf, i);
    case CloseWithoutHolder(_, _, _, _, _) => HandleCloseWithoutHolderInv(l, keyOf, i);
  }
}
