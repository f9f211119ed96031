/** Requests of Ethereum and Polygon safes that are not in order change nothing but themselves. */
module EthereumExactly {
  import opened Options
  import opened KeeperTypes
  import opened EthereumLedger
  import opened KeeperEthereum
  import opened EthereumProgress

  /** Only requests and results differ. */
  predicate Untouched(l: Books, l': Books)
  {
    l' == l.(requests := l'.requests, results := l'.results)
  }

  /** Nothing but the request itself changed, and nothing was sent. */
  ghost predicate Refused(l: Books, keyOf: Assigned, verify: Verifier, i: Input)
  {
    var run := Process(l, keyOf, verify, i);
    Untouched(l, Last(l, run)) && (run.reply.Some? ==> run.reply.value.emitted == [])
  }

  ghost predicate Idle(l: Books, run: Run)
  {
    && (forall k :: 0 <= k < |run.commits| ==> Untouched(l, run.commits[k]))
    && (run.reply.Some? ==> run.reply.value.emitted == [])
  }

  lemma {:induction false} IdleRefused(l: Books, keyOf: Assigned, verify: Verifier, i: Input, run: Run)
    requires NewRequest(l, i) && run == Handle(Begun(l, i), keyOf, verify, i) && Idle(Begun(l, i), run)
    ensures Refused(l, keyOf, verify, i)
  {
    hide Handle, Process;
    ProcessNew(l, keyOf, verify, i, run);
  }

  lemma {:induction false} FailIdle(l: Books, i: Input, compaction: bool)
    ensures Idle(l, Fail(l, i)) && Idle(l, Stop()) && Idle(l, Commit(FailRequest(l, i.rid, i.oid, Reply([], compaction)), Reply([], compaction)))
  {
  }

  lemma {:induction false} NothingIdle(l: Books, reply: Reply)
    ensures Idle(l, Commit(None, reply))
  {
  }

  lemma {:induction false} AskIdle(l: Books, i: Input, hash: Hash, raw: Raw, sendable: bool)
    requires (forall m :: Derived(i.rid, m) !in l.answers) && (!sendable || hash !in l.transactions || !Open(l.transactions[hash]))
    ensures Idle(Begun(l, i), AskFor(Begun(l, i), i, hash, raw, sendable))
  {
    AskRefused(l, i, hash, raw, sendable);
  }

  // ---- Accounts

  /** A proposal of an account that cannot be priced, given keys or sent at the moment. */
  predicate AccountRefundDue(l: Books, i: Input)
    requires i.action.ProposeAccount?
  {
    var a := i.action;
    && a.valid
    && (|| !a.priced
        || (&& a.paid && i.holder !in l.safes && i.rid !in l.proposals
            && (!a.keyed || (!a.sendable && forall r :: r in l.proposals ==> l.proposals[r].address != a.address))))
  }

  lemma {:induction false} AccountGivenBack(l: Books, keyOf: Assigned, verify: Verifier, i: Input)
    requires NewRequest(l, i) && i.action.ProposeAccount? && AccountRefundDue(l, i)
    ensures var reply := if i.action.refundable then Reply([Bond(i.holder, i.amount)], false) else Reply([], true);
            Gives(l, keyOf, verify, i, Over(l, i, Failed, reply), reply)
  {
    hide Handle, Gives;
    var l0 := Begun(l, i);
    var reply := if i.action.refundable then Reply([Bond(i.holder, i.amount)], false) else Reply([], true);
    Dispatched(l0, keyOf, verify, i);
    Ends(l, l, i, reply);
    GivesNew(l, keyOf, verify, i, HandleProposeAccount(l0, keyOf, i), Over(l, i, Failed, reply), reply);
  }

  lemma {:induction false} AccountRefused(l: Books, keyOf: Assigned, verify: Verifier, i: Input)
    requires NewRequest(l, i) && i.action.ProposeAccount? && !AccountRefundDue(l, i) && !AccountInOrder(l, keyOf, i)
    ensures Refused(l, keyOf, verify, i)
  {
    hide Handle, Refused, Idle, Fail, FailRequest, GiveBack, Close;
    var l0 := Begun(l, i);
    Dispatched(l0, keyOf, verify, i);
    assert RequestTaken(l0, i.rid) == RequestTaken(l, i.rid);
    FailIdle(l0, i, false);
    NothingIdle(l0, Sent());
    IdleRefused(l, keyOf, verify, i, HandleProposeAccount(l0, keyOf, i));
  }

  lemma {:induction false} ApproveAccountRefused(l: Books, keyOf: Assigned, verify: Verifier, i: Input)
    requires NewRequest(l, i) && i.action.ApproveAccount? && !SafeInOrder(l, i)
    ensures Refused(l, keyOf, verify, i)
  {
    hide Handle, Refused, Idle, Fail, FailRequest, AskFor;
    var l0 := Begun(l, i);
    Dispatched(l0, keyOf, verify, i);
    FailIdle(l0, i, false);
    IdleRefused(l, keyOf, verify, i, HandleApproveAccount(l0, i));
  }

  // ---- Deposits and transactions

  lemma {:induction false} DepositRefused(l: Books, keyOf: Assigned, verify: Verifier, i: Input)
    requires NewRequest(l, i) && i.action.Deposit? && !DepositInOrder(l, i)
    ensures Refused(l, keyOf, verify, i)
  {
    hide Handle, Refused, Idle, Fail, FailRequest, WriteDeposit;
    var l0 := Begun(l, i);
    Dispatched(l0, keyOf, verify, i);
    FailIdle(l0, i, false);
    IdleRefused(l, keyOf, verify, i, HandleDeposit(l0, i));
  }

  lemma {:induction false} ProposalRefused(l: Books, keyOf: Assigned, verify: Verifier, i: Input)
    requires NewRequest(l, i) && i.action.Propose? && !RefundDue(l, i) && !ProposalInOrder(l, i)
    ensures Refused(l, keyOf, verify, i)
  {
    hide Handle, Refused, Idle, Fail, FailRequest, GiveBack, Close;
    var l0 := Begun(l, i);
    Dispatched(l0, keyOf, verify, i);
    NoneUnfinished(l0, i.holder);
    hide Unfinished;
    assert RequestTaken(l0, i.rid) == RequestTaken(l, i.rid);
    FailIdle(l0, i, false);
    NothingIdle(l0, Sent());
    IdleRefused(l, keyOf, verify, i, HandlePropose(l0, i));
  }

  lemma {:induction false} ApprovalRefused(l: Books, keyOf: Assigned, verify: Verifier, i: Input)
    requires NewRequest(l, i) && i.action.Approve? && forall hash :: !ApprovalInOrder(l, i, hash)
    ensures Refused(l, keyOf, verify, i)
  {
    hide Handle, Refused, Idle, Fail, FailRequest, AskFor, ByRequest;
    var l0 := Begun(l, i);
    var h := ByRequest(l0, i.action.target);
    Dispatched(l0, keyOf, verify, i);
    FailIdle(l0, i, false);
    if h.Some? {
      assert !ApprovalInOrder(l, i, h.value);
      if i.action.valid && i.holder in l.safes && l.transactions[h.value].holder == i.holder {
        if !i.action.sendable || !Open(l.transactions[h.value]) { AskIdle(l, i, h.value, i.action.raw, i.action.sendable); }
      }
    }
    IdleRefused(l, keyOf, verify, i, HandleApprove(l0, i));
  }

  lemma {:induction false} RevokeRefused(l: Books, keyOf: Assigned, verify: Verifier, i: Input)
    requires NewRequest(l, i) && i.action.Revoke? && forall hash :: !RevokeInOrder(l, i, hash)
    ensures Refused(l, keyOf, verify, i)
  {
    hide Handle, Refused, Idle, Fail, FailRequest, ByRequest, RevokeTransaction;
    var l0 := Begun(l, i);
    var h := ByRequest(l0, i.action.target);
    if h.Some? {
      assert !RevokeInOrder(l, i, h.value);
      assert i.action.target != i.rid;
    }
    Dispatched(l0, keyOf, verify, i);
    FailIdle(l0, i, false);
    FailIdle(l0, i, true);
    IdleRefused(l, keyOf, verify, i, HandleRevoke(l0, i));
  }

  lemma {:induction false} RefundRefused(l: Books, keyOf: Assigned, verify: Verifier, i: Input)
    requires NewRequest(l, i) && i.action.Refund? && forall hash :: !RefundInOrder(l, i, hash)
    ensures Refused(l, keyOf, verify, i)
  {
    hide Handle, Refused, Idle, Fail, FailRequest, ByRequest, Credit, Close;
    var l0 := Begun(l, i);
    var h := ByRequest(l0, i.action.target);
    if h.Some? {
      assert !RefundInOrder(l, i, h.value);
      CreditSucceeds(l.balances, i.holder, l.transactions[h.value].raw.payments);
    }
    Dispatched(l0, keyOf, verify, i);
    FailIdle(l0, i, false);
    FailIdle(l0, i, true);
    NothingIdle(l0, Reply([Bond(i.holder, i.action.scaled)], false));
    IdleRefused(l, keyOf, verify, i, HandleRefund(l0, i));
  }

  lemma {:induction false} ResponseRefused(l: Books, keyOf: Assigned, verify: Verifier, i: Input)
    requires NewRequest(l, i) && i.action.Respond? && !GoodResponse(l, verify, i)
    ensures Refused(l, keyOf, verify, i)
  {
    hide Handle, Refused, Idle, Fail, FailRequest, AfterAnswer;
    var l0 := Begun(l, i);
    Dispatched(l0, keyOf, verify, i);
    FailIdle(l0, i, false);
    IdleRefused(l, keyOf, verify, i, HandleRespond(l0, verify, i));
  }

  // ---- Closing

  /** A closing transaction that is known already settles the request and changes nothing else. */
  lemma {:induction false} CloseRefused(l: Books, keyOf: Assigned, verify: Verifier, i: Input)
    requires NewRequest(l, i) && i.action.CloseWithHolder? && !CloseInOrder(l, i)
    ensures Untouched(l, Last(l, Process(l, keyOf, verify, i)))
  {
    var l0 := Begun(l, i);
    NoneUnfinished(l0, i.holder);
    ClosePaysExactly(l.balances, i.holder, i.action.raw.payments);
    hide Handle, Process, Unfinished, ClosePays, PaysEach, FailRequest;
    Dispatched(l0, keyOf, verify, i);
    var run := HandleCloseWithHolder(l0, i);
    ProcessNew(l, keyOf, verify, i, run);
    FailUntouched(l0, i);
    if i.holder in l.safes { assert RequestTaken(l0.(safes := l0.safes[i.holder := l0.safes[i.holder].(state := Failed)]), i.rid) == RequestTaken(l, i.rid); }
  }

  lemma {:induction false} FailUntouched(l: Books, i: Input)
    ensures Untouched(l, Last(l, Fail(l, i)))
  {
  }

  lemma {:induction false} RecoveryRefused(l: Books, keyOf: Assigned, verify: Verifier, i: Input)
    requires NewRequest(l, i) && i.action.CloseWithoutHolder? && forall hash :: !RecoveryInOrder(l, i, hash)
    ensures Refused(l, keyOf, verify, i)
  {
    var l0, a := Begun(l, i), i.action;
    assert Unfinished(l0, i.holder) == Unfinished(l, i.holder);
    ClosePaysExactly(l.balances, i.holder, a.raw.payments);
    hide Handle, Refused, Idle, Fail, FailRequest, AskFor, ByRequest, ClosePays, PaysEach, Unfinished;
    var h := ByRequest(l0, a.target);
    Dispatched(l0, keyOf, verify, i);
    FailIdle(l0, i, false);
    if h.Some? && Closable(l, i.holder) && |Unfinished(l, i.holder)| == 1 && l.transactions[h.value].holder == i.holder {
      var hash := h.value;
      assert !RecoveryInOrder(l, i, hash);
      if Open(l.transactions[hash]) { OneUnfinished(l, i.holder, hash); }
      if !a.sendable || !Open(l.transactions[hash]) {
        AskIdle(l, i, hash, a.raw, a.sendable);
        if l.safes[i.holder].state == Done && a.sendable { ClosedIdle(l, i, hash); }
      }
    }
    IdleRefused(l, keyOf, verify, i, HandleCloseWithoutHolder(l0, i));
  }

  lemma {:induction false} OneUnfinished(l: Books, holder: Holder, hash: Hash)
    requires |Unfinished(l, holder)| == 1 && hash in l.transactions && l.transactions[hash].holder == holder && Open(l.transactions[hash])
    ensures Unfinished(l, holder) == {hash}
  {
    var rest := Unfinished(l, holder) - {hash};
    assert |rest| == 0;
    assert Unfinished(l, holder) == rest + {hash};
  }

  /** With the safe closed first, asking for a transaction that is over still writes nothing. */
  lemma {:induction false} ClosedIdle(l: Books, i: Input, hash: Hash)
    requires NewRequest(l, i) && i.action.CloseWithoutHolder? && i.action.sendable && hash in l.transactions && !Open(l.transactions[hash])
    requires i.holder in l.safes && l.safes[i.holder].state == Done
    ensures AskFor(CloseSafe(Begun(l, i), i.holder).value, i, hash, i.action.raw, true).commits == []
    ensures AskFor(CloseSafe(Begun(l, i), i.holder).value, i, hash, i.action.raw, true).reply == None
    ensures Idle(Begun(l, i), AskFor(CloseSafe(Begun(l, i), i.holder).value, i, hash, i.action.raw, true))
  {
  }
}
