/** For Ethereum safes too, stopping after any commit and handling the output again changes nothing. */
module EthereumReplay {
  import opened Options
  import opened KeeperTypes
  import opened EthereumLedger
  import opened KeeperEthereum
  import opened EthereumRuns
  import opened EthereumSafety

  /** A run that returns has recorded what it returned and settled its request. */
  ghost predicate Records(run: Run, l: Books, i: Input)
  {
    run.reply.Some? ==>
      && run.commits != [] && Handled(Last(l, run), i)
      && i.oid in Last(l, run).results && Last(l, run).results[i.oid] == run.reply.value
  }

  lemma {:induction false} CloseRecords(l: Books, l1: Books, i: Input, reply: Reply)
    ensures Records(Commit(Close(l1, i.rid, i.oid, reply), reply), l, i)
    ensures Records(Commit(FailRequest(l1, i.rid, i.oid, reply), reply), l, i)
    ensures Records(Commit(None, reply), l, i) && Records(Stop(), l, i)
  {
  }

  lemma {:induction false} FailRecords(l: Books, l1: Books, i: Input)
    ensures Records(Fail(l1, i), l, i) && Records(Stop(), l, i)
    ensures Records(GiveBack(l1, i, true), l, i) && Records(GiveBack(l1, i, false), l, i)
  {
    hide Records, FailRequest;
    CloseRecords(l, l1, i, Reply([], false));
    CloseRecords(l, l1, i, Reply([], true));
    CloseRecords(l, l1, i, Reply([Bond(i.holder, i.amount)], false));
  }

  lemma {:induction false} AskForRecords(l: Books, l1: Books, i: Input, hash: Hash, raw: Raw, sendable: bool)
    ensures Records(AskFor(l1, i, hash, raw, sendable), l, i)
  {
    hide Records, Fail;
    FailRecords(l, l1, i);
    var id := Derived(i.rid, raw.message);
    var reply := Reply([Sign(id, raw.message)], false);
    AnswerRecords(l, l1, i, id, Answer(hash, raw.message, None, Initial, i.createdAt), raw, reply);
  }

  lemma {:induction false} AnswerRecords(l: Books, l1: Books, i: Input, id: Rid, q: Answer, raw: Raw, reply: Reply)
    ensures Records(Commit(WriteAnswer(l1, id, q, raw, i.rid, i.oid, reply), reply), l, i)
  {
    hide Records, Close, SetTx;
    CloseRecords(l, l1, i, reply);
    if q.hash in l1.transactions {
      CloseRecords(l, SetTx(l1, q.hash, l1.transactions[q.hash].state, raw), i, reply);
      CloseRecords(l, SetTx(l1, q.hash, Pending, raw).(answers := l1.answers[id := q]), i, reply);
    }
  }

  lemma {:induction false} ProposeAccountRecords(l: Books, keyOf: Assigned, i: Input)
    requires i.action.ProposeAccount?
    ensures Records(HandleProposeAccount(l, keyOf, i), l, i)
  {
    hide Records, Close, Fail, GiveBack;
    FailRecords(l, l, i);
    CloseRecords(l, l, i, Sent());
    var p := Proposal(i.holder, keyOf(i.holder), i.action.address, i.action.hash);
    CloseRecords(l, l.(proposals := l.proposals[i.rid := p],
                       transactions := l.transactions[p.setup := SafeTx(p.holder, Initial, i.rid, true, false, i.action.raw)]), i, Sent());
  }

  lemma {:induction false} DepositRecords(l: Books, i: Input)
    requires i.action.Deposit?
    ensures Records(HandleDeposit(l, i), l, i)
  {
    hide Records, Close, Fail;
    FailRecords(l, l, i);
    var a := i.action;
    var reply := Reply([Bond(i.holder, a.value)], false);
    CloseRecords(l, l, i, reply);
    CloseRecords(l, l.(balances := l.balances[(i.holder, a.token) := Balance(l.balances, i.holder, a.token) + a.value],
                       deposits := l.deposits[a.point := Deposited(i.holder, a.token, a.value)]), i, reply);
  }

  lemma {:induction false} TransactionRecords(l: Books, l1: Books, i: Input, hash: Hash, t: SafeTx)
    requires t.requestId == i.rid
    ensures Records(Commit(WriteTransaction(l1, hash, t, i.oid, Sent()), Sent()), l, i)
  {
    hide Records, Close;
    CloseRecords(l, l1, i, Sent());
    CloseRecords(l, l1.(transactions := l1.transactions[hash := t]), i, Sent());
  }

  lemma {:induction false} ProposeRecords(l: Books, i: Input)
    requires i.action.Propose?
    ensures Records(HandlePropose(l, i), l, i)
  {
    hide Records, WriteTransaction, Fail, GiveBack, Unfinished;
    FailRecords(l, l, i);
    TransactionRecords(l, l, i, i.action.hash, SafeTx(i.holder, Initial, i.rid, false, false, i.action.raw));
  }

  lemma {:induction false} CloseWithRecords(l: Books, i: Input)
    requires i.action.CloseWithHolder?
    ensures Records(HandleCloseWithHolder(l, i), l, i)
  {
    hide Records, WriteTransaction, Fail, Unfinished, Close;
    FailRecords(l, l, i);
    CloseRecords(l, l, i, Sent());
    var r := CloseSafe(l, i.holder);
    if r.Some? { TransactionRecords(l, r.value, i, i.action.hash, SafeTx(i.holder, Done, i.rid, false, true, i.action.raw)); }
  }

  lemma {:induction false} ApproveRecords(l: Books, i: Input)
    requires i.action.Approve?
    ensures Records(HandleApprove(l, i), l, i)
  {
    hide Records, AskFor, Fail;
    FailRecords(l, l, i);
    var h := ByRequest(l, i.action.target);
    if h.Some? { AskForRecords(l, l, i, h.value, i.action.raw, i.action.sendable); }
  }

  lemma {:induction false} CloseWithoutRecords(l: Books, i: Input)
    requires i.action.CloseWithoutHolder?
    ensures Records(HandleCloseWithoutHolder(l, i), l, i)
  {
    hide Records, AskFor, Fail, Unfinished;
    FailRecords(l, l, i);
    var h := ByRequest(l, i.action.target);
    if h.Some? {
      AskForRecords(l, l, i, h.value, i.action.raw, i.action.sendable);
      var r := CloseSafe(l, i.holder);
      if r.Some? { AskForRecords(l, r.value, i, h.value, i.action.raw, i.action.sendable); }
    }
  }

  lemma {:induction false} RevokeRecords(l: Books, i: Input)
    requires i.action.Revoke?
    ensures Records(HandleRevoke(l, i), l, i)
  {
    hide Records, Close, Fail, FailRequest, SetTx;
    FailRecords(l, l, i);
    CloseRecords(l, l, i, Reply([], true));
    var h := ByRequest(l, i.action.target);
    if h.Some? && i.action.target in l.requests {
      var reply := Reply([Bond(i.holder, l.requests[i.action.target].amount)], false);
      CloseRecords(l, l, i, reply);
      CloseRecords(l, SetTx(l, h.value, Failed, l.transactions[h.value].raw), i, reply);
    }
  }

  lemma {:induction false} RefundRecords(l: Books, i: Input)
    requires i.action.Refund?
    ensures Records(HandleRefund(l, i), l, i)
  {
    hide Records, Close, Fail, FailRequest, Credit;
    FailRecords(l, l, i);
    CloseRecords(l, l, i, Reply([], true));
    var h := ByRequest(l, i.action.target);
    var reply := Reply([Bond(i.holder, i.action.scaled)], false);
    CloseRecords(l, l, i, reply);
    if h.Some? && i.holder in l.safes {
      var r := Credit(l.balances, i.holder, l.transactions[h.value].raw.payments);
      if r.Some? { CloseRecords(l, Refunded(l, h.value, i.holder, r.value), i, reply); }
    }
  }

  lemma {:induction false} FinishRecords(l: Books, l1: Books, i: Input, hash: Hash, holder: Holder, state: State, balances: map<(Holder, Token), int>)
    ensures Records(Commit(FinishTransaction(l1, hash, holder, state, balances, i.rid, i.oid, Sent()), Sent()), l, i)
  {
    hide Records, Close, AllAnswered;
    CloseRecords(l, l1, i, Sent());
    if hash in l1.transactions && holder in l1.safes { CloseRecords(l, Finished(l1, hash, holder, state, balances), i, Sent()); }
  }

  lemma {:induction false} FinishingRecords(l: Books, l1: Books, verify: Verifier, i: Input, hash: Hash, t: SafeTx, s: Account)
    requires i.action.Respond?
    ensures Records(Finishing(l1, verify, i, hash, t, s), l, i)
  {
    hide Records, FinishTransaction, Fail, Debit, Latest;
    FailRecords(l, l1, i);
    FinishRecords(l, l1, i, hash, t.holder, Done, l1.balances);
    var d := Debit(l1.balances, t.holder, t.raw.payments);
    if d.Debited? { FinishRecords(l, l1, i, hash, t.holder, s.state, d.balances); }
  }

  /** A run that goes on after a first commit records what its second part records. */
  lemma {:induction false} JoinRecords(l: Books, l1: Books, run: Run, i: Input)
    requires Records(run, l1, i)
    ensures Records(Run([l1] + run.commits, run.reply), l, i)
  {
  }

  lemma {:induction false} RespondRecords(l: Books, verify: Verifier, i: Input)
    requires i.action.Respond?
    ensures Records(HandleRespond(l, verify, i), l, i)
  {
    hide Records, Finishing, Fail;
    FailRecords(l, l, i);
    if i.rid in l.answers && l.answers[i.rid].hash in l.transactions && l.transactions[l.answers[i.rid].hash].holder in l.safes {
      var h := l.answers[i.rid].hash;
      var t := l.transactions[h];
      var r := FinishAnswer(l, i.rid, i.action.sig);
      if r.Some? {
        FinishingRecords(r.value, r.value, verify, i, h, t, l.safes[t.holder]);
        JoinRecords(l, r.value, Finishing(r.value, verify, i, h, t, l.safes[t.holder]), i);
      }
    }
  }

  lemma {:induction false} ApproveAccountRecords(l: Books, i: Input)
    requires i.action.ApproveAccount?
    ensures Records(HandleApproveAccount(l, i), l, i)
  {
    hide Records, AskFor, Fail, WriteUnfinished;
    FailRecords(l, l, i);
    if i.action.target in l.proposals && l.proposals[i.action.target].setup in l.transactions {
      var p := l.proposals[i.action.target];
      var r := WriteUnfinished(l, i.holder, Account(p.signer, p.address, Pending, 0));
      if r.Some? {
        AskForRecords(r.value, r.value, i, p.setup, l.transactions[p.setup].raw, i.action.sendable);
        JoinRecords(l, r.value, AskFor(r.value, i, p.setup, l.transactions[p.setup].raw, i.action.sendable), i);
      }
    }
  }

  lemma {:induction false} HandleRecords(l: Books, keyOf: Assigned, verify: Verifier, i: Input)
    ensures Records(Handle(l, keyOf, verify, i), l, i)
  {
    hide Records, HandleProposeAccount, HandleApproveAccount, HandleDeposit, HandlePropose, HandleApprove, HandleRevoke, HandleRefund,
         HandleRespond, HandleCloseWithHolder, HandleCloseWithoutHolder;
    match i.action
    case Ignore => FailRecords(l, l, i);
    case ProposeAccount(_, _, _, _, _, _, _, _, _) => ProposeAccountRecords(l, keyOf, i);
    case ApproveAccount(_, _, _) => ApproveAccountRecords(l, i);
    case Deposit(_, _, _, _, _, _, _) => DepositRecords(l, i);
    case Propose(_, _, _, _, _, _) => ProposeRecords(l, i);
    case Approve(_, _, _, _) => ApproveRecords(l, i);
    case Revoke(_, _, _) => RevokeRecords(l, i);
    case Refund(_, _, _, _) => RefundRecords(l, i);
    case Respond(_, _, _) => RespondRecords(l, verify, i);
    case CloseWithHolder(_, _, _, _, _, _) => CloseWithRecords(l, i);
    case CloseWithoutHolder(_, _, _, _, _) => CloseWithoutRecords(l, i);
  }

  // ---- The commits of one handling

  ghost predicate AtOnce(run: Run)
  {
    |run.commits| == if run.reply.Some? then 1 else 0
  }

  lemma {:induction false} CommitAtOnce(r: Option<Books>, reply: Reply)
    ensures AtOnce(Commit(r, reply)) && AtOnce(Stop())
  {
  }

  lemma {:induction false} BalancesAtOnce(l: Books, i: Input)
    ensures i.action.Deposit? ==> AtOnce(HandleDeposit(l, i))
    ensures i.action.Propose? ==> AtOnce(HandlePropose(l, i))
    ensures i.action.Revoke? ==> AtOnce(HandleRevoke(l, i))
    ensures i.action.Refund? ==> AtOnce(HandleRefund(l, i))
  {
    forall r, reply ensures AtOnce(Commit(r, reply)) && AtOnce(Stop()) { CommitAtOnce(r, reply); }
    hide AtOnce, Commit, Stop, WriteDeposit, WriteTransaction, RevokeTransaction, FailTransaction, FailRequest, Unfinished, Credit;
  }

  lemma {:induction false} AccountsAtOnce(l: Books, keyOf: Assigned, i: Input)
    ensures i.action.ProposeAccount? ==> AtOnce(HandleProposeAccount(l, keyOf, i))
    ensures i.action.Approve? ==> AtOnce(HandleApprove(l, i))
    ensures i.action.CloseWithHolder? ==> AtOnce(HandleCloseWithHolder(l, i))
    ensures i.action.CloseWithoutHolder? ==> AtOnce(HandleCloseWithoutHolder(l, i))
  {
    forall r, reply ensures AtOnce(Commit(r, reply)) && AtOnce(Stop()) { CommitAtOnce(r, reply); }
    hide AtOnce, Commit, Stop, WriteProposal, WriteAnswer, CloseByTransaction, FailRequest, Unfinished, ClosePays;
  }

  lemma {:induction false} OneCommit(l: Books, keyOf: Assigned, verify: Verifier, i: Input)
    requires !i.action.Respond? && !i.action.ApproveAccount?
    ensures AtOnce(Handle(l, keyOf, verify, i))
  {
    hide HandleProposeAccount, HandleDeposit, HandlePropose, HandleApprove, HandleRevoke, HandleRefund, HandleCloseWithHolder, HandleCloseWithoutHolder;
    BalancesAtOnce(l, i);
    AccountsAtOnce(l, keyOf, i);
  }

  lemma {:induction false} FinishingAtOnce(l: Books, verify: Verifier, i: Input, hash: Hash, t: SafeTx, s: Account)
    requires i.action.Respond?
    ensures AtOnce(Finishing(l, verify, i, hash, t, s))
  {
    hide FailRequest, FinishTransaction, Debit, Latest, PaysNothing;
  }

  /** Handled again after the answer was recorded, a response finds it and goes on as before. */
  lemma {:induction false} RespondReplay(l: Books, verify: Verifier, i: Input)
    requires i.action.Respond?
    ensures var run := HandleRespond(l, verify, i);
            || AtOnce(run)
            || (&& |run.commits| == (if run.reply.Some? then 2 else 1) && run.commits[0].requests == l.requests
                && HandleRespond(run.commits[0], verify, i) == run)
  {
    hide FailRequest, Finishing;
    if i.rid in l.answers && l.answers[i.rid].state != Done {
      var r, q := FinishAnswer(l, i.rid, i.action.sig), l.answers[i.rid];
      if r.Some? && q.hash in l.transactions && l.transactions[q.hash].holder in l.safes {
        var t := l.transactions[q.hash];
        FinishingAtOnce(r.value, verify, i, q.hash, t, l.safes[t.holder]);
        assert r.value.answers[i.rid].state == Pending && FinishAnswer(r.value, i.rid, i.action.sig) == r;
      }
    }
  }

  /** Once it is written, the unfinished safe is found again. */
  lemma {:induction false} UnfinishedAgain(l: Books, holder: Holder, a: Account)
    requires a.state == Pending
    ensures var r := WriteUnfinished(l, holder, a);
            r.Some? ==> WriteUnfinished(r.value, holder, a) == r && r.value == l.(safes := r.value.safes)
                        && ((holder in l.safes && l.safes[holder].state != Pending) <==> (holder in r.value.safes && r.value.safes[holder].state != Pending))
  {
    var r := WriteUnfinished(l, holder, a);
    if r.Some? && r.value != l { assert holder in r.value.safes && r.value.safes[holder] == a; }
  }

  lemma {:induction false} ApproveAccountReplay(l: Books, i: Input)
    requires i.action.ApproveAccount?
    ensures var run := HandleApproveAccount(l, i);
            || AtOnce(run)
            || (&& |run.commits| == (if run.reply.Some? then 2 else 1) && run.commits[0].requests == l.requests
                && HandleApproveAccount(run.commits[0], i) == run)
  {
    hide WriteAnswer, FailRequest, WriteUnfinished;
    if i.action.target in l.proposals {
      var p := l.proposals[i.action.target];
      UnfinishedAgain(l, i.holder, Account(p.signer, p.address, Pending, 0));
    }
  }

  lemma {:induction false} HandleReplay(l: Books, keyOf: Assigned, verify: Verifier, i: Input, k: nat)
    requires 0 < k <= |Handle(l, keyOf, verify, i).commits|
    requires k < |Handle(l, keyOf, verify, i).commits| || Handle(l, keyOf, verify, i).reply.None?
    ensures var l1 := Handle(l, keyOf, verify, i).commits[k - 1];
            Handle(l1, keyOf, verify, i) == Handle(l, keyOf, verify, i) && l1.requests == l.requests
  {
    hide HandleProposeAccount, HandleApproveAccount, HandleDeposit, HandlePropose, HandleApprove, HandleRevoke, HandleRefund,
         HandleRespond, HandleCloseWithHolder, HandleCloseWithoutHolder;
    if i.action.Respond? {
      RespondReplay(l, verify, i);
    } else if i.action.ApproveAccount? {
      ApproveAccountReplay(l, i);
    } else {
      OneCommit(l, keyOf, verify, i);
    }
  }

  // ---- The statement

  lemma {:induction false} OpenReplay(l0: Books, l1: Books, keyOf: Assigned, verify: Verifier, i: Input, k: nat)
    requires Handling(l0, i.rid) && !i.action.Ignore?
    requires k <= |Handle(l0, keyOf, verify, i).commits| && l1 == StateAt(l0, Handle(l0, keyOf, verify, i), k)
    requires k < |Handle(l0, keyOf, verify, i).commits| || Handle(l0, keyOf, verify, i).reply.None?
    ensures var again := Process(l1, keyOf, verify, i);
            again.reply == Handle(l0, keyOf, verify, i).reply && Last(l1, again) == Last(l0, Handle(l0, keyOf, verify, i))
  {
    hide Handle;
    if k > 0 { HandleReplay(l0, keyOf, verify, i, k); }
    assert WriteRequest(l1, i.rid, i.amount) == l1;
  }

  lemma {:induction false} DoneReplay(l0: Books, l1: Books, keyOf: Assigned, verify: Verifier, i: Input)
    requires Handle(l0, keyOf, verify, i).reply.Some? && l1 == Last(l0, Handle(l0, keyOf, verify, i))
    ensures var again := Process(l1, keyOf, verify, i);
            again.reply == Handle(l0, keyOf, verify, i).reply && Last(l1, again) == l1
  {
    hide Handle;
    HandleRecords(l0, keyOf, verify, i);
  }

  lemma {:induction false} FreshReplay(l: Books, keyOf: Assigned, verify: Verifier, i: Input, k: nat)
    requires !Handled(l, i) && !i.action.Ignore? && 0 < k <= |Process(l, keyOf, verify, i).commits|
    ensures var run := Process(l, keyOf, verify, i);
            var again := Process(StateAt(l, run, k), keyOf, verify, i);
            again.reply == run.reply && Last(StateAt(l, run, k), again) == Last(l, run)
  {
    hide Handle, Process;
    ProcessState(l, keyOf, verify, i, k);
    ProcessEnd(l, keyOf, verify, i);
    var l0 := WriteRequest(l, i.rid, i.amount);
    var inner := Handle(l0, keyOf, verify, i);
    if k - 1 < |inner.commits| || inner.reply.None? {
      OpenReplay(l0, StateAt(l0, inner, k - 1), keyOf, verify, i, k - 1);
    } else {
      DoneReplay(l0, Last(l0, inner), keyOf, verify, i);
    }
  }

  lemma {:induction false} ProcessEnd(l: Books, keyOf: Assigned, verify: Verifier, i: Input)
    requires !Handled(l, i) && !i.action.Ignore?
    ensures var l0 := WriteRequest(l, i.rid, i.amount);
            var inner := Handle(l0, keyOf, verify, i);
            var run := Process(l, keyOf, verify, i);
            run.reply == inner.reply && |run.commits| == |inner.commits| + 1 && Last(l, run) == Last(l0, inner)
  {
    hide Handle;
  }

  /**
   Whatever commit the keeper stopped after, handling the same output again ends with the books and the reply
   that an uninterrupted handling would have ended with.
   */
  lemma {:induction false} CrashReplay(l: Books, keyOf: Assigned, verify: Verifier, i: Input, k: nat)
    requires k <= |Process(l, keyOf, verify, i).commits|
    ensures var run := Process(l, keyOf, verify, i);
            var again := Process(StateAt(l, run, k), keyOf, verify, i);
            again.reply == run.reply && Last(StateAt(l, run, k), again) == Last(l, run)
  {
    hide Handle;
    if k > 0 && !Handled(l, i) && !i.action.Ignore? { FreshReplay(l, keyOf, verify, i, k); }
  }
}
