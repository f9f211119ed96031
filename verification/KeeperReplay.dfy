/** Stopping the keeper after any commit and handling the output again changes nothing. */
module KeeperReplay {
  import opened Options
  import opened KeeperTypes
  import opened KeeperLedger
  import opened KeeperBitcoin
  import opened KeeperHistory
  import opened KeeperNode

  /** A run that returns has recorded what it returned, for its output, and settled its request. */
  ghost predicate Records(run: Run, l: Ledger, i: Input)
  {
    run.reply.Some? ==>
      && run.commits != [] && Settled(Last(l, run), i.rid)
      && i.oid in Last(l, run).results && Last(l, run).results[i.oid] == run.reply.value
  }

  lemma {:induction false} FailRecords(l: Ledger, i: Input, refundable: bool, reply: Reply)
    ensures Records(Fail(l, i), l, i) && Records(Refund(l, i, refundable), l, i)
    ensures Records(Commit(FailRequest(l, i.rid, i.oid, reply), reply), l, i)
  {
  }

  lemma {:induction false} SafeRecords(l: Ledger, i: Input, reply: Reply, s: Safe)
    ensures Records(Commit(WriteSafe(l, i.holder, s, i.rid, i.oid, reply), reply), l, i)
  {
  }

  lemma {:induction false} OutputRecords(l: Ledger, i: Input, reply: Reply, s: Safe, p: OutPoint, value: nat)
    ensures Records(Commit(WriteOutput(l, s, p, value, i.rid, i.oid, reply), reply), l, i)
  {
  }

  lemma {:induction false} InsertRecords(l: Ledger, i: Input, hash: Hash, t: Transaction, points: seq<OutPoint>, state: State)
    requires t.requestId == i.rid
    ensures var r := InsertTransaction(l, hash, t, points, state);
            r.Some? ==> Settled(r.value, i.rid)
  {
  }

  lemma {:induction false} TransactionRecords(l: Ledger, i: Input, reply: Reply, hash: Hash, t: Transaction, points: seq<OutPoint>)
    requires t.requestId == i.rid
    ensures Records(Commit(WriteTransaction(l, hash, t, points, i.oid, reply), reply), l, i)
  {
    InsertRecords(l, i, hash, t, points, Pending);
    hide InsertTransaction;
  }

  lemma {:induction false} ClosingRecords(l: Ledger, i: Input, reply: Reply, hash: Hash, t: Transaction, points: seq<OutPoint>)
    requires t.requestId == i.rid
    ensures Records(Commit(CloseByTransaction(l, hash, t, points, i.oid, reply), reply), l, i)
  {
    var r := CloseSafe(l, t.holder);
    if r.Some? { InsertRecords(r.value, i, hash, t, points, Done); }
    hide InsertTransaction, CloseSafe;
  }

  lemma {:induction false} FinishRecords(l: Ledger, i: Input, reply: Reply, hash: Hash, count: nat, h: Holder)
    ensures Records(Commit(FinishTransaction(l, hash, count, h, i.rid, i.oid, reply), reply), l, i)
  {
    hide AllDone, AllSpent, SpentBy;
  }

  lemma {:induction false} SignRecords(l: Ledger, l0: Ledger, i: Input, reply: Reply, wanted: seq<Wanted>, hash: Hash)
    requires wanted != []
    ensures Records(Commit(WriteSignatures(l0, wanted, hash, i.rid, i.oid, reply), reply), l, i)
  {
    hide InsertSignatures;
  }

  lemma {:induction false} RevokeRecords(l: Ledger, i: Input, reply: Reply, hash: Hash, t: Transaction, s: Safe)
    ensures Records(Commit(RevokeTransaction(l, hash, t, s, i.rid, i.oid, reply), reply), l, i)
  {
    hide Release;
  }

  lemma {:induction false} ApproveRecords(l: Ledger, i: Input)
    requires i.action.Approve?
    ensures Records(HandleApprove(l, i), l, i)
  {
    FailRecords(l, i, false, Nothing());
    hide Records, Fail, WriteSignatures;
    var a, h := i.action, ByRequest(l, i.action.target);
    if i.holder in l.safes && h.Some? && |a.same| == |l.transactions[h.value].inputs| == |l.transactions[h.value].sighashes| {
      var t := l.transactions[h.value];
      var wanted := NewSignatures(l, h.value, t, l.safes[i.holder].signer, i.rid, i.createdAt, a.same, t.sighashes, 0);
      if wanted != [] { SignRecords(l, l, i, Reply(SignRequests(wanted), false), wanted, h.value); }
    }
    StopRecords(l, i);
  }

  lemma {:induction false} StopRecords(l: Ledger, i: Input)
    ensures Records(Stop(), l, i)
  {
  }

  lemma {:induction false} CloseWithoutHolderRecords(l: Ledger, i: Input)
    requires i.action.CloseWithoutHolder?
    ensures Records(HandleCloseWithoutHolder(l, i), l, i)
  {
    FailRecords(l, i, false, Nothing());
    StopRecords(l, i);
    hide Records, Fail, WriteSignatures;
    var a, h := i.action, ByRequest(l, i.action.target);
    if Closable(l, i.holder) && h.Some? && |a.messages| == |l.transactions[h.value].inputs| {
      var t, s := l.transactions[h.value], l.safes[i.holder];
      var wanted := NewSignatures(l, h.value, t, s.signer, i.rid, i.createdAt, seq(|t.inputs|, _ => true), a.messages, 0);
      if wanted != [] {
        var reply := Reply(SignRequests(wanted), false);
        SignRecords(l, l, i, reply, wanted, h.value);
        if s.state == Done { SignRecords(l, CloseSafe(l, i.holder).value, i, reply, wanted, h.value); }
      }
    }
  }

  lemma {:induction false} RespondRecords(l: Ledger, verify: Verifier, i: Input)
    requires i.action.Respond?
    ensures Records(HandleRespond(l, verify, i), l, i)
  {
    FailRecords(l, i, false, Nothing());
    StopRecords(l, i);
    if i.rid in l.signatures && l.signatures[i.rid].hash in l.transactions && l.transactions[l.signatures[i.rid].hash].holder in l.safes {
      var q := l.signatures[i.rid];
      var r := FinishSignature(l, i.rid, i.action.sig);
      if r.Some? { AfterAnswerRecords(l, r.value, verify, i, q.hash, l.transactions[q.hash], l.safes[l.transactions[q.hash].holder]); }
    }
    hide Records, Fail, AfterAnswer, FinishSignature;
  }

  lemma {:induction false} AfterAnswerRecords(l: Ledger, l1: Ledger, verify: Verifier, i: Input, hash: Hash, t: Transaction, s: Safe)
    requires i.action.Respond?
    ensures Records(AfterAnswer(l1, verify, i, hash, t, s), l, i)
  {
    FinishingRecords(l1, verify, i, hash, t, s);
    hide Finishing;
  }

  lemma {:induction false} FinishingRecords(l: Ledger, verify: Verifier, i: Input, hash: Hash, t: Transaction, s: Safe)
    requires i.action.Respond?
    ensures Records(Finishing(l, verify, i, hash, t, s), l, i)
  {
    FailRecords(l, i, false, Nothing());
    StopRecords(l, i);
    FinishRecords(l, i, Sent(), hash, |t.inputs|, t.holder);
    hide Records, Fail, FinishTransaction, ScanInputs;
  }

  lemma {:induction false} DepositRecords(l: Ledger, chain: map<Hash, ChainTx>, i: Input)
    requires i.action.Deposit?
    ensures Records(HandleDeposit(l, chain, i), l, i)
  {
    FailRecords(l, i, false, Nothing());
    StopRecords(l, i);
    if i.holder in l.safes {
      OutputRecords(l, i, Deposited(i, true), l.safes[i.holder], i.action.point, i.action.value);
      OutputRecords(l, i, Deposited(i, false), l.safes[i.holder], i.action.point, i.action.value);
    }
    hide Records, Fail, WriteOutput, Deposited, CountUnspent;
  }

  lemma {:induction false} RevokingRecords(l: Ledger, i: Input)
    requires i.action.Revoke?
    ensures Records(HandleRevoke(l, i), l, i)
  {
    FailRecords(l, i, false, Reply([], true));
    var h := ByRequest(l, i.action.target);
    if i.holder in l.safes && h.Some? && i.action.target in l.requests {
      RevokeRecords(l, i, Reply([Bond(i.holder, l.requests[i.action.target].amount)], false), h.value, l.transactions[h.value], l.safes[i.holder]);
    }
    hide Records, Fail, RevokeTransaction, FailRequest;
  }

  lemma {:induction false} ProposeRecords(l: Ledger, i: Input)
    requires i.action.Propose?
    ensures Records(HandlePropose(l, i), l, i)
  {
    FailRecords(l, i, i.action.refundable, Nothing());
    StopRecords(l, i);
    if i.holder in l.safes && i.amount <= Funds(l, l.safes[i.holder]) {
      var t := Proposal(l, i, l.safes[i.holder]);
      TransactionRecords(l, i, Sent(), i.action.hash, t, t.inputs);
    }
    hide Records, Fail, Refund, WriteTransaction, SumPaid;
  }

  lemma {:induction false} HandleRecords(l: Ledger, chain: map<Hash, ChainTx>, verify: Verifier, i: Input)
    ensures Records(Handle(l, chain, verify, i), l, i)
  {
    hide Records;
    FailRecords(l, i, false, Nothing());
    StopRecords(l, i);
    match i.action
    case Ignore =>
    case ApproveAccount(_, s, _) => SafeRecords(l, i, Sent(), s.(state := Done, nonce := 0));
    case Deposit(_, _, _, _, _, _, _) => DepositRecords(l, chain, i);
    case Propose(_, _, _, _, _, _, _, _) => ProposeRecords(l, i);
    case Approve(_, _, _, _) => ApproveRecords(l, i);
    case Revoke(_, _, _) => RevokingRecords(l, i);
    case Respond(_, _) => RespondRecords(l, verify, i);
    case CloseWithHolder(_, _, _, _, _, _) =>
      if i.action.outs != [] && i.holder in l.safes {
        ClosingRecords(l, i, Sent(), i.action.hash, Closing(i), Unspent(l.outputs, l.order, l.safes[i.holder].address));
      }
    case CloseWithoutHolder(_, _, _, _, _, _, _) => CloseWithoutHolderRecords(l, i);
  }

  // ---- The commits of one handling

  ghost predicate AtOnce(run: Run)
  {
    |run.commits| == if run.reply.Some? then 1 else 0
  }

  lemma {:induction false} CommitAtOnce(r: Option<Ledger>, reply: Reply)
    ensures AtOnce(Commit(r, reply)) && AtOnce(Stop())
  {
  }

  lemma {:induction false} PaymentsAtOnce(l: Ledger, chain: map<Hash, ChainTx>, i: Input)
    ensures i.action.Deposit? ==> AtOnce(HandleDeposit(l, chain, i))
    ensures i.action.Propose? ==> AtOnce(HandlePropose(l, i))
    ensures i.action.Revoke? ==> AtOnce(HandleRevoke(l, i))
  {
    forall r, reply ensures AtOnce(Commit(r, reply)) && AtOnce(Stop()) { CommitAtOnce(r, reply); }
    hide AtOnce, Commit, Stop, WriteOutput, WriteTransaction, RevokeTransaction, FailRequest, IsChange, CountUnspent, SumPaid, Funds, Proposal;
  }

  lemma {:induction false} AccountsAtOnce(l: Ledger, i: Input)
    ensures i.action.ApproveAccount? ==> AtOnce(HandleApproveAccount(l, i))
    ensures i.action.Approve? ==> AtOnce(HandleApprove(l, i))
    ensures i.action.CloseWithHolder? ==> AtOnce(HandleCloseWithHolder(l, i))
    ensures i.action.CloseWithoutHolder? ==> AtOnce(HandleCloseWithoutHolder(l, i))
  {
    forall r, reply ensures AtOnce(Commit(r, reply)) && AtOnce(Stop()) { CommitAtOnce(r, reply); }
    hide AtOnce, Commit, Stop, WriteSignatures, CloseByTransaction, CloseBySignatures, WriteSafe, FailRequest, NewSignatures, Unspent, SignRequests;
  }

  /** Only a signer's answer is committed before the handling ends. */
  lemma {:induction false} OneCommit(l: Ledger, chain: map<Hash, ChainTx>, verify: Verifier, i: Input)
    requires !i.action.Respond?
    ensures AtOnce(Handle(l, chain, verify, i))
  {
    hide HandleApprove, HandleDeposit, HandlePropose, HandleRevoke, HandleCloseWithHolder, HandleCloseWithoutHolder, HandleApproveAccount;
    PaymentsAtOnce(l, chain, i);
    AccountsAtOnce(l, i);
  }

  /** Where a response stands after its answer was recorded. */
  ghost predicate Midpoint(l: Ledger, l1: Ledger, verify: Verifier, i: Input)
    requires i.action.Respond?
  {
    && i.rid in l.signatures && l.signatures[i.rid].state != Done
    && l.signatures[i.rid].hash in l.transactions && l.transactions[l.signatures[i.rid].hash].holder in l.safes
    && var t := l.transactions[l.signatures[i.rid].hash];
       && l.safes[t.holder].signer == i.holder && verify(i.holder, l.signatures[i.rid].message, i.action.sig)
       && FinishSignature(l, i.rid, i.action.sig) == Some(l1)
       && HandleRespond(l, verify, i) == AfterAnswer(l1, verify, i, l.signatures[i.rid].hash, t, l.safes[t.holder])
  }

  lemma {:induction false} RespondCommits(l: Ledger, verify: Verifier, i: Input)
    requires i.action.Respond?
    ensures var run := HandleRespond(l, verify, i);
            || |run.commits| == (if run.reply.Some? then 1 else 0)
            || (&& |run.commits| == (if run.reply.Some? then 2 else 1)
                && Midpoint(l, run.commits[0], verify, i))
  {
    hide FailRequest, FinishTransaction, ScanInputs;
  }

  /** Handled again from there, the response finds its answer and goes on as before. */
  lemma {:induction false} MidpointReplay(l: Ledger, l1: Ledger, verify: Verifier, i: Input)
    requires i.action.Respond? && Midpoint(l, l1, verify, i)
    ensures HandleRespond(l1, verify, i) == HandleRespond(l, verify, i)
  {
    hide AfterAnswer;
    assert l1.signatures[i.rid].state == Pending && FinishSignature(l1, i.rid, i.action.sig) == Some(l1);
  }

  lemma {:induction false} RespondReplay(l: Ledger, verify: Verifier, i: Input, k: nat)
    requires i.action.Respond? && 0 < k <= |HandleRespond(l, verify, i).commits|
    requires k < |HandleRespond(l, verify, i).commits| || HandleRespond(l, verify, i).reply.None?
    ensures var l1 := HandleRespond(l, verify, i).commits[k - 1];
            HandleRespond(l1, verify, i) == HandleRespond(l, verify, i) && l1.requests == l.requests
  {
    hide HandleRespond, AfterAnswer;
    RespondCommits(l, verify, i);
    MidpointReplay(l, HandleRespond(l, verify, i).commits[0], verify, i);
  }

  lemma {:induction false} HandleReplay(l: Ledger, chain: map<Hash, ChainTx>, verify: Verifier, i: Input, k: nat)
    requires 0 < k <= |Handle(l, chain, verify, i).commits|
    requires k < |Handle(l, chain, verify, i).commits| || Handle(l, chain, verify, i).reply.None?
    ensures var l1 := Handle(l, chain, verify, i).commits[k - 1];
            && Handle(l1, chain, verify, i) == Handle(l, chain, verify, i) && l1.requests == l.requests
  {
    hide HandleRespond, HandleApprove, HandleDeposit, HandlePropose, HandleRevoke, HandleCloseWithHolder, HandleCloseWithoutHolder, HandleApproveAccount;
    if i.action.Respond? { RespondReplay(l, verify, i, k); } else { OneCommit(l, chain, verify, i); }
  }

  // ---- The statement

  /**
   Whatever commit the keeper stopped after, handling the same output again ends with the ledger and the reply
   that an uninterrupted handling would have ended with.
   */
  lemma {:induction false} CrashReplay(l: Ledger, chain: map<Hash, ChainTx>, verify: Verifier, i: Input, k: nat)
    requires k <= |Process(l, chain, verify, i).commits|
    ensures var run := Process(l, chain, verify, i);
            var again := Process(StateAt(l, run, k), chain, verify, i);
            again.reply == run.reply && Last(StateAt(l, run, k), again) == Last(l, run)
  {
    var run := Process(l, chain, verify, i);
    if k == 0 || Handled(l, i) || i.action.Ignore? {
      hide Handle;
    } else {
      FreshReplay(l, chain, verify, i, k);
    }
  }

  lemma {:induction false} FreshReplay(l: Ledger, chain: map<Hash, ChainTx>, verify: Verifier, i: Input, k: nat)
    requires !Handled(l, i) && !i.action.Ignore? && 0 < k <= |Process(l, chain, verify, i).commits|
    ensures var run := Process(l, chain, verify, i);
            var again := Process(StateAt(l, run, k), chain, verify, i);
            again.reply == run.reply && Last(StateAt(l, run, k), again) == Last(l, run)
  {
    hide Handle, Process;
    ProcessUnfold(l, chain, verify, i, k);
    var l0 := WriteRequest(l, i.rid, i.amount);
    var inner := Handle(l0, chain, verify, i);
    if k - 1 < |inner.commits| || inner.reply.None? {
      OpenReplay(l0, StateAt(l0, inner, k - 1), chain, verify, i, k - 1);
    } else {
      DoneReplay(l0, Last(l0, inner), chain, verify, i);
    }
  }

  /** While the request is open, the handler runs again and does what it did. */
  lemma {:induction false} OpenReplay(l0: Ledger, l1: Ledger, chain: map<Hash, ChainTx>, verify: Verifier, i: Input, k: nat)
    requires i.rid in l0.requests && l0.requests[i.rid].state == Initial && !i.action.Ignore?
    requires k <= |Handle(l0, chain, verify, i).commits| && l1 == StateAt(l0, Handle(l0, chain, verify, i), k)
    requires k < |Handle(l0, chain, verify, i).commits| || Handle(l0, chain, verify, i).reply.None?
    ensures var again := Process(l1, chain, verify, i);
            again.reply == Handle(l0, chain, verify, i).reply && Last(l1, again) == Last(l0, Handle(l0, chain, verify, i))
  {
    hide Handle;
    if k > 0 { HandleReplay(l0, chain, verify, i, k); }
    assert WriteRequest(l1, i.rid, i.amount) == l1;
  }

  /** Once it is settled, the recorded reply is returned. */
  lemma {:induction false} DoneReplay(l0: Ledger, l1: Ledger, chain: map<Hash, ChainTx>, verify: Verifier, i: Input)
    requires Handle(l0, chain, verify, i).reply.Some? && l1 == Last(l0, Handle(l0, chain, verify, i))
    ensures var again := Process(l1, chain, verify, i);
            again.reply == Handle(l0, chain, verify, i).reply && Last(l1, again) == l1
  {
    hide Handle;
    HandleRecords(l0, chain, verify, i);
  }
}
