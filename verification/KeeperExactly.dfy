/** Requests that are not in order change nothing but themselves, and send nothing but a refund where one is due. */
module KeeperExactly {
  import opened Options
  import opened KeeperTypes
  import opened KeeperLedger
  import opened KeeperBitcoin
  import opened KeeperCoupling
  import opened KeeperInvariant
  import opened KeeperProgress

  /** Only requests and results differ. */
  predicate Untouched(l: Ledger, l': Ledger)
  {
    l' == l.(requests := l'.requests, results := l'.results)
  }

  /** Nothing but the request itself changed, and nothing was sent. */
  ghost predicate Refused(l: Ledger, chain: Blocks, verify: Verifier, i: Input)
  {
    && Untouched(l, Final(l, chain, verify, i))
    && (Process(l, chain, verify, i).reply.Some? ==> Process(l, chain, verify, i).reply.value.emitted == [])
  }

  ghost predicate Idle(l: Ledger, run: Run)
  {
    && (forall k :: 0 <= k < |run.commits| ==> Untouched(l, run.commits[k]))
    && (run.reply.Some? ==> run.reply.value.emitted == [])
  }

  lemma {:induction false} IdleRefused(l: Ledger, chain: Blocks, verify: Verifier, i: Input, run: Run)
    requires NewRequest(l, i) && run == Handle(Begun(l, i), chain, verify, i) && Idle(Begun(l, i), run)
    ensures Refused(l, chain, verify, i)
  {
    hide Handle, Process, Final;
    ProcessNew(l, chain, verify, i, run);
  }

  lemma {:induction false} FailIdle(l: Ledger, i: Input, compaction: bool)
    ensures Idle(l, Fail(l, i)) && Idle(l, Stop()) && Idle(l, Commit(FailRequest(l, i.rid, i.oid, Reply([], compaction)), Reply([], compaction)))
  {
  }

  lemma {:induction false} NothingIdle(l: Ledger, reply: Reply)
    ensures Idle(l, Commit(None, reply))
  {
  }

  // ---- Accounts and deposits

  lemma {:induction false} AccountRefused(l: Ledger, chain: Blocks, verify: Verifier, i: Input)
    requires NewRequest(l, i) && i.action.ApproveAccount? && !AccountInOrder(l, i)
    ensures Refused(l, chain, verify, i)
  {
    hide Handle, Refused, Idle;
    var l0 := Begun(l, i);
    Dispatched(l0, chain, verify, i);
    FailIdle(l0, i, false);
    NothingIdle(l0, Sent());
    IdleRefused(l, chain, verify, i, HandleApproveAccount(l0, i));
  }

  lemma {:induction false} DepositRefused(l: Ledger, chain: Blocks, verify: Verifier, i: Input)
    requires NewRequest(l, i) && i.action.Deposit? && !DepositInOrder(l, chain, i)
    ensures Refused(l, chain, verify, i)
  {
    hide Handle, Refused, Idle, Fail, FailRequest;
    var l0 := Begun(l, i);
    Dispatched(l0, chain, verify, i);
    FailIdle(l0, i, false);
    if i.holder in l.safes { assert CountUnspent(l0, l.safes[i.holder].address) == CountUnspent(l, l.safes[i.holder].address); }
    hide CountUnspent, WriteOutput;
    IdleRefused(l, chain, verify, i, HandleDeposit(l0, chain, i));
  }

  // ---- Proposals

  /** The holder of an open safe has sent its bonds, but no transaction can be made of them now. */
  predicate RefundDue(l: Ledger, i: Input)
    requires i.action.Propose?
  {
    var a := i.action;
    && i.holder in l.safes && l.safes[i.holder].state == Done && i.bondOf == Some(i.holder)
    && (|| !a.priced
        || (a.valid && |a.recipients| <= 256 && SumPaid(a.recipients) == i.amount &&
            var points := Unspent(l.outputs, l.order, l.safes[i.holder].address);
            || i.amount > SumSatoshi(l.outputs, points)
            || (a.buildable && |a.sighashes| == |points| && points != [] && a.recipients != [] && !a.sendable)))
  }

  lemma {:induction false} RefundRuns(l: Ledger, i: Input)
    requires i.action.Propose? && RefundDue(l, i)
    ensures HandlePropose(Begun(l, i), i) == Refund(Begun(l, i), i, i.action.refundable)
  {
    hide Unspent, SumSatoshi, SumPaid, WriteTransaction, Refund, Fail;
  }

  /** Such a proposal is refunded in full; or, if the group cannot pay now, it asks for compaction. */
  lemma {:induction false} ProposalRefunded(l: Ledger, chain: Blocks, verify: Verifier, i: Input)
    requires NewRequest(l, i) && i.action.Propose? && RefundDue(l, i)
    ensures var reply := if i.action.refundable then Reply([Bond(i.holder, i.amount)], false) else Reply([], true);
            Gives(l, chain, verify, i, Settled(l, i, Failed, reply), reply)
  {
    hide Handle, Gives, HandlePropose, RefundDue, FailRequest, Settled, MarkDone, WriteResult;
    var l0 := Begun(l, i);
    var reply := if i.action.refundable then Reply([Bond(i.holder, i.amount)], false) else Reply([], true);
    Dispatched(l0, chain, verify, i);
    RefundRuns(l, i);
    Ends(l, l0, i, reply);
    GivesNew(l, chain, verify, i, HandlePropose(l0, i), Settled(l0, i, Failed, reply), reply);
    SettledTwice(l, i, Failed, reply);
  }

  lemma {:induction false} SettledTwice(l: Ledger, i: Input, state: State, reply: Reply)
    ensures Settled(Begun(l, i), i, state, reply) == Settled(l, i, state, reply)
  {
    WrittenTwice(l, i, state);
  }

  lemma {:induction false} ProposalRefused(l: Ledger, chain: Blocks, verify: Verifier, i: Input)
    requires NewRequest(l, i) && i.action.Propose? && !RefundDue(l, i)
    requires i.holder !in l.safes || !ProposalInOrder(l, i) || i.action.hash in l.transactions || RequestTaken(l, i.rid)
    ensures Refused(l, chain, verify, i)
  {
    var l0 := Begun(l, i);
    assert RequestTaken(l0, i.rid) == RequestTaken(l, i.rid);
    hide Unspent, SumSatoshi, SumPaid, Handle, Refused, Idle, Fail, FailRequest, RequestTaken;
    Dispatched(l0, chain, verify, i);
    FailIdle(l0, i, false);
    IdleRefused(l, chain, verify, i, HandlePropose(l0, i));
  }

  // ---- Approvals

  lemma {:induction false} InsertDistinct(sigs: map<Rid, SignatureRequest>, wanted: seq<Wanted>)
    requires InsertSignatures(sigs, wanted).Some?
    ensures forall j, k :: 0 <= j < k < |wanted| ==> wanted[j].0 != wanted[k].0
    decreases |wanted|
  {
    if wanted != [] {
      InsertDistinct(sigs[wanted[0].0 := wanted[0].1], wanted[1..]);
      InsertExact(sigs[wanted[0].0 := wanted[0].1], wanted[1..]);
      forall j, k | 0 <= j < k < |wanted| ensures wanted[j].0 != wanted[k].0 {
        assert wanted[k] == wanted[1..][k - 1];
        if j > 0 { assert wanted[j] == wanted[1..][j - 1]; }
      }
    }
  }

  lemma {:induction false} InsertDifferent(l: Ledger, i: Input, hash: Hash, same: seq<bool>, messages: seq<string>, signer: Key, wanted: seq<Wanted>)
    requires |same| == |messages| && AskedFrom(l, i, hash, same, messages, signer, wanted, 0) && InsertSignatures(l.signatures, wanted).Some?
    ensures DifferentAsked(l, i.createdAt, hash, same, messages)
  {
    InsertDistinct(l.signatures, wanted);
    forall m, n | 0 <= m < n < |same| && Asked(l, i.createdAt, hash, same, m) && Asked(l, i.createdAt, hash, same, n) ensures messages[m] != messages[n] {
      var a, b := Asking(i, hash, messages, m, signer), Asking(i, hash, messages, n, signer);
      assert a in wanted && b in wanted;
      var j :| 0 <= j < |wanted| && wanted[j] == a;
      var k :| 0 <= k < |wanted| && wanted[k] == b;
      assert j != k;
    }
  }

  /** Writing the wanted requests fails, unless the transaction is open and their messages are different. */
  lemma {:induction false} WantedIdle(l: Ledger, l0: Ledger, verify: Verifier, i: Input, hash: Hash, same: seq<bool>, messages: seq<string>, signer: Key, wanted: seq<Wanted>, reply: Reply)
    requires Inv(l, verify) && NewRequest(l, i) && hash in l.transactions && l0.signatures == l.signatures && l0.transactions == l.transactions
    requires |same| == |messages| && AskedFrom(l, i, hash, same, messages, signer, wanted, 0) && wanted != []
    requires !Open(l.transactions[hash]) || !DifferentAsked(l, i.createdAt, hash, same, messages)
    ensures WriteSignatures(l0, wanted, hash, i.rid, i.oid, reply).None?
  {
    hide Inv, AskedFrom, DifferentAsked;
    assert wanted[0].0 !in l.signatures by { FirstNew(l, i, hash, same, messages, signer, wanted); }
    if InsertSignatures(l.signatures, wanted).Some? { InsertDifferent(l, i, hash, same, messages, signer, wanted); }
  }

  lemma {:induction false} FirstNew(l: Ledger, i: Input, hash: Hash, same: seq<bool>, messages: seq<string>, signer: Key, wanted: seq<Wanted>)
    requires NewRequest(l, i) && |same| == |messages| && AskedFrom(l, i, hash, same, messages, signer, wanted, 0) && wanted != []
    ensures wanted[0].0 !in l.signatures && AnyAsked(l, i.createdAt, hash, same)
  {
    assert Asked(l, i.createdAt, hash, same, wanted[0].1.index);
  }

  lemma {:induction false} ApprovalRefused(l: Ledger, chain: Blocks, verify: Verifier, i: Input)
    requires Inv(l, verify) && NewRequest(l, i) && i.action.Approve? && forall hash :: !ApprovalInOrder(l, i, hash)
    ensures Refused(l, chain, verify, i)
  {
    hide Inv, Handle, Refused, Idle, Fail, FailRequest, ByRequest, HandleApprove, ApprovalInOrder;
    var l0 := Begun(l, i);
    Dispatched(l0, chain, verify, i);
    FailIdle(l0, i, false);
    ApprovalIdle(l, verify, i);
    IdleRefused(l, chain, verify, i, HandleApprove(l0, i));
  }

  lemma {:induction false} ApprovalIdle(l: Ledger, verify: Verifier, i: Input)
    requires Inv(l, verify) && NewRequest(l, i) && i.action.Approve? && forall hash :: !ApprovalInOrder(l, i, hash)
    ensures Idle(Begun(l, i), HandleApprove(Begun(l, i), i))
  {
    hide Inv, Idle, Fail, FailRequest, ByRequest, NewSignatures, WriteSignatures, AnyAsked, DifferentAsked, SignRequests;
    var l0, a := Begun(l, i), i.action;
    var h := ByRequest(l0, a.target);
    FailIdle(l0, i, false);
    if i.holder in l.safes && a.valid && h.Some? {
      var hash, t := h.value, l.transactions[h.value];
      assert !ApprovalInOrder(l, i, hash);
      if t.state != Done && t.holder == i.holder && |a.same| == |t.inputs| == |t.sighashes| && InputsKnown(l0, t) {
        var signer := l.safes[i.holder].signer;
        var wanted := NewSignatures(l0, hash, t, signer, i.rid, i.createdAt, a.same, t.sighashes, 0);
        NewSame(l, l0, hash, t, signer, i.rid, i.createdAt, a.same, t.sighashes, 0);
        KnownMultisig(l, verify, t);
        NewExactly(l, i, hash, t, a.same, t.sighashes, signer, 0);
        if wanted != [] && a.sendable {
          FirstNew(l, i, hash, a.same, t.sighashes, signer, wanted);
          var reply := Reply(SignRequests(wanted), false);
          WantedIdle(l, l0, verify, i, hash, a.same, t.sighashes, signer, wanted, reply);
          NothingIdle(l0, reply);
        }
      }
    }
  }

  lemma {:induction false} KnownMultisig(l: Ledger, verify: Verifier, t: Transaction)
    requires Inv(l, verify) && forall o :: o in t.inputs ==> o in l.outputs
    ensures forall o :: o in t.inputs ==> o in l.outputs && l.outputs[o].multisig
  {
    forall o | o in t.inputs ensures l.outputs[o].multisig { assert OutputOk(l, o); }
  }

  // ---- Responses

  lemma {:induction false} ResponseRefused(l: Ledger, chain: Blocks, verify: Verifier, i: Input)
    requires Inv(l, verify) && NewRequest(l, i) && i.action.Respond? && !GoodResponse(l, verify, i)
    ensures Refused(l, chain, verify, i)
  {
    var l0 := Begun(l, i);
    if i.rid in l.signatures { assert SignatureOk(l, verify, i.rid); }
    hide Inv, Handle, Refused, Idle, Fail, FailRequest, AfterAnswer, FinishSignature;
    Dispatched(l0, chain, verify, i);
    FailIdle(l0, i, false);
    IdleRefused(l, chain, verify, i, HandleRespond(l0, verify, i));
  }

  // ---- Revoking and closing

  lemma {:induction false} RevokeRefused(l: Ledger, chain: Blocks, verify: Verifier, i: Input)
    requires Inv(l, verify) && NewRequest(l, i) && i.action.Revoke? && forall hash :: !RevokeInOrder(l, i, hash)
    ensures Refused(l, chain, verify, i)
  {
    hide Inv, Handle, Refused, Idle, Fail, FailRequest, ByRequest;
    var l0 := Begun(l, i);
    var h := ByRequest(l0, i.action.target);
    if h.Some? { assert !RevokeInOrder(l, i, h.value); }
    Dispatched(l0, chain, verify, i);
    FailIdle(l0, i, false);
    FailIdle(l0, i, true);
    IdleRefused(l, chain, verify, i, HandleRevoke(l0, i));
  }

  /** A recovery transaction that is known already settles the request and changes nothing else. */
  lemma {:induction false} CloseRefused(l: Ledger, chain: Blocks, verify: Verifier, i: Input)
    requires NewRequest(l, i) && i.action.CloseWithHolder? && !CloseInOrder(l, i)
    ensures Untouched(l, Final(l, chain, verify, i))
  {
    var l0 := Begun(l, i);
    NoneUnfinished(l0, i.holder);
    hide Handle, Idle, Fail, FailRequest, Unfinished, Unspent, Final, Process, Spend;
    Dispatched(l0, chain, verify, i);
    FailIdle(l0, i, false);
    var run := HandleCloseWithHolder(l0, i);
    assert Untouched(l0, Last(l0, run)) by {
      IdleLast(l0, Fail(l0, i));
      if i.holder in l.safes { assert RequestTaken(l0.(safes := l0.safes[i.holder := l0.safes[i.holder].(state := Failed)]), i.rid) == RequestTaken(l, i.rid); }
    }
    ProcessNew(l, chain, verify, i, run);
  }

  lemma {:induction false} IdleLast(l: Ledger, run: Run)
    requires Idle(l, run)
    ensures Untouched(l, Last(l, run))
  {
  }

  lemma {:induction false} RecoveryRefused(l: Ledger, chain: Blocks, verify: Verifier, i: Input)
    requires Inv(l, verify) && NewRequest(l, i) && i.action.CloseWithoutHolder? && forall hash :: !RecoveryInOrder(l, i, hash)
    ensures Refused(l, chain, verify, i)
  {
    hide Inv, Handle, Refused, Idle, HandleCloseWithoutHolder, RecoveryInOrder;
    Dispatched(Begun(l, i), chain, verify, i);
    RecoveryIdle(l, verify, i);
    IdleRefused(l, chain, verify, i, HandleCloseWithoutHolder(Begun(l, i), i));
  }

  lemma {:induction false} OneUnfinished(l: Ledger, verify: Verifier, holder: Holder, hash: Hash)
    requires |Unfinished(l, holder)| == 1 && hash in Unfinished(l, holder)
    ensures Unfinished(l, holder) == {hash}
  {
    var rest := Unfinished(l, holder) - {hash};
    assert |rest| == 0;
    assert Unfinished(l, holder) == rest + {hash};
  }

  lemma {:induction false} RecoveryIdle(l: Ledger, verify: Verifier, i: Input)
    requires Inv(l, verify) && NewRequest(l, i) && i.action.CloseWithoutHolder? && forall hash :: !RecoveryInOrder(l, i, hash)
    ensures Idle(Begun(l, i), HandleCloseWithoutHolder(Begun(l, i), i))
  {
    var l0, a := Begun(l, i), i.action;
    assert Unfinished(l0, i.holder) == Unfinished(l, i.holder);
    hide Inv, Idle, Fail, FailRequest, ByRequest, NewSignatures, WriteSignatures, AnyAsked, DifferentAsked, SignRequests, Unfinished, Unspent;
    var h := ByRequest(l0, a.target);
    FailIdle(l0, i, false);
    if Closable(l, i.holder) && a.valid && |Unfinished(l, i.holder)| == 1 && Unspent(l.outputs, l.order, l.safes[i.holder].address) == [] && h.Some? {
      var hash, t, s := h.value, l.transactions[h.value], l.safes[i.holder];
      assert !RecoveryInOrder(l, i, hash);
      if t.state != Done && t.holder == i.holder && a.hash == hash && |a.messages| == |t.inputs| && InputsKnown(l0, t) && a.matured {
        var same := All(|t.inputs|);
        assert seq(|t.inputs|, _ => true) == same;
        var wanted := NewSignatures(l0, hash, t, s.signer, i.rid, i.createdAt, same, a.messages, 0);
        NewSame(l, l0, hash, t, s.signer, i.rid, i.createdAt, same, a.messages, 0);
        KnownMultisig(l, verify, t);
        NewExactly(l, i, hash, t, same, a.messages, s.signer, 0);
        if a.totals && wanted != [] && a.sendable {
          FirstNew(l, i, hash, same, a.messages, s.signer, wanted);
          var reply := Reply(SignRequests(wanted), false);
          if Open(t) { OpenUnfinished(l, i.holder, hash); OneUnfinished(l, verify, i.holder, hash); }
          WantedIdle(l, l0, verify, i, hash, same, a.messages, s.signer, wanted, reply);
          if s.state == Done { WantedIdle(l, CloseSafe(l0, i.holder).value, verify, i, hash, same, a.messages, s.signer, wanted, reply); }
          NothingIdle(l0, reply);
        }
      }
    }
  }

  lemma {:induction false} OpenUnfinished(l: Ledger, holder: Holder, hash: Hash)
    requires hash in l.transactions && l.transactions[hash].holder == holder && Open(l.transactions[hash])
    ensures hash in Unfinished(l, holder)
  {
  }
}
