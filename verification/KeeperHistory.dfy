/** What a commit may change: how transactions, safes, outputs and signature requests move on. */
module KeeperHistory {
  import opened Options
  import opened KeeperTypes
  import opened KeeperLedger
  import opened KeeperBitcoin
  import opened KeeperCoupling
  import opened KeeperInvariant
  import opened KeeperRuns

  /** A transaction waits, may be revoked while it waits, is being signed, is done; there is no way back. */
  predicate Edge(a: State, b: State)
  {
    a == b || (a == Initial && b == Pending) || (a == Initial && b == Failed) || (a == Pending && b == Done)
  }

  ghost predicate TransactionsMove(a: map<Hash, Transaction>, b: map<Hash, Transaction>)
  {
    forall h :: h in a ==> h in b && Edge(a[h].state, b[h].state) && b[h] == a[h].(state := b[h].state)
  }

  ghost predicate OutputsMove(a: map<OutPoint, Output>, b: map<OutPoint, Output>)
  {
    forall o :: o in a ==> o in b && b[o] == a[o].(state := b[o].state, spentBy := b[o].spentBy)
  }

  ghost predicate SafesMove(a: map<Holder, Safe>, b: map<Holder, Safe>)
  {
    forall h :: h in a ==>
      && h in b && b[h] == a[h].(state := b[h].state, nonce := b[h].nonce)
      && (b[h].state == a[h].state || (a[h].state == Done && b[h].state == Failed))
  }

  /** Only the request itself is settled, and no amount changes. */
  ghost predicate RequestsMove(a: map<Rid, Request>, b: map<Rid, Request>, rid: Rid)
  {
    a.Keys == b.Keys && forall r :: r in a ==> b[r].amount == a[r].amount && (r != rid ==> b[r] == a[r])
  }

  predicate Same(q: SignatureRequest, hash: Hash, index: nat)
  {
    q.hash == hash && q.index == index
  }

  type Signatures = map<Rid, SignatureRequest>

  ghost predicate New(a: Signatures, b: Signatures, r: Rid)
  {
    r in b && r !in a
  }

  /** Every earlier request for the input is unanswered and a full timeout old, and no other is made with it. */
  ghost predicate Alone(a: Signatures, b: Signatures, r: Rid)
    requires r in b
  {
    && (forall q :: q in a && Same(a[q], b[r].hash, b[r].index) ==>
          a[q].state == Initial && a[q].createdAt + SIGNATURE_TIMEOUT <= b[r].createdAt)
    && (forall q :: New(a, b, q) && q != r ==> !Same(b[q], b[r].hash, b[r].index))
  }

  /** Requests stay, and so does an answer. */
  ghost predicate RequestKept(p: SignatureRequest, q: SignatureRequest)
  {
    && q == p.(state := q.state, signature := q.signature)
    && (p.state != Initial ==> q.state != Initial && q.signature == p.signature)
  }

  ghost predicate SignaturesMove(a: Signatures, b: Signatures)
  {
    && (forall r :: r in a ==> r in b && RequestKept(a[r], b[r]))
    && (forall r :: New(a, b, r) ==> Alone(a, b, r))
  }

  ghost predicate Moves(l: Ledger, l': Ledger, rid: Rid)
  {
    TransactionsMove(l.transactions, l'.transactions) && OutputsMove(l.outputs, l'.outputs) && SafesMove(l.safes, l'.safes) && RequestsMove(l.requests, l'.requests, rid) && SignaturesMove(l.signatures, l'.signatures)
  }

  ghost predicate Settled(l: Ledger, rid: Rid)
  {
    rid in l.requests && l.requests[rid].state != Initial
  }

  /** Every commit of a run moves on from `l`, and a run that returns has settled its request. */
  ghost predicate RunMoves(l: Ledger, run: Run, rid: Rid)
  {
    && (forall k :: 0 <= k < |run.commits| ==> Moves(l, run.commits[k], rid))
    && (run.reply.Some? ==> Settled(Last(l, run), rid))
  }

  // ---- The store transactions

  lemma {:induction false} Still(l: Ledger, rid: Rid)
    ensures Moves(l, l, rid)
  {
  }

  lemma {:induction false} EndMoves(l: Ledger, l1: Ledger, rid: Rid, oid: string, reply: Reply)
    requires TransactionsMove(l.transactions, l1.transactions) && OutputsMove(l.outputs, l1.outputs) && SafesMove(l.safes, l1.safes) && SignaturesMove(l.signatures, l1.signatures) && l1.requests == l.requests
    ensures var r := MarkDone(l1, rid);
            r.Some? ==> RunMoves(l, Commit(WriteResult(r.value, oid, reply), reply), rid)
  {
  }

  lemma {:induction false} FailMoves(l: Ledger, rid: Rid, oid: string, reply: Reply)
    ensures RunMoves(l, Commit(FailRequest(l, rid, oid, reply), reply), rid)
  {
  }

  lemma {:induction false} RefundMoves(l: Ledger, i: Input, refundable: bool)
    ensures RunMoves(l, Fail(l, i), i.rid) && RunMoves(l, Refund(l, i, refundable), i.rid)
  {
    FailMoves(l, i.rid, i.oid, Nothing());
    FailMoves(l, i.rid, i.oid, Reply([Bond(i.holder, i.amount)], false));
    FailMoves(l, i.rid, i.oid, Reply([], true));
  }

  lemma {:induction false} WriteSafeMoves(l: Ledger, holder: Holder, s: Safe, rid: Rid, oid: string, reply: Reply)
    ensures RunMoves(l, Commit(WriteSafe(l, holder, s, rid, oid, reply), reply), rid)
  {
    if holder !in l.safes { EndMoves(l, l.(safes := l.safes[holder := s]), rid, oid, reply); }
  }

  lemma {:induction false} WriteOutputMoves(l: Ledger, s: Safe, point: OutPoint, satoshi: nat, rid: Rid, oid: string, reply: Reply)
    ensures RunMoves(l, Commit(WriteOutput(l, s, point, satoshi, rid, oid, reply), reply), rid)
  {
    if point !in l.outputs {
      EndMoves(l, l.(order := l.order + [point], outputs := l.outputs[point := Output(s.address, satoshi, true, Initial, None)],
                     deposits := l.deposits + {point}), rid, oid, reply);
    }
  }

  lemma {:induction false} InsertMoves(l: Ledger, hash: Hash, t: Transaction, points: seq<OutPoint>, state: State)
    ensures var r := InsertTransaction(l, hash, t, points, state);
            r.Some? ==> Moves(l, r.value, t.requestId) && Settled(r.value, t.requestId) && r.value.safes == l.safes
  {
    SpendExact(l.outputs, points, hash, state);
    var r := InsertTransaction(l, hash, t, points, state);
    if r.Some? {
      assert r.value.signatures == l.signatures;
      assert OutputsMove(l.outputs, r.value.outputs);
      assert TransactionsMove(l.transactions, r.value.transactions);
      assert RequestsMove(l.requests, r.value.requests, t.requestId);
    }
  }

  lemma {:induction false} WriteTransactionMoves(l: Ledger, hash: Hash, t: Transaction, points: seq<OutPoint>, oid: string, reply: Reply)
    ensures RunMoves(l, Commit(WriteTransaction(l, hash, t, points, oid, reply), reply), t.requestId)
  {
    InsertMoves(l, hash, t, points, Pending);
    var r := InsertTransaction(l, hash, t, points, Pending);
    if r.Some? { ResultMoves(l, r.value, t.requestId, oid, reply); }
  }

  lemma {:induction false} ResultMoves(l: Ledger, l1: Ledger, rid: Rid, oid: string, reply: Reply)
    requires Moves(l, l1, rid) && Settled(l1, rid)
    ensures RunMoves(l, Commit(WriteResult(l1, oid, reply), reply), rid)
  {
  }

  lemma {:induction false} CloseSafeMoves(l: Ledger, holder: Holder)
    ensures var r := CloseSafe(l, holder);
            r.Some? ==> r.value == l.(safes := r.value.safes) && SafesMove(l.safes, r.value.safes)
  {
  }

  lemma {:induction false} ClosedMoves(l: Ledger, l1: Ledger, l2: Ledger, rid: Rid)
    requires l1 == l.(safes := l1.safes) && SafesMove(l.safes, l1.safes) && l2.safes == l1.safes && Moves(l1, l2, rid)
    ensures Moves(l, l2, rid)
  {
  }

  lemma {:induction false} SetStateMoves(l: Ledger, hash: Hash, state: State)
    requires hash in l.transactions && Edge(l.transactions[hash].state, state)
    ensures TransactionsMove(l.transactions, SetState(l, hash, state).transactions)
  {
  }

  lemma {:induction false} ReleaseMoves(outputs: map<OutPoint, Output>, points: seq<OutPoint>, hash: Hash, address: Address)
    requires Distinct(points)
    ensures var r := Release(outputs, points, hash, address);
            r.Some? ==> OutputsMove(outputs, r.value)
  {
    ReleaseExact(outputs, points, hash, address);
  }

  lemma {:induction false} CloseByTransactionMoves(l: Ledger, hash: Hash, t: Transaction, points: seq<OutPoint>, oid: string, reply: Reply)
    ensures RunMoves(l, Commit(CloseByTransaction(l, hash, t, points, oid, reply), reply), t.requestId)
  {
    EndMoves(l, l, t.requestId, oid, reply);
    if hash !in l.transactions && CloseSafe(l, t.holder).Some? {
      var l1 := CloseSafe(l, t.holder).value;
      InsertMoves(l1, hash, t, points, Done);
      var r := InsertTransaction(l1, hash, t, points, Done);
      if r.Some? {
        CloseSafeMoves(l, t.holder);
        ClosedMoves(l, l1, r.value, t.requestId);
        ResultMoves(l, r.value, t.requestId, oid, reply);
      }
    }
  }

  lemma {:induction false} RevokeMoves(l: Ledger, verify: Verifier, hash: Hash, rid: Rid, oid: string, reply: Reply)
    requires Inv(l, verify) && hash in l.transactions && l.transactions[hash].holder in l.safes && Open(l.transactions[hash])
    ensures var t := l.transactions[hash];
            RunMoves(l, Commit(RevokeTransaction(l, hash, t, l.safes[t.holder], rid, oid, reply), reply), rid)
  {
    var t := l.transactions[hash];
    assert TransactionOk(l, hash);
    ReleaseMoves(l.outputs, t.inputs, hash, l.safes[t.holder].address);
    var r := Release(l.outputs, t.inputs, hash, l.safes[t.holder].address);
    if r.Some? && t.state == Initial {
      Still(l, rid);
      SetStateMoves(l, hash, Failed);
      EndMoves(l, SetState(l.(outputs := r.value), hash, Failed), rid, oid, reply);
    }
  }

  /** New requests, each for its own input, for inputs where nothing is pending. */
  ghost predicate Due(l: Ledger, wanted: seq<Wanted>, hash: Hash, now: int)
  {
    && (forall k :: 0 <= k < |wanted| ==>
          wanted[k].1.hash == hash && wanted[k].1.createdAt == now && !SignaturePending(l, hash, wanted[k].1.index, now))
    && (forall k, m :: 0 <= k < m < |wanted| ==> wanted[k].1.index != wanted[m].1.index)
  }

  lemma {:induction false} NewSignaturesDue(l: Ledger, hash: Hash, t: Transaction, signer: Key, rid: Rid, now: int,
                                            same: seq<bool>, messages: seq<string>, idx: nat)
    requires idx <= |t.inputs| == |same| == |messages|
    ensures Due(l, NewSignatures(l, hash, t, signer, rid, now, same, messages, idx), hash, now)
    decreases |t.inputs| - idx
  {
    NewSignaturesShape(l, hash, t, signer, rid, now, same, messages, idx);
    if idx < |t.inputs| {
      NewSignaturesDue(l, hash, t, signer, rid, now, same, messages, idx + 1);
      NewSignaturesShape(l, hash, t, signer, rid, now, same, messages, idx + 1);
    }
  }

  lemma {:induction false} AskMoves(l: Ledger, wanted: seq<Wanted>, hash: Hash, now: int, sigs: map<Rid, SignatureRequest>)
    requires Due(l, wanted, hash, now) && InsertSignatures(l.signatures, wanted) == Some(sigs)
    ensures SignaturesMove(l.signatures, sigs)
  {
    InsertExact(l.signatures, wanted);
    var a := l.signatures;
    forall r | New(a, sigs, r) ensures Alone(a, sigs, r) {
      var k :| 0 <= k < |wanted| && wanted[k] == (r, sigs[r]);
      assert !SignaturePending(l, hash, wanted[k].1.index, now);
      forall q | New(a, sigs, q) && q != r ensures !Same(sigs[q], sigs[r].hash, sigs[r].index) {
        var m :| 0 <= m < |wanted| && wanted[m] == (q, sigs[q]);
        assert k != m;
      }
    }
  }

  lemma {:induction false} WriteSignaturesMoves(l: Ledger, l1: Ledger, wanted: seq<Wanted>, hash: Hash, now: int, rid: Rid, oid: string, reply: Reply)
    requires wanted != [] && Due(l, wanted, hash, now) && l1 == l.(safes := l1.safes) && SafesMove(l.safes, l1.safes)
    ensures RunMoves(l, Commit(WriteSignatures(l1, wanted, hash, rid, oid, reply), reply), rid)
  {
    Still(l, rid);
    EndMoves(l, l1, rid, oid, reply);
    var sigs := InsertSignatures(l.signatures, wanted);
    if hash in l.transactions && Open(l.transactions[hash]) && sigs.Some? {
      AskedMoves(l, l1, wanted, hash, now, rid, oid, reply);
      SignaturesOrder(l1, wanted, hash, rid, oid, reply);
    }
  }

  lemma {:induction false} AskedMoves(l: Ledger, l1: Ledger, wanted: seq<Wanted>, hash: Hash, now: int, rid: Rid, oid: string, reply: Reply)
    requires Due(l, wanted, hash, now) && l1 == l.(safes := l1.safes) && SafesMove(l.safes, l1.safes)
    requires hash in l.transactions && Open(l.transactions[hash]) && InsertSignatures(l.signatures, wanted).Some?
    ensures var r := MarkDone(SetState(l1, hash, Pending).(signatures := InsertSignatures(l.signatures, wanted).value), rid);
            r.Some? ==> RunMoves(l, Commit(WriteResult(r.value, oid, reply), reply), rid)
  {
    var sigs := InsertSignatures(l.signatures, wanted).value;
    Still(l, rid);
    AskMoves(l, wanted, hash, now, sigs);
    SetStateMoves(l, hash, Pending);
    EndMoves(l, SetState(l1, hash, Pending).(signatures := sigs), rid, oid, reply);
  }

  /** Marking the request first or last makes no difference. */
  lemma {:induction false} SignaturesOrder(l: Ledger, wanted: seq<Wanted>, hash: Hash, rid: Rid, oid: string, reply: Reply)
    requires wanted != [] && hash in l.transactions && Open(l.transactions[hash])
    requires InsertSignatures(l.signatures, wanted).Some?
    ensures var l2 := MarkDone(SetState(l, hash, Pending).(signatures := InsertSignatures(l.signatures, wanted).value), rid);
            WriteSignatures(l, wanted, hash, rid, oid, reply) == if l2.Some? then WriteResult(l2.value, oid, reply) else None
  {
  }

  lemma {:induction false} AnswerSignatures(l: Ledger, rid: Rid, sig: Sig)
    ensures var r := FinishSignature(l, rid, sig);
            r.Some? ==> r.value == l.(signatures := r.value.signatures) && SignaturesMove(l.signatures, r.value.signatures)
  {
  }

  lemma {:induction false} AnswerMoves(l: Ledger, rid: Rid, sig: Sig)
    ensures var r := FinishSignature(l, rid, sig);
            r.Some? ==> Moves(l, r.value, rid) && r.value.requests == l.requests
  {
    Still(l, rid);
    AnswerSignatures(l, rid, sig);
  }

  lemma {:induction false} FinishTables(l: Ledger, l1: Ledger, hash: Hash, holder: Holder)
    requires l1 == l.(signatures := l1.signatures) && SignaturesMove(l.signatures, l1.signatures) && l1.signatures.Keys == l.signatures.Keys
    requires hash in l.transactions && holder in l.safes
    ensures var l2 := Finished(l1, hash, holder);
            OutputsMove(l.outputs, l2.outputs) && SafesMove(l.safes, l2.safes) && SignaturesMove(l.signatures, l2.signatures)
  {
  }

  /** Finishing after the answer of the same run: both together move on from before the answer. */
  lemma {:induction false} FinishMoves(l: Ledger, l1: Ledger, hash: Hash, count: nat, holder: Holder, rid: Rid, oid: string, reply: Reply)
    requires l1 == l.(signatures := l1.signatures) && SignaturesMove(l.signatures, l1.signatures) && l1.signatures.Keys == l.signatures.Keys
    requires hash in l.transactions && l.transactions[hash].state == Pending
    ensures RunMoves(l, Commit(FinishTransaction(l1, hash, count, holder, rid, oid, reply), reply), rid)
  {
    if holder in l1.safes {
      FinishTables(l, l1, hash, holder);
      SetStateMoves(l1, hash, Done);
      EndMoves(l, Finished(l1, hash, holder), rid, oid, reply);
    }
  }

  // ---- The handlers

  lemma {:induction false} ApproveMoves(l: Ledger, i: Input)
    requires i.action.Approve?
    ensures RunMoves(l, HandleApprove(l, i), i.rid)
  {
    RefundMoves(l, i, false);
    Still(l, i.rid);
    var a, h := i.action, ByRequest(l, i.action.target);
    if i.holder in l.safes && h.Some? {
      var t := l.transactions[h.value];
      if |a.same| == |t.inputs| == |t.sighashes| {
        var wanted := NewSignatures(l, h.value, t, l.safes[i.holder].signer, i.rid, i.createdAt, a.same, t.sighashes, 0);
        NewSignaturesDue(l, h.value, t, l.safes[i.holder].signer, i.rid, i.createdAt, a.same, t.sighashes, 0);
        if wanted != [] { WriteSignaturesMoves(l, l, wanted, h.value, i.createdAt, i.rid, i.oid, Reply(SignRequests(wanted), false)); }
      }
    }
  }

  lemma {:induction false} CloseWithoutHolderMoves(l: Ledger, i: Input)
    requires i.action.CloseWithoutHolder?
    ensures RunMoves(l, HandleCloseWithoutHolder(l, i), i.rid)
  {
    RefundMoves(l, i, false);
    Still(l, i.rid);
    var a, h := i.action, ByRequest(l, i.action.target);
    if Closable(l, i.holder) && h.Some? && |a.messages| == |l.transactions[h.value].inputs| {
      var t, s := l.transactions[h.value], l.safes[i.holder];
      var same := seq(|t.inputs|, _ => true);
      var wanted := NewSignatures(l, h.value, t, s.signer, i.rid, i.createdAt, same, a.messages, 0);
      NewSignaturesDue(l, h.value, t, s.signer, i.rid, i.createdAt, same, a.messages, 0);
      if wanted != [] {
        var reply := Reply(SignRequests(wanted), false);
        WriteSignaturesMoves(l, l, wanted, h.value, i.createdAt, i.rid, i.oid, reply);
        CloseSafeMoves(l, i.holder);
        if s.state == Done { WriteSignaturesMoves(l, CloseSafe(l, i.holder).value, wanted, h.value, i.createdAt, i.rid, i.oid, reply); }
      }
    }
  }

  lemma {:induction false} FinishingMoves(l: Ledger, l1: Ledger, verify: Verifier, i: Input, hash: Hash)
    requires i.action.Respond? && hash in l.transactions && l.transactions[hash].state == Pending && l.transactions[hash].holder in l.safes
    requires l1 == l.(signatures := l1.signatures) && SignaturesMove(l.signatures, l1.signatures) && l1.signatures.Keys == l.signatures.Keys
    ensures RunMoves(l, Finishing(l1, verify, i, hash, l.transactions[hash], l.safes[l.transactions[hash].holder]), i.rid)
  {
    var t := l.transactions[hash];
    FinishMoves(l, l1, hash, |t.inputs|, t.holder, i.rid, i.oid, Sent());
    FailAfter(l, l1, i);
  }

  lemma {:induction false} FailAfter(l: Ledger, l1: Ledger, i: Input)
    requires l1 == l.(signatures := l1.signatures) && SignaturesMove(l.signatures, l1.signatures)
    ensures RunMoves(l, Fail(l1, i), i.rid)
  {
    Still(l, i.rid);
  }

  lemma {:induction false} RespondMoves(l: Ledger, verify: Verifier, i: Input)
    requires Inv(l, verify) && i.action.Respond?
    ensures RunMoves(l, HandleRespond(l, verify, i), i.rid)
  {
    RespondCases(l, verify, i);
    RefundMoves(l, i, false);
    if Answerable(l, verify, i) { AfterAnswerMoves(l, verify, i, l.signatures[i.rid].hash); }
    hide HandleRespond, AfterAnswer, Inv, Moves;
  }

  lemma {:induction false} AfterAnswerMoves(l: Ledger, verify: Verifier, i: Input, hash: Hash)
    requires i.action.Respond? && hash in l.transactions && l.transactions[hash].state == Pending && l.transactions[hash].holder in l.safes
    requires FinishSignature(l, i.rid, i.action.sig).Some?
    ensures RunMoves(l, AfterAnswer(FinishSignature(l, i.rid, i.action.sig).value, verify, i, hash,
                                    l.transactions[hash], l.safes[l.transactions[hash].holder]), i.rid)
  {
    var l1 := FinishSignature(l, i.rid, i.action.sig).value;
    AnswerMoves(l, i.rid, i.action.sig);
    AnswerSignatures(l, i.rid, i.action.sig);
    FinishingMoves(l, l1, verify, i, hash);
    JoinMoves(l, l1, Finishing(l1, verify, i, hash, l.transactions[hash], l.safes[l.transactions[hash].holder]), i.rid);
  }

  lemma {:induction false} JoinMoves(l: Ledger, l1: Ledger, run: Run, rid: Rid)
    requires Moves(l, l1, rid) && RunMoves(l, run, rid) && (run.reply.Some? ==> run.commits != [])
    ensures RunMoves(l, Run([l1] + run.commits, run.reply), rid)
  {
  }

  lemma {:induction false} StopMoves(l: Ledger, rid: Rid)
    ensures RunMoves(l, Stop(), rid)
  {
  }

  lemma {:induction false} ApproveAccountMoves(l: Ledger, i: Input)
    requires i.action.ApproveAccount?
    ensures RunMoves(l, HandleApproveAccount(l, i), i.rid)
  {
    RefundMoves(l, i, false);
    WriteSafeMoves(l, i.holder, i.action.safe.(state := Done, nonce := 0), i.rid, i.oid, Sent());
  }

  lemma {:induction false} HandleMoves(l: Ledger, chain: map<Hash, ChainTx>, verify: Verifier, i: Input)
    requires Inv(l, verify)
    ensures RunMoves(l, Handle(l, chain, verify, i), i.rid)
  {
    hide Inv, RunMoves, HandleApproveAccount, HandleDeposit, HandlePropose, HandleApprove, HandleRevoke, HandleRespond,
         HandleCloseWithHolder, HandleCloseWithoutHolder;
    match i.action
    case Ignore => StopMoves(l, i.rid);
    case ApproveAccount(_, _, _) => ApproveAccountMoves(l, i);
    case Deposit(_, _, _, _, _, _, _) => DepositMoves(l, chain, i);
    case Propose(_, _, _, _, _, _, _, _) => ProposeMoves(l, i);
    case Approve(_, _, _, _) => ApproveMoves(l, i);
    case Revoke(_, _, _) => HandleRevokeMoves(l, verify, i);
    case Respond(_, _) => RespondMoves(l, verify, i);
    case CloseWithHolder(_, _, _, _, _, _) => CloseWithHolderMoves(l, i);
    case CloseWithoutHolder(_, _, _, _, _, _, _) => CloseWithoutHolderMoves(l, i);
  }

  lemma {:induction false} DepositMoves(l: Ledger, chain: map<Hash, ChainTx>, i: Input)
    requires i.action.Deposit?
    ensures RunMoves(l, HandleDeposit(l, chain, i), i.rid)
  {
    RefundMoves(l, i, false);
    if i.holder in l.safes {
      WriteOutputMoves(l, l.safes[i.holder], i.action.point, i.action.value, i.rid, i.oid, Deposited(i, true));
      WriteOutputMoves(l, l.safes[i.holder], i.action.point, i.action.value, i.rid, i.oid, Deposited(i, false));
    }
  }

  lemma {:induction false} ProposeMoves(l: Ledger, i: Input)
    requires i.action.Propose?
    ensures RunMoves(l, HandlePropose(l, i), i.rid)
  {
    RefundMoves(l, i, i.action.refundable);
    if i.holder in l.safes && i.amount <= Funds(l, l.safes[i.holder]) {
      var t := Proposal(l, i, l.safes[i.holder]);
      WriteTransactionMoves(l, i.action.hash, t, t.inputs, i.oid, Sent());
    }
  }

  lemma {:induction false} HandleRevokeMoves(l: Ledger, verify: Verifier, i: Input)
    requires Inv(l, verify) && i.action.Revoke?
    ensures RunMoves(l, HandleRevoke(l, i), i.rid)
  {
    RefundMoves(l, i, false);
    FailMoves(l, i.rid, i.oid, Reply([], true));
    var h := ByRequest(l, i.action.target);
    if i.holder in l.safes && h.Some? && i.action.target in l.requests {
      var t := l.transactions[h.value];
      if t.holder == i.holder && t.state == Initial {
        RevokeMoves(l, verify, h.value, i.rid, i.oid, Reply([Bond(i.holder, l.requests[i.action.target].amount)], false));
      }
    }
  }

  lemma {:induction false} CloseWithHolderMoves(l: Ledger, i: Input)
    requires i.action.CloseWithHolder?
    ensures RunMoves(l, HandleCloseWithHolder(l, i), i.rid)
  {
    RefundMoves(l, i, false);
    var a := i.action;
    if i.holder in l.safes && a.outs != [] {
      var t := Closing(i);
      CloseByTransactionMoves(l, a.hash, t, Unspent(l.outputs, l.order, l.safes[i.holder].address), i.oid, Sent());
    }
  }
}
