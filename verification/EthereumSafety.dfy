/** What holds over every run of the keeper for Ethereum safes, whatever commit it stops after. */
module EthereumSafety {
  import opened Options
  import opened KeeperTypes
  import opened EthereumLedger
  import opened KeeperEthereum
  import opened EthereumInvariant
  import opened EthereumRuns

  // ---- How transactions move

  /** A transaction waits, is signed, is done, and may be refunded; there is no other way. */
  predicate Edge(a: State, b: State)
  {
    a == b || (a == Initial && b == Pending) || (a == Initial && b == Failed) || (a == Pending && b == Done) || (a == Done && b == Failed)
  }

  type Txs = map<Hash, SafeTx>

  predicate Fresh(a: Txs, b: Txs, x: Hash)
  {
    x in b && x !in a
  }

  predicate Written(a: Txs, rid: Rid)
  {
    exists h :: h in a && a[h].requestId == rid
  }

  /** Transactions move along the edges and keep their holder and request; at most one is new, of a request that has none. */
  ghost predicate TxEdges(a: Txs, b: Txs)
  {
    && (forall x :: x in a ==> x in b && Edge(a[x].state, b[x].state) && b[x].holder == a[x].holder && b[x].requestId == a[x].requestId)
    && (forall x :: Fresh(a, b, x) ==> !Written(a, b[x].requestId))
    && (forall x, y :: Fresh(a, b, x) && Fresh(a, b, y) ==> x == y)
  }

  ghost predicate Edges(l: Books, l': Books)
  {
    TxEdges(l.transactions, l'.transactions)
  }

  lemma {:induction false} StayEdges(a: Txs)
    ensures TxEdges(a, a)
  {
  }

  lemma {:induction false} MoveEdges(a: Txs, hash: Hash, state: State, raw: Raw)
    requires hash in a && Edge(a[hash].state, state)
    ensures TxEdges(a, a[hash := a[hash].(state := state, raw := raw)])
  {
  }

  lemma {:induction false} AddEdges(a: Txs, hash: Hash, t: SafeTx)
    requires hash !in a && !Written(a, t.requestId)
    ensures TxEdges(a, a[hash := t])
  {
    var b := a[hash := t];
    forall x | Fresh(a, b, x) ensures x == hash {}
  }

  ghost predicate RunEdges(l: Books, run: Run)
  {
    forall k :: 0 <= k < |run.commits| ==> Edges(l, run.commits[k])
  }

  lemma {:induction false} FailEdges(l: Books, l1: Books, i: Input, reply: Reply)
    requires l1.transactions == l.transactions
    ensures RunEdges(l, Fail(l1, i)) && RunEdges(l, Stop()) && RunEdges(l, GiveBack(l1, i, true)) && RunEdges(l, GiveBack(l1, i, false))
    ensures RunEdges(l, Commit(FailRequest(l1, i.rid, i.oid, reply), reply))
  {
    hide TxEdges;
    StayEdges(l.transactions);
  }

  lemma {:induction false} CloseEdges(l: Books, l1: Books, rid: Rid, oid: string, reply: Reply)
    requires Edges(l, l1)
    ensures RunEdges(l, Commit(Close(l1, rid, oid, reply), reply))
  {
    hide TxEdges;
  }

  lemma {:induction false} SetEdges(l: Books, l1: Books, hash: Hash, state: State, raw: Raw)
    requires l1.transactions == l.transactions && hash in l.transactions && Edge(l.transactions[hash].state, state)
    ensures Edges(l, SetTx(l1, hash, state, raw))
  {
    hide TxEdges;
    MoveEdges(l.transactions, hash, state, raw);
  }

  lemma {:induction false} AnswerEdges(l: Books, l1: Books, id: Rid, q: Answer, raw: Raw, rid: Rid, oid: string, reply: Reply)
    requires l1.transactions == l.transactions
    ensures RunEdges(l, Commit(WriteAnswer(l1, id, q, raw, rid, oid, reply), reply))
  {
    hide Edges, Close;
    if q.hash in l.transactions {
      var t := l.transactions[q.hash];
      SetEdges(l, l1, q.hash, t.state, raw);
      CloseEdges(l, SetTx(l1, q.hash, t.state, raw), rid, oid, reply);
      if Open(t) {
        SetEdges(l, l1, q.hash, Pending, raw);
        var l2 := SetTx(l1, q.hash, Pending, raw).(answers := l1.answers[id := q]);
        SameEdges(l, SetTx(l1, q.hash, Pending, raw), l2);
        CloseEdges(l, l2, rid, oid, reply);
      }
    }
  }

  lemma {:induction false} SameEdges(l: Books, l1: Books, l2: Books)
    requires Edges(l, l1) && l2.transactions == l1.transactions
    ensures Edges(l, l2)
  {
    hide TxEdges;
  }

  lemma {:induction false} AskForEdges(l: Books, l1: Books, i: Input, hash: Hash, raw: Raw, sendable: bool)
    requires l1.transactions == l.transactions
    ensures RunEdges(l, AskFor(l1, i, hash, raw, sendable))
  {
    hide RunEdges, WriteAnswer, Fail;
    FailEdges(l, l1, i, Reply([], false));
    AnswerEdges(l, l1, Derived(i.rid, raw.message), Answer(hash, raw.message, None, Initial, i.createdAt), raw, i.rid, i.oid,
                Reply([Sign(Derived(i.rid, raw.message), raw.message)], false));
  }

  lemma {:induction false} FinishEdges(l: Books, l1: Books, hash: Hash, holder: Holder, state: State, balances: Balances, i: Input)
    requires l1.transactions == l.transactions && hash in l.transactions && l.transactions[hash].state == Pending
    ensures RunEdges(l, Commit(FinishTransaction(l1, hash, holder, state, balances, i.rid, i.oid, Sent()), Sent()))
  {
    hide Edges, Close, AllAnswered;
    if holder in l1.safes {
      var l2 := Finished(l1, hash, holder, state, balances);
      SetEdges(l, l1, hash, Done, l.transactions[hash].raw);
      SameEdges(l, SetTx(l1, hash, Done, l.transactions[hash].raw), l2);
      CloseEdges(l, l2, i.rid, i.oid, Sent());
    }
  }

  lemma {:induction false} FinishingEdges(l: Books, l1: Books, verify: Verifier, i: Input, hash: Hash, s: Account)
    requires i.action.Respond? && l1.transactions == l.transactions && hash in l.transactions && l.transactions[hash].state == Pending
    ensures RunEdges(l, Finishing(l1, verify, i, hash, l.transactions[hash], s))
  {
    hide Debit, Latest, RunEdges, FinishTransaction, Fail;
    FailEdges(l, l1, i, Reply([], false));
    var t := l.transactions[hash];
    FinishEdges(l, l1, hash, t.holder, Done, l1.balances, i);
    var d := Debit(l1.balances, t.holder, t.raw.payments);
    if d.Debited? { FinishEdges(l, l1, hash, t.holder, s.state, d.balances, i); }
  }

  lemma {:induction false} RespondEdges(l: Books, keyOf: Assigned, verify: Verifier, i: Input)
    requires Inv(l, keyOf) && i.action.Respond?
    ensures RunEdges(l, HandleRespond(l, verify, i))
  {
    hide Inv, Finishing;
    FailEdges(l, l, i, Reply([], false));
    if i.rid in l.answers && l.answers[i.rid].state != Done {
      OpenAnswer(l, keyOf, i.rid);
      var r := FinishAnswer(l, i.rid, i.action.sig);
      var h := l.answers[i.rid].hash;
      if r.Some? && l.transactions[h].holder in l.safes {
        FinishingEdges(l, r.value, verify, i, h, l.safes[l.transactions[h].holder]);
      }
    }
  }

  lemma {:induction false} RefundEdges(l: Books, i: Input)
    requires i.action.Refund?
    ensures RunEdges(l, HandleRefund(l, i))
  {
    hide Credit;
    FailEdges(l, l, i, Reply([], true));
  }

  lemma {:induction false} RevokeEdges(l: Books, i: Input)
    requires i.action.Revoke?
    ensures RunEdges(l, HandleRevoke(l, i))
  {
    FailEdges(l, l, i, Reply([], true));
  }

  lemma {:induction false} ProposalEdges(l: Books, rid: Rid, p: Proposal, raw: Raw, oid: string)
    ensures RunEdges(l, Commit(WriteProposal(l, rid, p, raw, oid, Sent()), Sent()))
  {
    hide TxEdges, Close;
    if p.setup !in l.transactions && !RequestTaken(l, rid) {
      var t := SafeTx(p.holder, Initial, rid, true, false, raw);
      assert !Written(l.transactions, rid);
      AddEdges(l.transactions, p.setup, t);
      CloseEdges(l, l.(proposals := l.proposals[rid := p], transactions := l.transactions[p.setup := t]), rid, oid, Sent());
    }
  }

  lemma {:induction false} ProposeAccountEdges(l: Books, keyOf: Assigned, i: Input)
    requires i.action.ProposeAccount?
    ensures RunEdges(l, HandleProposeAccount(l, keyOf, i))
  {
    hide RunEdges, Fail, GiveBack, WriteProposal;
    FailEdges(l, l, i, Reply([], false));
    ProposalEdges(l, i.rid, Proposal(i.holder, keyOf(i.holder), i.action.address, i.action.hash), i.action.raw, i.oid);
  }

  lemma {:induction false} ApproveAccountEdges(l: Books, i: Input)
    requires i.action.ApproveAccount?
    ensures RunEdges(l, HandleApproveAccount(l, i))
  {
    hide AskFor, Edges;
    EdgesFrom(l, l, l);
    FailEdges(l, l, i, Reply([], false));
    if i.action.target in l.proposals && l.proposals[i.action.target].setup in l.transactions {
      var p := l.proposals[i.action.target];
      var r := WriteUnfinished(l, i.holder, Account(p.signer, p.address, Pending, 0));
      if r.Some? {
        SameEdges(l, l, r.value);
        AskForEdges(l, r.value, i, p.setup, l.transactions[p.setup].raw, i.action.sendable);
      }
    }
  }

  lemma {:induction false} CloseWithoutEdges(l: Books, i: Input)
    requires i.action.CloseWithoutHolder?
    ensures RunEdges(l, HandleCloseWithoutHolder(l, i))
  {
    hide AskFor, Unfinished;
    FailEdges(l, l, i, Reply([], false));
    var h := ByRequest(l, i.action.target);
    if h.Some? {
      AskForEdges(l, l, i, h.value, i.action.raw, i.action.sendable);
      var r := CloseSafe(l, i.holder);
      if r.Some? { AskForEdges(l, r.value, i, h.value, i.action.raw, i.action.sendable); }
    }
  }

  lemma {:induction false} InsertedEdges(l: Books, l1: Books, hash: Hash, t: SafeTx, i: Input)
    requires l1.transactions == l.transactions
    ensures RunEdges(l, Commit(WriteTransaction(l1, hash, t, i.oid, Sent()), Sent()))
  {
    hide TxEdges;
    if hash !in l.transactions && !RequestTaken(l1, t.requestId) {
      assert !Written(l.transactions, t.requestId);
      AddEdges(l.transactions, hash, t);
      CloseEdges(l, l1.(transactions := l1.transactions[hash := t]), t.requestId, i.oid, Sent());
    }
  }

  lemma {:induction false} InsertEdges(l: Books, i: Input)
    ensures i.action.Deposit? ==> RunEdges(l, HandleDeposit(l, i))
    ensures i.action.Propose? ==> RunEdges(l, HandlePropose(l, i))
  {
    hide Unfinished, WriteTransaction, Edges;
    EdgesFrom(l, l, l);
    FailEdges(l, l, i, Reply([], false));
    if i.action.Propose? { InsertedEdges(l, l, i.action.hash, SafeTx(i.holder, Initial, i.rid, false, false, i.action.raw), i); }
    if i.action.Deposit? { DepositEdges(l, i); }
  }

  lemma {:induction false} DepositEdges(l: Books, i: Input)
    requires i.action.Deposit?
    ensures RunEdges(l, HandleDeposit(l, i))
  {
    FailEdges(l, l, i, Reply([], false));
  }

  lemma {:induction false} CloseWithEdges(l: Books, i: Input)
    requires i.action.CloseWithHolder?
    ensures RunEdges(l, HandleCloseWithHolder(l, i))
  {
    hide Unfinished, WriteTransaction, Edges, Close;
    EdgesFrom(l, l, l);
    FailEdges(l, l, i, Reply([], false));
    CloseEdges(l, l, i.rid, i.oid, Sent());
    var r := CloseSafe(l, i.holder);
    if r.Some? { InsertedEdges(l, r.value, i.action.hash, SafeTx(i.holder, Done, i.rid, false, true, i.action.raw), i); }
  }

  lemma {:induction false} ApproveEdges(l: Books, i: Input)
    requires i.action.Approve?
    ensures RunEdges(l, HandleApprove(l, i))
  {
    hide AskFor;
    FailEdges(l, l, i, Reply([], false));
    var h := ByRequest(l, i.action.target);
    if h.Some? { AskForEdges(l, l, i, h.value, i.action.raw, i.action.sendable); }
  }

  lemma {:induction false} HandleEdges(l: Books, keyOf: Assigned, verify: Verifier, i: Input)
    requires Inv(l, keyOf)
    ensures RunEdges(l, Handle(l, keyOf, verify, i))
  {
    hide Inv, RunEdges, HandleProposeAccount, HandleApproveAccount, HandleDeposit, HandlePropose, HandleApprove, HandleRevoke, HandleRefund,
         HandleRespond, HandleCloseWithHolder, HandleCloseWithoutHolder;
    FailEdges(l, l, i, Reply([], false));
    InsertEdges(l, i);
    match i.action
    case ProposeAccount(_, _, _, _, _, _, _, _, _) => ProposeAccountEdges(l, keyOf, i);
    case ApproveAccount(_, _, _) => ApproveAccountEdges(l, i);
    case CloseWithHolder(_, _, _, _, _, _) => CloseWithEdges(l, i);
    case Approve(_, _, _, _) => ApproveEdges(l, i);
    case Revoke(_, _, _) => RevokeEdges(l, i);
    case Refund(_, _, _, _) => RefundEdges(l, i);
    case Respond(_, _, _) => RespondEdges(l, keyOf, verify, i);
    case CloseWithoutHolder(_, _, _, _, _) => CloseWithoutEdges(l, i);
    case _ =>
  }

  // ---- Runs

  /** One attempt at an output, up to some commit or to the end. */
  datatype Event = Event(i: Input, stop: Option<nat>)

  ghost function Next(l: Books, keyOf: Assigned, verify: Verifier, e: Event): (l': Books)
  {
    var run := Process(l, keyOf, verify, e.i);
    StateAt(l, run, if e.stop.Some? && e.stop.value <= |run.commits| then e.stop.value else |run.commits|)
  }

  ghost function At(keyOf: Assigned, verify: Verifier, es: seq<Event>, j: nat): (l: Books)
    requires j <= |es|
    decreases j
  {
    if j == 0 then NoBooks() else Next(At(keyOf, verify, es, j - 1), keyOf, verify, es[j - 1])
  }

  /** The states of a handling are those of its handler, from the written request on. */
  lemma {:induction false} ProcessState(l: Books, keyOf: Assigned, verify: Verifier, i: Input, k: nat)
    requires !Handled(l, i) && !i.action.Ignore? && 0 < k <= |Process(l, keyOf, verify, i).commits|
    ensures var l0 := WriteRequest(l, i.rid, i.amount);
            && Handling(l0, i.rid) && k - 1 <= |Handle(l0, keyOf, verify, i).commits|
            && StateAt(l, Process(l, keyOf, verify, i), k) == StateAt(l0, Handle(l0, keyOf, verify, i), k - 1)
  {
    hide Handle;
  }

  lemma {:induction false} InnerOk(l: Books, keyOf: Assigned, verify: Verifier, i: Input, k: nat)
    requires Inv(l, keyOf) && Handling(l, i.rid) && k <= |Handle(l, keyOf, verify, i).commits|
    ensures var l1 := StateAt(l, Handle(l, keyOf, verify, i), k);
            Inv(l1, keyOf) && Edges(l, l1)
  {
    hide Inv, Handle;
    HandleInv(l, keyOf, verify, i);
    HandleEdges(l, keyOf, verify, i);
  }

  lemma {:induction false} WrittenOk(l: Books, keyOf: Assigned, i: Input)
    requires Inv(l, keyOf)
    ensures var l0 := WriteRequest(l, i.rid, i.amount);
            Inv(l0, keyOf) && l0.transactions == l.transactions
  {
    hide Inv;
    if i.rid !in l.requests { RequestsInv(l, WriteRequest(l, i.rid, i.amount), keyOf); }
  }

  lemma {:induction false} RepeatOk(l: Books, keyOf: Assigned, verify: Verifier, i: Input, k: nat)
    requires Inv(l, keyOf) && (Handled(l, i) || i.action.Ignore?) && k <= |Process(l, keyOf, verify, i).commits|
    ensures var l1 := StateAt(l, Process(l, keyOf, verify, i), k);
            Inv(l1, keyOf) && Edges(l, l1)
  {
    hide Inv, Handle;
    RequestsInv(l, l.(results := l.results[i.oid := Reply([], false)]), keyOf);
  }

  lemma {:induction false} NextOk(l: Books, keyOf: Assigned, verify: Verifier, e: Event)
    requires Inv(l, keyOf)
    ensures Inv(Next(l, keyOf, verify, e), keyOf) && Edges(l, Next(l, keyOf, verify, e))
  {
    hide Inv, Process, Handle, Edges;
    var run := Process(l, keyOf, verify, e.i);
    var k := if e.stop.Some? && e.stop.value <= |run.commits| then e.stop.value else |run.commits|;
    if Handled(l, e.i) || e.i.action.Ignore? {
      RepeatOk(l, keyOf, verify, e.i, k);
    } else if k > 0 {
      ProcessState(l, keyOf, verify, e.i, k);
      WrittenOk(l, keyOf, e.i);
      InnerOk(WriteRequest(l, e.i.rid, e.i.amount), keyOf, verify, e.i, k - 1);
      EdgesFrom(l, WriteRequest(l, e.i.rid, e.i.amount), StateAt(l, run, k));
    } else {
      EdgesFrom(l, l, l);
    }
  }

  lemma {:induction false} EdgesFrom(l: Books, l0: Books, l1: Books)
    requires l0.transactions == l.transactions
    ensures Edges(l0, l1) ==> Edges(l, l1)
    ensures Edges(l, l)
  {
    hide TxEdges;
    StayEdges(l.transactions);
  }

  lemma {:induction false} StartOk(keyOf: Assigned)
    ensures Inv(NoBooks(), keyOf)
  {
    forall h ensures DoneBy(NoBooks(), h) == {} { }
  }

  lemma {:induction false} AlwaysOk(keyOf: Assigned, verify: Verifier, es: seq<Event>, j: nat)
    requires j <= |es|
    ensures Inv(At(keyOf, verify, es, j), keyOf)
    decreases j
  {
    hide Inv, Next;
    if j == 0 {
      StartOk(keyOf);
    } else {
      AlwaysOk(keyOf, verify, es, j - 1);
      NextOk(At(keyOf, verify, es, j - 1), keyOf, verify, es[j - 1]);
    }
  }

  /** A request writes one transaction. */
  ghost predicate OneEach(l: Books)
  {
    forall a, b :: a in l.transactions && b in l.transactions && l.transactions[a].requestId == l.transactions[b].requestId ==> a == b
  }

  lemma {:induction false} OneEachMoves(l: Books, l': Books)
    requires OneEach(l) && Edges(l, l')
    ensures OneEach(l')
  {
    var a, b := l.transactions, l'.transactions;
    forall x, y | x in b && y in b && b[x].requestId == b[y].requestId ensures x == y {
      assert (x in a || Fresh(a, b, x)) && (y in a || Fresh(a, b, y));
      assert x in a ==> Written(a, b[x].requestId);
      assert y in a ==> Written(a, b[y].requestId);
    }
  }

  /** In every reachable state a request has written at most one transaction. */
  lemma {:induction false} OneEachAlways(keyOf: Assigned, verify: Verifier, es: seq<Event>, j: nat)
    requires j <= |es|
    ensures OneEach(At(keyOf, verify, es, j))
    decreases j
  {
    hide Inv, Next, Edges, OneEach;
    if j == 0 {
      NothingWritten();
    } else {
      OneEachAlways(keyOf, verify, es, j - 1);
      AlwaysOk(keyOf, verify, es, j - 1);
      NextOk(At(keyOf, verify, es, j - 1), keyOf, verify, es[j - 1]);
      OneEachMoves(At(keyOf, verify, es, j - 1), At(keyOf, verify, es, j));
    }
  }

  lemma {:induction false} NothingWritten()
    ensures OneEach(NoBooks())
  {
  }

  /** In every reachable state a balance is what was deposited minus what done transactions paid, and not negative. */
  lemma {:induction false} BalanceExact(keyOf: Assigned, verify: Verifier, es: seq<Event>, j: nat, h: Holder, token: Token)
    requires j <= |es|
    ensures var l := At(keyOf, verify, es, j);
            Balance(l.balances, h, token) == TotalDeposits(l, h, token) - TotalPayments(l, h, token) >= 0
  {
    hide Next;
    AlwaysOk(keyOf, verify, es, j);
  }

  /** The nonce of a safe is the number of its done transactions, not counting one that closed it with the holder key. */
  lemma {:induction false} NonceExact(keyOf: Assigned, verify: Verifier, es: seq<Event>, j: nat, h: Holder)
    requires j <= |es| && h in At(keyOf, verify, es, j).safes
    ensures At(keyOf, verify, es, j).safes[h].nonce == |DoneBy(At(keyOf, verify, es, j), h)|
  {
    hide Next;
    AlwaysOk(keyOf, verify, es, j);
  }

  /** At most one transaction of a holder is unfinished. */
  lemma {:induction false} OneAtATime(keyOf: Assigned, verify: Verifier, es: seq<Event>, j: nat, h: Holder)
    requires j <= |es|
    ensures |Unfinished(At(keyOf, verify, es, j), h)| <= 1
  {
    hide Next;
    AlwaysOk(keyOf, verify, es, j);
    var l := At(keyOf, verify, es, j);
    var open := Unfinished(l, h);
    if open != {} {
      var a :| a in open;
      forall b | b in open ensures b == a { assert OpenAt(l, a) && OpenAt(l, b); }
      assert open == {a};
    }
  }

  /** A transaction that failed or was refunded stays so. */
  lemma {:induction false} FailedForever(keyOf: Assigned, verify: Verifier, es: seq<Event>, j: nat, k: nat, x: Hash)
    requires j <= k <= |es| && x in At(keyOf, verify, es, j).transactions && At(keyOf, verify, es, j).transactions[x].state == Failed
    ensures x in At(keyOf, verify, es, k).transactions && At(keyOf, verify, es, k).transactions[x].state == Failed
    decreases k - j
  {
    hide Next, Inv;
    if j < k {
      AlwaysOk(keyOf, verify, es, j);
      NextOk(At(keyOf, verify, es, j), keyOf, verify, es[j]);
      FailedForever(keyOf, verify, es, j + 1, k, x);
    }
  }

  ghost predicate BecomesDone(keyOf: Assigned, verify: Verifier, es: seq<Event>, j: nat, x: Hash)
    requires j < |es|
  {
    && x in At(keyOf, verify, es, j + 1).transactions && At(keyOf, verify, es, j + 1).transactions[x].state == Done
    && !(x in At(keyOf, verify, es, j).transactions && At(keyOf, verify, es, j).transactions[x].state == Done)
  }

  lemma {:induction false} OverOnce(keyOf: Assigned, verify: Verifier, es: seq<Event>, j: nat, k: nat, x: Hash)
    requires j <= k <= |es| && x in At(keyOf, verify, es, j).transactions
    requires At(keyOf, verify, es, j).transactions[x].state == Done || At(keyOf, verify, es, j).transactions[x].state == Failed
    ensures x in At(keyOf, verify, es, k).transactions
    ensures At(keyOf, verify, es, k).transactions[x].state == Done || At(keyOf, verify, es, k).transactions[x].state == Failed
    decreases k - j
  {
    hide Next, Inv;
    if j < k {
      AlwaysOk(keyOf, verify, es, j);
      NextOk(At(keyOf, verify, es, j), keyOf, verify, es[j]);
      OverOnce(keyOf, verify, es, j + 1, k, x);
    }
  }

  /** A transaction becomes done at most once, and never after it failed. */
  lemma {:induction false} DoneOnce(keyOf: Assigned, verify: Verifier, es: seq<Event>, j: nat, k: nat, x: Hash)
    requires j < k < |es| && BecomesDone(keyOf, verify, es, j, x)
    ensures !BecomesDone(keyOf, verify, es, k, x)
  {
    hide Next, Inv;
    OverOnce(keyOf, verify, es, j + 1, k, x);
    AlwaysOk(keyOf, verify, es, k);
    NextOk(At(keyOf, verify, es, k), keyOf, verify, es[k]);
  }
}
