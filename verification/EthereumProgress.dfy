/** What the keeper does with a request of an Ethereum or Polygon safe that is in order, told by the books before and after. */
module EthereumProgress {
  import opened Options
  import opened KeeperTypes
  import opened EthereumLedger
  import opened KeeperEthereum
  import opened EthereumInvariant
  import opened EthereumSafety

  const SENT: Reply := Reply([Storage, Notify], false)

  /** A request that has not been seen, in an output that has not been seen. */
  ghost predicate NewRequest(l: Books, i: Input)
  {
    && i.rid !in l.requests && i.oid !in l.results && !i.action.Ignore? && !RequestTaken(l, i.rid)
    && forall m :: Derived(i.rid, m) !in l.answers
  }

  function Begun(l: Books, i: Input): Books
  {
    l.(requests := l.requests[i.rid := Request(Initial, i.amount)])
  }

  /** The request is over and its reply is recorded. */
  function Over(l: Books, i: Input, state: State, reply: Reply): Books
  {
    l.(requests := l.requests[i.rid := Request(state, i.amount)], results := l.results[i.oid := reply])
  }

  /** Handling the output ends with these books and this reply. */
  ghost predicate Gives(l: Books, keyOf: Assigned, verify: Verifier, i: Input, l': Books, reply: Reply)
  {
    Process(l, keyOf, verify, i).reply == Some(reply) && Last(l, Process(l, keyOf, verify, i)) == l'
  }

  lemma {:induction false} ProcessNew(l: Books, keyOf: Assigned, verify: Verifier, i: Input, run: Run)
    requires NewRequest(l, i) && run == Handle(Begun(l, i), keyOf, verify, i)
    ensures Process(l, keyOf, verify, i).reply == run.reply
    ensures Last(l, Process(l, keyOf, verify, i)) == Last(Begun(l, i), run)
  {
    hide Handle;
    assert WriteRequest(l, i.rid, i.amount) == Begun(l, i);
    assert Process(l, keyOf, verify, i).commits == [Begun(l, i)] + run.commits;
  }

  lemma {:induction false} GivesNew(l: Books, keyOf: Assigned, verify: Verifier, i: Input, run: Run, l': Books, reply: Reply)
    requires NewRequest(l, i) && run == Handle(Begun(l, i), keyOf, verify, i) && run.reply == Some(reply) && Last(Begun(l, i), run) == l'
    ensures Gives(l, keyOf, verify, i, l', reply)
  {
    hide Handle, Process;
    ProcessNew(l, keyOf, verify, i, run);
  }

  /** Which handler an action goes to. */
  lemma {:induction false} Dispatched(l: Books, keyOf: Assigned, verify: Verifier, i: Input)
    ensures i.action.ProposeAccount? ==> Handle(l, keyOf, verify, i) == HandleProposeAccount(l, keyOf, i)
    ensures i.action.ApproveAccount? ==> Handle(l, keyOf, verify, i) == HandleApproveAccount(l, i)
    ensures i.action.Deposit? ==> Handle(l, keyOf, verify, i) == HandleDeposit(l, i)
    ensures i.action.Propose? ==> Handle(l, keyOf, verify, i) == HandlePropose(l, i)
    ensures i.action.Approve? ==> Handle(l, keyOf, verify, i) == HandleApprove(l, i)
    ensures i.action.Revoke? ==> Handle(l, keyOf, verify, i) == HandleRevoke(l, i)
    ensures i.action.Refund? ==> Handle(l, keyOf, verify, i) == HandleRefund(l, i)
    ensures i.action.Respond? ==> Handle(l, keyOf, verify, i) == HandleRespond(l, verify, i)
    ensures i.action.CloseWithHolder? ==> Handle(l, keyOf, verify, i) == HandleCloseWithHolder(l, i)
    ensures i.action.CloseWithoutHolder? ==> Handle(l, keyOf, verify, i) == HandleCloseWithoutHolder(l, i)
  {
    hide HandleProposeAccount, HandleApproveAccount, HandleDeposit, HandlePropose, HandleApprove, HandleRevoke, HandleRefund, HandleRespond,
         HandleCloseWithHolder, HandleCloseWithoutHolder;
  }

  /** The end of a store transaction on books where the request was just begun. */
  lemma {:induction false} Ends(l: Books, l1: Books, i: Input, reply: Reply)
    requires NewRequest(l, i) && l1.requests == l.requests && l1.results == l.results
    ensures Close(Begun(l1, i), i.rid, i.oid, reply) == Some(Over(l1, i, Done, reply))
    ensures FailRequest(Begun(l1, i), i.rid, i.oid, reply) == Some(Over(l1, i, Failed, reply))
  {
    assert Begun(l1, i).requests[i.rid := Request(Done, i.amount)] == l1.requests[i.rid := Request(Done, i.amount)];
    assert Begun(l1, i).requests[i.rid := Request(Failed, i.amount)] == l1.requests[i.rid := Request(Failed, i.amount)];
  }

  predicate WrittenBy(l: Books, target: Rid, hash: Hash)
  {
    hash in l.transactions && l.transactions[hash].requestId == target
  }

  lemma {:induction false} FoundByRequest(l: Books, target: Rid, hash: Hash)
    requires OneEach(l) && WrittenBy(l, target, hash)
    ensures ByRequest(l, target) == Some(hash)
  {
    assert RequestTaken(l, target);
  }

  // ---- Accounts

  /** Paid for, for a holder that has no safe yet, with keys and an address that nobody has proposed. */
  predicate AccountInOrder(l: Books, keyOf: Assigned, i: Input)
    requires i.action.ProposeAccount?
  {
    var a := i.action;
    && i.holder !in l.safes && i.rid !in l.proposals
    && a.valid && a.priced && a.paid && a.keyed && a.sendable && a.hash !in l.transactions
    && forall r :: r in l.proposals ==> l.proposals[r].signer != keyOf(i.holder) && l.proposals[r].address != a.address
  }

  /** A proposal of an account in order is recorded with the transaction that sets the safe up. */
  lemma {:induction false} AccountProposed(l: Books, keyOf: Assigned, verify: Verifier, i: Input)
    requires NewRequest(l, i) && i.action.ProposeAccount? && AccountInOrder(l, keyOf, i)
    ensures var a := i.action;
            Gives(l, keyOf, verify, i,
                  Over(l.(proposals := l.proposals[i.rid := Proposal(i.holder, keyOf(i.holder), a.address, a.hash)],
                          transactions := l.transactions[a.hash := SafeTx(i.holder, Initial, i.rid, true, false, a.raw)]), i, Done, SENT), SENT)
  {
    hide Handle, Gives;
    var a, l0 := i.action, Begun(l, i);
    Dispatched(l0, keyOf, verify, i);
    assert RequestTaken(l0, i.rid) == RequestTaken(l, i.rid);
    var l1 := l.(proposals := l.proposals[i.rid := Proposal(i.holder, keyOf(i.holder), a.address, a.hash)],
                 transactions := l.transactions[a.hash := SafeTx(i.holder, Initial, i.rid, true, false, a.raw)]);
    Ends(l, l1, i, SENT);
    GivesNew(l, keyOf, verify, i, HandleProposeAccount(l0, keyOf, i), Over(l1, i, Done, SENT), SENT);
  }

  /** Asking the signers for the one signature of a transaction, on the message that was handed in. */
  function AskedFor(l: Books, i: Input, hash: Hash, raw: Raw): Books
    requires hash in l.transactions
  {
    l.(transactions := l.transactions[hash := l.transactions[hash].(state := Pending, raw := raw)],
       answers := l.answers[Derived(i.rid, raw.message) := Answer(hash, raw.message, None, Initial, i.createdAt)])
  }

  function SignIt(i: Input, raw: Raw): Reply
  {
    Reply([Sign(Derived(i.rid, raw.message), raw.message)], false)
  }

  lemma {:induction false} AskGives(l: Books, l1: Books, i: Input, hash: Hash, raw: Raw)
    requires NewRequest(l, i) && l1.requests == l.requests && l1.results == l.results
    requires hash in l1.transactions && Open(l1.transactions[hash]) && Derived(i.rid, raw.message) !in l1.answers
    ensures AskFor(Begun(l1, i), i, hash, raw, true) == Commit(Some(Over(AskedFor(l1, i, hash, raw), i, Done, SignIt(i, raw))), SignIt(i, raw))
  {
    Ends(l, AskedFor(l1, i, hash, raw), i, SignIt(i, raw));
  }

  /** The holder approves an own proposal whose safe is not there, or is there and not open yet. */
  ghost predicate SafeInOrder(l: Books, i: Input)
    requires i.action.ApproveAccount?
  {
    && i.action.valid && i.action.target in l.proposals
    && var p := l.proposals[i.action.target];
       && p.holder == i.holder && p.setup in l.transactions && (i.holder in l.safes ==> l.safes[i.holder].state == Pending)
       && (Waiting(l, p.address) || (i.holder !in l.safes && forall h :: h in l.safes ==> l.safes[h].address != p.address && l.safes[h].signer != p.signer))
  }

  ghost predicate Waiting(l: Books, address: Address)
  {
    exists h :: h in l.safes && l.safes[h].address == address && l.safes[h].state == Pending
  }

  /** The books with the safe, not open yet. */
  ghost function WithSafe(l: Books, i: Input): Books
    requires i.action.ApproveAccount? && SafeInOrder(l, i)
  {
    var p := l.proposals[i.action.target];
    if Waiting(l, p.address) then l else l.(safes := l.safes[i.holder := Account(p.signer, p.address, Pending, 0)])
  }

  lemma {:induction false} SafeWritten(l: Books, i: Input)
    requires i.action.ApproveAccount? && SafeInOrder(l, i)
    ensures var p := l.proposals[i.action.target];
            WriteUnfinished(Begun(l, i), i.holder, Account(p.signer, p.address, Pending, 0)) == Some(Begun(WithSafe(l, i), i))
  {
  }

  /** Approving the account: the safe is there, not open yet, and its setup waits for a signature if it can be asked for. */
  lemma {:induction false} AccountApproved(l: Books, keyOf: Assigned, verify: Verifier, i: Input)
    requires NewRequest(l, i) && i.action.ApproveAccount? && SafeInOrder(l, i)
    ensures var setup := l.proposals[i.action.target].setup;
            var raw, l1 := l.transactions[setup].raw, WithSafe(l, i);
            if i.action.sendable && Open(l.transactions[setup]) then
              Gives(l, keyOf, verify, i, Over(AskedFor(l1, i, setup, raw), i, Done, SignIt(i, raw)), SignIt(i, raw))
            else
              var l' := Last(l, Process(l, keyOf, verify, i));
              l' == l1.(requests := l'.requests, results := l'.results)
              && (Process(l, keyOf, verify, i).reply.Some? ==> Process(l, keyOf, verify, i).reply.value.emitted == [])
  {
    hide Handle, Gives, AskFor, AskedFor, WithSafe, WriteUnfinished, HandleApproveAccount, Process;
    var l0, l1, setup := Begun(l, i), WithSafe(l, i), l.proposals[i.action.target].setup;
    var raw := l.transactions[setup].raw;
    Dispatched(l0, keyOf, verify, i);
    SafeSame(l, i);
    ApproveRuns(l, i);
    ProcessNew(l, keyOf, verify, i, HandleApproveAccount(l0, i));
    if i.action.sendable && Open(l.transactions[setup]) {
      AskGives(l, l1, i, setup, raw);
      GivesNew(l, keyOf, verify, i, HandleApproveAccount(l0, i), Over(AskedFor(l1, i, setup, raw), i, Done, SignIt(i, raw)), SignIt(i, raw));
    } else {
      AskRefused(l1, i, setup, raw, i.action.sendable);
    }
  }

  lemma {:induction false} SafeSame(l: Books, i: Input)
    requires i.action.ApproveAccount? && SafeInOrder(l, i)
    ensures var l1 := WithSafe(l, i);
            l1.requests == l.requests && l1.results == l.results && l1.transactions == l.transactions && l1.answers == l.answers
  {
  }

  lemma {:induction false} ApproveRuns(l: Books, i: Input)
    requires i.action.ApproveAccount? && SafeInOrder(l, i)
    ensures var setup := l.proposals[i.action.target].setup;
            var run := AskFor(Begun(WithSafe(l, i), i), i, setup, l.transactions[setup].raw, i.action.sendable);
            HandleApproveAccount(Begun(l, i), i) == Run([Begun(WithSafe(l, i), i)] + run.commits, run.reply)
  {
    hide AskFor, WriteUnfinished, WithSafe, FailRequest;
    SafeWritten(l, i);
  }

  /** A signature that cannot be asked for is not, and nothing else changes. */
  lemma {:induction false} AskRefused(l: Books, i: Input, hash: Hash, raw: Raw, sendable: bool)
    requires (forall m :: Derived(i.rid, m) !in l.answers) && (!sendable || hash !in l.transactions || !Open(l.transactions[hash]))
    ensures var l0, run := Begun(l, i), AskFor(Begun(l, i), i, hash, raw, sendable);
            && |run.commits| <= 1 && (run.reply.Some? ==> run.reply.value.emitted == [])
            && (forall k :: 0 <= k < |run.commits| ==> run.commits[k] == l.(requests := run.commits[k].requests, results := run.commits[k].results))
  {
  }

  // ---- Deposits

  /** A new transfer to an open safe, confirmed on the chain, that the group can issue bonds for. */
  predicate DepositInOrder(l: Books, i: Input)
    requires i.action.Deposit?
  {
    && i.holder in l.safes && l.safes[i.holder].state == Done
    && i.action.valid && i.action.confirmed && i.action.found && i.action.payable && i.action.point !in l.deposits
  }

  /** A deposit in order: the balance grows by it, and bonds are issued for exactly that much. */
  lemma {:induction false} DepositTaken(l: Books, keyOf: Assigned, verify: Verifier, i: Input)
    requires NewRequest(l, i) && i.action.Deposit? && DepositInOrder(l, i)
    ensures var a, reply := i.action, Reply([Bond(i.holder, i.action.value)], false);
            Gives(l, keyOf, verify, i,
                  Over(l.(balances := l.balances[(i.holder, a.token) := Balance(l.balances, i.holder, a.token) + a.value],
                          deposits := l.deposits[a.point := Deposited(i.holder, a.token, a.value)]), i, Done, reply), reply)
  {
    hide Handle, Gives, Balance, Close, FailRequest;
    var a, l0, reply := i.action, Begun(l, i), Reply([Bond(i.holder, i.action.value)], false);
    Dispatched(l0, keyOf, verify, i);
    var l1 := l.(balances := l.balances[(i.holder, a.token) := Balance(l.balances, i.holder, a.token) + a.value],
                 deposits := l.deposits[a.point := Deposited(i.holder, a.token, a.value)]);
    Ends(l, l1, i, reply);
    GivesNew(l, keyOf, verify, i, HandleDeposit(l0, i), Over(l1, i, Done, reply), reply);
  }

  // ---- Transactions

  lemma {:induction false} NoneUnfinished(l: Books, holder: Holder)
    ensures Unfinished(l, holder) == {} <==> forall h :: h in l.transactions && l.transactions[h].holder == holder ==> !Open(l.transactions[h])
  {
    if Unfinished(l, holder) == {} {
      forall h | h in l.transactions && l.transactions[h].holder == holder ensures !Open(l.transactions[h]) { assert h !in Unfinished(l, holder); }
    }
  }

  /** An open safe with nothing unfinished. */
  predicate ReadyToPropose(l: Books, holder: Holder)
  {
    && holder in l.safes && l.safes[holder].state == Done
    && forall h :: h in l.transactions && l.transactions[h].holder == holder ==> !Open(l.transactions[h])
  }

  predicate ProposalInOrder(l: Books, i: Input)
    requires i.action.Propose?
  {
    && ReadyToPropose(l, i.holder) && i.action.priced && i.action.valid && i.action.sendable
    && i.action.hash !in l.transactions
  }

  /** A proposal in order is recorded as it was made. */
  lemma {:induction false} ProposalTaken(l: Books, keyOf: Assigned, verify: Verifier, i: Input)
    requires NewRequest(l, i) && i.action.Propose? && ProposalInOrder(l, i)
    ensures var a := i.action;
            Gives(l, keyOf, verify, i,
                  Over(l.(transactions := l.transactions[a.hash := SafeTx(i.holder, Initial, i.rid, false, false, a.raw)]), i, Done, SENT), SENT)
  {
    hide Handle, Gives;
    var a, l0 := i.action, Begun(l, i);
    Dispatched(l0, keyOf, verify, i);
    NoneUnfinished(l0, i.holder);
    hide Unfinished;
    assert RequestTaken(l0, i.rid) == RequestTaken(l, i.rid);
    var l1 := l.(transactions := l.transactions[a.hash := SafeTx(i.holder, Initial, i.rid, false, false, a.raw)]);
    Ends(l, l1, i, SENT);
    GivesNew(l, keyOf, verify, i, HandlePropose(l0, i), Over(l1, i, Done, SENT), SENT);
  }

  predicate RefundDue(l: Books, i: Input)
    requires i.action.Propose?
  {
    ReadyToPropose(l, i.holder) && (!i.action.priced || (i.action.valid && !i.action.sendable))
  }

  /** A proposal that cannot be priced or sent is given back in full, or asks for compaction if the group cannot pay. */
  lemma {:induction false} ProposalGivenBack(l: Books, keyOf: Assigned, verify: Verifier, i: Input)
    requires NewRequest(l, i) && i.action.Propose? && RefundDue(l, i)
    ensures var reply := if i.action.refundable then Reply([Bond(i.holder, i.amount)], false) else Reply([], true);
            Gives(l, keyOf, verify, i, Over(l, i, Failed, reply), reply)
  {
    hide Handle, Gives;
    var l0 := Begun(l, i);
    var reply := if i.action.refundable then Reply([Bond(i.holder, i.amount)], false) else Reply([], true);
    Dispatched(l0, keyOf, verify, i);
    NoneUnfinished(l0, i.holder);
    hide Unfinished;
    Ends(l, l, i, reply);
    GivesNew(l, keyOf, verify, i, HandlePropose(l0, i), Over(l, i, Failed, reply), reply);
  }

  predicate ApprovalInOrder(l: Books, i: Input, hash: Hash)
    requires i.action.Approve?
  {
    && i.action.valid && i.action.sendable && i.holder in l.safes
    && WrittenBy(l, i.action.target, hash) && l.transactions[hash].holder == i.holder && Open(l.transactions[hash])
  }

  /** Approving a transaction that is not over: what the holder signed is asked for, and takes the place of what was proposed. */
  lemma {:induction false} ApprovalTaken(l: Books, keyOf: Assigned, verify: Verifier, i: Input, hash: Hash)
    requires OneEach(l) && NewRequest(l, i) && i.action.Approve? && ApprovalInOrder(l, i, hash)
    ensures Gives(l, keyOf, verify, i, Over(AskedFor(l, i, hash, i.action.raw), i, Done, SignIt(i, i.action.raw)), SignIt(i, i.action.raw))
  {
    hide Handle, Gives, AskFor, AskedFor, ByRequest;
    var l0 := Begun(l, i);
    Dispatched(l0, keyOf, verify, i);
    FoundByRequest(l0, i.action.target, hash);
    AskGives(l, l, i, hash, i.action.raw);
    GivesNew(l, keyOf, verify, i, HandleApprove(l0, i), Over(AskedFor(l, i, hash, i.action.raw), i, Done, SignIt(i, i.action.raw)), SignIt(i, i.action.raw));
  }

  predicate RevokeInOrder(l: Books, i: Input, hash: Hash)
    requires i.action.Revoke?
  {
    && i.action.valid && i.action.payable && i.holder in l.safes && i.action.target in l.requests
    && WrittenBy(l, i.action.target, hash) && l.transactions[hash].holder == i.holder && l.transactions[hash].state == Initial
  }

  /** Revoking a transaction that has not been approved: it fails, and what was paid for it is paid back. */
  lemma {:induction false} RevokeTaken(l: Books, keyOf: Assigned, verify: Verifier, i: Input, hash: Hash)
    requires OneEach(l) && NewRequest(l, i) && i.action.Revoke? && RevokeInOrder(l, i, hash)
    ensures var reply := Reply([Bond(i.holder, l.requests[i.action.target].amount)], false);
            Gives(l, keyOf, verify, i,
                  Over(l.(transactions := l.transactions[hash := l.transactions[hash].(state := Failed)]), i, Done, reply), reply)
  {
    hide Handle, Gives, ByRequest;
    var l0, reply := Begun(l, i), Reply([Bond(i.holder, l.requests[i.action.target].amount)], false);
    Dispatched(l0, keyOf, verify, i);
    FoundByRequest(l0, i.action.target, hash);
    var l1 := l.(transactions := l.transactions[hash := l.transactions[hash].(state := Failed)]);
    Ends(l, l1, i, reply);
    GivesNew(l, keyOf, verify, i, HandleRevoke(l0, i), Over(l1, i, Done, reply), reply);
  }

  // ---- Refunds

  lemma {:induction false} CreditSucceeds(balances: Balances, holder: Holder, ps: seq<Payment>)
    ensures Credit(balances, holder, ps).Some? <==> forall k :: 0 <= k < |ps| ==> (holder, ps[k].token) in balances
    decreases |ps|
  {
    if ps != [] && (holder, ps[0].token) in balances {
      var more := balances[(holder, ps[0].token) := balances[(holder, ps[0].token)] + ps[0].amount];
      CreditSucceeds(more, holder, ps[1..]);
      assert forall k :: 1 <= k < |ps| ==> ps[k] == ps[1..][k - 1];
    }
  }

  /** The balances of one holder changed by the payments, up or down, and of nobody else. */
  ghost predicate ChangedBy(before: Balances, after: Balances, holder: Holder, ps: seq<Payment>, up: bool)
  {
    forall h, token :: Balance(after, h, token) == Balance(before, h, token) + (if h == holder then Change(ps, token, up) else 0)
  }

  function Change(ps: seq<Payment>, token: Token, up: bool): int
  {
    if up then PaidIn(ps, token) else 0 - PaidIn(ps, token)
  }

  lemma {:induction false} CreditChanges(balances: Balances, holder: Holder, ps: seq<Payment>)
    requires forall k :: 0 <= k < |ps| ==> (holder, ps[k].token) in balances
    ensures Credit(balances, holder, ps).Some? && ChangedBy(balances, Credit(balances, holder, ps).value, holder, ps, true)
  {
    CreditSucceeds(balances, holder, ps);
    forall h, token ensures Balance(Credit(balances, holder, ps).value, h, token) == Balance(balances, h, token) + (if h == holder then Change(ps, token, true) else 0) {
      CreditExact(balances, holder, ps, h, token);
    }
  }

  /** The transaction of an open safe is done, and every token it paid in has a balance. */
  predicate RefundInOrder(l: Books, i: Input, hash: Hash)
    requires i.action.Refund?
  {
    && i.action.valid && i.action.payable && i.holder in l.safes && l.safes[i.holder].state == Done
    && WrittenBy(l, i.action.target, hash) && l.transactions[hash].holder == i.holder && l.transactions[hash].state == Done
    && forall k :: 0 <= k < |l.transactions[hash].raw.payments| ==> (i.holder, l.transactions[hash].raw.payments[k].token) in l.balances
  }

  /** Refunding a transaction that is done: it fails, the balances and the nonce are set back, and the bonds are paid. */
  lemma {:induction false} RefundTaken(l: Books, keyOf: Assigned, verify: Verifier, i: Input, hash: Hash) returns (balances: Balances)
    requires OneEach(l) && NewRequest(l, i) && i.action.Refund? && RefundInOrder(l, i, hash)
    ensures ChangedBy(l.balances, balances, i.holder, l.transactions[hash].raw.payments, true)
    ensures var reply, s := Reply([Bond(i.holder, i.action.scaled)], false), l.safes[i.holder];
            Gives(l, keyOf, verify, i,
                  Over(l.(transactions := l.transactions[hash := l.transactions[hash].(state := Failed)], balances := balances,
                          safes := l.safes[i.holder := s.(nonce := s.nonce - 1)]), i, Done, reply), reply)
  {
    hide Handle, Gives, ByRequest, Credit, ChangedBy;
    var l0, reply, t, s := Begun(l, i), Reply([Bond(i.holder, i.action.scaled)], false), l.transactions[hash], l.safes[i.holder];
    Dispatched(l0, keyOf, verify, i);
    FoundByRequest(l0, i.action.target, hash);
    CreditChanges(l.balances, i.holder, t.raw.payments);
    balances := Credit(l.balances, i.holder, t.raw.payments).value;
    var l1 := l.(transactions := l.transactions[hash := t.(state := Failed)], balances := balances,
                 safes := l.safes[i.holder := s.(nonce := s.nonce - 1)]);
    Ends(l, l1, i, reply);
    GivesNew(l, keyOf, verify, i, HandleRefund(l0, i), Over(l1, i, Done, reply), reply);
  }

  // ---- Signatures come back

  /** The answer in its place, if there was none. */
  function WithAnswer(l: Books, i: Input): Books
    requires i.action.Respond? && i.rid in l.answers
  {
    var q := l.answers[i.rid];
    if q.state != Initial then l else l.(answers := l.answers[i.rid := Answer(q.hash, q.message, Some(i.action.sig), Pending, q.createdAt)])
  }

  /** A response to an open request of a transaction that is being signed, by the safe's signer, that verifies. */
  predicate GoodResponse(l: Books, verify: Verifier, i: Input)
  {
    && i.action.Respond? && i.rid in l.answers && l.answers[i.rid].hash in l.transactions
    && (l.answers[i.rid].state == Initial || l.answers[i.rid].state == Pending)
    && var t := l.transactions[l.answers[i.rid].hash];
       t.holder in l.safes && l.safes[t.holder].signer == i.holder && verify(i.holder, l.answers[i.rid].message, i.action.sig)
  }

  lemma {:induction false} OneLatest(l: Books, hash: Hash, a: Rid, b: Rid)
    requires Latest(l, hash, a) && Latest(l, hash, b)
    ensures a == b
  {
    RidOrder(a, b, a);
  }

  /** The latest answer verifies on what is to be signed. */
  ghost predicate Signed(l: Books, verify: Verifier, hash: Hash, signer: Key, r: Rid)
    requires hash in l.transactions
  {
    Latest(l, hash, r) && verify(signer, l.transactions[hash].raw.message, l.answers[r].signature.value)
  }

  /** The account can pay: a setup pays nothing and enables the guard, anything else is covered by the balances. */
  predicate Payable(l: Books, i: Input, hash: Hash)
    requires i.action.Respond? && hash in l.transactions && l.transactions[hash].holder in l.safes
  {
    var t := l.transactions[hash];
    if l.safes[t.holder].state == Pending then i.action.guard && forall k :: 0 <= k < |t.raw.payments| ==> t.raw.payments[k].amount == 0
    else forall k :: 0 <= k < |t.raw.payments| ==> Affords(l.balances, t.holder, t.raw.payments, t.raw.payments[k].token)
  }

  /** The transaction and its requests are done; the safe is open, unless it is closed, and has signed once more. */
  function Completed(l: Books, hash: Hash, balances: Balances): Books
    requires hash in l.transactions && l.transactions[hash].holder in l.safes
  {
    var t := l.transactions[hash];
    var s := l.safes[t.holder];
    l.(transactions := l.transactions[hash := t.(state := Done)], balances := balances,
       answers := (map r | r in l.answers :: if l.answers[r].hash == hash then l.answers[r].(state := Done) else l.answers[r]),
       safes := l.safes[t.holder := Account(s.signer, s.address, if s.state == Pending then Done else s.state, s.nonce + 1)])
  }

  lemma {:induction false} DebitChanges(l: Books, holder: Holder, ps: seq<Payment>)
    requires Debit(l.balances, holder, ps).Debited?
    ensures ChangedBy(l.balances, Debit(l.balances, holder, ps).balances, holder, ps, false)
  {
    forall h, token ensures Balance(Debit(l.balances, holder, ps).balances, h, token) ==
                              Balance(l.balances, h, token) + (if h == holder then Change(ps, token, false) else 0) {
      DebitExact(l.balances, holder, ps, h, token);
    }
  }

  lemma {:induction false} SetupChanges(l: Books, holder: Holder, ps: seq<Payment>)
    requires PaysNothing(ps)
    ensures ChangedBy(l.balances, l.balances, holder, ps, false)
  {
    forall token ensures Change(ps, token, false) == 0 { NothingPaid(ps, token); }
  }

  lemma {:induction false} FinishGives(l: Books, l1: Books, i: Input, hash: Hash, state: State, balances: Balances)
    requires NewRequest(l, i) && l1.requests == l.requests && l1.results == l.results
    requires hash in l1.transactions && l1.transactions[hash].holder in l1.safes
    requires var s := l1.safes[l1.transactions[hash].holder];
             state == if s.state == Pending then Done else s.state
    ensures FinishTransaction(Begun(l1, i), hash, l1.transactions[hash].holder, state, balances, i.rid, i.oid, SENT) ==
              Some(Over(Completed(l1, hash, balances), i, Done, SENT))
  {
    assert AllAnswered(l1.answers, hash) == Completed(l1, hash, balances).answers;
    Ends(l, Completed(l1, hash, balances), i, SENT);
  }

  lemma {:induction false} SameLatest(a: Books, b: Books, hash: Hash, r: Rid)
    requires a.answers == b.answers
    ensures Latest(a, hash, r) <==> Latest(b, hash, r)
  {
    assert forall q :: Answered(a, hash, q) <==> Answered(b, hash, q);
  }

  ghost predicate AnySigned(l: Books, verify: Verifier, hash: Hash, signer: Key)
    requires hash in l.transactions
  {
    exists r :: Signed(l, verify, hash, signer, r)
  }

  /** The end of a response, once the latest answer is found. */
  function Paying(l: Books, i: Input, hash: Hash, t: SafeTx, s: Account): Run
    requires i.action.Respond?
  {
    if s.state == Pending then
      if !i.action.sendable then Fail(l, i)
      else if !i.action.guard || !PaysNothing(t.raw.payments) then Stop()
      else Commit(FinishTransaction(l, hash, t.holder, Done, l.balances, i.rid, i.oid, SENT), SENT)
    else match Debit(l.balances, t.holder, t.raw.payments)
      case Unknown => Stop()
      case Short => Fail(l, i)
      case Debited(balances) =>
        if !i.action.sendable then Fail(l, i)
        else Commit(FinishTransaction(l, hash, t.holder, s.state, balances, i.rid, i.oid, SENT), SENT)
  }

  lemma {:induction false} FinishingCases(l: Books, verify: Verifier, i: Input, hash: Hash)
    requires i.action.Respond? && hash in l.transactions && l.transactions[hash].holder in l.safes
    ensures var t := l.transactions[hash];
            var s := l.safes[t.holder];
            Finishing(l, verify, i, hash, t, s) == if AnySigned(l, verify, hash, s.signer) then Paying(l, i, hash, t, s) else Stop()
  {
    var t := l.transactions[hash];
    var s := l.safes[t.holder];
    hide Latest, FinishTransaction, FailRequest, Debit, PaysNothing;
    if exists r :: Latest(l, hash, r) {
      var r :| Latest(l, hash, r);
      forall q | Latest(l, hash, q) ensures q == r { OneLatest(l, hash, q, r); }
      assert AnySigned(l, verify, hash, s.signer) <==> Signed(l, verify, hash, s.signer, r);
      LatestAnswered(l, hash, r);
    }
  }

  lemma {:induction false} LatestAnswered(l: Books, hash: Hash, r: Rid)
    requires Latest(l, hash, r)
    ensures r in l.answers && l.answers[r].signature.Some?
  {
  }

  lemma {:induction false} PayingGives(l: Books, l1: Books, i: Input, hash: Hash) returns (balances: Balances)
    requires NewRequest(l, i) && l1.requests == l.requests && l1.results == l.results && i.action.Respond?
    requires hash in l1.transactions && l1.transactions[hash].holder in l1.safes
    ensures var t, l2 := l1.transactions[hash], Begun(l1, i);
            var run := Paying(l2, i, hash, t, l1.safes[t.holder]);
            if Payable(l1, i, hash) && i.action.sendable then
              ChangedBy(l1.balances, balances, t.holder, t.raw.payments, false)
              && run == Commit(Some(Over(Completed(l1, hash, balances), i, Done, SENT)), SENT)
            else run == Fail(l2, i) || run == Stop()
  {
    var t := l1.transactions[hash];
    var s := l1.safes[t.holder];
    balances := l1.balances;
    hide FinishTransaction, FailRequest, Completed, Over, Debit, ChangedBy, Affords;
    if s.state == Pending {
      assert PaysNothing(t.raw.payments) <==> forall k :: 0 <= k < |t.raw.payments| ==> t.raw.payments[k].amount == 0;
      if Payable(l1, i, hash) {
        SetupChanges(l1, t.holder, t.raw.payments);
        FinishGives(l, l1, i, hash, Done, balances);
      }
    } else {
      DebitSucceeds(l1.balances, t.holder, t.raw.payments);
      var d := Debit(l1.balances, t.holder, t.raw.payments);
      if d.Debited? {
        balances := d.balances;
        DebitChanges(l1, t.holder, t.raw.payments);
        FinishGives(l, l1, i, hash, s.state, balances);
      }
    }
  }

  lemma {:induction false} SameSigned(a: Books, b: Books, verify: Verifier, hash: Hash, signer: Key)
    requires a.answers == b.answers && a.transactions == b.transactions && hash in a.transactions
    ensures AnySigned(a, verify, hash, signer) <==> AnySigned(b, verify, hash, signer)
  {
    forall r ensures Signed(a, verify, hash, signer, r) <==> Signed(b, verify, hash, signer, r) { SameLatest(a, b, hash, r); }
  }

  lemma {:induction false} RespondUnfolds(l: Books, verify: Verifier, i: Input)
    requires GoodResponse(l, verify, i)
    ensures var hash, l1 := l.answers[i.rid].hash, WithAnswer(l, i);
            && l1.transactions == l.transactions && l1.safes == l.safes && l1.requests == l.requests && l1.results == l.results && l1.balances == l.balances
            && var run := Finishing(Begun(l1, i), verify, i, hash, l.transactions[hash], l.safes[l.transactions[hash].holder]);
               HandleRespond(Begun(l, i), verify, i) == Run([Begun(l1, i)] + run.commits, run.reply)
  {
    hide Finishing;
    assert FinishAnswer(Begun(l, i), i.rid, i.action.sig) == Some(Begun(WithAnswer(l, i), i));
  }

  /**
   A good response: its answer is recorded, and the transaction becomes done if and only if the latest answer verifies on
   what is to be signed, the account can pay and the group can send; its payments are then off the balances.
   */
  lemma {:induction false} RespondExactly(l: Books, keyOf: Assigned, verify: Verifier, i: Input) returns (balances: Balances)
    requires NewRequest(l, i) && GoodResponse(l, verify, i)
    ensures var hash, l1 := l.answers[i.rid].hash, WithAnswer(l, i);
            var t := l.transactions[hash];
            && hash in l1.transactions && t.holder in l1.safes
            && if AnySigned(l1, verify, hash, l.safes[t.holder].signer) && Payable(l1, i, hash) && i.action.sendable then
                 ChangedBy(l.balances, balances, t.holder, t.raw.payments, false)
                 && Gives(l, keyOf, verify, i, Over(Completed(l1, hash, balances), i, Done, SENT), SENT)
               else
                 var l' := Last(l, Process(l, keyOf, verify, i));
                 l'.transactions == l.transactions && l'.balances == l.balances && l'.safes == l.safes && l'.answers == l1.answers
  {
    hide Handle, Process, Gives, HandleRespond, Finishing, AnySigned, Payable, Completed, ChangedBy, WithAnswer, Paying, Over;
    var hash, l1, l0 := l.answers[i.rid].hash, WithAnswer(l, i), Begun(l, i);
    RespondUnfolds(l, verify, i);
    var t := l.transactions[hash];
    FinishingCases(Begun(l1, i), verify, i, hash);
    SameSigned(l1, Begun(l1, i), verify, hash, l.safes[t.holder].signer);
    balances := PayingGives(l, l1, i, hash);
    Dispatched(l0, keyOf, verify, i);
    var run := HandleRespond(l0, verify, i);
    ProcessNew(l, keyOf, verify, i, run);
    FailTables(Begun(l1, i), i);
    if AnySigned(l1, verify, hash, l.safes[t.holder].signer) && Payable(l1, i, hash) && i.action.sendable {
      GivesNew(l, keyOf, verify, i, run, Over(Completed(l1, hash, balances), i, Done, SENT), SENT);
    }
  }

  lemma {:induction false} FailTables(l: Books, i: Input)
    ensures var l' := Last(l, Fail(l, i));
            l'.transactions == l.transactions && l'.balances == l.balances && l'.safes == l.safes && l'.answers == l.answers
    ensures |Fail(l, i).commits| <= 1 && (Fail(l, i).commits == [] ==> Last(l, Fail(l, i)) == l)
  {
  }

  // ---- Closing

  /** One payment for each balance the holder has, all to one destination, each of exactly that balance. */
  predicate PaysEach(balances: Balances, holder: Holder, ps: seq<Payment>)
  {
    && ps != [] && |ps| == |Tokens(balances, holder)|
    && forall k :: 0 <= k < |ps| ==>
         ps[k].destination == ps[0].destination && (holder, ps[k].token) in balances && ps[k].amount == balances[(holder, ps[k].token)]
  }

  lemma {:induction false} CompareExactly(balances: Balances, holder: Holder, destination: Address, ps: seq<Payment>)
    ensures Compare(balances, holder, destination, ps) == Matching <==>
              forall k :: 0 <= k < |ps| ==>
                ps[k].destination == destination && (holder, ps[k].token) in balances && ps[k].amount == balances[(holder, ps[k].token)]
    decreases |ps|
  {
    if ps != [] {
      CompareExactly(balances, holder, destination, ps[1..]);
      assert forall k :: 1 <= k < |ps| ==> ps[k] == ps[1..][k - 1];
    }
  }

  /** The comparison of a closing transaction with the balances passes exactly then. */
  lemma {:induction false} ClosePaysExactly(balances: Balances, holder: Holder, ps: seq<Payment>)
    ensures ClosePays(balances, holder, ps) == Matching <==> PaysEach(balances, holder, ps)
  {
    if ps != [] { CompareExactly(balances, holder, ps[0].destination, ps); }
  }

  /** The holder's own transaction takes everything out of an open safe with nothing unfinished. */
  predicate CloseInOrder(l: Books, i: Input)
    requires i.action.CloseWithHolder?
  {
    var a := i.action;
    && ReadyToPropose(l, i.holder) && a.unlocked && a.valid && a.signed && a.sendable && PaysEach(l.balances, i.holder, a.raw.payments)
    && a.hash !in l.transactions
  }

  /** Closing with a transaction of the holder's own: the safe is closed and the transaction recorded as done. */
  lemma {:induction false} CloseTaken(l: Books, keyOf: Assigned, verify: Verifier, i: Input)
    requires NewRequest(l, i) && i.action.CloseWithHolder? && CloseInOrder(l, i)
    ensures var a, s := i.action, l.safes[i.holder];
            Gives(l, keyOf, verify, i,
                  Over(l.(safes := l.safes[i.holder := s.(state := Failed)],
                          transactions := l.transactions[a.hash := SafeTx(i.holder, Done, i.rid, false, true, a.raw)]), i, Done, SENT), SENT)
  {
    hide Handle, Gives, ClosePays, PaysEach;
    var a, l0, s := i.action, Begun(l, i), l.safes[i.holder];
    ClosePaysExactly(l.balances, i.holder, a.raw.payments);
    Dispatched(l0, keyOf, verify, i);
    NoneUnfinished(l0, i.holder);
    hide Unfinished, FailRequest;
    var l1 := l.(safes := l.safes[i.holder := s.(state := Failed)],
                 transactions := l.transactions[a.hash := SafeTx(i.holder, Done, i.rid, false, true, a.raw)]);
    assert RequestTaken(CloseSafe(l0, i.holder).value, i.rid) == RequestTaken(l, i.rid);
    Ends(l, l1, i, SENT);
    GivesNew(l, keyOf, verify, i, HandleCloseWithHolder(l0, i), Over(l1, i, Done, SENT), SENT);
  }

  /** The proposed transaction is the one thing unfinished and takes everything out. */
  predicate RecoveryInOrder(l: Books, i: Input, hash: Hash)
    requires i.action.CloseWithoutHolder?
  {
    var a := i.action;
    && i.holder in l.safes && (l.safes[i.holder].state == Done || l.safes[i.holder].state == Failed)
    && a.unlocked && a.valid && a.sendable && PaysEach(l.balances, i.holder, a.raw.payments)
    && WrittenBy(l, a.target, hash) && l.transactions[hash].holder == i.holder && Unfinished(l, i.holder) == {hash}
    && a.raw.message == l.transactions[hash].raw.message
  }

  /** Closing with the transaction that was proposed: the safe is closed and the transaction waits for its signature. */
  lemma {:induction false} RecoveryTaken(l: Books, keyOf: Assigned, verify: Verifier, i: Input, hash: Hash)
    requires OneEach(l) && NewRequest(l, i) && i.action.CloseWithoutHolder? && RecoveryInOrder(l, i, hash)
    ensures var l1 := l.(safes := l.safes[i.holder := l.safes[i.holder].(state := Failed)]);
            Gives(l, keyOf, verify, i, Over(AskedFor(l1, i, hash, i.action.raw), i, Done, SignIt(i, i.action.raw)), SignIt(i, i.action.raw))
  {
    hide Handle, Gives, ClosePays, AskFor, AskedFor, ByRequest, FailRequest, PaysEach;
    var l0 := Begun(l, i);
    ClosePaysExactly(l.balances, i.holder, i.action.raw.payments);
    var l1 := l.(safes := l.safes[i.holder := l.safes[i.holder].(state := Failed)]);
    Dispatched(l0, keyOf, verify, i);
    assert Unfinished(l0, i.holder) == {hash} && hash in Unfinished(l, i.holder);
    FoundByRequest(l0, i.action.target, hash);
    AskGives(l, l1, i, hash, i.action.raw);
    if l.safes[i.holder].state == Done { assert CloseSafe(l0, i.holder) == Some(Begun(l1, i)); } else { assert l1 == l; }
    GivesNew(l, keyOf, verify, i, HandleCloseWithoutHolder(l0, i), Over(AskedFor(l1, i, hash, i.action.raw), i, Done, SignIt(i, i.action.raw)), SignIt(i, i.action.raw));
  }
}
