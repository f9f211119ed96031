/** What every commit keeps for Ethereum safes: the balances, the nonce, and one transaction at a time. */
module EthereumInvariant {
  import opened Options
  import opened Sums
  import opened KeeperTypes
  import opened EthereumLedger
  import opened KeeperEthereum

  type Balances = map<(Holder, Token), int>

  function PaidIn(ps: seq<Payment>, token: Token): (n: nat)
    decreases |ps|
  {
    if ps == [] then 0 else (if ps[0].token == token then ps[0].amount else 0) + PaidIn(ps[1..], token)
  }

  // ---- Balances against deposits and payments

  ghost function DepositOf(l: Books, h: Holder, token: Token): OutPoint -> int
  {
    p => if p in l.deposits && l.deposits[p].holder == h && l.deposits[p].token == token then l.deposits[p].amount else 0
  }

  predicate Settled(t: SafeTx, h: Holder)
  {
    t.holder == h && t.state == Done && !t.byHolder
  }

  ghost function PaymentOf(l: Books, h: Holder, token: Token): Hash -> int
  {
    x => if x in l.transactions && Settled(l.transactions[x], h) then PaidIn(l.transactions[x].raw.payments, token) else 0
  }

  ghost function TotalDeposits(l: Books, h: Holder, token: Token): int
  {
    SumOf(l.deposits.Keys, DepositOf(l, h, token))
  }

  /** The payments of the transactions that are done. */
  ghost function TotalPayments(l: Books, h: Holder, token: Token): int
  {
    SumOf(l.transactions.Keys, PaymentOf(l, h, token))
  }

  ghost predicate BalancesOk(l: Books)
  {
    forall h, token :: Balance(l.balances, h, token) == TotalDeposits(l, h, token) - TotalPayments(l, h, token)
                       && Balance(l.balances, h, token) >= 0
  }

  // ---- The nonce

  function DoneBy(l: Books, h: Holder): set<Hash>
  {
    set x | x in l.transactions && Settled(l.transactions[x], h)
  }

  /** Done transactions, but for one that closes the safe with the holder key, have each used one nonce. */
  ghost predicate NoncesOk(l: Books)
  {
    && (forall h :: h in l.safes ==> l.safes[h].nonce == |DoneBy(l, h)|)
    && (forall h :: h !in l.safes ==> DoneBy(l, h) == {})
  }

  // ---- One transaction at a time

  predicate OpenAt(l: Books, x: Hash)
  {
    x in l.transactions && Open(l.transactions[x])
  }

  ghost predicate OneOpen(l: Books)
  {
    forall a, b :: OpenAt(l, a) && OpenAt(l, b) && l.transactions[a].holder == l.transactions[b].holder ==> a == b
  }

  /** Whoever has a transaction or a safe has proposed an account, with the key assigned to them. */
  ghost predicate ProposalsOk(l: Books, keyOf: Assigned)
  {
    && (forall r :: r in l.proposals ==> l.proposals[r].signer == keyOf(l.proposals[r].holder))
    && (forall x :: x in l.transactions ==> HasProposal(l, l.transactions[x].holder))
    && (forall h :: h in l.safes ==> HasProposal(l, h))
  }

  ghost predicate HasProposal(l: Books, h: Holder)
  {
    exists r :: r in l.proposals && l.proposals[r].holder == h
  }

  // ---- Signature requests

  /** An open signature request belongs to a transaction that is being signed; its own request is settled. */
  ghost predicate AnswerOk(l: Books, r: Rid)
    requires r in l.answers
  {
    && l.answers[r].hash in l.transactions && l.answers[r].state != Failed
    && (l.answers[r].state != Done ==> l.transactions[l.answers[r].hash].state == Pending)
    && r.Derived? && r.parent in l.requests && l.requests[r.parent].state != Initial
  }

  ghost predicate AnswersOk(l: Books)
  {
    forall r :: r in l.answers ==> AnswerOk(l, r)
  }

  /** A safe closed with the holder key stays closed. */
  ghost predicate ClosersOk(l: Books)
  {
    forall x :: x in l.transactions && l.transactions[x].byHolder ==>
      && l.transactions[x].state == Done && l.transactions[x].holder in l.safes
      && l.safes[l.transactions[x].holder].state == Failed
  }

  ghost predicate Inv(l: Books, keyOf: Assigned)
  {
    BalancesOk(l) && NoncesOk(l) && OneOpen(l) && ProposalsOk(l, keyOf) && ClosersOk(l) && AnswersOk(l)
  }

  // ---- Frames

  lemma {:induction false} DepositsFrame(l: Books, l': Books, h: Holder, token: Token)
    requires l'.deposits == l.deposits
    ensures TotalDeposits(l', h, token) == TotalDeposits(l, h, token)
  {
    SumEqual(l.deposits.Keys, DepositOf(l, h, token), DepositOf(l', h, token));
  }

  lemma {:induction false} PaymentsFrame(l: Books, l': Books, h: Holder, token: Token)
    requires l'.transactions == l.transactions
    ensures TotalPayments(l', h, token) == TotalPayments(l, h, token)
  {
    SumEqual(l.transactions.Keys, PaymentOf(l, h, token), PaymentOf(l', h, token));
  }

  lemma {:induction false} BalancesFrame(l: Books, l': Books)
    requires BalancesOk(l) && l'.balances == l.balances && l'.deposits == l.deposits && l'.transactions == l.transactions
    ensures BalancesOk(l')
  {
    forall h, token ensures Balance(l'.balances, h, token) == TotalDeposits(l', h, token) - TotalPayments(l', h, token)
                            && Balance(l'.balances, h, token) >= 0 {
      DepositsFrame(l, l', h, token);
      PaymentsFrame(l, l', h, token);
    }
  }

  lemma {:induction false} NoncesFrame(l: Books, l': Books)
    requires NoncesOk(l) && l'.transactions == l.transactions && l'.safes == l.safes
    ensures NoncesOk(l')
  {
    forall h ensures DoneBy(l', h) == DoneBy(l, h) {}
  }

  /** A transaction that is not done before or after, or not counted, pays nothing. */
  lemma {:induction false} PaymentsKept(l: Books, l': Books, x: Hash, h: Holder, token: Token)
    requires l'.transactions.Keys == l.transactions.Keys + {x}
    requires forall y :: y in l.transactions && y != x ==> l'.transactions[y] == l.transactions[y]
    requires x in l.transactions ==> PaymentOf(l, h, token)(x) == PaymentOf(l', h, token)(x)
    requires x !in l.transactions ==> PaymentOf(l', h, token)(x) == 0
    ensures TotalPayments(l', h, token) == TotalPayments(l, h, token)
  {
    var f, g := PaymentOf(l, h, token), PaymentOf(l', h, token);
    if x in l.transactions {
      assert l'.transactions.Keys == l.transactions.Keys;
      SumEqual(l.transactions.Keys, f, g);
    } else {
      SumInsert(l.transactions.Keys, f, g, x);
    }
  }

  /** One transaction changed, and it is not counted before or after. */
  ghost predicate Touched(l: Books, l': Books, x: Hash)
  {
    && l'.transactions.Keys == l.transactions.Keys + {x}
    && (forall y :: y in l.transactions && y != x ==> l'.transactions[y] == l.transactions[y])
    && (x in l.transactions ==> !Settled(l.transactions[x], l.transactions[x].holder))
    && !Settled(l'.transactions[x], l'.transactions[x].holder)
  }

  lemma {:induction false} TouchedBalances(l: Books, l': Books, x: Hash)
    requires BalancesOk(l) && Touched(l, l', x) && l'.balances == l.balances && l'.deposits == l.deposits
    ensures BalancesOk(l')
  {
    forall h, token ensures Balance(l'.balances, h, token) == TotalDeposits(l', h, token) - TotalPayments(l', h, token)
                            && Balance(l'.balances, h, token) >= 0 {
      DepositsFrame(l, l', h, token);
      PaymentsKept(l, l', x, h, token);
    }
  }

  lemma {:induction false} TouchedNonces(l: Books, l': Books, x: Hash)
    requires NoncesOk(l) && Touched(l, l', x)
    requires forall h :: h in l.safes ==> h in l'.safes && l'.safes[h].nonce == l.safes[h].nonce
    requires forall h :: h in l'.safes && h !in l.safes ==> l'.safes[h].nonce == 0
    ensures NoncesOk(l')
  {
    forall h ensures DoneBy(l', h) == DoneBy(l, h) {
      forall y ensures y in DoneBy(l', h) <==> y in DoneBy(l, h) { }
    }
  }

  // ---- The loops over payments

  lemma {:induction false} DebitExact(balances: Balances, holder: Holder, ps: seq<Payment>, h: Holder, token: Token)
    ensures var r := Debit(balances, holder, ps);
            r.Debited? ==>
              && Balance(r.balances, h, token) == Balance(balances, h, token) - (if h == holder then PaidIn(ps, token) else 0)
              && (Balance(balances, h, token) >= 0 ==> Balance(r.balances, h, token) >= 0)
    decreases |ps|
  {
    if ps != [] && (holder, ps[0].token) in balances && balances[(holder, ps[0].token)] - ps[0].amount >= 0 {
      DebitExact(balances[(holder, ps[0].token) := balances[(holder, ps[0].token)] - ps[0].amount], holder, ps[1..], h, token);
    }
  }

  /** The holder has a balance of the token and it is enough for the payments in that token. */
  predicate Affords(balances: Balances, holder: Holder, ps: seq<Payment>, token: Token)
  {
    (holder, token) in balances && PaidIn(ps, token) <= balances[(holder, token)]
  }

  lemma {:induction false} DebitStep(balances: Balances, holder: Holder, ps: seq<Payment>, token: Token)
    requires ps != [] && (holder, ps[0].token) in balances
    ensures Affords(balances[(holder, ps[0].token) := balances[(holder, ps[0].token)] - ps[0].amount], holder, ps[1..], token)
            <==> Affords(balances, holder, ps, token)
  {
  }

  lemma {:induction false} PaidAtLeast(ps: seq<Payment>, i: nat)
    requires i < |ps|
    ensures PaidIn(ps, ps[i].token) >= ps[i].amount
    decreases |ps|
  {
    if i > 0 { PaidAtLeast(ps[1..], i - 1); }
  }

  /** The loop over payments succeeds exactly when every token paid in has a balance that covers all payments in it. */
  lemma {:induction false} DebitSucceeds(balances: Balances, holder: Holder, ps: seq<Payment>)
    ensures Debit(balances, holder, ps).Debited? <==> forall i :: 0 <= i < |ps| ==> Affords(balances, holder, ps, ps[i].token)
    decreases |ps|
  {
    if ps != [] {
      PaidAtLeast(ps, 0);
      if (holder, ps[0].token) in balances && balances[(holder, ps[0].token)] - ps[0].amount >= 0 {
        hide Affords, PaidIn;
        var rest, next := ps[1..], balances[(holder, ps[0].token) := balances[(holder, ps[0].token)] - ps[0].amount];
        DebitSucceeds(next, holder, rest);
        forall token ensures Affords(next, holder, rest, token) <==> Affords(balances, holder, ps, token) {
          DebitStep(balances, holder, ps, token);
        }
        assert forall i :: 0 <= i < |rest| ==> rest[i] == ps[i + 1];
        assert forall i :: 1 <= i < |ps| ==> ps[i] == rest[i - 1];
        if forall i :: 1 <= i < |ps| ==> Affords(balances, holder, ps, ps[i].token) { FirstAffords(balances, holder, ps); }
      } else {
        assert !Affords(balances, holder, ps, ps[0].token);
      }
    }
  }

  /** The first token is covered if no later payment uses it and the first payment is covered. */
  lemma {:induction false} FirstAffords(balances: Balances, holder: Holder, ps: seq<Payment>)
    requires ps != [] && (holder, ps[0].token) in balances && balances[(holder, ps[0].token)] >= ps[0].amount
    requires forall i :: 1 <= i < |ps| ==> Affords(balances, holder, ps, ps[i].token)
    ensures Affords(balances, holder, ps, ps[0].token)
  {
    if forall i :: 1 <= i < |ps| ==> ps[i].token != ps[0].token {
      NotPaid(ps[1..], ps[0].token);
    } else {
      var i :| 1 <= i < |ps| && ps[i].token == ps[0].token;
    }
  }

  lemma {:induction false} NotPaid(ps: seq<Payment>, token: Token)
    requires forall i :: 0 <= i < |ps| ==> ps[i].token != token
    ensures PaidIn(ps, token) == 0
    decreases |ps|
  {
    if ps != [] { NotPaid(ps[1..], token); }
  }

  lemma {:induction false} CreditExact(balances: Balances, holder: Holder, ps: seq<Payment>, h: Holder, token: Token)
    ensures var r := Credit(balances, holder, ps);
            r.Some? ==> Balance(r.value, h, token) == Balance(balances, h, token) + if h == holder then PaidIn(ps, token) else 0
    decreases |ps|
  {
    if ps != [] && (holder, ps[0].token) in balances {
      CreditExact(balances[(holder, ps[0].token) := balances[(holder, ps[0].token)] + ps[0].amount], holder, ps[1..], h, token);
    }
  }

  lemma {:induction false} NothingPaid(ps: seq<Payment>, token: Token)
    requires PaysNothing(ps)
    ensures PaidIn(ps, token) == 0
    decreases |ps|
  {
    if ps != [] {
      assert ps[0] in ps;
      NothingPaid(ps[1..], token);
    }
  }

  // ---- Steps

  /** Proposals stay, and so do safes. */
  ghost predicate AccountsKept(l: Books, l': Books)
  {
    && (forall r :: r in l.proposals ==> r in l'.proposals && l'.proposals[r] == l.proposals[r])
    && (forall h :: h in l.safes ==> h in l'.safes)
  }

  lemma {:induction false} ProposalKept(l: Books, l': Books, h: Holder)
    requires AccountsKept(l, l') && HasProposal(l, h)
    ensures HasProposal(l', h)
  {
    var r :| r in l.proposals && l.proposals[r].holder == h;
    assert r in l'.proposals && l'.proposals[r].holder == h;
  }

  /** No new holder appears among the transactions and safes without a proposal. */
  lemma {:induction false} ProposalsKept(l: Books, l': Books, keyOf: Assigned)
    requires ProposalsOk(l, keyOf) && AccountsKept(l, l')
    requires forall r :: r in l'.proposals && r !in l.proposals ==> l'.proposals[r].signer == keyOf(l'.proposals[r].holder)
    requires forall x :: x in l'.transactions ==>
               (x in l.transactions && l.transactions[x].holder == l'.transactions[x].holder) || HasProposal(l', l'.transactions[x].holder)
    requires forall h :: h in l'.safes && h !in l.safes ==> HasProposal(l', h)
    ensures ProposalsOk(l', keyOf)
  {
    forall x | x in l'.transactions ensures HasProposal(l', l'.transactions[x].holder) {
      if x in l.transactions && l.transactions[x].holder == l'.transactions[x].holder { ProposalKept(l, l', l.transactions[x].holder); }
    }
    forall h | h in l'.safes ensures HasProposal(l', h) {
      if h in l.safes { ProposalKept(l, l', h); }
    }
  }

  lemma {:induction false} AnswersKept(l: Books, l': Books)
    requires AnswersOk(l) && l'.answers == l.answers
    requires forall r :: r in l.requests && l.requests[r].state != Initial ==> r in l'.requests && l'.requests[r].state != Initial
    requires forall x :: x in l.transactions ==> x in l'.transactions && (l.transactions[x].state == Pending ==> l'.transactions[x].state == Pending)
    ensures AnswersOk(l')
  {
    forall r | r in l'.answers ensures AnswerOk(l', r) { assert AnswerOk(l, r); }
  }

  lemma {:induction false} OpenKept(l: Books, l': Books)
    requires OneOpen(l)
    requires forall x :: OpenAt(l', x) ==> OpenAt(l, x) && l'.transactions[x].holder == l.transactions[x].holder
    ensures OneOpen(l')
  {
  }

  lemma {:induction false} ClosersKept(l: Books, l': Books)
    requires ClosersOk(l)
    requires forall x :: x in l'.transactions && l'.transactions[x].byHolder ==> x in l.transactions && l'.transactions[x] == l.transactions[x]
    requires forall h :: h in l.safes && l.safes[h].state == Failed ==> h in l'.safes && l'.safes[h].state == Failed
    ensures ClosersOk(l')
  {
  }

  /** The same holders have transactions and safes as before. */
  lemma {:induction false} HoldersKept(l: Books, l': Books, keyOf: Assigned)
    requires ProposalsOk(l, keyOf) && l'.proposals == l.proposals
    requires forall x :: x in l'.transactions ==>
               if x in l.transactions then l'.transactions[x].holder == l.transactions[x].holder else l'.transactions[x].holder in l.safes
    requires forall h :: h in l'.safes ==> h in l.safes || HasProposal(l, h)
    ensures ProposalsOk(l', keyOf)
  {
    forall h | HasProposal(l, h) ensures HasProposal(l', h) {
      var r :| r in l.proposals && l.proposals[r].holder == h;
      assert r in l'.proposals && l'.proposals[r].holder == h;
    }
  }

  /** Settling a request touches nothing else. */
  lemma {:induction false} RequestsInv(l: Books, l': Books, keyOf: Assigned)
    requires Inv(l, keyOf) && l' == l.(requests := l'.requests, results := l'.results)
    requires forall r :: r in l.requests && l.requests[r].state != Initial ==> r in l'.requests && l'.requests[r].state != Initial
    ensures Inv(l', keyOf)
  {
    hide BalancesOk, NoncesOk, OneOpen, ProposalsOk, ClosersOk, AnswersOk;
    BalancesFrame(l, l');
    NoncesFrame(l, l');
    OpenKept(l, l');
    HoldersKept(l, l', keyOf);
    ClosersKept(l, l');
    AnswersKept(l, l');
  }

  lemma {:induction false} ProposeAccountOpen(l: Books, l': Books, keyOf: Assigned, rid: Rid, p: Proposal, raw: Raw)
    requires Inv(l, keyOf) && ProposalFree(l, p) && p.signer == keyOf(p.holder) && p.setup !in l.transactions
    requires l'.transactions == l.transactions[p.setup := SafeTx(p.holder, Initial, rid, true, false, raw)]
    ensures OneOpen(l')
  {
    forall x | x in l.transactions ensures l.transactions[x].holder != p.holder {
      assert HasProposal(l, l.transactions[x].holder);
      var r :| r in l.proposals && l.proposals[r].holder == l.transactions[x].holder;
    }
    assert forall x :: x != p.setup ==> (OpenAt(l', x) <==> OpenAt(l, x));
  }

  lemma {:induction false} ProposeAccountInv(l: Books, keyOf: Assigned, rid: Rid, p: Proposal, raw: Raw)
    requires Inv(l, keyOf) && rid !in l.proposals && ProposalFree(l, p) && p.signer == keyOf(p.holder) && p.setup !in l.transactions
    ensures Inv(l.(proposals := l.proposals[rid := p],
                   transactions := l.transactions[p.setup := SafeTx(p.holder, Initial, rid, true, false, raw)]), keyOf)
  {
    hide BalancesOk, NoncesOk, OneOpen, ProposalsOk, ClosersOk, AnswersOk;
    var l' := l.(proposals := l.proposals[rid := p],
                 transactions := l.transactions[p.setup := SafeTx(p.holder, Initial, rid, true, false, raw)]);
    TouchedBalances(l, l', p.setup);
    TouchedNonces(l, l', p.setup);
    ProposeAccountOpen(l, l', keyOf, rid, p, raw);
    assert rid in l'.proposals && l'.proposals[rid].holder == p.holder;
    assert HasProposal(l', p.holder);
    ProposalsKept(l, l', keyOf);
    ClosersKept(l, l');
    AnswersKept(l, l');
  }

  lemma {:induction false} SafesNonces(l: Books, l': Books)
    requires NoncesOk(l) && l'.transactions == l.transactions
    requires forall h :: h in l.safes ==> h in l'.safes && l'.safes[h].nonce == l.safes[h].nonce
    requires forall h :: h in l'.safes && h !in l.safes ==> l'.safes[h].nonce == 0
    ensures NoncesOk(l')
  {
    forall h ensures DoneBy(l', h) == DoneBy(l, h) {}
  }

  lemma {:induction false} SafesInv(l: Books, l': Books, keyOf: Assigned)
    requires Inv(l, keyOf) && l' == l.(safes := l'.safes)
    requires forall h :: h in l.safes ==>
               h in l'.safes && l'.safes[h].nonce == l.safes[h].nonce && (l.safes[h].state == Failed ==> l'.safes[h].state == Failed)
    requires forall h :: h in l'.safes && h !in l.safes ==> l'.safes[h].nonce == 0 && HasProposal(l, h)
    ensures Inv(l', keyOf)
  {
    hide BalancesOk, NoncesOk, OneOpen, ProposalsOk, ClosersOk, AnswersOk;
    BalancesFrame(l, l');
    SafesNonces(l, l');
    OpenKept(l, l');
    HoldersKept(l, l', keyOf);
    ClosersKept(l, l');
    AnswersKept(l, l');
  }

  lemma {:induction false} DepositBalance(l: Books, l': Books, holder: Holder, p: OutPoint, token: Token, amount: nat, h: Holder, tok: Token)
    requires p !in l.deposits && l'.deposits == l.deposits[p := Deposited(holder, token, amount)]
    ensures TotalDeposits(l', h, tok) == TotalDeposits(l, h, tok) + if (h, tok) == (holder, token) then amount else 0
  {
    assert l'.deposits.Keys == l.deposits.Keys + {p};
    SumInsert(l.deposits.Keys, DepositOf(l, h, tok), DepositOf(l', h, tok), p);
  }

  lemma {:induction false} DepositBalances(l: Books, l': Books, holder: Holder, p: OutPoint, token: Token, amount: nat)
    requires BalancesOk(l) && p !in l.deposits && l'.transactions == l.transactions
    requires l'.deposits == l.deposits[p := Deposited(holder, token, amount)]
    requires l'.balances == l.balances[(holder, token) := Balance(l.balances, holder, token) + amount]
    ensures BalancesOk(l')
  {
    hide TotalDeposits, TotalPayments;
    forall h, tok ensures Balance(l'.balances, h, tok) == TotalDeposits(l', h, tok) - TotalPayments(l', h, tok)
                          && Balance(l'.balances, h, tok) >= 0 {
      PaymentsFrame(l, l', h, tok);
      DepositBalance(l, l', holder, p, token, amount, h, tok);
    }
  }

  lemma {:induction false} DepositInv(l: Books, keyOf: Assigned, holder: Holder, p: OutPoint, token: Token, amount: nat)
    requires Inv(l, keyOf) && p !in l.deposits
    ensures Inv(l.(balances := l.balances[(holder, token) := Balance(l.balances, holder, token) + amount],
                   deposits := l.deposits[p := Deposited(holder, token, amount)]), keyOf)
  {
    hide BalancesOk, NoncesOk, OneOpen, ProposalsOk, ClosersOk, AnswersOk;
    var l' := l.(balances := l.balances[(holder, token) := Balance(l.balances, holder, token) + amount],
                 deposits := l.deposits[p := Deposited(holder, token, amount)]);
    DepositBalances(l, l', holder, p, token, amount);
    NoncesFrame(l, l');
    OpenKept(l, l');
    HoldersKept(l, l', keyOf);
    ClosersKept(l, l');
    AnswersKept(l, l');
  }

  lemma {:induction false} InsertOpen(l: Books, l': Books, hash: Hash, t: SafeTx)
    requires OneOpen(l) && hash !in l.transactions && l'.transactions == l.transactions[hash := t]
    requires t.state == Done || Unfinished(l, t.holder) == {}
    ensures OneOpen(l')
  {
    assert forall x :: x != hash ==> (OpenAt(l', x) <==> OpenAt(l, x));
    forall x | OpenAt(l, x) && t.state != Done ensures l.transactions[x].holder != t.holder { assert x !in Unfinished(l, t.holder); }
  }

  lemma {:induction false} InsertClosers(l: Books, l': Books, hash: Hash, t: SafeTx)
    requires ClosersOk(l) && l'.transactions == l.transactions[hash := t] && l'.safes == l.safes
    requires t.byHolder ==> t.state == Done && t.holder in l.safes && l.safes[t.holder].state == Failed
    ensures ClosersOk(l')
  {
  }

  lemma {:induction false} ClosersOpen(l: Books, hash: Hash)
    requires ClosersOk(l) && OpenAt(l, hash)
    ensures !l.transactions[hash].byHolder
  {
  }

  /** A new transaction: either the holder had none open, or it is done on arrival and closes the safe. */
  lemma {:induction false} InsertInv(l: Books, keyOf: Assigned, hash: Hash, t: SafeTx)
    requires Inv(l, keyOf) && hash !in l.transactions && t.holder in l.safes
    requires if t.byHolder then t.state == Done && l.safes[t.holder].state == Failed else t.state == Initial && Unfinished(l, t.holder) == {}
    ensures Inv(l.(transactions := l.transactions[hash := t]), keyOf)
  {
    hide BalancesOk, NoncesOk, OneOpen, ProposalsOk, ClosersOk, AnswersOk;
    var l' := l.(transactions := l.transactions[hash := t]);
    TouchedBalances(l, l', hash);
    TouchedNonces(l, l', hash);
    InsertOpen(l, l', hash, t);
    HoldersKept(l, l', keyOf);
    InsertClosers(l, l', hash, t);
    AnswersKept(l, l');
  }

  /** An open transaction goes on being signed, with what the holder signed, or is revoked before that. */
  lemma {:induction false} SetOpenInv(l: Books, keyOf: Assigned, hash: Hash, state: State, raw: Raw)
    requires Inv(l, keyOf) && OpenAt(l, hash)
    requires state == Pending || (state == Failed && l.transactions[hash].state == Initial)
    ensures Inv(SetTx(l, hash, state, raw), keyOf)
  {
    hide BalancesOk, NoncesOk, OneOpen, ProposalsOk, ClosersOk, AnswersOk;
    var l' := SetTx(l, hash, state, raw);
    ClosersOpen(l, hash);
    assert l'.transactions.Keys == l.transactions.Keys + {hash};
    TouchedBalances(l, l', hash);
    TouchedNonces(l, l', hash);
    OpenKept(l, l');
    HoldersKept(l, l', keyOf);
    ClosersKept(l, l');
    AnswersKept(l, l');
  }

  lemma {:induction false} FinishAnswerOk(l: Books, rid: Rid, sig: Sig)
    requires AnswersOk(l) && FinishAnswer(l, rid, sig).Some?
    ensures AnswersOk(FinishAnswer(l, rid, sig).value)
  {
    var l' := FinishAnswer(l, rid, sig).value;
    assert AnswerOk(l, rid);
    forall q | q in l'.answers ensures AnswerOk(l', q) { assert AnswerOk(l, q); }
  }

  lemma {:induction false} FinishAnswerInv(l: Books, keyOf: Assigned, rid: Rid, sig: Sig)
    requires Inv(l, keyOf)
    ensures var r := FinishAnswer(l, rid, sig);
            r.Some? ==> Inv(r.value, keyOf)
  {
    hide BalancesOk, NoncesOk, OneOpen, ProposalsOk, ClosersOk, AnswersOk;
    var r := FinishAnswer(l, rid, sig);
    if r.Some? {
      var l' := r.value;
      BalancesFrame(l, l');
      NoncesFrame(l, l');
      OpenKept(l, l');
      HoldersKept(l, l', keyOf);
      ClosersKept(l, l');
      FinishAnswerOk(l, rid, sig);
    }
  }

  // ---- Done, and undone

  lemma {:induction false} DonePayments(l: Books, l': Books, hash: Hash, h: Holder, token: Token)
    requires hash in l.transactions && l.transactions[hash].state == Pending && !l.transactions[hash].byHolder
    requires l'.transactions == l.transactions[hash := l.transactions[hash].(state := Done)]
    ensures TotalPayments(l', h, token) == TotalPayments(l, h, token)
              + if h == l.transactions[hash].holder then PaidIn(l.transactions[hash].raw.payments, token) else 0
  {
    assert l'.transactions.Keys == l.transactions.Keys;
    SumChange(l.transactions.Keys, PaymentOf(l, h, token), PaymentOf(l', h, token), hash);
  }

  lemma {:induction false} UndonePayments(l: Books, l': Books, hash: Hash, h: Holder, token: Token)
    requires hash in l.transactions && l.transactions[hash].state == Done && !l.transactions[hash].byHolder
    requires l'.transactions == l.transactions[hash := l.transactions[hash].(state := Failed)]
    ensures TotalPayments(l', h, token) == TotalPayments(l, h, token)
              - if h == l.transactions[hash].holder then PaidIn(l.transactions[hash].raw.payments, token) else 0
  {
    assert l'.transactions.Keys == l.transactions.Keys;
    SumChange(l.transactions.Keys, PaymentOf(l, h, token), PaymentOf(l', h, token), hash);
  }

  /** The balances that go with finishing this transaction. */
  ghost predicate Settles(l: Books, balances: Balances, t: SafeTx)
  {
    Debit(l.balances, t.holder, t.raw.payments) == Debited(balances) || (balances == l.balances && PaysNothing(t.raw.payments))
  }

  lemma {:induction false} FinishBalances(l: Books, l': Books, hash: Hash)
    requires BalancesOk(l) && hash in l.transactions && l.transactions[hash].state == Pending && !l.transactions[hash].byHolder
    requires l'.transactions == l.transactions[hash := l.transactions[hash].(state := Done)] && l'.deposits == l.deposits
    requires Settles(l, l'.balances, l.transactions[hash])
    ensures BalancesOk(l')
  {
    var t := l.transactions[hash];
    forall h, token ensures Balance(l'.balances, h, token) == TotalDeposits(l', h, token) - TotalPayments(l', h, token)
                            && Balance(l'.balances, h, token) >= 0 {
      DepositsFrame(l, l', h, token);
      DonePayments(l, l', hash, h, token);
      if Debit(l.balances, t.holder, t.raw.payments) == Debited(l'.balances) {
        DebitExact(l.balances, t.holder, t.raw.payments, h, token);
      } else {
        NothingPaid(t.raw.payments, token);
      }
    }
  }

  lemma {:induction false} RefundBalances(l: Books, l': Books, hash: Hash)
    requires BalancesOk(l) && hash in l.transactions && l.transactions[hash].state == Done && !l.transactions[hash].byHolder
    requires l'.transactions == l.transactions[hash := l.transactions[hash].(state := Failed)] && l'.deposits == l.deposits
    requires Credit(l.balances, l.transactions[hash].holder, l.transactions[hash].raw.payments) == Some(l'.balances)
    ensures BalancesOk(l')
  {
    var t := l.transactions[hash];
    forall h, token ensures Balance(l'.balances, h, token) == TotalDeposits(l', h, token) - TotalPayments(l', h, token)
                            && Balance(l'.balances, h, token) >= 0 {
      DepositsFrame(l, l', h, token);
      UndonePayments(l, l', hash, h, token);
      CreditExact(l.balances, t.holder, t.raw.payments, h, token);
    }
  }

  lemma {:induction false} DoneStep(l: Books, l': Books, hash: Hash, state: State, h: Holder)
    requires hash in l.transactions && !l.transactions[hash].byHolder
    requires (l.transactions[hash].state == Pending && state == Done) || (l.transactions[hash].state == Done && state == Failed)
    requires l'.transactions == l.transactions[hash := l.transactions[hash].(state := state)]
    ensures |DoneBy(l', h)| == |DoneBy(l, h)| + if h == l.transactions[hash].holder then (if state == Done then 1 else -1) else 0
  {
    var t := l.transactions[hash];
    if h != t.holder {
      assert DoneBy(l', h) == DoneBy(l, h);
    } else if state == Done {
      assert hash !in DoneBy(l, h) && DoneBy(l', h) == DoneBy(l, h) + {hash};
    } else {
      assert hash in DoneBy(l, h) && DoneBy(l', h) == DoneBy(l, h) - {hash};
    }
  }

  /** The nonce follows the number of done transactions up and down. */
  lemma {:induction false} StepNonces(l: Books, l': Books, hash: Hash, state: State)
    requires NoncesOk(l) && hash in l.transactions && !l.transactions[hash].byHolder && l.transactions[hash].holder in l.safes
    requires (l.transactions[hash].state == Pending && state == Done) || (l.transactions[hash].state == Done && state == Failed)
    requires l'.transactions == l.transactions[hash := l.transactions[hash].(state := state)]
    requires l'.safes.Keys == l.safes.Keys
    requires forall h :: h in l.safes ==>
               l'.safes[h].nonce == l.safes[h].nonce + (if h == l.transactions[hash].holder then (if state == Done then 1 else -1) else 0)
    ensures NoncesOk(l')
  {
    hide DoneBy;
    forall h ensures |DoneBy(l', h)| == |DoneBy(l, h)| + if h == l.transactions[hash].holder then (if state == Done then 1 else -1) else 0 {
      DoneStep(l, l', hash, state, h);
    }
    forall h | h !in l'.safes ensures DoneBy(l', h) == {} { assert |DoneBy(l', h)| == 0; }
  }
}
