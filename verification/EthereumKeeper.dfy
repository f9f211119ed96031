/** The handlers of the keeper for Ethereum and Polygon safes as they run, against the store they update. */
module EthereumKeeper {
  import opened Options
  import opened KeeperTypes
  import opened EthereumLedger
  import K = KeeperEthereum
  import I = EthereumInvariant
  import S = EthereumSafety
  import opened EthereumStore

  class Keeper {
    const store: Store
    const verify: K.Verifier
    const keyOf: K.Assigned

    constructor (verify: K.Verifier, keyOf: K.Assigned)
      ensures this.verify == verify && this.keyOf == keyOf && fresh(store) && store.State() == NoBooks() && Valid()
    {
      this.verify, this.keyOf := verify, keyOf;
      store := new Store();
      new;
      S.StartOk(keyOf);
    }

    /** What every run of the keeper keeps: balances, nonces and the single unfinished transaction. */
    ghost predicate Valid()
      reads this, store
    {
      I.Inv(store.State(), keyOf) && OneEach(store.transactions)
    }

    ghost predicate Ran(was: Books, run: K.Run, reply: Option<Reply>)
      reads store
    {
      reply == run.reply && store.State() == K.Last(was, run)
    }

    method Fail(i: K.Input, reply: Reply) returns (r: Option<Reply>)
      modifies store
      ensures Ran(old(store.State()), K.Commit(FailRequest(old(store.State()), i.rid, i.oid, reply), reply), r)
      ensures store.transactions == old(store.transactions)
    {
      hide FailRequest;
      var ok := store.FailRequest(i.rid, i.oid, reply);
      return if ok then Some(reply) else None;
    }

    method GiveBack(i: K.Input, refundable: bool) returns (r: Option<Reply>)
      modifies store
      ensures Ran(old(store.State()), K.GiveBack(old(store.State()), i, refundable), r)
      ensures store.transactions == old(store.transactions)
    {
      hide FailRequest;
      r := Fail(i, if refundable then Reply([Bond(i.holder, i.amount)], false) else Reply([], true));
    }

    // ---- Accounts

    method ProposeAccount(i: K.Input) returns (r: Option<Reply>)
      requires i.action.ProposeAccount?
      modifies store
      ensures Ran(old(store.State()), K.HandleProposeAccount(old(store.State()), keyOf, i), r)
      ensures OneEach(old(store.transactions)) ==> OneEach(store.transactions)
    {
      hide FailRequest, WriteProposal, OneEach;
      var a := i.action;
      if !a.valid {
        r := Fail(i, Reply([], false));
        return;
      }
      if !a.priced {
        r := GiveBack(i, a.refundable);
        return;
      }
      if !a.paid || i.holder in store.safes || i.rid in store.proposals {
        r := Fail(i, Reply([], false));
        return;
      }
      if !a.keyed {
        r := GiveBack(i, a.refundable);
        return;
      }
      if exists x :: x in store.proposals && store.proposals[x].address == a.address {
        r := Fail(i, Reply([], false));
        return;
      }
      if !a.sendable {
        r := GiveBack(i, a.refundable);
        return;
      }
      var ok := store.WriteSafeProposal(i.rid, Proposal(i.holder, keyOf(i.holder), a.address, a.hash), a.raw, i.oid, K.Sent());
      return if ok then Some(K.Sent()) else None;
    }

    /** Asks the signers for a signature on what was given. */
    method AskFor(i: K.Input, hash: Hash, raw: Raw, sendable: bool) returns (r: Option<Reply>)
      modifies store
      ensures Ran(old(store.State()), K.AskFor(old(store.State()), i, hash, raw, sendable), r)
      ensures OneEach(old(store.transactions)) ==> OneEach(store.transactions)
    {
      hide FailRequest, WriteAnswer, OneEach;
      if !sendable {
        r := Fail(i, Reply([], false));
        return;
      }
      var id := Derived(i.rid, raw.message);
      var reply := Reply([Sign(id, raw.message)], false);
      var ok := store.WriteSignatureRequest(id, Answer(hash, raw.message, None, Initial, i.createdAt), raw, i.rid, i.oid, reply);
      return if ok then Some(reply) else None;
    }

    method ApproveAccount(i: K.Input) returns (r: Option<Reply>)
      requires i.action.ApproveAccount?
      modifies store
      ensures Ran(old(store.State()), K.HandleApproveAccount(old(store.State()), i), r)
      ensures OneEach(old(store.transactions)) ==> OneEach(store.transactions)
    {
      hide FailRequest, WriteUnfinished, K.AskFor, OneEach;
      var a := i.action;
      if (i.holder in store.safes && store.safes[i.holder].state != Pending) || !a.valid || a.target !in store.proposals
         || store.proposals[a.target].holder != i.holder || store.proposals[a.target].setup !in store.transactions {
        r := Fail(i, Reply([], false));
        return;
      }
      var p := store.proposals[a.target];
      var raw := store.transactions[p.setup].raw;
      var ok := store.WriteUnfinishedSafe(i.holder, Account(p.signer, p.address, Pending, 0));
      if !ok { return None; }
      r := AskFor(i, p.setup, raw, a.sendable);
    }

    // ---- Deposits and transactions

    method CreateHolderDeposit(i: K.Input) returns (r: Option<Reply>)
      requires i.action.Deposit?
      modifies store
      ensures Ran(old(store.State()), K.HandleDeposit(old(store.State()), i), r)
      ensures store.transactions == old(store.transactions)
    {
      hide FailRequest, WriteDeposit;
      var a := i.action;
      if i.holder !in store.safes || !a.valid || store.safes[i.holder].state != Done || a.point in store.deposits {
        r := Fail(i, Reply([], false));
        return;
      }
      if !a.confirmed { return None; }
      if !a.found || !a.payable {
        r := Fail(i, Reply([], false));
        return;
      }
      var reply := Reply([Bond(i.holder, a.value)], false);
      var ok := store.CreateBalanceDeposit(i.holder, a.point, a.token, a.value, i.rid, i.oid, reply);
      return if ok then Some(reply) else None;
    }

    method ProposeTransaction(i: K.Input) returns (r: Option<Reply>)
      requires i.action.Propose?
      modifies store
      ensures Ran(old(store.State()), K.HandlePropose(old(store.State()), i), r)
      ensures OneEach(old(store.transactions)) ==> OneEach(store.transactions)
    {
      hide FailRequest, WriteTransaction, K.Unfinished, OneEach;
      var a := i.action;
      if i.holder !in store.safes || store.safes[i.holder].state != Done || K.Unfinished(store.State(), i.holder) != {} {
        r := Fail(i, Reply([], false));
        return;
      }
      if !a.priced {
        r := GiveBack(i, a.refundable);
        return;
      }
      if !a.valid {
        r := Fail(i, Reply([], false));
        return;
      }
      if !a.sendable {
        r := GiveBack(i, a.refundable);
        return;
      }
      var ok := store.WriteTransactionWithRequest(a.hash, SafeTx(i.holder, Initial, i.rid, false, false, a.raw), i.oid, K.Sent());
      return if ok then Some(K.Sent()) else None;
    }

    method ApproveTransaction(i: K.Input) returns (r: Option<Reply>)
      requires i.action.Approve? && OneEach(store.transactions)
      modifies store
      ensures Ran(old(store.State()), K.HandleApprove(old(store.State()), i), r)
      ensures OneEach(store.transactions)
    {
      hide FailRequest, K.AskFor, OneEach;
      var a := i.action;
      var h := store.ReadTransactionByRequestId(a.target);
      if i.holder !in store.safes || !a.valid || h.None? || store.transactions[h.value].state == Done
         || store.transactions[h.value].holder != i.holder {
        r := Fail(i, Reply([], false));
        return;
      }
      r := AskFor(i, h.value, a.raw, a.sendable);
    }

    method RevokeTransaction(i: K.Input) returns (r: Option<Reply>)
      requires i.action.Revoke? && OneEach(store.transactions)
      modifies store
      ensures Ran(old(store.State()), K.HandleRevoke(old(store.State()), i), r)
      ensures OneEach(store.transactions)
    {
      hide FailRequest, EthereumLedger.RevokeTransaction, OneEach;
      var a := i.action;
      var h := store.ReadTransactionByRequestId(a.target);
      if i.holder !in store.safes || !a.valid || h.None? || store.transactions[h.value].state != Initial
         || store.transactions[h.value].holder != i.holder || a.target !in store.requests {
        r := Fail(i, Reply([], false));
        return;
      }
      if !a.payable {
        r := Fail(i, Reply([], true));
        return;
      }
      var reply := Reply([Bond(i.holder, store.requests[a.target].amount)], false);
      var ok := store.RevokeTransactionWithRequest(h.value, i.rid, i.oid, reply);
      return if ok then Some(reply) else None;
    }

    method RefundTransaction(i: K.Input) returns (r: Option<Reply>)
      requires i.action.Refund? && OneEach(store.transactions)
      modifies store
      ensures Ran(old(store.State()), K.HandleRefund(old(store.State()), i), r)
      ensures OneEach(store.transactions)
    {
      hide FailRequest, FailTransaction, Credit, OneEach;
      var a := i.action;
      var h := store.ReadTransactionByRequestId(a.target);
      if i.holder !in store.safes || !a.valid || h.None? || store.transactions[h.value].holder != i.holder
         || store.transactions[h.value].state != Done {
        r := Fail(i, Reply([], false));
        return;
      }
      var balances := store.CreditAll(i.holder, store.transactions[h.value].raw.payments);
      if balances.None? { return None; }
      if !a.payable {
        r := Fail(i, Reply([], true));
        return;
      }
      var reply := Reply([Bond(i.holder, a.scaled)], false);
      var ok := store.FailTransactionWithRequest(h.value, i.holder, balances.value, i.rid, i.oid, reply);
      return if ok then Some(reply) else None;
    }

    // ---- Signatures come back

    method SignatureResponse(i: K.Input) returns (r: Option<Reply>)
      requires i.action.Respond?
      modifies store
      ensures Ran(old(store.State()), K.HandleRespond(old(store.State()), verify, i), r)
      ensures OneEach(old(store.transactions)) ==> OneEach(store.transactions)
    {
      hide FailRequest, FinishAnswer, K.Finishing, OneEach;
      if i.rid !in store.answers || store.answers[i.rid].state == Done {
        r := Fail(i, Reply([], false));
        return;
      }
      var q := store.answers[i.rid];
      if q.hash !in store.transactions || store.transactions[q.hash].holder !in store.safes { return None; }
      var t := store.transactions[q.hash];
      var safe := store.safes[t.holder];
      if safe.signer != i.holder || !verify(i.holder, q.message, i.action.sig) {
        r := Fail(i, Reply([], false));
        return;
      }
      var ok := store.FinishSignatureRequest(i.rid, i.action.sig);
      if !ok { return None; }
      r := FinishTransaction(i, q.hash, t, safe);
    }

    method FinishTransaction(i: K.Input, hash: Hash, t: SafeTx, safe: Account) returns (r: Option<Reply>)
      requires i.action.Respond?
      modifies store
      ensures Ran(old(store.State()), K.Finishing(old(store.State()), verify, i, hash, t, safe), r)
      ensures OneEach(old(store.transactions)) ==> OneEach(store.transactions)
    {
      hide FailRequest, EthereumLedger.FinishTransaction, Debit, OneEach, K.Latest, K.PaysNothing;
      var latest := store.LatestSignature(hash);
      NoLatest(store.State(), hash);
      if latest.None? { return None; }
      forall x | K.Latest(store.State(), hash, x) ensures x == latest.value { OneLatest(store.State(), hash, x, latest.value); }
      LatestAnswered(store.State(), hash, latest.value);
      if !verify(safe.signer, t.raw.message, store.answers[latest.value].signature.value) { return None; }
      var updated, state := store.balances, Done;
      if safe.state == Pending {
        if !i.action.sendable {
          r := Fail(i, Reply([], false));
          return;
        }
        if !i.action.guard || !K.PaysNothing(t.raw.payments) { return None; }
      } else {
        var debited := store.DebitAll(t.holder, t.raw.payments);
        if debited.Unknown? { return None; }
        if debited.Short? || !i.action.sendable {
          r := Fail(i, Reply([], false));
          return;
        }
        updated, state := debited.balances, safe.state;
      }
      var ok := store.FinishTransactionSignatures(hash, t.holder, state, updated, i.rid, i.oid, K.Sent());
      return if ok then Some(K.Sent()) else None;
    }

    // ---- Closing

    /** The checks common to both ways of closing; `over` if the handling ends with them. */
    method CheckClosing(i: K.Input, unlocked: bool, valid: bool, ps: seq<Payment>) returns (over: bool, r: Option<Reply>)
      modifies store
      ensures over <==> K.Unclosable(old(store.State()), i, unlocked, valid, ps).Some?
      ensures over ==> Ran(old(store.State()), K.Unclosable(old(store.State()), i, unlocked, valid, ps).value, r)
      ensures !over ==> store.State() == old(store.State())
      ensures store.transactions == old(store.transactions)
    {
      hide FailRequest, ClosePays;
      over, r := true, None;
      if !K.Closable(store.State(), i.holder) {
        r := Fail(i, Reply([], false));
        return;
      }
      if !unlocked { return; }
      if !valid {
        r := Fail(i, Reply([], false));
        return;
      }
      var compared := store.CompareOutputs(i.holder, ps);
      if compared.Missing? { return; }
      if compared.Different? {
        r := Fail(i, Reply([], false));
        return;
      }
      over := false;
    }

    method CloseAccountWithHolder(i: K.Input) returns (r: Option<Reply>)
      requires i.action.CloseWithHolder?
      modifies store
      ensures Ran(old(store.State()), K.HandleCloseWithHolder(old(store.State()), i), r)
      ensures OneEach(old(store.transactions)) ==> OneEach(store.transactions)
    {
      hide FailRequest, CloseByTransaction, K.Unfinished, K.Unclosable, OneEach;
      var a := i.action;
      var over;
      over, r := CheckClosing(i, a.unlocked, a.valid, a.raw.payments);
      if over { return; }
      if K.Unfinished(store.State(), i.holder) != {} || !a.signed || !a.sendable {
        r := Fail(i, Reply([], false));
        return;
      }
      var ok := store.CloseAccountByTransaction(a.hash, SafeTx(i.holder, Done, i.rid, false, true, a.raw), i.oid, K.Sent());
      return if ok then Some(K.Sent()) else None;
    }

    method CloseAccountWithoutHolder(i: K.Input) returns (r: Option<Reply>)
      requires i.action.CloseWithoutHolder? && OneEach(store.transactions)
      modifies store
      ensures Ran(old(store.State()), K.HandleCloseWithoutHolder(old(store.State()), i), r)
      ensures OneEach(store.transactions)
    {
      hide FailRequest, WriteAnswer, K.Unfinished, ClosePays, OneEach;
      var a := i.action;
      var over;
      over, r := CheckClosing(i, a.unlocked, a.valid, a.raw.payments);
      if over { return; }
      var h := store.ReadTransactionByRequestId(a.target);
      if |K.Unfinished(store.State(), i.holder)| != 1 || h.None?
         || store.transactions[h.value].state == Done || store.transactions[h.value].holder != i.holder
         || a.raw.message != store.transactions[h.value].raw.message {
        r := Fail(i, Reply([], false));
        return;
      }
      if store.safes[i.holder].state == Failed || !a.sendable {
        r := AskFor(i, h.value, a.raw, a.sendable);
        return;
      }
      var id := Derived(i.rid, a.raw.message);
      var reply := Reply([Sign(id, a.raw.message)], false);
      var ok := store.CloseAccountBySignatureRequest(i.holder, id, Answer(h.value, a.raw.message, None, Initial, i.createdAt), a.raw, i.rid, i.oid, reply);
      return if ok then Some(reply) else None;
    }

    // ---- One output

    method Dispatch(i: K.Input) returns (r: Option<Reply>)
      requires OneEach(store.transactions)
      modifies store
      ensures Ran(old(store.State()), K.Handle(old(store.State()), keyOf, verify, i), r)
      ensures OneEach(store.transactions)
    {
      hide K.HandleProposeAccount, K.HandleApproveAccount, K.HandleDeposit, K.HandlePropose, K.HandleApprove, K.HandleRevoke,
        K.HandleRefund, K.HandleRespond, K.HandleCloseWithHolder, K.HandleCloseWithoutHolder, OneEach;
      match i.action
      case Ignore => return None;
      case ProposeAccount(_, _, _, _, _, _, _, _, _) => r := ProposeAccount(i);
      case ApproveAccount(_, _, _) => r := ApproveAccount(i);
      case Deposit(_, _, _, _, _, _, _) => r := CreateHolderDeposit(i);
      case Propose(_, _, _, _, _, _) => r := ProposeTransaction(i);
      case Approve(_, _, _, _) => r := ApproveTransaction(i);
      case Revoke(_, _, _) => r := RevokeTransaction(i);
      case Refund(_, _, _, _) => r := RefundTransaction(i);
      case Respond(_, _, _) => r := SignatureResponse(i);
      case CloseWithHolder(_, _, _, _, _, _) => r := CloseAccountWithHolder(i);
      case CloseWithoutHolder(_, _, _, _, _) => r := CloseAccountWithoutHolder(i);
    }

    /** Handles one output as its specification does, and keeps what every run keeps. */
    method ProcessAction(i: K.Input) returns (r: Option<Reply>)
      requires Valid()
      modifies store
      ensures Ran(old(store.State()), K.Process(old(store.State()), keyOf, verify, i), r)
      ensures Valid()
    {
      hide K.Handle, I.Inv, OneEach;
      ghost var before := store.State();
      if i.rid in store.requests && store.requests[i.rid].state != Initial {
        if i.oid in store.results {
          r := Some(store.results[i.oid]);
        } else {
          store.WriteEmptyResult(i.oid);
          r := Some(Reply([], false));
        }
      } else if i.action.Ignore? {
        r := Some(Reply([], false));
      } else {
        store.WriteRequestIfNotExist(i.rid, i.amount);
        ghost var written := store.State();
        r := Dispatch(i);
        LastOf(before, written, K.Handle(written, keyOf, verify, i));
      }
      S.NextOk(before, keyOf, verify, S.Event(i, None));
    }
  }

  lemma {:induction false} LastOf(l: Books, l0: Books, inner: K.Run)
    ensures K.Last(l, K.Run([l0] + inner.commits, inner.reply)) == K.Last(l0, inner)
  {
  }

  lemma {:induction false} NoLatest(l: Books, hash: Hash)
    ensures (forall q :: !K.Answered(l, hash, q)) ==> !exists r :: K.Latest(l, hash, r)
  {
  }

  lemma {:induction false} LatestAnswered(l: Books, hash: Hash, r: Rid)
    requires K.Latest(l, hash, r)
    ensures K.Answered(l, hash, r)
  {
  }
}
