/** The handlers of the keeper for Bitcoin and Litecoin safes as they run, against the store they update. */
module Keeper {
  import opened Options
  import opened KeeperTypes
  import opened KeeperLedger
  import B = KeeperBitcoin
  import C = KeeperCoupling
  import H = KeeperHistory
  import N = KeeperNode
  import S = KeeperSafety
  import opened KeeperStore

  class Keeper {
    const store: Store
    const verify: B.Verifier
    /** The request of an output that was left unfinished. */
    ghost var pending: Option<(Rid, nat)>

    constructor (verify: B.Verifier)
      ensures this.verify == verify && fresh(store) && store.State() == Empty() && Valid()
    {
      this.verify := verify;
      store := new Store();
      pending := None;
      new;
      N.RunOk(verify, []);
    }

    /** What every run of the keeper keeps. */
    ghost predicate Valid()
      reads this, store
    {
      N.NodeOk(N.Node(store.State(), pending), verify) && S.Spaced(store.State().signatures)
    }

    /** The method ended as its specification does. */
    ghost predicate Ran(was: Ledger, run: B.Run, reply: Option<Reply>)
      reads store
    {
      reply == run.reply && store.State() == B.Last(was, run)
    }

    method Fail(i: B.Input, reply: Reply) returns (r: Option<Reply>)
      modifies store
      ensures Ran(old(store.State()), B.Commit(FailRequest(old(store.State()), i.rid, i.oid, reply), reply), r)
    {
      hide FailRequest;
      var ok := store.FailRequest(i.rid, i.oid, reply);
      return if ok then Some(reply) else None;
    }

    method RefundAndFail(i: B.Input, refundable: bool) returns (r: Option<Reply>)
      modifies store
      ensures Ran(old(store.State()), B.Refund(old(store.State()), i, refundable), r)
    {
      r := Fail(i, if refundable then Reply([Bond(i.holder, i.amount)], false) else Reply([], true));
    }

    method ReadTransactionByRequestId(rid: Rid) returns (r: Option<Hash>)
      requires C.OneEach(store.State())
      ensures r == B.ByRequest(store.State(), rid)
    {
      if h :| h in store.transactions && store.transactions[h].requestId == rid {
        return Some(h);
      }
      return None;
    }

    // ---- Accounts and deposits

    method ApproveAccount(i: B.Input) returns (r: Option<Reply>)
      requires i.action.ApproveAccount?
      modifies store
      ensures Ran(old(store.State()), B.HandleApproveAccount(old(store.State()), i), r)
    {
      hide FailRequest, WriteSafe;
      var a := i.action;
      if i.holder in store.safes || !a.valid || !a.sendable {
        r := Fail(i, B.Nothing());
        return;
      }
      var ok := store.WriteSafeWithRequest(i.holder, a.safe.(state := Done, nonce := 0), i.rid, i.oid, B.Sent());
      return if ok then Some(B.Sent()) else None;
    }

    method CreateHolderDeposit(chain: map<Hash, B.ChainTx>, i: B.Input) returns (r: Option<Reply>)
      requires i.action.Deposit?
      modifies store
      ensures Ran(old(store.State()), B.HandleDeposit(old(store.State()), chain, i), r)
    {
      hide FailRequest, B.DepositRun, B.CountUnspent, B.IsChange;
      var a, p := i.action, i.action.point;
      if i.holder !in store.safes || !a.valid || store.safes[i.holder].state != Done {
        r := Fail(i, B.Nothing());
        return;
      }
      var safe := store.safes[i.holder];
      if p in store.outputs || p in store.deposits || B.CountUnspent(store.State(), safe.address) >= MAX_UNSPENT {
        r := Fail(i, B.Nothing());
        return;
      }
      if p.hash !in chain || chain[p.hash].vin == [] { return None; }
      var change := B.IsChange(store.State(), chain[p.hash], p.index);
      if change.None? { return None; }
      r := this.WriteDeposit(chain[p.hash], i, safe, change.value);
    }

    /** The rest of `doBitcoinHolderDeposit`, once it is known whether the output is change. */
    method WriteDeposit(tx: B.ChainTx, i: B.Input, safe: Safe, change: bool) returns (r: Option<Reply>)
      requires i.action.Deposit?
      modifies store
      ensures Ran(old(store.State()), B.DepositRun(old(store.State()), tx, i, safe, change), r)
    {
      hide FailRequest, WriteOutput;
      var a, p := i.action, i.action.point;
      if !a.minimum && !change {
        r := Fail(i, B.Nothing());
        return;
      }
      if a.value < Dust(safe.chain) { return None; }
      if !a.informed {
        r := Fail(i, B.Nothing());
        return;
      }
      if p.index >= |tx.outs| || tx.outs[p.index] != Pay(safe.address, a.value) || !a.final { return None; }
      if !change && !a.payable {
        r := Fail(i, B.Nothing());
        return;
      }
      var ok := store.WriteBitcoinOutput(safe, p, a.value, i.rid, i.oid, B.Deposited(i, change));
      return if ok then Some(B.Deposited(i, change)) else None;
    }

    // ---- Proposing

    method SumInputs(points: seq<OutPoint>) returns (n: nat)
      ensures n == SumSatoshi(store.outputs, points)
    {
      n := 0;
      for k := 0 to |points|
        invariant SumSatoshi(store.outputs, points) == n + SumSatoshi(store.outputs, points[k..])
      {
        assert points[k..][0] == points[k] && points[k..][1..] == points[k + 1..];
        if points[k] in store.outputs { n := n + store.outputs[points[k]].satoshi; }
      }
    }

    method SumRecipients(outs: seq<TxOut>) returns (n: nat)
      ensures n == B.SumPaid(outs)
    {
      n := 0;
      for k := 0 to |outs|
        invariant B.SumPaid(outs) == n + B.SumPaid(outs[k..])
      {
        assert outs[k..][0] == outs[k] && outs[k..][1..] == outs[k + 1..];
        if outs[k].Pay? { n := n + outs[k].satoshi; }
      }
    }

    method ProposeTransaction(i: B.Input) returns (r: Option<Reply>)
      requires i.action.Propose?
      modifies store
      ensures Ran(old(store.State()), B.HandlePropose(old(store.State()), i), r)
    {
      hide FailRequest, WriteTransaction, Unspent, SumSatoshi, B.SumPaid;
      var a := i.action;
      if i.holder !in store.safes || store.safes[i.holder].state != Done || i.bondOf != Some(i.holder) {
        r := Fail(i, B.Nothing());
        return;
      }
      if !a.priced {
        r := RefundAndFail(i, a.refundable);
        return;
      }
      var total := SumRecipients(a.recipients);
      if !a.valid || |a.recipients| > 256 || total != i.amount {
        r := Fail(i, B.Nothing());
        return;
      }
      var safe := store.safes[i.holder];
      var inputs := store.ListAllBitcoinUTXOs(safe.address);
      var funds := SumInputs(inputs);
      if i.amount > funds {
        r := RefundAndFail(i, a.refundable);
        return;
      }
      if !a.buildable || |a.sighashes| != |inputs| || inputs == [] || a.recipients == [] { return None; }
      if !a.sendable {
        r := RefundAndFail(i, a.refundable);
        return;
      }
      var outs := a.recipients;
      if funds - i.amount > Dust(safe.chain) { outs := outs + [Pay(safe.address, funds - i.amount)]; }
      outs := outs + [Data];
      var t := Transaction(i.holder, Initial, i.rid, true, inputs, outs, a.sighashes, a.recipients);
      assert outs == B.BuildOuts(a.recipients, safe.address, funds - i.amount, safe.chain);
      var ok := store.WriteTransactionWithRequest(a.hash, t, inputs, i.oid, B.Sent());
      return if ok then Some(B.Sent()) else None;
    }

    // ---- Asking for signatures

    /** The loop over the inputs that makes the signature requests; `same` says for which inputs the holder agreed. */
    method NewRequests(hash: Hash, t: Transaction, signer: Key, i: B.Input, same: seq<bool>, messages: seq<string>) returns (wanted: seq<Wanted>)
      requires |t.inputs| == |same| == |messages|
      ensures wanted == B.NewSignatures(store.State(), hash, t, signer, i.rid, i.createdAt, same, messages, 0)
    {
      hide B.SignaturePending;
      wanted := [];
      ghost var l := store.State();
      for idx := 0 to |t.inputs|
        invariant B.NewSignatures(l, hash, t, signer, i.rid, i.createdAt, same, messages, 0) ==
                  wanted + B.NewSignatures(l, hash, t, signer, i.rid, i.createdAt, same, messages, idx)
      {
        if !same[idx] { continue; }
        if !B.Multisig(store.State(), t.inputs[idx]) { continue; }
        var waiting := store.CheckTransactionIndexSignaturePending(hash, idx, i.createdAt);
        if waiting { continue; }
        wanted := wanted + [(Derived(i.rid, messages[idx]), SignatureRequest(hash, idx, signer, messages[idx], None, Initial, i.createdAt))];
      }
    }

    method SignerRequests(wanted: seq<Wanted>) returns (sent: seq<Emitted>)
      ensures sent == B.SignRequests(wanted)
    {
      sent := [];
      for k := 0 to |wanted|
        invariant B.SignRequests(wanted) == sent + B.SignRequests(wanted[k..])
      {
        assert wanted[k..][0] == wanted[k] && wanted[k..][1..] == wanted[k + 1..];
        sent := sent + [Sign(wanted[k].0, wanted[k].1.message)];
      }
    }

    method ApproveTransaction(i: B.Input) returns (r: Option<Reply>)
      requires i.action.Approve? && C.OneEach(store.State())
      modifies store
      ensures Ran(old(store.State()), B.HandleApprove(old(store.State()), i), r)
    {
      hide FailRequest, WriteSignatures, B.NewSignatures, B.SignRequests, C.OneEach;
      var a := i.action;
      var h := ReadTransactionByRequestId(a.target);
      if i.holder !in store.safes || !a.valid || h.None? {
        r := Fail(i, B.Nothing());
        return;
      }
      var hash, t := h.value, store.transactions[h.value];
      if t.state == Done || t.holder != i.holder {
        r := Fail(i, B.Nothing());
        return;
      }
      if |a.same| != |t.inputs| || |t.sighashes| != |t.inputs| || !B.InputsKnown(store.State(), t) { return None; }
      var wanted := NewRequests(hash, t, store.safes[i.holder].signer, i, a.same, t.sighashes);
      if wanted == [] || !a.sendable {
        r := Fail(i, B.Nothing());
        return;
      }
      var sent := SignerRequests(wanted);
      var ok := store.WriteSignatureRequests(wanted, hash, i.rid, i.oid, Reply(sent, false));
      return if ok then Some(Reply(sent, false)) else None;
    }

    // ---- Signatures come back

    /** Goes through the inputs with the latest answer for each. */
    method ScanInputs(hash: Hash, t: Transaction, key: Key) returns (s: B.Scan)
      requires |t.inputs| == |t.sighashes| && S.Spaced(store.State().signatures)
      ensures s == B.ScanInputs(store.State(), verify, key, hash, t, 0)
    {
      hide S.Spaced;
      var latest := store.ListAllSignatures(hash);
      ghost var l := store.State();
      for idx := 0 to |t.inputs|
        invariant B.ScanInputs(l, verify, key, hash, t, 0) == B.ScanInputs(l, verify, key, hash, t, idx)
      {
        if t.inputs[idx] !in store.outputs { return B.Broken; }
        if !B.Multisig(store.State(), t.inputs[idx]) { continue; }
        if idx !in latest {
          assert !exists r :: B.Latest(l, hash, idx, r);
          return B.Missing;
        }
        OnlyLatest(l, verify, key, hash, t, idx, latest[idx]);
        var q := store.signatures[latest[idx]];
        if q.message != t.sighashes[idx] || !verify(key, t.sighashes[idx], q.signature.value) { return B.Broken; }
      }
      return B.AllSigned;
    }

    method SignatureResponse(i: B.Input) returns (r: Option<Reply>)
      requires i.action.Respond? && S.Spaced(store.State().signatures)
      modifies store
      ensures Ran(old(store.State()), B.HandleRespond(old(store.State()), verify, i), r)
    {
      hide FailRequest, FinishSignature, B.Finishing, S.Spaced;
      if i.rid !in store.signatures || store.signatures[i.rid].state == Done {
        r := Fail(i, B.Nothing());
        return;
      }
      var q := store.signatures[i.rid];
      if q.hash !in store.transactions || store.transactions[q.hash].holder !in store.safes { return None; }
      var t := store.transactions[q.hash];
      var safe := store.safes[t.holder];
      if safe.signer != i.holder || !verify(safe.signer, q.message, i.action.sig) {
        r := Fail(i, B.Nothing());
        return;
      }
      ghost var was := store.State();
      var ok := store.FinishSignatureRequest(i.rid, i.action.sig);
      if !ok { return None; }
      StillSpaced(was, i.rid, i.action.sig);
      r := FinishTransaction(i, q.hash, t, safe);
    }

    method FinishTransaction(i: B.Input, hash: Hash, t: Transaction, safe: Safe) returns (r: Option<Reply>)
      requires i.action.Respond? && S.Spaced(store.State().signatures)
      modifies store
      ensures Ran(old(store.State()), B.Finishing(old(store.State()), verify, i, hash, t, safe), r)
    {
      hide FailRequest, KeeperLedger.FinishTransaction, B.ScanInputs, S.Spaced;
      if |t.sighashes| != |t.inputs| { return None; }
      var scan := ScanInputs(hash, t, safe.signer);
      if scan == B.Broken { return None; }
      if scan == B.Missing || !i.action.sendable {
        r := Fail(i, B.Nothing());
        return;
      }
      var ok := store.FinishTransactionSignatures(hash, |t.inputs|, t.holder, i.rid, i.oid, B.Sent());
      return if ok then Some(B.Sent()) else None;
    }

    // ---- Revoking and closing

    method RevokeTransaction(i: B.Input) returns (r: Option<Reply>)
      requires i.action.Revoke? && C.OneEach(store.State())
      modifies store
      ensures Ran(old(store.State()), B.HandleRevoke(old(store.State()), i), r)
    {
      hide FailRequest, KeeperLedger.RevokeTransaction, C.OneEach;
      var a := i.action;
      var h := ReadTransactionByRequestId(a.target);
      if i.holder !in store.safes || !a.valid || h.None? {
        r := Fail(i, B.Nothing());
        return;
      }
      var t := store.transactions[h.value];
      if t.holder != i.holder || t.state != Initial || a.target !in store.requests {
        r := Fail(i, B.Nothing());
        return;
      }
      if !a.payable {
        r := Fail(i, Reply([], true));
        return;
      }
      var reply := Reply([Bond(i.holder, store.requests[a.target].amount)], false);
      var ok := store.RevokeTransactionWithRequest(h.value, t, store.safes[i.holder], i.rid, i.oid, reply);
      return if ok then Some(reply) else None;
    }

    method CloseAccountWithHolder(i: B.Input) returns (r: Option<Reply>)
      requires i.action.CloseWithHolder?
      modifies store
      ensures Ran(old(store.State()), B.HandleCloseWithHolder(old(store.State()), i), r)
    {
      hide FailRequest, CloseByTransaction, Unspent, B.Unfinished;
      var a := i.action;
      if !B.Closable(store.State(), i.holder) || !a.valid || a.outs == [] || B.Unfinished(store.State(), i.holder) != {} || !a.signed || !a.sendable {
        r := Fail(i, B.Nothing());
        return;
      }
      var inputs := store.ListAllBitcoinUTXOs(store.safes[i.holder].address);
      var ok := store.CloseAccountByTransaction(a.hash, B.Closing(i), inputs, i.oid, B.Sent());
      return if ok then Some(B.Sent()) else None;
    }

    method CloseAccountWithoutHolder(i: B.Input) returns (r: Option<Reply>)
      requires i.action.CloseWithoutHolder? && C.OneEach(store.State())
      modifies store
      ensures Ran(old(store.State()), B.HandleCloseWithoutHolder(old(store.State()), i), r)
    {
      hide FailRequest, WriteSignatures, CloseBySignatures, Unspent, B.Unfinished, B.NewSignatures, B.SignRequests, C.OneEach;
      var a := i.action;
      var h := ReadTransactionByRequestId(a.target);
      if !B.Closable(store.State(), i.holder) || !a.valid || |B.Unfinished(store.State(), i.holder)| != 1 {
        r := Fail(i, B.Nothing());
        return;
      }
      var safe := store.safes[i.holder];
      var inputs := store.ListAllBitcoinUTXOs(safe.address);
      if inputs != [] || h.None? {
        r := Fail(i, B.Nothing());
        return;
      }
      var hash, t := h.value, store.transactions[h.value];
      if t.state == Done || t.holder != i.holder || a.hash != hash {
        r := Fail(i, B.Nothing());
        return;
      }
      if |a.messages| != |t.inputs| || !B.InputsKnown(store.State(), t) || !a.matured { return None; }
      var wanted := NewRequests(hash, t, safe.signer, i, seq(|t.inputs|, _ => true), a.messages);
      if !a.totals || wanted == [] || !a.sendable {
        r := Fail(i, B.Nothing());
        return;
      }
      var sent := SignerRequests(wanted);
      var ok;
      if safe.state == Done {
        ok := store.CloseAccountBySignatureRequests(i.holder, wanted, hash, i.rid, i.oid, Reply(sent, false));
      } else {
        ok := store.WriteSignatureRequests(wanted, hash, i.rid, i.oid, Reply(sent, false));
      }
      return if ok then Some(Reply(sent, false)) else None;
    }

    // ---- One output

    method Dispatch(chain: map<Hash, B.ChainTx>, i: B.Input) returns (r: Option<Reply>)
      requires C.OneEach(store.State()) && S.Spaced(store.State().signatures)
      modifies store
      ensures Ran(old(store.State()), B.Handle(old(store.State()), chain, verify, i), r)
    {
      hide B.HandleApproveAccount, B.HandleDeposit, B.HandlePropose, B.HandleApprove, B.HandleRevoke, B.HandleRespond,
        B.HandleCloseWithHolder, B.HandleCloseWithoutHolder, C.OneEach, S.Spaced;
      match i.action
      case Ignore => return None;
      case ApproveAccount(_, _, _) => r := ApproveAccount(i);
      case Deposit(_, _, _, _, _, _, _) => r := CreateHolderDeposit(chain, i);
      case Propose(_, _, _, _, _, _, _, _) => r := ProposeTransaction(i);
      case Approve(_, _, _, _) => r := ApproveTransaction(i);
      case Revoke(_, _, _) => r := RevokeTransaction(i);
      case Respond(_, _) => r := SignatureResponse(i);
      case CloseWithHolder(_, _, _, _, _, _) => r := CloseAccountWithHolder(i);
      case CloseWithoutHolder(_, _, _, _, _, _, _) => r := CloseAccountWithoutHolder(i);
    }

    /** Handles one output as its specification does, and keeps what every run keeps. */
    method ProcessAction(chain: map<Hash, B.ChainTx>, i: B.Input) returns (r: Option<Reply>)
      requires Valid() && N.Allowed(N.Node(store.State(), pending), N.Event(i, chain, None))
      modifies this, store
      ensures Ran(old(store.State()), B.Process(old(store.State()), chain, verify, i), r)
      ensures Valid()
    {
      hide B.Handle, S.Spaced, N.NodeOk, WriteRequest;
      ghost var before := N.Node(store.State(), pending);
      ghost var e := N.Event(i, chain, None);
      if i.rid in store.requests && store.requests[i.rid].state != Initial {
        if i.oid in store.results {
          r := Some(store.results[i.oid]);
        } else {
          var ok := store.WriteActionResult(i.oid, B.Nothing());
          r := if ok then Some(B.Nothing()) else None;
        }
      } else if i.action.Ignore? {
        r := Some(B.Nothing());
      } else {
        store.WriteRequestIfNotExist(i.rid, i.amount);
        Ready(before, verify, e);
        r := Dispatch(chain, i);
        N.ProcessUnfold(before.ledger, chain, verify, i, 0);
      }
      pending := N.Next(before, verify, e).pending;
      NextValid(before, verify, e);
      NextRan(before, verify, e);
    }
  }

  lemma {:induction false} Ready(n: N.Node, verify: B.Verifier, e: N.Event)
    requires N.NodeOk(n, verify) && N.Allowed(n, e) && !N.Handled(n.ledger, e.i) && S.Spaced(n.ledger.signatures)
    ensures var l0 := WriteRequest(n.ledger, e.i.rid, e.i.amount);
            C.OneEach(l0) && S.Spaced(l0.signatures)
  {
    N.RequestWritten(n, verify, e);
    S.Written(n.ledger, e.i.rid, e.i.amount);
  }

  lemma {:induction false} NextValid(n: N.Node, verify: B.Verifier, e: N.Event)
    requires N.NodeOk(n, verify) && N.Allowed(n, e) && S.Spaced(n.ledger.signatures)
    ensures N.NodeOk(N.Next(n, verify, e), verify) && S.Spaced(N.Next(n, verify, e).ledger.signatures)
  {
    hide N.NodeOk, S.Spaced, N.Next, N.Allowed;
    N.NextOk(n, verify, e);
    S.NextMoves(n, verify, e);
    S.SpacedMoves(n.ledger.signatures, N.Next(n, verify, e).ledger.signatures);
  }

  /** An output that is not interrupted leaves the ledger where its handling ends. */
  lemma {:induction false} NextRan(n: N.Node, verify: B.Verifier, e: N.Event)
    requires e.stop.None?
    ensures N.Next(n, verify, e).ledger == B.Last(n.ledger, B.Process(n.ledger, e.chain, verify, e.i))
  {
    hide B.Process;
  }

  /** Requests for one input are never made at the same time, so that there is one latest answer. */
  lemma {:induction false} OneLatest(l: Ledger, hash: Hash, idx: nat, a: Rid, b: Rid)
    requires S.Spaced(l.signatures) && B.Latest(l, hash, idx, a) && B.Latest(l, hash, idx, b)
    ensures a == b
  {
    assert H.Same(l.signatures[b], l.signatures[a].hash, l.signatures[a].index);
    assert l.signatures[a].createdAt == l.signatures[b].createdAt;
  }

  lemma {:induction false} OnlyLatest(l: Ledger, verify: B.Verifier, key: Key, hash: Hash, t: Transaction, idx: nat, r: Rid)
    requires S.Spaced(l.signatures) && B.Latest(l, hash, idx, r)
    requires idx < |t.inputs| == |t.sighashes| && t.inputs[idx] in l.outputs && B.Multisig(l, t.inputs[idx])
    ensures B.ScanInputs(l, verify, key, hash, t, idx) ==
            if l.signatures[r].message != t.sighashes[idx] || !verify(key, t.sighashes[idx], l.signatures[r].signature.value) then B.Broken
            else B.ScanInputs(l, verify, key, hash, t, idx + 1)
  {
    hide S.Spaced;
    forall q | B.Latest(l, hash, idx, q) ensures q == r { OneLatest(l, hash, idx, q, r); }
  }

  lemma {:induction false} StillSpaced(l: Ledger, rid: Rid, sig: Sig)
    requires S.Spaced(l.signatures)
    ensures FinishSignature(l, rid, sig).Some? ==> S.Spaced(FinishSignature(l, rid, sig).value.signatures)
  {
  }
}
