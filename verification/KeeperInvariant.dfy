/** Every commit of every handler keeps the coupling. */
module KeeperInvariant {
  import opened Options
  import opened KeeperTypes
  import opened KeeperLedger
  import opened KeeperBitcoin
  import opened KeeperCoupling

  /** Nothing but requests and results changed, and no request changed its amount. */
  ghost predicate OnlyRequests(l: Ledger, l': Ledger)
  {
    && l' == l.(requests := l'.requests, results := l'.results)
    && (forall r :: r in l.requests ==> r in l'.requests && l'.requests[r].amount == l.requests[r].amount)
  }

  /** The accounts behind the transactions are the same, as far as the transactions can tell. */
  ghost predicate AccountsKept(l: Ledger, l': Ledger)
  {
    && l' == l.(requests := l'.requests, results := l'.results, safes := l'.safes)
    && (forall r :: r in l.requests ==> r in l'.requests && l'.requests[r].amount == l.requests[r].amount)
    && (forall a :: a in l.safes ==> a in l'.safes && l'.safes[a].address == l.safes[a].address && l'.safes[a].signer == l.safes[a].signer)
  }

  lemma {:induction false} AccountsTransactions(l: Ledger, l': Ledger, h: Hash)
    requires AccountsKept(l, l') && h in l.transactions && TransactionOk(l, h)
    ensures TransactionOk(l', h)
  {
    forall o, s | Held(l, h, o, s) ensures Held(l', h, o, s) {}
  }

  lemma {:induction false} AccountsInv(l: Ledger, l': Ledger, verify: Verifier)
    requires Inv(l, verify) && AccountsKept(l, l') && SafesOk(l')
    ensures Inv(l', verify)
  {
    hide TransactionOk, FullySigned, SafesOk;
    forall o | o in l'.outputs ensures OutputOk(l', o) { assert OutputOk(l, o); }
    forall h | h in l'.transactions ensures TransactionOk(l', h) { AccountsTransactions(l, l', h); }
    forall r | r in l'.signatures ensures SignatureOk(l', verify, r) { assert SignatureOk(l, verify, r); }
    SignedKept(l, l', verify);
  }

  lemma {:induction false} RequestsInv(l: Ledger, l': Ledger, verify: Verifier)
    requires Inv(l, verify) && OnlyRequests(l, l')
    ensures Inv(l', verify)
  {
    AccountsInv(l, l', verify);
  }

  /** The closing steps shared by all store transactions. */
  lemma {:induction false} ClosingSteps(l: Ledger, rid: Rid, oid: string, reply: Reply)
    ensures MarkDone(l, rid).Some? ==> OnlyRequests(l, MarkDone(l, rid).value)
    ensures WriteResult(l, oid, reply).Some? ==> OnlyRequests(l, WriteResult(l, oid, reply).value)
    ensures FailRequest(l, rid, oid, reply).Some? ==> OnlyRequests(l, FailRequest(l, rid, oid, reply).value)
  {
  }

  // ---- New safes and new outputs

  lemma {:induction false} SafeInv(l: Ledger, verify: Verifier, holder: Holder, s: Safe)
    requires Inv(l, verify) && holder !in l.safes && Unused(l, s)
    ensures Inv(l.(safes := l.safes[holder := s]), verify)
  {
    AccountsInv(l, l.(safes := l.safes[holder := s]), verify);
  }

  /** Signatures and the transactions they belong to are kept, and so are the signers of their safes. */
  ghost predicate SignaturesKept(l: Ledger, l': Ledger)
  {
    && (forall r :: r in l.signatures ==>
          && r in l'.signatures
          && l'.signatures[r].hash == l.signatures[r].hash && l'.signatures[r].index == l.signatures[r].index
          && l'.signatures[r].message == l.signatures[r].message
          && (l.signatures[r].signature.Some? ==> l'.signatures[r].signature == l.signatures[r].signature))
    && (forall h :: h in l.transactions ==>
          && h in l'.transactions
          && l'.transactions[h].sighashes == l.transactions[h].sighashes && l'.transactions[h].inputs == l.transactions[h].inputs
          && l'.transactions[h].holder == l.transactions[h].holder && l'.transactions[h].proposed == l.transactions[h].proposed)
    && (forall a :: a in l.safes ==> a in l'.safes && l'.safes[a].signer == l.safes[a].signer)
  }

  lemma {:induction false} FullySignedKept(l: Ledger, l': Ledger, verify: Verifier, h: Hash)
    requires SignaturesKept(l, l') && h in l.transactions && FullySigned(l, verify, h)
    ensures h in l'.transactions && FullySigned(l', verify, h)
  {
    forall idx | 0 <= idx < |l'.transactions[h].inputs| ensures Signed(l', verify, h, idx) {
      assert Signed(l, verify, h, idx);
      var r :| SignedBy(l, verify, h, idx, r);
      assert SignedBy(l', verify, h, idx, r);
    }
  }

  lemma {:induction false} SignedKept(l: Ledger, l': Ledger, verify: Verifier)
    requires Inv(l, verify) && SignaturesKept(l, l')
    requires forall h :: h in l'.transactions && l'.transactions[h].proposed && l'.transactions[h].state == Done ==>
               h in l.transactions && l.transactions[h].state == Done
    ensures forall h :: h in l'.transactions && l'.transactions[h].proposed && l'.transactions[h].state == Done ==> FullySigned(l', verify, h)
  {
    forall h | h in l'.transactions && l'.transactions[h].proposed && l'.transactions[h].state == Done
      ensures FullySigned(l', verify, h)
    {
      FullySignedKept(l, l', verify, h);
    }
  }

  lemma {:induction false} NewOutputTransactions(l: Ledger, l': Ledger, h: Hash)
    requires h in l.transactions && TransactionOk(l, h)
    requires l' == l.(order := l'.order, outputs := l'.outputs, deposits := l'.deposits)
    requires forall o :: o in l.outputs ==> o in l'.outputs && l'.outputs[o] == l.outputs[o]
    ensures TransactionOk(l', h)
  {
    forall o, s | Held(l, h, o, s) ensures Held(l', h, o, s) {}
  }

  lemma {:induction false} OutputInv(l: Ledger, verify: Verifier, point: OutPoint, u: Output)
    requires Inv(l, verify) && point !in l.outputs && u.multisig && u.state == Initial && u.spentBy.None?
    ensures Inv(l.(order := l.order + [point], outputs := l.outputs[point := u], deposits := l.deposits + {point}), verify)
  {
    hide TransactionOk, FullySigned;
    var l' := l.(order := l.order + [point], outputs := l.outputs[point := u], deposits := l.deposits + {point});
    forall o | o in l'.outputs ensures OutputOk(l', o) { if o != point { assert OutputOk(l, o); } }
    forall h | h in l'.transactions ensures TransactionOk(l', h) { NewOutputTransactions(l, l', h); }
    forall r | r in l'.signatures ensures SignatureOk(l', verify, r) { assert SignatureOk(l, verify, r); }
    SignedKept(l, l', verify);
    assert point !in l.order;
  }

  // ---- Spending and giving back

  /** Unspent outputs may pass to a new transaction; the others do not notice. */
  lemma {:induction false} SpendOthers(l: Ledger, verify: Verifier, hash: Hash, points: seq<OutPoint>, outputs: map<OutPoint, Output>, state: State)
    requires Inv(l, verify) && hash !in l.transactions
    requires Spend(l.outputs, points, hash, state) == Some(outputs)
    requires forall o :: o in points ==> o in l.outputs && l.outputs[o].state == Initial
    ensures outputs.Keys == l.outputs.Keys
    ensures forall o :: o in l.outputs ==>
              outputs[o] == if o in points then l.outputs[o].(state := state, spentBy := Some(hash)) else l.outputs[o]
    ensures forall h, o, s :: Held(l, h, o, s) && s != Initial ==> Held(l.(outputs := outputs), h, o, s)
  {
    SpendExact(l.outputs, points, hash, state);
  }

  lemma {:induction false} InsertedOutputs(l: Ledger, verify: Verifier, hash: Hash, t: Transaction, points: seq<OutPoint>, outputs: map<OutPoint, Output>, state: State)
    requires Inv(l, verify) && hash !in l.transactions
    requires Spend(l.outputs, points, hash, state) == Some(outputs)
    requires forall o :: o in points ==> o in l.outputs && l.outputs[o].state == Initial
    requires (state == Pending && Open(t) && t.inputs == points) || (state == Done && t.state == Done)
    ensures var l' := l.(transactions := l.transactions[hash := t], outputs := outputs);
            forall o :: o in l'.outputs ==> OutputOk(l', o)
  {
    SpendOthers(l, verify, hash, points, outputs, state);
    var l' := l.(transactions := l.transactions[hash := t], outputs := outputs);
    forall o | o in l'.outputs ensures OutputOk(l', o) { assert OutputOk(l, o); }
  }

  lemma {:induction false} InsertedTransactions(l: Ledger, verify: Verifier, hash: Hash, t: Transaction, points: seq<OutPoint>, outputs: map<OutPoint, Output>, state: State)
    requires Inv(l, verify) && hash !in l.transactions
    requires Spend(l.outputs, points, hash, state) == Some(outputs)
    requires forall o :: o in points ==> o in l.outputs && l.outputs[o].state == Initial
    requires (state == Pending && Open(t) && t.proposed && t.inputs == points && BodyOk(l, t)) || (state == Done && t.state == Done && !t.proposed)
    ensures var l' := l.(transactions := l.transactions[hash := t], outputs := outputs);
            forall h :: h in l'.transactions ==> TransactionOk(l', h)
  {
    SpendOthers(l, verify, hash, points, outputs, state);
    var l' := l.(transactions := l.transactions[hash := t], outputs := outputs);
    forall h | h in l'.transactions ensures TransactionOk(l', h) {
      if h != hash {
        assert TransactionOk(l, h);
        forall o, s | Held(l, h, o, s) && s != Initial ensures Held(l', h, o, s) { assert Held(l.(outputs := outputs), h, o, s); }
      }
    }
  }

  lemma {:induction false} InsertInv(l: Ledger, verify: Verifier, hash: Hash, t: Transaction, points: seq<OutPoint>, outputs: map<OutPoint, Output>, state: State)
    requires Inv(l, verify) && hash !in l.transactions && !RequestTaken(l, t.requestId)
    requires Spend(l.outputs, points, hash, state) == Some(outputs)
    requires forall o :: o in points ==> o in l.outputs && l.outputs[o].state == Initial
    requires (state == Pending && Open(t) && t.proposed && t.inputs == points && BodyOk(l, t)) || (state == Done && t.state == Done && !t.proposed)
    ensures Inv(l.(transactions := l.transactions[hash := t], outputs := outputs), verify)
  {
    hide OutputOk, TransactionOk, FullySigned, Spend;
    SpendOthers(l, verify, hash, points, outputs, state);
    InsertedOutputs(l, verify, hash, t, points, outputs, state);
    InsertedTransactions(l, verify, hash, t, points, outputs, state);
    var l' := l.(transactions := l.transactions[hash := t], outputs := outputs);
    forall r | r in l'.signatures ensures SignatureOk(l', verify, r) { assert SignatureOk(l, verify, r); }
    SignedKept(l, l', verify);
  }

  lemma {:induction false} CloseSafeInv(l: Ledger, verify: Verifier, holder: Holder, s: Safe)
    requires Inv(l, verify) && holder in l.safes
    requires s.address == l.safes[holder].address && s.signer == l.safes[holder].signer
    ensures Inv(l.(safes := l.safes[holder := s]), verify)
  {
    AccountsInv(l, l.(safes := l.safes[holder := s]), verify);
  }

  /** The transaction is still waiting and its inputs have been given back. */
  ghost predicate Released(l: Ledger, hash: Hash, outputs: map<OutPoint, Output>)
  {
    && hash in l.transactions && l.transactions[hash].state == Initial
    && outputs.Keys == l.outputs.Keys
    && (forall o :: o in l.outputs ==>
          outputs[o] == if o in l.transactions[hash].inputs then l.outputs[o].(state := Initial, spentBy := None) else l.outputs[o])
  }

  lemma {:induction false} RevokedOutputs(l: Ledger, verify: Verifier, hash: Hash, outputs: map<OutPoint, Output>)
    requires Inv(l, verify) && Released(l, hash, outputs)
    ensures var l' := SetState(l.(outputs := outputs), hash, Failed);
            forall o :: o in l'.outputs ==> OutputOk(l', o)
  {
    var l' := SetState(l.(outputs := outputs), hash, Failed);
    forall o | o in l'.outputs ensures OutputOk(l', o) { assert OutputOk(l, o); }
  }

  lemma {:induction false} RevokedHeld(l: Ledger, verify: Verifier, hash: Hash, outputs: map<OutPoint, Output>, h: Hash, o: OutPoint, s: State)
    requires Inv(l, verify) && Released(l, hash, outputs) && h != hash && Held(l, h, o, s)
    ensures Held(SetState(l.(outputs := outputs), hash, Failed), h, o, s)
  {
    assert TransactionOk(l, hash);
    assert o in l.transactions[hash].inputs ==> Held(l, hash, o, Pending);
  }

  lemma {:induction false} RevokedTransactions(l: Ledger, verify: Verifier, hash: Hash, outputs: map<OutPoint, Output>)
    requires Inv(l, verify) && Released(l, hash, outputs)
    ensures var l' := SetState(l.(outputs := outputs), hash, Failed);
            forall h :: h in l'.transactions ==> TransactionOk(l', h)
  {
    var l' := SetState(l.(outputs := outputs), hash, Failed);
    forall h | h in l'.transactions ensures TransactionOk(l', h) {
      assert TransactionOk(l, h);
      forall o, s | h != hash && Held(l, h, o, s) ensures Held(l', h, o, s) { RevokedHeld(l, verify, hash, outputs, h, o, s); }
    }
  }

  lemma {:induction false} RevokedSignature(l: Ledger, verify: Verifier, hash: Hash, outputs: map<OutPoint, Output>, r: Rid)
    requires Released(l, hash, outputs) && r in l.signatures && SignatureOk(l, verify, r)
    ensures SignatureOk(SetState(l.(outputs := outputs), hash, Failed), verify, r)
  {
  }

  lemma {:induction false} RevokedKept(l: Ledger, hash: Hash, outputs: map<OutPoint, Output>)
    requires hash in l.transactions
    ensures SignaturesKept(l, SetState(l.(outputs := outputs), hash, Failed))
  {
  }

  lemma {:induction false} RevokeInv(l: Ledger, verify: Verifier, hash: Hash, outputs: map<OutPoint, Output>)
    requires Inv(l, verify) && Released(l, hash, outputs)
    ensures Inv(SetState(l.(outputs := outputs), hash, Failed), verify)
  {
    hide OutputOk, TransactionOk, SignatureOk, FullySigned, SignaturesKept;
    RevokedOutputs(l, verify, hash, outputs);
    RevokedTransactions(l, verify, hash, outputs);
    RevokedKept(l, hash, outputs);
    var l' := SetState(l.(outputs := outputs), hash, Failed);
    forall r | r in l'.signatures ensures SignatureOk(l', verify, r) { RevokedSignature(l, verify, hash, outputs, r); }
    SignedKept(l, l', verify);
  }

  // ---- Signatures

  /** All new, for one transaction that is open, and without an answer. */
  ghost predicate Fresh(l: Ledger, wanted: seq<Wanted>, hash: Hash)
  {
    && hash in l.transactions && Open(l.transactions[hash])
    && (forall i :: 0 <= i < |wanted| ==>
          && wanted[i].1.hash == hash && wanted[i].1.index < |l.transactions[hash].inputs|
          && wanted[i].1.state == Initial && wanted[i].1.signature.None?)
  }

  /** The requests are added and nothing else. */
  lemma {:induction false} InsertExact(sigs: map<Rid, SignatureRequest>, wanted: seq<Wanted>)
    ensures var r := InsertSignatures(sigs, wanted);
            r.Some? ==>
              && (forall id :: id in sigs ==> id in r.value && r.value[id] == sigs[id])
              && (forall id :: id in r.value && id !in sigs ==> (id, r.value[id]) in wanted)
              && (forall i :: 0 <= i < |wanted| ==> wanted[i].0 in r.value && r.value[wanted[i].0] == wanted[i].1 && wanted[i].0 !in sigs)
    decreases |wanted|
  {
    if wanted != [] && wanted[0].0 !in sigs {
      var next := sigs[wanted[0].0 := wanted[0].1];
      InsertExact(next, wanted[1..]);
      var r := InsertSignatures(sigs, wanted);
      if r.Some? {
        forall id | id in r.value && id !in sigs ensures (id, r.value[id]) in wanted {
          if id == wanted[0].0 {
            assert r.value[id] == next[id] == wanted[0].1;
            assert wanted[0] == (id, r.value[id]);
          } else {
            assert (id, r.value[id]) in wanted[1..];
          }
        }
        forall i | 0 <= i < |wanted| ensures wanted[i].0 in r.value && r.value[wanted[i].0] == wanted[i].1 && wanted[i].0 !in sigs {
          if i > 0 { assert wanted[i] == wanted[1..][i - 1]; }
        }
      }
    }
  }

  lemma {:induction false} AskedTransactions(l: Ledger, verify: Verifier, hash: Hash, sigs: map<Rid, SignatureRequest>)
    requires Inv(l, verify) && hash in l.transactions && Open(l.transactions[hash])
    ensures var l' := SetState(l, hash, Pending).(signatures := sigs);
            && (forall h :: h in l'.transactions ==> TransactionOk(l', h))
            && (forall o :: o in l'.outputs ==> OutputOk(l', o))
  {
    var l' := SetState(l, hash, Pending).(signatures := sigs);
    forall o | o in l'.outputs ensures OutputOk(l', o) { assert OutputOk(l, o); }
    forall h | h in l'.transactions ensures TransactionOk(l', h) {
      assert TransactionOk(l, h);
      forall o, s | Held(l, h, o, s) ensures Held(l', h, o, s) {}
    }
  }

  lemma {:induction false} AskedSignature(l: Ledger, verify: Verifier, hash: Hash, sigs: map<Rid, SignatureRequest>, r: Rid)
    requires hash in l.transactions && Open(l.transactions[hash])
    requires r in l.signatures && SignatureOk(l, verify, r) && r in sigs && sigs[r] == l.signatures[r]
    ensures SignatureOk(SetState(l, hash, Pending).(signatures := sigs), verify, r)
  {
  }

  lemma {:induction false} NewSignature(l: Ledger, verify: Verifier, hash: Hash, wanted: seq<Wanted>, sigs: map<Rid, SignatureRequest>, i: nat, r: Rid)
    requires Fresh(l, wanted, hash) && i < |wanted| && r in sigs && wanted[i] == (r, sigs[r])
    requires l.transactions[hash].proposed && l.transactions[hash].holder in l.safes
    ensures SignatureOk(SetState(l, hash, Pending).(signatures := sigs), verify, r)
  {
  }

  lemma {:induction false} AskedKept(l: Ledger, hash: Hash, sigs: map<Rid, SignatureRequest>)
    requires hash in l.transactions && forall r :: r in l.signatures ==> r in sigs && sigs[r] == l.signatures[r]
    ensures SignaturesKept(l, SetState(l, hash, Pending).(signatures := sigs))
  {
  }

  lemma {:induction false} OpenIsProposed(l: Ledger, verify: Verifier, hash: Hash)
    requires Inv(l, verify) && hash in l.transactions && Open(l.transactions[hash])
    ensures l.transactions[hash].proposed && l.transactions[hash].holder in l.safes
  {
    assert TransactionOk(l, hash);
  }

  lemma {:induction false} AskedSignatures(l: Ledger, verify: Verifier, hash: Hash, wanted: seq<Wanted>, sigs: map<Rid, SignatureRequest>)
    requires Inv(l, verify) && Fresh(l, wanted, hash) && InsertSignatures(l.signatures, wanted) == Some(sigs)
    ensures var l' := SetState(l, hash, Pending).(signatures := sigs);
            && SignaturesKept(l, l')
            && (forall r :: r in l'.signatures ==> SignatureOk(l', verify, r))
  {
    hide OutputOk, TransactionOk, SignatureOk, FullySigned, SignaturesKept, OrderOk, InsertSignatures;
    InsertExact(l.signatures, wanted);
    OpenIsProposed(l, verify, hash);
    AskedKept(l, hash, sigs);
    var l' := SetState(l, hash, Pending).(signatures := sigs);
    forall r | r in l'.signatures ensures SignatureOk(l', verify, r) {
      if r in l.signatures {
        AskedSignature(l, verify, hash, sigs, r);
      } else {
        var i :| 0 <= i < |wanted| && wanted[i] == (r, sigs[r]);
        NewSignature(l, verify, hash, wanted, sigs, i, r);
      }
    }
  }

  lemma {:induction false} AskInv(l: Ledger, verify: Verifier, hash: Hash, wanted: seq<Wanted>, sigs: map<Rid, SignatureRequest>)
    requires Inv(l, verify) && Fresh(l, wanted, hash) && InsertSignatures(l.signatures, wanted) == Some(sigs)
    ensures Inv(SetState(l, hash, Pending).(signatures := sigs), verify)
  {
    AskedTransactions(l, verify, hash, sigs);
    AskedSignatures(l, verify, hash, wanted, sigs);
    SignedKept(l, SetState(l, hash, Pending).(signatures := sigs), verify);
  }

  lemma {:induction false} SignaturesOnly(l: Ledger, verify: Verifier, sigs: map<Rid, SignatureRequest>)
    requires Inv(l, verify)
    ensures var l' := l.(signatures := sigs);
            && (forall h :: h in l'.transactions ==> TransactionOk(l', h))
            && (forall o :: o in l'.outputs ==> OutputOk(l', o))
  {
    var l' := l.(signatures := sigs);
    forall o | o in l'.outputs ensures OutputOk(l', o) { assert OutputOk(l, o); }
    forall h | h in l'.transactions ensures TransactionOk(l', h) {
      assert TransactionOk(l, h);
      forall o, s | Held(l, h, o, s) ensures Held(l', h, o, s) {}
    }
  }

  /** The answer on its way in verifies against the key of the safe. */
  ghost predicate Verified(l: Ledger, verify: Verifier, rid: Rid, sig: Sig)
  {
    && rid in l.signatures && l.signatures[rid].hash in l.transactions
    && l.transactions[l.signatures[rid].hash].holder in l.safes
    && verify(l.safes[l.transactions[l.signatures[rid].hash].holder].signer, l.signatures[rid].message, sig)
  }

  lemma {:induction false} AnsweredSignature(l: Ledger, verify: Verifier, rid: Rid, sig: Sig, r: Rid)
    requires FinishSignature(l, rid, sig).Some? && Verified(l, verify, rid, sig) && SignatureOk(l, verify, rid)
    requires r in l.signatures && SignatureOk(l, verify, r)
    ensures var l' := FinishSignature(l, rid, sig).value;
            r in l'.signatures && SignatureOk(l', verify, r)
  {
  }

  lemma {:induction false} AnsweredKept(l: Ledger, rid: Rid, sig: Sig)
    requires FinishSignature(l, rid, sig).Some? && rid in l.signatures
    requires l.signatures[rid].state == Initial ==> l.signatures[rid].signature.None?
    ensures var l' := FinishSignature(l, rid, sig).value;
            SignaturesKept(l, l') && l'.signatures.Keys == l.signatures.Keys
  {
  }

  lemma {:induction false} AnsweredSignatures(l: Ledger, verify: Verifier, rid: Rid, sig: Sig)
    requires Inv(l, verify) && FinishSignature(l, rid, sig).Some? && Verified(l, verify, rid, sig)
    ensures var l' := FinishSignature(l, rid, sig).value;
            && SignaturesKept(l, l')
            && (forall r :: r in l'.signatures ==> SignatureOk(l', verify, r))
  {
    hide OutputOk, TransactionOk, FullySigned, SignaturesKept, FinishSignature, OrderOk;
    assert SignatureOk(l, verify, rid);
    AnsweredKept(l, rid, sig);
    var l' := FinishSignature(l, rid, sig).value;
    forall r | r in l'.signatures ensures SignatureOk(l', verify, r) { AnsweredSignature(l, verify, rid, sig, r); }
  }

  lemma {:induction false} AnswerInv(l: Ledger, verify: Verifier, rid: Rid, sig: Sig)
    requires Inv(l, verify) && FinishSignature(l, rid, sig).Some? && Verified(l, verify, rid, sig)
    ensures Inv(FinishSignature(l, rid, sig).value, verify)
  {
    var l' := FinishSignature(l, rid, sig).value;
    SignaturesOnly(l, verify, l'.signatures);
    AnsweredSignatures(l, verify, rid, sig);
    assert l' == l.(signatures := l'.signatures);
    SignedKept(l, l', verify);
  }

  // ---- Finishing

  ghost function Finished(l: Ledger, hash: Hash, holder: Holder): (l': Ledger)
    requires hash in l.transactions && holder in l.safes
  {
    SetState(l, hash, Done).(
      signatures := AllDone(l.signatures, hash),
      outputs := AllSpent(l.outputs, hash),
      safes := l.safes[holder := l.safes[holder].(nonce := l.safes[holder].nonce + 1)])
  }

  lemma {:induction false} FinishedOutputs(l: Ledger, verify: Verifier, hash: Hash, holder: Holder)
    requires Inv(l, verify) && hash in l.transactions && holder in l.safes && Open(l.transactions[hash])
    ensures var l' := Finished(l, hash, holder);
            forall o :: o in l'.outputs ==> OutputOk(l', o)
  {
    var l' := Finished(l, hash, holder);
    forall o | o in l'.outputs ensures OutputOk(l', o) { assert OutputOk(l, o); }
  }

  lemma {:induction false} FinishedTransactions(l: Ledger, verify: Verifier, hash: Hash, holder: Holder)
    requires Inv(l, verify) && hash in l.transactions && holder in l.safes && Open(l.transactions[hash])
    ensures var l' := Finished(l, hash, holder);
            forall h :: h in l'.transactions ==> TransactionOk(l', h)
  {
    var l' := Finished(l, hash, holder);
    forall h | h in l'.transactions ensures TransactionOk(l', h) {
      assert TransactionOk(l, h);
      forall o, s | h != hash && Held(l, h, o, s) ensures Held(l', h, o, s) {}
      forall o | h == hash && Held(l, h, o, Pending) ensures Held(l', h, o, Done) {}
    }
  }

  lemma {:induction false} FinishedSignature(l: Ledger, verify: Verifier, hash: Hash, holder: Holder, r: Rid)
    requires hash in l.transactions && holder in l.safes && Open(l.transactions[hash])
    requires r in l.signatures && SignatureOk(l, verify, r)
    ensures r in Finished(l, hash, holder).signatures && SignatureOk(Finished(l, hash, holder), verify, r)
  {
    hide AllSpent;
  }

  lemma {:induction false} FinishedKept(l: Ledger, hash: Hash, holder: Holder)
    requires hash in l.transactions && holder in l.safes
    ensures SignaturesKept(l, Finished(l, hash, holder))
    ensures Finished(l, hash, holder).signatures.Keys == l.signatures.Keys
  {
    hide AllSpent;
  }

  lemma {:induction false} FinishedSignatures(l: Ledger, verify: Verifier, hash: Hash, holder: Holder)
    requires Inv(l, verify) && hash in l.transactions && holder in l.safes && Open(l.transactions[hash])
    ensures var l' := Finished(l, hash, holder);
            && SignaturesKept(l, l')
            && (forall r :: r in l'.signatures ==> SignatureOk(l', verify, r))
  {
    hide OutputOk, TransactionOk, SignatureOk, FullySigned, SignaturesKept, Finished, OrderOk;
    FinishedKept(l, hash, holder);
    var l' := Finished(l, hash, holder);
    forall r | r in l'.signatures ensures SignatureOk(l', verify, r) { FinishedSignature(l, verify, hash, holder, r); }
  }

  lemma {:induction false} FinishInv(l: Ledger, verify: Verifier, hash: Hash, holder: Holder)
    requires Inv(l, verify) && hash in l.transactions && holder in l.safes && Open(l.transactions[hash])
    requires FullySigned(l, verify, hash)
    ensures Inv(Finished(l, hash, holder), verify)
  {
    FinishedOutputs(l, verify, hash, holder);
    FinishedTransactions(l, verify, hash, holder);
    FinishedSignatures(l, verify, hash, holder);
    var l' := Finished(l, hash, holder);
    forall h | h in l'.transactions && l'.transactions[h].proposed && l'.transactions[h].state == Done
      ensures FullySigned(l', verify, h)
    {
      FullySignedKept(l, l', verify, h);
    }
  }

  /** A scan that finds everything in order has seen a verified answer for every input. */
  lemma {:induction false} ScanSigned(l: Ledger, verify: Verifier, hash: Hash, idx: nat)
    requires Inv(l, verify) && hash in l.transactions && l.transactions[hash].proposed
    requires idx <= |l.transactions[hash].inputs|
    requires BodyOk(l, l.transactions[hash])
    requires ScanInputs(l, verify, l.safes[l.transactions[hash].holder].signer, hash, l.transactions[hash], idx) == AllSigned
    ensures forall k :: idx <= k < |l.transactions[hash].inputs| ==> Signed(l, verify, hash, k)
    decreases |l.transactions[hash].inputs| - idx
  {
    hide TransactionOk, SignatureOk, FullySigned;
    var t := l.transactions[hash];
    if idx < |t.inputs| {
      assert OutputOk(l, t.inputs[idx]);
      var r :| Latest(l, hash, idx, r)
        && l.signatures[r].message == t.sighashes[idx]
        && verify(l.safes[t.holder].signer, t.sighashes[idx], l.signatures[r].signature.value);
      assert SignedBy(l, verify, hash, idx, r);
      assert Signed(l, verify, hash, idx);
      ScanSigned(l, verify, hash, idx + 1);
    }
  }
}
