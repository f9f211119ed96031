/** The outputs and the transactions of the keeper fit together in every state it can reach. */
module KeeperCoupling {
  import opened Options
  import opened KeeperTypes
  import opened KeeperLedger
  import opened KeeperBitcoin

  ghost predicate Distinct<T>(s: seq<T>)
  {
    forall i, j :: 0 <= i < j < |s| ==> s[i] != s[j]
  }

  predicate Open(t: Transaction)
  {
    t.state == Initial || t.state == Pending
  }

  ghost predicate OrderOk(l: Ledger)
  {
    Distinct(l.order) && forall o :: o in l.order <==> o in l.outputs
  }

  /** An unspent output has no spender; a spent one belongs to a transaction in the matching state. */
  ghost predicate OutputOk(l: Ledger, o: OutPoint)
    requires o in l.outputs
  {
    var u := l.outputs[o];
    && u.multisig
    && (u.state == Initial ==> u.spentBy.None?)
    && (u.state != Initial ==> u.spentBy.Some? && u.spentBy.value in l.transactions)
    && (u.state == Pending ==> Open(l.transactions[u.spentBy.value]) && o in l.transactions[u.spentBy.value].inputs)
    && (u.state == Done ==> l.transactions[u.spentBy.value].state == Done)
    && u.state != Failed
  }

  ghost predicate Held(l: Ledger, h: Hash, o: OutPoint, state: State)
  {
    o in l.outputs && l.outputs[o].state == state && l.outputs[o].spentBy == Some(h)
  }

  /** The parts of a proposed transaction that never change. */
  ghost predicate BodyOk(l: Ledger, t: Transaction)
  {
    && t.holder in l.safes && t.requestId in l.requests && l.requests[t.requestId].amount == SumPaid(t.recipients)
    && t.recipients != [] && t.inputs != [] && Distinct(t.inputs) && |t.sighashes| == |t.inputs|
    && (forall o :: o in t.inputs ==> o in l.outputs && l.outputs[o].address == l.safes[t.holder].address)
  }

  ghost predicate TransactionOk(l: Ledger, h: Hash)
    requires h in l.transactions
  {
    var t := l.transactions[h];
    && (Open(t) ==> t.proposed)
    && (t.proposed ==> BodyOk(l, t))
    && (Open(t) ==> forall o :: o in t.inputs ==> Held(l, h, o, Pending))
    && (t.proposed && t.state == Done ==> forall o :: o in t.inputs ==> Held(l, h, o, Done))
  }

  ghost predicate SignatureOk(l: Ledger, verify: Verifier, r: Rid)
    requires r in l.signatures
  {
    var q := l.signatures[r];
    && q.hash in l.transactions
    && var t := l.transactions[q.hash];
       && t.proposed && t.holder in l.safes && q.index < |t.inputs| && (t.state == Pending || t.state == Done)
       && (q.state == Done <==> t.state == Done) && q.state != Failed
       && (q.state == Initial ==> q.signature.None?)
       && (q.state == Pending ==> q.signature.Some?)
       && (q.signature.Some? ==> verify(l.safes[t.holder].signer, q.message, q.signature.value))
  }

  /** A stored answer for one input, verified against its own signature hash. */
  ghost predicate SignedBy(l: Ledger, verify: Verifier, h: Hash, idx: nat, r: Rid)
  {
    && h in l.transactions && idx < |l.transactions[h].sighashes| && l.transactions[h].holder in l.safes
    && r in l.signatures && l.signatures[r].hash == h && l.signatures[r].index == idx
    && l.signatures[r].message == l.transactions[h].sighashes[idx] && l.signatures[r].signature.Some?
    && verify(l.safes[l.transactions[h].holder].signer, l.transactions[h].sighashes[idx], l.signatures[r].signature.value)
  }

  ghost predicate Signed(l: Ledger, verify: Verifier, h: Hash, idx: nat)
  {
    exists r :: SignedBy(l, verify, h, idx, r)
  }

  ghost predicate FullySigned(l: Ledger, verify: Verifier, h: Hash)
    requires h in l.transactions
  {
    forall idx :: 0 <= idx < |l.transactions[h].inputs| ==> Signed(l, verify, h, idx)
  }

  ghost predicate SafesOk(l: Ledger)
  {
    forall a, b :: a in l.safes && b in l.safes && a != b ==> l.safes[a].address != l.safes[b].address
  }

  ghost predicate OneEach(l: Ledger)
  {
    forall a, b :: a in l.transactions && b in l.transactions && l.transactions[a].requestId == l.transactions[b].requestId ==> a == b
  }

  ghost predicate Inv(l: Ledger, verify: Verifier)
  {
    && OrderOk(l) && SafesOk(l) && OneEach(l)
    && (forall o :: o in l.outputs ==> OutputOk(l, o))
    && (forall h :: h in l.transactions ==> TransactionOk(l, h))
    && (forall r :: r in l.signatures ==> SignatureOk(l, verify, r))
    && (forall h :: h in l.transactions && l.transactions[h].proposed && l.transactions[h].state == Done ==> FullySigned(l, verify, h))
  }

  // ---- The loops over outputs

  lemma {:induction false} UnspentExact(outputs: map<OutPoint, Output>, order: seq<OutPoint>, address: Address, o: OutPoint)
    ensures o in Unspent(outputs, order, address) <==>
              o in order && o in outputs && outputs[o].address == address && outputs[o].state == Initial
    decreases |order|
  {
    if order != [] {
      UnspentExact(outputs, order[1..], address, o);
      assert o in order <==> o == order[0] || o in order[1..];
    }
  }

  lemma {:induction false} UnspentDistinct(outputs: map<OutPoint, Output>, order: seq<OutPoint>, address: Address)
    requires Distinct(order)
    ensures Distinct(Unspent(outputs, order, address))
    decreases |order|
  {
    if order != [] {
      UnspentDistinct(outputs, order[1..], address);
      UnspentExact(outputs, order[1..], address, order[0]);
    }
  }

  /** Every point in the list, and nothing else, gets the new state and spender. */
  lemma {:induction false} SpendExact(outputs: map<OutPoint, Output>, points: seq<OutPoint>, hash: Hash, state: State)
    ensures Spend(outputs, points, hash, state).Some? <==> forall o :: o in points ==> o in outputs
    ensures Spend(outputs, points, hash, state).Some? ==>
              var m := Spend(outputs, points, hash, state).value;
              && m.Keys == outputs.Keys
              && (forall o :: o in outputs ==>
                    m[o] == if o in points then outputs[o].(state := state, spentBy := Some(hash)) else outputs[o])
    decreases |points|
  {
    if points != [] {
      assert forall o :: o in points <==> o == points[0] || o in points[1..];
      if points[0] in outputs {
        SpendExact(outputs[points[0] := outputs[points[0]].(state := state, spentBy := Some(hash))], points[1..], hash, state);
      }
    }
  }

  /** Inputs held by the transaction all become unspent again, and only they. */
  lemma {:induction false} ReleaseExact(outputs: map<OutPoint, Output>, points: seq<OutPoint>, hash: Hash, address: Address)
    requires Distinct(points)
    ensures Release(outputs, points, hash, address).Some? <==>
              forall o :: o in points ==> o in outputs && outputs[o].spentBy == Some(hash) && outputs[o].address == address
    ensures Release(outputs, points, hash, address).Some? ==>
              var m := Release(outputs, points, hash, address).value;
              && m.Keys == outputs.Keys
              && (forall o :: o in outputs ==>
                    m[o] == if o in points then outputs[o].(state := Initial, spentBy := None) else outputs[o])
    decreases |points|
  {
    if points != [] {
      assert forall o :: o in points <==> o == points[0] || o in points[1..];
      assert points[0] !in points[1..];
      if points[0] in outputs && outputs[points[0]].spentBy == Some(hash) && outputs[points[0]].address == address {
        ReleaseExact(outputs[points[0] := outputs[points[0]].(state := Initial, spentBy := None)], points[1..], hash, address);
      }
    }
  }

  lemma {:induction false} DistinctCount(s: seq<OutPoint>)
    requires Distinct(s)
    ensures |set o | o in s| == |s|
    decreases |s|
  {
    if s != [] {
      DistinctCount(s[1..]);
      assert (set o | o in s) == (set o | o in s[1..]) + {s[0]};
      assert s[0] !in s[1..];
    }
  }

  // ---- The main statement, read off the invariant

  /**
   The outputs held by an unfinished transaction are exactly its inputs, all of them pending; so the number of
   rows that finishing it changes is the number of its inputs, and revoking it finds every input.
   */
  lemma {:induction false} Coupled(l: Ledger, verify: Verifier, h: Hash)
    requires Inv(l, verify) && h in l.transactions && Open(l.transactions[h])
    ensures SpentBy(l.outputs, h) == set o | o in l.transactions[h].inputs
    ensures |SpentBy(l.outputs, h)| == |l.transactions[h].inputs|
    ensures forall o :: o in l.transactions[h].inputs ==> o in l.outputs && l.outputs[o].state == Pending
    ensures Release(l.outputs, l.transactions[h].inputs, h, l.safes[l.transactions[h].holder].address).Some?
  {
    var t := l.transactions[h];
    assert TransactionOk(l, h);
    forall o | o in SpentBy(l.outputs, h) ensures o in t.inputs {
      assert OutputOk(l, o);
    }
    forall o | o in t.inputs ensures o in SpentBy(l.outputs, h) && l.outputs[o].state == Pending {
      assert Held(l, h, o, Pending);
    }
    assert SpentBy(l.outputs, h) == set o | o in t.inputs;
    DistinctCount(t.inputs);
    ReleaseExact(l.outputs, t.inputs, h, l.safes[t.holder].address);
  }

  /** An output without a spender is unspent, and the other way round. */
  lemma {:induction false} UnspentHasNoSpender(l: Ledger, verify: Verifier, o: OutPoint)
    requires Inv(l, verify) && o in l.outputs
    ensures l.outputs[o].state == Initial <==> l.outputs[o].spentBy.None?
  {
    assert OutputOk(l, o);
  }
}
