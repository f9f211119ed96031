/** What holds over every run of the keeper. */
module KeeperSafety {
  import opened KeeperTypes
  import opened KeeperLedger
  import opened KeeperBitcoin
  import opened KeeperCoupling
  import opened KeeperHistory
  import opened KeeperNode

  ghost predicate TablesMove(l: Ledger, l': Ledger)
  {
    && TransactionsMove(l.transactions, l'.transactions) && OutputsMove(l.outputs, l'.outputs)
    && SafesMove(l.safes, l'.safes) && SignaturesMove(l.signatures, l'.signatures)
  }

  lemma {:induction false} StateMoves(l: Ledger, chain: map<Hash, ChainTx>, verify: Verifier, i: Input, k: nat)
    requires Inv(l, verify) && k <= |Handle(l, chain, verify, i).commits|
    ensures TablesMove(l, StateAt(l, Handle(l, chain, verify, i), k))
  {
    HandleMoves(l, chain, verify, i);
    Still(l, i.rid);
  }

  lemma {:induction false} Written(l: Ledger, rid: Rid, amount: nat)
    ensures var l0 := WriteRequest(l, rid, amount);
            l0 == l.(requests := l0.requests)
  {
  }

  /** The state inside a handler that a state of the whole handling is. */
  lemma {:induction false} Inner(n: Node, verify: Verifier, e: Event, k: nat, l1: Ledger) returns (l0: Ledger)
    requires NodeOk(n, verify) && Allowed(n, e) && !Handled(n.ledger, e.i) && !e.i.action.Ignore?
    requires 0 < k <= |Process(n.ledger, e.chain, verify, e.i).commits|
    requires l1 == StateAt(n.ledger, Process(n.ledger, e.chain, verify, e.i), k)
    ensures l0 == n.ledger.(requests := l0.requests) && Inv(l0, verify)
    ensures k - 1 <= |Handle(l0, e.chain, verify, e.i).commits| && l1 == StateAt(l0, Handle(l0, e.chain, verify, e.i), k - 1)
  {
    Written(n.ledger, e.i.rid, e.i.amount);
    RequestWritten(n, verify, e);
    ProcessUnfold(n.ledger, e.chain, verify, e.i, k);
    l0 := WriteRequest(n.ledger, e.i.rid, e.i.amount);
  }

  lemma {:induction false} ProcessMoves(n: Node, verify: Verifier, e: Event, k: nat, l1: Ledger)
    requires NodeOk(n, verify) && Allowed(n, e) && !Handled(n.ledger, e.i) && !e.i.action.Ignore?
    requires 0 < k <= |Process(n.ledger, e.chain, verify, e.i).commits|
    requires l1 == StateAt(n.ledger, Process(n.ledger, e.chain, verify, e.i), k)
    ensures TablesMove(n.ledger, l1)
  {
    hide *;
    var l0 := Inner(n, verify, e, k, l1);
    InnerMoves(n.ledger, l0, e.chain, verify, e.i, k - 1, l1);
  }

  lemma {:induction false} InnerMoves(l: Ledger, l0: Ledger, chain: map<Hash, ChainTx>, verify: Verifier, i: Input, k: nat, l1: Ledger)
    requires l0 == l.(requests := l0.requests) && Inv(l0, verify) && k <= |Handle(l0, chain, verify, i).commits|
    requires l1 == StateAt(l0, Handle(l0, chain, verify, i), k)
    ensures TablesMove(l, l1)
  {
    StateMoves(l0, chain, verify, i, k);
    SameTables(l, l0, l1);
  }

  lemma {:induction false} SameTables(l: Ledger, l0: Ledger, l1: Ledger)
    requires l0 == l.(requests := l0.requests) && TablesMove(l0, l1)
    ensures TablesMove(l, l1)
  {
  }

  lemma {:induction false} RepeatMoves(l: Ledger, chain: map<Hash, ChainTx>, verify: Verifier, i: Input, k: nat)
    requires Handled(l, i) || i.action.Ignore?
    requires k <= |Process(l, chain, verify, i).commits|
    ensures TablesMove(l, StateAt(l, Process(l, chain, verify, i), k))
  {
    Still(l, i.rid);
  }

  lemma {:induction false} NextMoves(n: Node, verify: Verifier, e: Event)
    requires NodeOk(n, verify) && Allowed(n, e)
    ensures TablesMove(n.ledger, Next(n, verify, e).ledger)
  {
    var run := Process(n.ledger, e.chain, verify, e.i);
    var k := if Completes(run, e) then |run.commits| else StopsAt(run, e);
    NextState(n, verify, e, k);
    if Handled(n.ledger, e.i) || e.i.action.Ignore? {
      RepeatMoves(n.ledger, e.chain, verify, e.i, k);
    } else if k > 0 {
      ProcessMoves(n, verify, e, k, StateAt(n.ledger, run, k));
    } else {
      Still(n.ledger, e.i.rid);
    }
  }

  lemma {:induction false} NextState(n: Node, verify: Verifier, e: Event, k: nat)
    requires var run := Process(n.ledger, e.chain, verify, e.i);
             k == if Completes(run, e) then |run.commits| else StopsAt(run, e)
    ensures Next(n, verify, e).ledger == StateAt(n.ledger, Process(n.ledger, e.chain, verify, e.i), k)
  {
  }

  // ---- From any point of a run to any later one

  lemma {:induction false} PrefixAllowed(verify: Verifier, es: seq<Event>, j: nat)
    requires AllAllowed(Start(), verify, es) && j <= |es|
    ensures AllAllowed(Start(), verify, es[..j])
  {
    var ds := es[..j];
    forall k | 0 <= k < |ds| ensures Allowed(After(Start(), verify, ds[..k]), ds[k]) {
      assert ds[..k] == es[..k];
      assert Allowed(After(Start(), verify, es[..k]), es[k]);
    }
  }

  ghost function At(verify: Verifier, es: seq<Event>, j: nat): Ledger
    requires j <= |es|
  {
    After(Start(), verify, es[..j]).ledger
  }

  lemma {:induction false} StepMoves(verify: Verifier, es: seq<Event>, j: nat)
    requires AllAllowed(Start(), verify, es) && j < |es|
    ensures TablesMove(At(verify, es, j), At(verify, es, j + 1))
  {
    PrefixAllowed(verify, es, j);
    RunOk(verify, es[..j]);
    assert es[..j + 1][..j] == es[..j];
    NextMoves(After(Start(), verify, es[..j]), verify, es[j]);
  }

  /** A transaction that is done stays done, and one that failed never becomes done. */
  lemma {:induction false} FinalForever(verify: Verifier, es: seq<Event>, j: nat, k: nat, h: Hash)
    requires AllAllowed(Start(), verify, es) && j <= k <= |es|
    requires h in At(verify, es, j).transactions
    requires At(verify, es, j).transactions[h].state == Done || At(verify, es, j).transactions[h].state == Failed
    ensures h in At(verify, es, k).transactions && At(verify, es, k).transactions[h] == At(verify, es, j).transactions[h]
    decreases k - j
  {
    if j < k {
      StepMoves(verify, es, j);
      FinalForever(verify, es, j + 1, k, h);
    }
  }

  /** So it becomes done in at most one step of a run. */
  lemma {:induction false} DoneOnce(verify: Verifier, es: seq<Event>, j: nat, k: nat, h: Hash)
    requires AllAllowed(Start(), verify, es) && j < k < |es|
    requires BecomesDone(verify, es, j, h)
    ensures !BecomesDone(verify, es, k, h)
  {
    FinalForever(verify, es, j + 1, k, h);
  }

  ghost predicate BecomesDone(verify: Verifier, es: seq<Event>, j: nat, h: Hash)
    requires j < |es|
  {
    && h in At(verify, es, j + 1).transactions && At(verify, es, j + 1).transactions[h].state == Done
    && !(h in At(verify, es, j).transactions && At(verify, es, j).transactions[h].state == Done)
  }

  /** A proposed transaction that is done has, for every input, a stored answer that verifies on that input's own hash. */
  lemma {:induction false} DoneIsSigned(verify: Verifier, es: seq<Event>, h: Hash, idx: nat) returns (r: Rid)
    requires AllAllowed(Start(), verify, es)
    requires var l := After(Start(), verify, es).ledger;
             h in l.transactions && l.transactions[h].proposed && l.transactions[h].state == Done && idx < |l.transactions[h].inputs|
    ensures SignedBy(After(Start(), verify, es).ledger, verify, h, idx, r)
  {
    RunOk(verify, es);
    var l := After(Start(), verify, es).ledger;
    assert FullySigned(l, verify, h);
    assert Signed(l, verify, h, idx);
    r :| SignedBy(l, verify, h, idx, r);
  }

  /** The coupling in every reachable state, with what follows for finishing and for revoking. */
  lemma {:induction false} CoupledAlways(verify: Verifier, es: seq<Event>, h: Hash)
    requires AllAllowed(Start(), verify, es)
    requires var l := After(Start(), verify, es).ledger;
             h in l.transactions && Open(l.transactions[h])
    ensures var l := After(Start(), verify, es).ledger;
            var t := l.transactions[h];
            && SpentBy(l.outputs, h) == (set o | o in t.inputs)
            && (forall o :: o in t.inputs ==> o in l.outputs && l.outputs[o].state == Pending)
            && |SpentBy(l.outputs, h)| == |t.inputs|
            && t.holder in l.safes && Release(l.outputs, t.inputs, h, l.safes[t.holder].address).Some?
  {
    RunOk(verify, es);
    var l := After(Start(), verify, es).ledger;
    assert TransactionOk(l, h);
    Coupled(l, verify, h);
  }

  /** Only a waiting output can be unspent; it has no spender. */
  lemma {:induction false} UnspentAlways(verify: Verifier, es: seq<Event>, o: OutPoint)
    requires AllAllowed(Start(), verify, es) && o in After(Start(), verify, es).ledger.outputs
    ensures var u := After(Start(), verify, es).ledger.outputs[o];
            u.state == Initial <==> u.spentBy.None?
  {
    RunOk(verify, es);
    UnspentHasNoSpender(After(Start(), verify, es).ledger, verify, o);
  }

  // ---- Signature requests

  ghost predicate Spaced(s: Signatures)
  {
    forall r, q :: r in s && q in s && r != q && Same(s[q], s[r].hash, s[r].index) ==>
      s[q].createdAt + SIGNATURE_TIMEOUT <= s[r].createdAt || s[r].createdAt + SIGNATURE_TIMEOUT <= s[q].createdAt
  }

  lemma {:induction false} SpacedMoves(a: Signatures, b: Signatures)
    requires Spaced(a) && SignaturesMove(a, b)
    ensures Spaced(b)
  {
    forall r, q | r in b && q in b && r != q && Same(b[q], b[r].hash, b[r].index)
      ensures b[q].createdAt + SIGNATURE_TIMEOUT <= b[r].createdAt || b[r].createdAt + SIGNATURE_TIMEOUT <= b[q].createdAt
    {
      assert r !in a ==> New(a, b, r) && Alone(a, b, r);
      assert q !in a ==> New(a, b, q) && Alone(a, b, q);
      assert r in a ==> RequestKept(a[r], b[r]);
      assert q in a ==> RequestKept(a[q], b[q]);
    }
  }

  lemma {:induction false} NothingSpaced(verify: Verifier, es: seq<Event>)
    ensures Spaced(At(verify, es, 0).signatures)
  {
  }

  /** Two requests for a signature on the same input are at least the timeout apart, in every reachable state. */
  lemma {:induction false} SpacedAlways(verify: Verifier, es: seq<Event>, j: nat)
    requires AllAllowed(Start(), verify, es) && j <= |es|
    ensures Spaced(At(verify, es, j).signatures)
    decreases j
  {
    hide Spaced, After, SignaturesMove, TransactionsMove, OutputsMove, SafesMove;
    if j == 0 {
      NothingSpaced(verify, es);
    } else {
      SpacedAlways(verify, es, j - 1);
      StepMoves(verify, es, j - 1);
      SpacedMoves(At(verify, es, j - 1).signatures, At(verify, es, j).signatures);
    }
  }

  /** Once a request for an input has been answered, no further one is ever made for it. */
  lemma {:induction false} NoneAfterAnswer(verify: Verifier, es: seq<Event>, j: nat, k: nat, q: Rid, r: Rid)
    requires AllAllowed(Start(), verify, es) && j <= k <= |es|
    requires q in At(verify, es, j).signatures && At(verify, es, j).signatures[q].state != Initial
    requires r in At(verify, es, k).signatures
    requires Same(At(verify, es, k).signatures[r], At(verify, es, j).signatures[q].hash, At(verify, es, j).signatures[q].index)
    ensures r in At(verify, es, j).signatures
    decreases k - j
  {
    if j < k {
      StepMoves(verify, es, j);
      var a, b := At(verify, es, j).signatures, At(verify, es, j + 1).signatures;
      assert RequestKept(a[q], b[q]);
      NoneAfterAnswer(verify, es, j + 1, k, q, r);
      KeptUntil(verify, es, j + 1, k, r);
      assert New(a, b, r) ==> Alone(a, b, r);
    }
  }

  /** A signature request keeps its input. */
  lemma {:induction false} KeptUntil(verify: Verifier, es: seq<Event>, j: nat, k: nat, r: Rid)
    requires AllAllowed(Start(), verify, es) && j <= k <= |es| && r in At(verify, es, j).signatures
    ensures r in At(verify, es, k).signatures
    ensures Same(At(verify, es, k).signatures[r], At(verify, es, j).signatures[r].hash, At(verify, es, j).signatures[r].index)
    decreases k - j
  {
    if j < k {
      StepMoves(verify, es, j);
      assert RequestKept(At(verify, es, j).signatures[r], At(verify, es, j + 1).signatures[r]);
      KeptUntil(verify, es, j + 1, k, r);
    }
  }
}
