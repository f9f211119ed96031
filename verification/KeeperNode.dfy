/**
 Whole runs of a keeper. It takes outputs one after another; it may stop after any commit, by a crash or a
 panic, and then takes the same output again, possibly with other answers from outside.
 */
module KeeperNode {
  import opened Options
  import opened KeeperTypes
  import opened KeeperLedger
  import opened KeeperBitcoin
  import opened KeeperCoupling
  import opened KeeperInvariant
  import opened KeeperRuns
  import opened KeeperHistory

  /** `pending` is the request, with its amount, of the output that was being handled when the keeper stopped. */
  datatype Node = Node(ledger: Ledger, pending: Option<(Rid, nat)>)

  /** One attempt at an output: to the end, or only up to some commit. */
  datatype Event = Event(i: Input, chain: map<Hash, ChainTx>, stop: Option<nat>)

  function Start(): Node
  {
    Node(Empty(), None)
  }

  function StateAt(l: Ledger, run: Run, k: nat): Ledger
    requires k <= |run.commits|
  {
    if k == 0 then l else run.commits[k - 1]
  }

  predicate Completes(run: Run, e: Event)
  {
    e.stop.None? && run.reply.Some?
  }

  function StopsAt(run: Run, e: Event): (k: nat)
    ensures k <= |run.commits|
  {
    if e.stop.Some? && e.stop.value <= |run.commits| then e.stop.value else |run.commits|
  }

  ghost function Next(n: Node, verify: Verifier, e: Event): (n': Node)
  {
    var run := Process(n.ledger, e.chain, verify, e.i);
    if Completes(run, e) then Node(Last(n.ledger, run), None)
    else if StopsAt(run, e) == 0 then n
    else Node(StateAt(n.ledger, run, StopsAt(run, e)), Some((e.i.rid, e.i.amount)))
  }

  /** An output that was interrupted is taken up again before any other. */
  predicate Allowed(n: Node, e: Event)
  {
    n.pending.Some? ==> n.pending.value == (e.i.rid, e.i.amount) && !e.i.action.Ignore?
  }

  ghost function After(n: Node, verify: Verifier, es: seq<Event>): (n': Node)
    decreases |es|
  {
    if es == [] then n else Next(After(n, verify, es[..|es| - 1]), verify, es[|es| - 1])
  }

  ghost predicate AllAllowed(n: Node, verify: Verifier, es: seq<Event>)
  {
    forall k :: 0 <= k < |es| ==> Allowed(After(n, verify, es[..k]), es[k])
  }

  /** Only the interrupted request is neither done nor failed. */
  ghost predicate NodeOk(n: Node, verify: Verifier)
  {
    && Inv(n.ledger, verify)
    && (forall r :: r in n.ledger.requests && n.ledger.requests[r].state == Initial ==>
          n.pending == Some((r, n.ledger.requests[r].amount)))
  }

  // ---- One output

  lemma {:induction false} HandleInv(l: Ledger, chain: map<Hash, ChainTx>, verify: Verifier, i: Input)
    requires Inv(l, verify) && i.rid in l.requests && l.requests[i.rid].amount == i.amount
    ensures AllInv(Handle(l, chain, verify, i), verify)
  {
    match i.action
    case Ignore =>
    case ApproveAccount(_, _, _) => ApproveAccountInv(l, verify, i);
    case Deposit(_, _, _, _, _, _, _) => DepositInv(l, chain, verify, i);
    case Propose(_, _, _, _, _, _, _, _) => ProposeInv(l, verify, i);
    case Approve(_, _, _, _) => ApproveInv(l, verify, i);
    case Revoke(_, _, _) => HandleRevokeInv(l, verify, i);
    case Respond(_, _) => RespondInv(l, verify, i);
    case CloseWithHolder(_, _, _, _, _, _) => CloseWithHolderInv(l, verify, i);
    case CloseWithoutHolder(_, _, _, _, _, _, _) => CloseWithoutHolderInv(l, verify, i);
  }

  predicate Handled(l: Ledger, i: Input)
  {
    i.rid in l.requests && l.requests[i.rid].state != Initial
  }

  /** What the first commit of a handling leaves: the request is there, open, with its amount. */
  lemma {:induction false} RequestWritten(n: Node, verify: Verifier, e: Event)
    requires NodeOk(n, verify) && Allowed(n, e) && !Handled(n.ledger, e.i)
    ensures var l0 := WriteRequest(n.ledger, e.i.rid, e.i.amount);
            && Inv(l0, verify) && l0.requests.Keys == n.ledger.requests.Keys + {e.i.rid}
            && l0.requests[e.i.rid] == Request(Initial, e.i.amount)
            && (forall r :: r in l0.requests && r != e.i.rid ==> l0.requests[r].state != Initial)
  {
    var l0 := WriteRequest(n.ledger, e.i.rid, e.i.amount);
    RequestsInv(n.ledger, l0, verify);
  }

  /** The invariant holds and at most this request is open. */
  ghost predicate MidwayOk(l: Ledger, verify: Verifier, i: Input)
  {
    Inv(l, verify) && forall r :: r in l.requests && l.requests[r].state == Initial ==> r == i.rid && l.requests[r].amount == i.amount
  }

  lemma {:induction false} CommitOk(l0: Ledger, chain: map<Hash, ChainTx>, verify: Verifier, i: Input, k: nat)
    requires MidwayOk(l0, verify, i) && i.rid in l0.requests && l0.requests[i.rid].amount == i.amount
    requires k <= |Handle(l0, chain, verify, i).commits|
    ensures MidwayOk(StateAt(l0, Handle(l0, chain, verify, i), k), verify, i)
  {
    HandleInv(l0, chain, verify, i);
    HandleMoves(l0, chain, verify, i);
    var run := Handle(l0, chain, verify, i);
    if k > 0 { MovesMidway(l0, run.commits[k - 1], verify, i); }
  }

  lemma {:induction false} MovesMidway(l0: Ledger, l: Ledger, verify: Verifier, i: Input)
    requires MidwayOk(l0, verify, i) && Inv(l, verify) && RequestsMove(l0.requests, l.requests, i.rid)
    requires i.rid in l0.requests && l0.requests[i.rid].amount == i.amount
    ensures MidwayOk(l, verify, i)
  {
  }

  /** The commits of a handling that is not a repetition are the request and those of its handler. */
  lemma {:induction false} ProcessUnfold(l: Ledger, chain: map<Hash, ChainTx>, verify: Verifier, i: Input, k: nat)
    requires !Handled(l, i) && !i.action.Ignore?
    ensures var l0 := WriteRequest(l, i.rid, i.amount);
            var inner := Handle(l0, chain, verify, i);
            var run := Process(l, chain, verify, i);
            && |run.commits| == |inner.commits| + 1 && run.reply == inner.reply && Last(l, run) == Last(l0, inner)
            && (0 < k <= |run.commits| ==> StateAt(l, run, k) == StateAt(l0, inner, k - 1))
  {
  }

  /** Every commit of a handling keeps the invariant and leaves at most its own request open. */
  lemma {:induction false} ProcessOk(n: Node, verify: Verifier, e: Event, k: nat)
    requires NodeOk(n, verify) && Allowed(n, e)
    requires 0 < k <= |Process(n.ledger, e.chain, verify, e.i).commits|
    ensures MidwayOk(StateAt(n.ledger, Process(n.ledger, e.chain, verify, e.i), k), verify, e.i)
  {
    var i, l := e.i, n.ledger;
    if Handled(l, i) {
      ResultInv(l, verify, i.oid, Nothing());
    } else {
      ProcessUnfold(l, e.chain, verify, i, k);
      RequestWritten(n, verify, e);
      CommitOk(WriteRequest(l, i.rid, i.amount), e.chain, verify, i, k - 1);
    }
  }

  lemma {:induction false} SettledOk(l: Ledger, verify: Verifier, i: Input)
    requires MidwayOk(l, verify, i) && Settled(l, i.rid)
    ensures NodeOk(Node(l, None), verify)
  {
    hide Inv;
  }

  /** A repetition, or an output that is ignored, leaves no request open that was not open before. */
  lemma {:induction false} RepeatedOk(n: Node, verify: Verifier, e: Event)
    requires NodeOk(n, verify) && Allowed(n, e) && (Handled(n.ledger, e.i) || e.i.action.Ignore?)
    requires Completes(Process(n.ledger, e.chain, verify, e.i), e)
    ensures NodeOk(Next(n, verify, e), verify)
  {
    hide Inv, Handle;
    ResultInv(n.ledger, verify, e.i.oid, Nothing());
  }

  lemma {:induction false} CompletedOk(n: Node, verify: Verifier, e: Event)
    requires NodeOk(n, verify) && Allowed(n, e)
    requires Completes(Process(n.ledger, e.chain, verify, e.i), e)
    ensures NodeOk(Next(n, verify, e), verify)
  {
    var i, l := e.i, n.ledger;
    if Handled(l, i) || i.action.Ignore? {
      RepeatedOk(n, verify, e);
    } else {
      hide Inv, Process, Handle, Moves, MidwayOk, NodeOk, Settled, Handled, WriteRequest, Allowed;
      var run := Process(l, e.chain, verify, i);
      RequestWritten(n, verify, e);
      HandleMoves(WriteRequest(l, i.rid, i.amount), e.chain, verify, i);
      ProcessUnfold(l, e.chain, verify, i, 0);
      ProcessOk(n, verify, e, |run.commits|);
      SettledOk(Last(l, run), verify, i);
    }
  }

  lemma {:induction false} NextOk(n: Node, verify: Verifier, e: Event)
    requires NodeOk(n, verify) && Allowed(n, e)
    ensures NodeOk(Next(n, verify, e), verify)
  {
    var run := Process(n.ledger, e.chain, verify, e.i);
    if Completes(run, e) { CompletedOk(n, verify, e); } else if StopsAt(run, e) > 0 { ProcessOk(n, verify, e, StopsAt(run, e)); }
  }

  /** In every state a run can reach, the outputs and the transactions fit together. */
  lemma {:induction false} RunOk(verify: Verifier, es: seq<Event>)
    requires AllAllowed(Start(), verify, es)
    ensures NodeOk(After(Start(), verify, es), verify)
    decreases |es|
  {
    if es != [] {
      var ds := es[..|es| - 1];
      forall k | 0 <= k < |ds| ensures Allowed(After(Start(), verify, ds[..k]), ds[k]) {
        assert ds[..k] == es[..k];
        assert Allowed(After(Start(), verify, es[..k]), es[k]);
      }
      RunOk(verify, ds);
      assert Allowed(After(Start(), verify, es[..|es| - 1]), es[|es| - 1]);
      NextOk(After(Start(), verify, ds), verify, es[|es| - 1]);
    }
  }
}
