/** How the keeper handles the requests of Ethereum and Polygon safes. */
module KeeperEthereum {
  import opened Options
  import opened KeeperTypes
  import opened EthereumLedger

  type Verifier = (Key, string, Sig) -> bool

  /** The signer key that is given to a holder, once and for all. */
  type Assigned = Holder -> Key

  datatype Action =
    | Ignore
    /** `paid`: asset and amount are those of the plan; `keyed`: the holder has a pair of keys, all three of them different. */
    | ProposeAccount(valid: bool, priced: bool, paid: bool, keyed: bool, address: Address, hash: Hash, raw: Raw, sendable: bool, refundable: bool)
    | ApproveAccount(valid: bool, target: Rid, sendable: bool)
    /** `value` is the deposited amount; the amount of the request itself is what the observer paid with it. */
    | Deposit(valid: bool, point: OutPoint, token: Token, value: nat, confirmed: bool, found: bool, payable: bool)
    | Propose(valid: bool, priced: bool, hash: Hash, raw: Raw, sendable: bool, refundable: bool)
    | Approve(valid: bool, target: Rid, raw: Raw, sendable: bool)
    | Revoke(valid: bool, target: Rid, payable: bool)
    /** `scaled` is the amount of the bond refund, in the decimals of the bond. */
    | Refund(valid: bool, target: Rid, scaled: nat, payable: bool)
    /** `guard` says that the data of the transaction are those that enable the guard, which pays nothing. */
    | Respond(sig: Sig, guard: bool, sendable: bool)
    /** `unlocked`: the time lock of the safe has passed on the chain. */
    | CloseWithHolder(unlocked: bool, valid: bool, hash: Hash, raw: Raw, signed: bool, sendable: bool)
    | CloseWithoutHolder(unlocked: bool, valid: bool, target: Rid, raw: Raw, sendable: bool)

  datatype Input = Input(oid: string, rid: Rid, holder: Holder, amount: nat, createdAt: int, action: Action)

  datatype Run = Run(commits: seq<Books>, reply: Option<Reply>)

  function Commit(r: Option<Books>, reply: Reply): (run: Run)
  {
    match r
    case None => Run([], None)
    case Some(l) => Run([l], Some(reply))
  }

  function Stop(): Run
  {
    Run([], None)
  }

  function Sent(): Reply
  {
    Reply([Storage, Notify], false)
  }

  function Fail(l: Books, i: Input): (run: Run)
  {
    Commit(FailRequest(l, i.rid, i.oid, Reply([], false)), Reply([], false))
  }

  function GiveBack(l: Books, i: Input, refundable: bool): (run: Run)
  {
    var reply := if refundable then Reply([Bond(i.holder, i.amount)], false) else Reply([], true);
    Commit(FailRequest(l, i.rid, i.oid, reply), reply)
  }

  ghost function ByRequest(l: Books, rid: Rid): (r: Option<Hash>)
    ensures r.Some? ==> r.value in l.transactions && l.transactions[r.value].requestId == rid
  {
    if RequestTaken(l, rid) then
      var h :| h in l.transactions && l.transactions[h].requestId == rid;
      Some(h)
    else None
  }

  predicate Open(t: SafeTx)
  {
    t.state == Initial || t.state == Pending
  }

  function Unfinished(l: Books, holder: Holder): set<Hash>
  {
    set h | h in l.transactions && l.transactions[h].holder == holder && Open(l.transactions[h])
  }

  // ---- Accounts

  /** `processEthereumSafeProposeAccount`, after the keys were given out. */
  function HandleProposeAccount(l: Books, keyOf: Assigned, i: Input): (run: Run)
    requires i.action.ProposeAccount?
  {
    var a := i.action;
    if !a.valid then Fail(l, i)
    else if !a.priced then GiveBack(l, i, a.refundable)
    else if !a.paid || i.holder in l.safes || i.rid in l.proposals then Fail(l, i)
    else if !a.keyed then GiveBack(l, i, a.refundable)
    else if exists r :: r in l.proposals && l.proposals[r].address == a.address then Fail(l, i)
    else if !a.sendable then GiveBack(l, i, a.refundable)
    else Commit(WriteProposal(l, i.rid, Proposal(i.holder, keyOf(i.holder), a.address, a.hash), a.raw, i.oid, Sent()), Sent())
  }

  function AskFor(l: Books, i: Input, hash: Hash, raw: Raw, sendable: bool): (run: Run)
  {
    var id := Derived(i.rid, raw.message);
    if !sendable then Fail(l, i)
    else
      var reply := Reply([Sign(id, raw.message)], false);
      Commit(WriteAnswer(l, id, Answer(hash, raw.message, None, Initial, i.createdAt), raw, i.rid, i.oid, reply), reply)
  }

  /** `processEthereumSafeApproveAccount`; the unfinished safe is committed on its own. */
  function HandleApproveAccount(l: Books, i: Input): (run: Run)
    requires i.action.ApproveAccount?
  {
    var a := i.action;
    if (i.holder in l.safes && l.safes[i.holder].state != Pending) || !a.valid || a.target !in l.proposals
       || l.proposals[a.target].holder != i.holder || l.proposals[a.target].setup !in l.transactions then Fail(l, i)
    else
      var p := l.proposals[a.target];
      match WriteUnfinished(l, i.holder, Account(p.signer, p.address, Pending, 0))
      case None => Stop()
      case Some(l1) =>
        var run := AskFor(l1, i, p.setup, l.transactions[p.setup].raw, a.sendable);
        Run([l1] + run.commits, run.reply)
  }

  // ---- Deposits

  /** `doEthereumHolderDeposit`. */
  function HandleDeposit(l: Books, i: Input): (run: Run)
    requires i.action.Deposit?
  {
    var a := i.action;
    if i.holder !in l.safes || !a.valid || l.safes[i.holder].state != Done || a.point in l.deposits then Fail(l, i)
    else if !a.confirmed then Stop()
    else if !a.found || !a.payable then Fail(l, i)
    else
      var reply := Reply([Bond(i.holder, a.value)], false);
      Commit(WriteDeposit(l, i.holder, a.point, a.token, a.value, i.rid, i.oid, reply), reply)
  }

  // ---- Transactions

  /** `processEthereumSafeProposeTransaction`. */
  function HandlePropose(l: Books, i: Input): (run: Run)
    requires i.action.Propose?
  {
    var a := i.action;
    if i.holder !in l.safes || l.safes[i.holder].state != Done || Unfinished(l, i.holder) != {} then Fail(l, i)
    else if !a.priced then GiveBack(l, i, a.refundable)
    else if !a.valid then Fail(l, i)
    else if !a.sendable then GiveBack(l, i, a.refundable)
    else Commit(WriteTransaction(l, a.hash, SafeTx(i.holder, Initial, i.rid, false, false, a.raw), i.oid, Sent()), Sent())
  }

  /** `processEthereumSafeApproveTransaction`: what the holder signed replaces what was proposed. */
  ghost function HandleApprove(l: Books, i: Input): (run: Run)
    requires i.action.Approve?
  {
    var a, h := i.action, ByRequest(l, i.action.target);
    if i.holder !in l.safes || !a.valid || h.None? || l.transactions[h.value].state == Done
       || l.transactions[h.value].holder != i.holder then Fail(l, i)
    else AskFor(l, i, h.value, a.raw, a.sendable)
  }

  /** `processSafeRevokeTransaction`. */
  ghost function HandleRevoke(l: Books, i: Input): (run: Run)
    requires i.action.Revoke?
  {
    var a, h := i.action, ByRequest(l, i.action.target);
    if i.holder !in l.safes || !a.valid || h.None? || l.transactions[h.value].state != Initial
       || l.transactions[h.value].holder != i.holder || a.target !in l.requests then Fail(l, i)
    else if !a.payable then Commit(FailRequest(l, i.rid, i.oid, Reply([], true)), Reply([], true))
    else
      var reply := Reply([Bond(i.holder, l.requests[a.target].amount)], false);
      Commit(RevokeTransaction(l, h.value, i.rid, i.oid, reply), reply)
  }

  /** `processEthereumSafeRefundTransaction`. */
  ghost function HandleRefund(l: Books, i: Input): (run: Run)
    requires i.action.Refund?
  {
    var a, h := i.action, ByRequest(l, i.action.target);
    if i.holder !in l.safes || !a.valid || h.None? || l.transactions[h.value].holder != i.holder
       || l.transactions[h.value].state != Done then Fail(l, i)
    else match Credit(l.balances, i.holder, l.transactions[h.value].raw.payments)
      case None => Stop()
      case Some(balances) =>
        if !a.payable then Commit(FailRequest(l, i.rid, i.oid, Reply([], true)), Reply([], true))
        else
          var reply := Reply([Bond(i.holder, a.scaled)], false);
          Commit(FailTransaction(l, h.value, i.holder, balances, i.rid, i.oid, reply), reply)
  }

  // ---- Signatures come back

  predicate Answered(l: Books, hash: Hash, r: Rid)
  {
    r in l.answers && l.answers[r].hash == hash && l.answers[r].state == Pending && l.answers[r].signature.Some?
  }

  /** Earlier, or at the same time and first by id. */
  predicate Precedes(l: Books, q: Rid, r: Rid)
    requires q in l.answers && r in l.answers
  {
    l.answers[q].createdAt < l.answers[r].createdAt || (l.answers[q].createdAt == l.answers[r].createdAt && Below(q, r))
  }

  ghost predicate Latest(l: Books, hash: Hash, r: Rid)
  {
    Answered(l, hash, r) && forall q :: Answered(l, hash, q) ==> Precedes(l, q, r)
  }

  /** `processSignerSignatureResponse` and `processEthereumSafeSignatureResponse`. */
  ghost function HandleRespond(l: Books, verify: Verifier, i: Input): (run: Run)
    requires i.action.Respond?
  {
    if i.rid !in l.answers || l.answers[i.rid].state == Done then Fail(l, i)
    else
      var q := l.answers[i.rid];
      if q.hash !in l.transactions || l.transactions[q.hash].holder !in l.safes then Stop()
      else
        var t := l.transactions[q.hash];
        if l.safes[t.holder].signer != i.holder || !verify(i.holder, q.message, i.action.sig) then Fail(l, i)
        else match FinishAnswer(l, i.rid, i.action.sig)
          case None => Stop()
          case Some(l1) => AfterAnswer(l1, verify, i, q.hash, t, l.safes[t.holder])
  }

  ghost function AfterAnswer(l: Books, verify: Verifier, i: Input, hash: Hash, t: SafeTx, s: Account): (run: Run)
    requires i.action.Respond?
  {
    var run := Finishing(l, verify, i, hash, t, s);
    Run([l] + run.commits, run.reply)
  }

  ghost function Finishing(l: Books, verify: Verifier, i: Input, hash: Hash, t: SafeTx, s: Account): (run: Run)
    requires i.action.Respond?
  {
    if !(exists r :: Latest(l, hash, r)) then Stop()
    else
      var r :| Latest(l, hash, r);
      if !verify(s.signer, t.raw.message, l.answers[r].signature.value) then Stop()
      else if s.state == Pending then
        if !i.action.sendable then Fail(l, i)
        else if !i.action.guard || !PaysNothing(t.raw.payments) then Stop()
        else Commit(FinishTransaction(l, hash, t.holder, Done, l.balances, i.rid, i.oid, Sent()), Sent())
      else match Debit(l.balances, t.holder, t.raw.payments)
        case Unknown => Stop()
        case Short => Fail(l, i)
        case Debited(balances) =>
          if !i.action.sendable then Fail(l, i)
          else Commit(FinishTransaction(l, hash, t.holder, s.state, balances, i.rid, i.oid, Sent()), Sent())
  }

  predicate PaysNothing(ps: seq<Payment>)
  {
    forall p :: p in ps ==> p.amount == 0
  }

  // ---- Closing

  predicate Closable(l: Books, holder: Holder)
  {
    holder in l.safes && (l.safes[holder].state == Done || l.safes[holder].state == Failed)
  }

  /** The checks common to both ways of closing: the run they end in, or none if they are passed. */
  function Unclosable(l: Books, i: Input, unlocked: bool, valid: bool, ps: seq<Payment>): (r: Option<Run>)
  {
    if !Closable(l, i.holder) then Some(Fail(l, i))
    else if !unlocked then Some(Stop())
    else if !valid then Some(Fail(l, i))
    else match ClosePays(l.balances, i.holder, ps)
      case Missing => Some(Stop())
      case Different => Some(Fail(l, i))
      case Matching => None
  }

  /** `closeEthereumAccountWithHolder`. */
  function HandleCloseWithHolder(l: Books, i: Input): (run: Run)
    requires i.action.CloseWithHolder?
  {
    var a := i.action;
    match Unclosable(l, i, a.unlocked, a.valid, a.raw.payments)
    case Some(run) => run
    case None =>
      if Unfinished(l, i.holder) != {} || !a.signed || !a.sendable then Fail(l, i)
      else Commit(CloseByTransaction(l, a.hash, SafeTx(i.holder, Done, i.rid, false, true, a.raw), i.oid, Sent()), Sent())
  }

  /** `processEthereumSafeCloseAccount` with a proposed transaction. */
  ghost function HandleCloseWithoutHolder(l: Books, i: Input): (run: Run)
    requires i.action.CloseWithoutHolder?
  {
    var a, h := i.action, ByRequest(l, i.action.target);
    match Unclosable(l, i, a.unlocked, a.valid, a.raw.payments)
    case Some(run) => run
    case None =>
      if |Unfinished(l, i.holder)| != 1 || h.None? || l.transactions[h.value].state == Done
         || l.transactions[h.value].holder != i.holder || a.raw.message != l.transactions[h.value].raw.message then Fail(l, i)
      else if l.safes[i.holder].state == Failed || !a.sendable then AskFor(l, i, h.value, a.raw, a.sendable)
      else AskFor(CloseSafe(l, i.holder).value, i, h.value, a.raw, a.sendable)
  }

  // ---- One output

  ghost function Handle(l: Books, keyOf: Assigned, verify: Verifier, i: Input): (run: Run)
  {
    match i.action
    case Ignore => Stop()
    case ProposeAccount(_, _, _, _, _, _, _, _, _) => HandleProposeAccount(l, keyOf, i)
    case ApproveAccount(_, _, _) => HandleApproveAccount(l, i)
    case Deposit(_, _, _, _, _, _, _) => HandleDeposit(l, i)
    case Propose(_, _, _, _, _, _) => HandlePropose(l, i)
    case Approve(_, _, _, _) => HandleApprove(l, i)
    case Revoke(_, _, _) => HandleRevoke(l, i)
    case Refund(_, _, _, _) => HandleRefund(l, i)
    case Respond(_, _, _) => HandleRespond(l, verify, i)
    case CloseWithHolder(_, _, _, _, _, _) => HandleCloseWithHolder(l, i)
    case CloseWithoutHolder(_, _, _, _, _) => HandleCloseWithoutHolder(l, i)
  }

  predicate Handled(l: Books, i: Input)
  {
    i.rid in l.requests && l.requests[i.rid].state != Initial
  }

  /** `processAction`. */
  ghost function Process(l: Books, keyOf: Assigned, verify: Verifier, i: Input): (run: Run)
  {
    if Handled(l, i) then
      if i.oid in l.results then Run([], Some(l.results[i.oid]))
      else Run([l.(results := l.results[i.oid := Reply([], false)])], Some(Reply([], false)))
    else if i.action.Ignore? then Run([], Some(Reply([], false)))
    else
      var l0 := WriteRequest(l, i.rid, i.amount);
      var run := Handle(l0, keyOf, verify, i);
      Run([l0] + run.commits, run.reply)
  }

  function StateAt(l: Books, run: Run, k: nat): Books
    requires k <= |run.commits|
  {
    if k == 0 then l else run.commits[k - 1]
  }

  function Last(l: Books, run: Run): Books
  {
    StateAt(l, run, |run.commits|)
  }
}
