/**
 How the keeper handles the requests of Bitcoin and Litecoin safes.

 Answers from outside (signatures, addresses, network data, whether the group can pay for what it sends) are
 part of the request. A Go panic ends the handling where it stands: what was committed stays, nothing is sent.
 */
module KeeperBitcoin {
  import opened Options
  import opened KeeperTypes
  import opened KeeperLedger

  /** A transaction on the Bitcoin or Litecoin chain. */
  datatype ChainTx = ChainTx(vin: seq<OutPoint>, outs: seq<TxOut>)

  type Verifier = (Key, string, Sig) -> bool

  datatype Action =
    /** A request of another role or kind, which the keeper ignores. */
    | Ignore
    | ApproveAccount(valid: bool, safe: Safe, sendable: bool)
    /** `value` is the deposited amount; the amount of the request itself is what the observer paid with it. */
    | Deposit(valid: bool, point: OutPoint, value: nat, minimum: bool, informed: bool, final: bool, payable: bool)
    | Propose(valid: bool, priced: bool, recipients: seq<TxOut>, hash: Hash, sighashes: seq<string>,
              buildable: bool, sendable: bool, refundable: bool)
    | Approve(valid: bool, target: Rid, same: seq<bool>, sendable: bool)
    | Revoke(valid: bool, target: Rid, payable: bool)
    | Respond(sig: Sig, sendable: bool)
    | CloseWithHolder(valid: bool, hash: Hash, inputs: seq<OutPoint>, outs: seq<TxOut>, signed: bool, sendable: bool)
    | CloseWithoutHolder(valid: bool, target: Rid, hash: Hash, matured: bool, totals: bool,
                         messages: seq<string>, sendable: bool)

  /** An output handed to the keeper; `bondOf` is the safe whose bond it carries, if it carries one. */
  datatype Input = Input(oid: string, rid: Rid, holder: Holder, amount: nat, bondOf: Option<Holder>,
                         createdAt: int, action: Action)

  /** The commits of one handling, oldest first, and what it returned unless it panicked. */
  datatype Run = Run(commits: seq<Ledger>, reply: Option<Reply>)

  function Nothing(): Reply
  {
    Reply([], false)
  }

  /** What is sent when the observer is to be told of stored data. */
  function Sent(): Reply
  {
    Reply([Storage, Notify], false)
  }

  function Commit(r: Option<Ledger>, reply: Reply): (run: Run)
  {
    match r
    case None => Run([], None)
    case Some(l) => Run([l], Some(reply))
  }

  function Stop(): Run
  {
    Run([], None)
  }

  /** `failRequest`. */
  function Fail(l: Ledger, i: Input): (run: Run)
  {
    Commit(FailRequest(l, i.rid, i.oid, Nothing()), Nothing())
  }

  /** `refundAndFailRequest`. */
  function Refund(l: Ledger, i: Input, refundable: bool): (run: Run)
  {
    var reply := if refundable then Reply([Bond(i.holder, i.amount)], false) else Reply([], true);
    Commit(FailRequest(l, i.rid, i.oid, reply), reply)
  }

  /** The transaction a request has written. */
  ghost function ByRequest(l: Ledger, rid: Rid): (r: Option<Hash>)
    ensures r.Some? ==> r.value in l.transactions && l.transactions[r.value].requestId == rid
    ensures r.None? ==> !RequestTaken(l, rid)
  {
    if RequestTaken(l, rid) then
      var h :| h in l.transactions && l.transactions[h].requestId == rid;
      Some(h)
    else None
  }

  function Unfinished(l: Ledger, holder: Holder): (s: set<Hash>)
  {
    set h | h in l.transactions && l.transactions[h].holder == holder
            && (l.transactions[h].state == Initial || l.transactions[h].state == Pending)
  }

  // ---- Accounts

  function HandleApproveAccount(l: Ledger, i: Input): (run: Run)
    requires i.action.ApproveAccount?
  {
    var a := i.action;
    if i.holder in l.safes || !a.valid || !a.sendable then Fail(l, i)
    else
      Commit(WriteSafe(l, i.holder, a.safe.(state := Done, nonce := 0), i.rid, i.oid, Sent()), Sent())
  }

  // ---- Deposits

  function CountUnspent(l: Ledger, address: Address): nat
  {
    |set o | o in l.outputs && l.outputs[o].address == address && (l.outputs[o].state == Initial || l.outputs[o].state == Pending)|
  }

  /** `checkBitcoinChange`: `None` when the spender of a recorded output is not recorded. */
  function IsChange(l: Ledger, tx: ChainTx, index: nat): (r: Option<bool>)
    requires tx.vin != []
  {
    var o := tx.vin[0];
    if o !in l.outputs then Some(false)
    else if l.outputs[o].spentBy.None? || l.outputs[o].spentBy.value !in l.transactions then None
    else
      var recipients := l.transactions[l.outputs[o].spentBy.value].recipients;
      if recipients == [] then None else Some(index >= |recipients|)
  }

  /** Change issues no bonds. */
  function Deposited(i: Input, change: bool): Reply
    requires i.action.Deposit?
  {
    Reply(if change then [] else [Bond(i.holder, i.action.value)], false)
  }

  /** The end of `doBitcoinHolderDeposit`, once it is known whether the output is change. */
  function DepositRun(l: Ledger, tx: ChainTx, i: Input, s: Safe, change: bool): (run: Run)
    requires i.action.Deposit?
  {
    var a := i.action;
    if !a.minimum && !change then Fail(l, i)
    else if a.value < Dust(s.chain) then Stop()
    else if !a.informed then Fail(l, i)
    else if a.point.index >= |tx.outs| || tx.outs[a.point.index] != Pay(s.address, a.value) || !a.final then Stop()
    else if !change && !a.payable then Fail(l, i)
    else Commit(WriteOutput(l, s, a.point, a.value, i.rid, i.oid, Deposited(i, change)), Deposited(i, change))
  }

  /** `CreateHolderDeposit` and `doBitcoinHolderDeposit`. */
  function HandleDeposit(l: Ledger, chain: map<Hash, ChainTx>, i: Input): (run: Run)
    requires i.action.Deposit?
  {
    var a := i.action;
    var p := a.point;
    if i.holder !in l.safes || !a.valid || l.safes[i.holder].state != Done then Fail(l, i)
    else
      var s := l.safes[i.holder];
      if p in l.outputs || p in l.deposits || CountUnspent(l, s.address) >= MAX_UNSPENT then Fail(l, i)
      else if p.hash !in chain || chain[p.hash].vin == [] then Stop()
      else match IsChange(l, chain[p.hash], p.index)
        case None => Stop()
        case Some(change) => DepositRun(l, chain[p.hash], i, s, change)
  }

  // ---- Proposing

  function SumPaid(outs: seq<TxOut>): (n: nat)
    decreases |outs|
  {
    if outs == [] then 0
    else (match outs[0] case Pay(_, v) => v case Data => 0) + SumPaid(outs[1..])
  }

  /** The outputs of `BuildPartiallySignedTransaction`: the recipients, change above dust, and the request id. */
  function BuildOuts(recipients: seq<TxOut>, address: Address, change: nat, chain: Chain): (outs: seq<TxOut>)
  {
    recipients + (if change > Dust(chain) then [Pay(address, change)] else []) + [Data]
  }

  function Funds(l: Ledger, s: Safe): (n: nat)
  {
    SumSatoshi(l.outputs, Unspent(l.outputs, l.order, s.address))
  }

  /** The transaction that spends everything unspent, with the rest as change. */
  function Proposal(l: Ledger, i: Input, s: Safe): (t: Transaction)
    requires i.action.Propose? && i.amount <= Funds(l, s)
  {
    Transaction(i.holder, Initial, i.rid, true, Unspent(l.outputs, l.order, s.address),
                BuildOuts(i.action.recipients, s.address, Funds(l, s) - i.amount, s.chain),
                i.action.sighashes, i.action.recipients)
  }

  /** `processBitcoinSafeProposeTransaction`. */
  function HandlePropose(l: Ledger, i: Input): (run: Run)
    requires i.action.Propose?
  {
    var a := i.action;
    if i.holder !in l.safes || l.safes[i.holder].state != Done || i.bondOf != Some(i.holder) then Fail(l, i)
    else if !a.priced then Refund(l, i, a.refundable)
    else if !a.valid || |a.recipients| > 256 || SumPaid(a.recipients) != i.amount then Fail(l, i)
    else if i.amount > Funds(l, l.safes[i.holder]) then Refund(l, i, a.refundable)
    else
      var t := Proposal(l, i, l.safes[i.holder]);
      if !a.buildable || |t.sighashes| != |t.inputs| || t.inputs == [] || t.recipients == [] then Stop()
      else if !a.sendable then Refund(l, i, a.refundable)
      else Commit(WriteTransaction(l, a.hash, t, t.inputs, i.oid, Sent()), Sent())
  }

  // ---- Asking for signatures

  predicate Multisig(l: Ledger, o: OutPoint)
  {
    o in l.outputs && l.outputs[o].multisig
  }

  /** `checkTransactionIndexSignaturePending`: an answer is there, or may still come. */
  predicate SignaturePending(l: Ledger, hash: Hash, index: nat, now: int)
  {
    exists r :: r in l.signatures && l.signatures[r].hash == hash && l.signatures[r].index == index
                && (l.signatures[r].state != Initial || l.signatures[r].createdAt + SIGNATURE_TIMEOUT > now)
  }

  predicate NeedsSignature(l: Ledger, hash: Hash, t: Transaction, now: int, same: seq<bool>, idx: nat)
    requires idx < |t.inputs| == |same|
  {
    same[idx] && Multisig(l, t.inputs[idx]) && !SignaturePending(l, hash, idx, now)
  }

  /** The requests for the inputs from `idx` on. */
  function NewSignatures(l: Ledger, hash: Hash, t: Transaction, signer: Key, rid: Rid, now: int,
                         same: seq<bool>, messages: seq<string>, idx: nat): (w: seq<Wanted>)
    requires idx <= |t.inputs| == |same| == |messages|
    decreases |t.inputs| - idx
  {
    if idx == |t.inputs| then []
    else
      (if NeedsSignature(l, hash, t, now, same, idx) then
         [(Derived(rid, messages[idx]), SignatureRequest(hash, idx, signer, messages[idx], None, Initial, now))]
       else [])
      + NewSignatures(l, hash, t, signer, rid, now, same, messages, idx + 1)
  }

  function SignRequests(wanted: seq<Wanted>): (es: seq<Emitted>)
    decreases |wanted|
  {
    if wanted == [] then [] else [Sign(wanted[0].0, wanted[0].1.message)] + SignRequests(wanted[1..])
  }

  /** The unspent output behind an input is read before anything else; a missing one panics. */
  predicate InputsKnown(l: Ledger, t: Transaction)
  {
    forall o :: o in t.inputs ==> o in l.outputs
  }

  /** `processBitcoinSafeApproveTransaction`. */
  ghost function HandleApprove(l: Ledger, i: Input): (run: Run)
    requires i.action.Approve?
  {
    var a := i.action;
    var h := ByRequest(l, a.target);
    if i.holder !in l.safes || !a.valid || h.None? then Fail(l, i)
    else
      var t := l.transactions[h.value];
      if t.state == Done || t.holder != i.holder then Fail(l, i)
      else if |a.same| != |t.inputs| || |t.sighashes| != |t.inputs| || !InputsKnown(l, t) then Stop()
      else
        var wanted := NewSignatures(l, h.value, t, l.safes[i.holder].signer, i.rid, i.createdAt, a.same, t.sighashes, 0);
        if wanted == [] || !a.sendable then Fail(l, i)
        else
          var reply := Reply(SignRequests(wanted), false);
          Commit(WriteSignatures(l, wanted, h.value, i.rid, i.oid, reply), reply)
  }

  // ---- Signatures come back

  /** Rows of `ListAllSignaturesForTransaction` for one input: answered ones, the latest first. */
  predicate Answered(l: Ledger, hash: Hash, index: nat, r: Rid)
  {
    r in l.signatures && l.signatures[r].hash == hash && l.signatures[r].index == index
    && l.signatures[r].state == Pending && l.signatures[r].signature.Some?
  }

  ghost predicate Latest(l: Ledger, hash: Hash, index: nat, r: Rid)
  {
    Answered(l, hash, index, r)
    && forall q :: Answered(l, hash, index, q) ==> l.signatures[q].createdAt <= l.signatures[r].createdAt
  }

  datatype Scan = AllSigned | Missing | Broken

  /** Goes through the inputs and checks the answer for each. */
  ghost function ScanInputs(l: Ledger, verify: Verifier, key: Key, hash: Hash, t: Transaction, idx: nat): (s: Scan)
    requires idx <= |t.inputs| == |t.sighashes|
    decreases |t.inputs| - idx
  {
    if idx == |t.inputs| then AllSigned
    else if t.inputs[idx] !in l.outputs then Broken
    else if !Multisig(l, t.inputs[idx]) then ScanInputs(l, verify, key, hash, t, idx + 1)
    else if !(exists r :: Latest(l, hash, idx, r)) then Missing
    else
      var r :| Latest(l, hash, idx, r);
      if l.signatures[r].message != t.sighashes[idx] || !verify(key, t.sighashes[idx], l.signatures[r].signature.value) then Broken
      else ScanInputs(l, verify, key, hash, t, idx + 1)
  }

  /** `processSignerSignatureResponse` and `processBitcoinSafeSignatureResponse`; the answer is committed on its own. */
  ghost function HandleRespond(l: Ledger, verify: Verifier, i: Input): (run: Run)
    requires i.action.Respond?
  {
    if i.rid !in l.signatures || l.signatures[i.rid].state == Done then Fail(l, i)
    else
      var q := l.signatures[i.rid];
      if q.hash !in l.transactions || l.transactions[q.hash].holder !in l.safes then Stop()
      else
        var t := l.transactions[q.hash];
        var s := l.safes[t.holder];
        if s.signer != i.holder || !verify(s.signer, q.message, i.action.sig) then Fail(l, i)
        else match FinishSignature(l, i.rid, i.action.sig)
          case None => Stop()
          case Some(l1) => AfterAnswer(l1, verify, i, q.hash, t, s)
  }

  ghost function AfterAnswer(l: Ledger, verify: Verifier, i: Input, hash: Hash, t: Transaction, s: Safe): (run: Run)
    requires i.action.Respond?
  {
    var run := Finishing(l, verify, i, hash, t, s);
    Run([l] + run.commits, run.reply)
  }

  ghost function Finishing(l: Ledger, verify: Verifier, i: Input, hash: Hash, t: Transaction, s: Safe): (run: Run)
    requires i.action.Respond?
  {
    if |t.sighashes| != |t.inputs| then Stop()
    else match ScanInputs(l, verify, s.signer, hash, t, 0)
      case Broken => Stop()
      case Missing => Fail(l, i)
      case AllSigned =>
        if !i.action.sendable then Fail(l, i)
        else
          Commit(FinishTransaction(l, hash, |t.inputs|, t.holder, i.rid, i.oid, Sent()), Sent())
  }

  // ---- Revoking

  /** `processSafeRevokeTransaction`. */
  ghost function HandleRevoke(l: Ledger, i: Input): (run: Run)
    requires i.action.Revoke?
  {
    var a := i.action;
    var h := ByRequest(l, a.target);
    if i.holder !in l.safes || !a.valid || h.None? then Fail(l, i)
    else
      var t := l.transactions[h.value];
      if t.holder != i.holder || t.state != Initial || a.target !in l.requests then Fail(l, i)
      else if !a.payable then Commit(FailRequest(l, i.rid, i.oid, Reply([], true)), Reply([], true))
      else
        var reply := Reply([Bond(i.holder, l.requests[a.target].amount)], false);
        Commit(RevokeTransaction(l, h.value, t, l.safes[i.holder], i.rid, i.oid, reply), reply)
  }

  // ---- Closing

  predicate Closable(l: Ledger, holder: Holder)
  {
    holder in l.safes && (l.safes[holder].state == Done || l.safes[holder].state == Failed)
  }

  /** The recovery transaction as it is recorded, done from the start. */
  function Closing(i: Input): (t: Transaction)
    requires i.action.CloseWithHolder? && i.action.outs != []
  {
    Transaction(i.holder, Done, i.rid, false, i.action.inputs, i.action.outs, [], [i.action.outs[0]])
  }

  /** `closeBitcoinAccountWithHolder`. */
  function HandleCloseWithHolder(l: Ledger, i: Input): (run: Run)
    requires i.action.CloseWithHolder?
  {
    var a := i.action;
    if !Closable(l, i.holder) || !a.valid || a.outs == [] || Unfinished(l, i.holder) != {} || !a.signed || !a.sendable then Fail(l, i)
    else
      var inputs := Unspent(l.outputs, l.order, l.safes[i.holder].address);
      Commit(CloseByTransaction(l, a.hash, Closing(i), inputs, i.oid, Sent()), Sent())
  }

  /** `processBitcoinSafeCloseAccount` with a proposed recovery transaction. */
  ghost function HandleCloseWithoutHolder(l: Ledger, i: Input): (run: Run)
    requires i.action.CloseWithoutHolder?
  {
    var a := i.action;
    var h := ByRequest(l, a.target);
    if !Closable(l, i.holder) || !a.valid || |Unfinished(l, i.holder)| != 1
       || Unspent(l.outputs, l.order, l.safes[i.holder].address) != [] || h.None? then Fail(l, i)
    else
      var t := l.transactions[h.value];
      var s := l.safes[i.holder];
      if t.state == Done || t.holder != i.holder || a.hash != h.value then Fail(l, i)
      else if |a.messages| != |t.inputs| || !InputsKnown(l, t) || !a.matured then Stop()
      else
        var wanted := NewSignatures(l, h.value, t, s.signer, i.rid, i.createdAt, seq(|t.inputs|, _ => true), a.messages, 0);
        if !a.totals || wanted == [] || !a.sendable then Fail(l, i)
        else
          var reply := Reply(SignRequests(wanted), false);
          if s.state == Done then Commit(CloseBySignatures(l, i.holder, wanted, h.value, i.rid, i.oid, reply), reply)
          else Commit(WriteSignatures(l, wanted, h.value, i.rid, i.oid, reply), reply)
  }

  // ---- One output

  ghost function Handle(l: Ledger, chain: map<Hash, ChainTx>, verify: Verifier, i: Input): (run: Run)
  {
    match i.action
    case Ignore => Stop()
    case ApproveAccount(_, _, _) => HandleApproveAccount(l, i)
    case Deposit(_, _, _, _, _, _, _) => HandleDeposit(l, chain, i)
    case Propose(_, _, _, _, _, _, _, _) => HandlePropose(l, i)
    case Approve(_, _, _, _) => HandleApprove(l, i)
    case Revoke(_, _, _) => HandleRevoke(l, i)
    case Respond(_, _) => HandleRespond(l, verify, i)
    case CloseWithHolder(_, _, _, _, _, _) => HandleCloseWithHolder(l, i)
    case CloseWithoutHolder(_, _, _, _, _, _, _) => HandleCloseWithoutHolder(l, i)
  }

  /** `processAction`: an output that has a result returns it, one whose request is over gets an empty result. */
  ghost function Process(l: Ledger, chain: map<Hash, ChainTx>, verify: Verifier, i: Input): (run: Run)
  {
    if i.rid in l.requests && l.requests[i.rid].state != Initial then
      if i.oid in l.results then Run([], Some(l.results[i.oid]))
      else Commit(WriteResult(l, i.oid, Nothing()), Nothing())
    else if i.action.Ignore? then Run([], Some(Nothing()))
    else
      var l0 := WriteRequest(l, i.rid, i.amount);
      var run := Handle(l0, chain, verify, i);
      Run([l0] + run.commits, run.reply)
  }

  /** The ledger after the commits of a run. */
  function Last(l: Ledger, run: Run): (l': Ledger)
  {
    if run.commits == [] then l else run.commits[|run.commits| - 1]
  }
}
