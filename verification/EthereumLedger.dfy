/**
 The tables of the keeper that carry Ethereum and Polygon safes, the store transactions on them, and the handlers.

 Amounts are in the smallest unit of their token. As for Bitcoin, answers from outside are part of the request,
 and a panic ends the handling where it stands.
 */
module EthereumLedger {
  import opened Options
  import opened KeeperTypes

  type Token = string

  datatype Payment = Payment(token: Token, destination: Address, amount: nat)

  /** What is read from a raw transaction: the message that is signed and the payments it makes. */
  datatype Raw = Raw(message: string, payments: seq<Payment>)

  /** `setup` enables the guard of a new safe; `byHolder` closes a safe with the holder key. */
  datatype SafeTx = SafeTx(holder: Holder, state: State, requestId: Rid, setup: bool, byHolder: bool, raw: Raw)

  datatype Answer = Answer(hash: Hash, message: string, signature: Option<Sig>, state: State, createdAt: int)

  datatype Account = Account(signer: Key, address: Address, state: State, nonce: int)

  datatype Proposal = Proposal(holder: Holder, signer: Key, address: Address, setup: Hash)

  datatype Deposited = Deposited(holder: Holder, token: Token, amount: nat)

  datatype Request = Request(state: State, amount: nat)

  datatype Books = Books(
    requests: map<Rid, Request>,
    results: map<string, Reply>,
    proposals: map<Rid, Proposal>,
    safes: map<Holder, Account>,
    transactions: map<Hash, SafeTx>,
    answers: map<Rid, Answer>,
    balances: map<(Holder, Token), int>,
    deposits: map<OutPoint, Deposited>)

  function NoBooks(): Books
  {
    Books(map[], map[], map[], map[], map[], map[], map[], map[])
  }

  // ---- Requests and results

  function WriteRequest(l: Books, rid: Rid, amount: nat): Books
  {
    if rid in l.requests then l else l.(requests := l.requests[rid := Request(Initial, amount)])
  }

  /** Settles the request and records the result: the end of every store transaction. */
  function Close(l: Books, rid: Rid, oid: string, reply: Reply): (r: Option<Books>)
  {
    if rid !in l.requests || oid in l.results then None
    else Some(l.(requests := l.requests[rid := l.requests[rid].(state := Done)], results := l.results[oid := reply]))
  }

  function FailRequest(l: Books, rid: Rid, oid: string, reply: Reply): (r: Option<Books>)
  {
    if rid !in l.requests || l.requests[rid].state != Initial || oid in l.results then None
    else Some(l.(requests := l.requests[rid := l.requests[rid].(state := Failed)], results := l.results[oid := reply]))
  }

  // ---- Accounts

  predicate ProposalFree(l: Books, p: Proposal)
  {
    forall r :: r in l.proposals ==> l.proposals[r].signer != p.signer && l.proposals[r].address != p.address
  }

  predicate RequestTaken(l: Books, rid: Rid)
  {
    exists h :: h in l.transactions && l.transactions[h].requestId == rid
  }

  /** `WriteEthereumSafeProposalWithRequest`. */
  function WriteProposal(l: Books, rid: Rid, p: Proposal, raw: Raw, oid: string, reply: Reply): (r: Option<Books>)
  {
    if rid in l.proposals || !ProposalFree(l, p) || p.setup in l.transactions || RequestTaken(l, rid) then None
    else
      Close(l.(proposals := l.proposals[rid := p],
               transactions := l.transactions[p.setup := SafeTx(p.holder, Initial, rid, true, false, raw)]), rid, oid, reply)
  }

  /** `WriteUnfinishedSafe`: a repeated call finds the safe and changes nothing. */
  function WriteUnfinished(l: Books, holder: Holder, a: Account): (r: Option<Books>)
  {
    if exists h :: h in l.safes && l.safes[h].address == a.address && l.safes[h].state == Pending then Some(l)
    else if holder in l.safes || exists h :: h in l.safes && (l.safes[h].address == a.address || l.safes[h].signer == a.signer) then None
    else Some(l.(safes := l.safes[holder := a]))
  }

  // ---- Balances

  function Balance(balances: map<(Holder, Token), int>, holder: Holder, token: Token): int
  {
    if (holder, token) in balances then balances[(holder, token)] else 0
  }

  datatype Debited = Debited(balances: map<(Holder, Token), int>) | Short | Unknown

  /** Takes the payments off the balances one by one; a token without a balance panics, a short one fails. */
  function Debit(balances: map<(Holder, Token), int>, holder: Holder, ps: seq<Payment>): (r: Debited)
    decreases |ps|
  {
    if ps == [] then Debited(balances)
    else if (holder, ps[0].token) !in balances then Unknown
    else if balances[(holder, ps[0].token)] - ps[0].amount < 0 then Short
    else Debit(balances[(holder, ps[0].token) := balances[(holder, ps[0].token)] - ps[0].amount], holder, ps[1..])
  }

  /** Puts the payments of a refunded transaction back. */
  function Credit(balances: map<(Holder, Token), int>, holder: Holder, ps: seq<Payment>): (r: Option<map<(Holder, Token), int>>)
    decreases |ps|
  {
    if ps == [] then Some(balances)
    else if (holder, ps[0].token) !in balances then None
    else Credit(balances[(holder, ps[0].token) := balances[(holder, ps[0].token)] + ps[0].amount], holder, ps[1..])
  }

  /** The tokens a holder has a balance of, be it zero. */
  function Tokens(balances: map<(Holder, Token), int>, holder: Holder): (ts: set<Token>)
  {
    set k | k in balances && k.0 == holder :: k.1
  }

  /** How the payments of a closing transaction compare with the balances; `Missing` is a token without a balance. */
  datatype Compared = Matching | Different | Missing

  function Compare(balances: map<(Holder, Token), int>, holder: Holder, destination: Address, ps: seq<Payment>): (c: Compared)
    decreases |ps|
  {
    if ps == [] then Matching
    else if ps[0].destination != destination then Different
    else if (holder, ps[0].token) !in balances then Missing
    else if balances[(holder, ps[0].token)] != ps[0].amount then Different
    else Compare(balances, holder, destination, ps[1..])
  }

  /** One payment for each balance, to one destination, and of that balance; no payment at all panics. */
  function ClosePays(balances: map<(Holder, Token), int>, holder: Holder, ps: seq<Payment>): (c: Compared)
  {
    if |ps| != |Tokens(balances, holder)| then Different
    else if ps == [] then Missing
    else Compare(balances, holder, ps[0].destination, ps)
  }

  /** `CreateEthereumBalanceDepositFromRequest`. */
  function WriteDeposit(l: Books, holder: Holder, point: OutPoint, token: Token, amount: nat, rid: Rid, oid: string, reply: Reply): (r: Option<Books>)
  {
    if point in l.deposits then None
    else
      Close(l.(balances := l.balances[(holder, token) := Balance(l.balances, holder, token) + amount],
               deposits := l.deposits[point := Deposited(holder, token, amount)]), rid, oid, reply)
  }

  // ---- Transactions

  /** `WriteTransactionWithRequest` and, for a safe that is closed by its holder, `CloseAccountByTransactionWithRequest`. */
  function WriteTransaction(l: Books, hash: Hash, t: SafeTx, oid: string, reply: Reply): (r: Option<Books>)
  {
    if hash in l.transactions || RequestTaken(l, t.requestId) then None
    else Close(l.(transactions := l.transactions[hash := t]), t.requestId, oid, reply)
  }

  function CloseSafe(l: Books, holder: Holder): (r: Option<Books>)
  {
    if holder !in l.safes || l.safes[holder].state != Done then None
    else Some(l.(safes := l.safes[holder := l.safes[holder].(state := Failed)]))
  }

  function CloseByTransaction(l: Books, hash: Hash, t: SafeTx, oid: string, reply: Reply): (r: Option<Books>)
  {
    if hash in l.transactions then Close(l, t.requestId, oid, reply)
    else
      var l1 :- CloseSafe(l, t.holder);
      WriteTransaction(l1, hash, t, oid, reply)
  }

  function SetTx(l: Books, hash: Hash, state: State, raw: Raw): Books
    requires hash in l.transactions
  {
    l.(transactions := l.transactions[hash := l.transactions[hash].(state := state, raw := raw)])
  }

  /** `RevokeTransactionWithRequest`. */
  function RevokeTransaction(l: Books, hash: Hash, rid: Rid, oid: string, reply: Reply): (r: Option<Books>)
  {
    if hash !in l.transactions || l.transactions[hash].state != Initial then None
    else Close(SetTx(l, hash, Failed, l.transactions[hash].raw), rid, oid, reply)
  }

  /** `WriteSignatureRequestsWithRequest` for the single input of an Ethereum transaction; the raw transaction is replaced. */
  function WriteAnswer(l: Books, id: Rid, q: Answer, raw: Raw, rid: Rid, oid: string, reply: Reply): (r: Option<Books>)
  {
    if id in l.answers && l.answers[id].state == Initial then
      if q.hash !in l.transactions then None
      else Close(SetTx(l, q.hash, l.transactions[q.hash].state, raw), rid, oid, reply)
    else if q.hash !in l.transactions || (l.transactions[q.hash].state != Initial && l.transactions[q.hash].state != Pending) || id in l.answers then None
    else Close(SetTx(l, q.hash, Pending, raw).(answers := l.answers[id := q]), rid, oid, reply)
  }

  /** `FinishSignatureRequest`. */
  function FinishAnswer(l: Books, rid: Rid, sig: Sig): (r: Option<Books>)
  {
    if rid !in l.answers then None
    else if l.answers[rid].state == Pending then Some(l)
    else if l.answers[rid].state != Initial then None
    else Some(l.(answers := l.answers[rid := l.answers[rid].(signature := Some(sig), state := Pending)]))
  }

  function AllAnswered(answers: map<Rid, Answer>, hash: Hash): map<Rid, Answer>
  {
    map r | r in answers :: if answers[r].hash == hash then answers[r].(state := Done) else answers[r]
  }

  function Advanced(a: Account, step: int, state: State): Account
  {
    a.(nonce := a.nonce + step, state := state)
  }

  function Finished(l: Books, hash: Hash, holder: Holder, state: State, balances: map<(Holder, Token), int>): (l': Books)
    requires hash in l.transactions && holder in l.safes
    ensures l'.requests == l.requests && l'.results == l.results
  {
    SetTx(l, hash, Done, l.transactions[hash].raw).(
      answers := AllAnswered(l.answers, hash), balances := balances, safes := l.safes[holder := Advanced(l.safes[holder], 1, state)])
  }

  /** `FinishTransactionSignaturesWithRequest` and `FinishSafeWithRequest`. */
  function FinishTransaction(l: Books, hash: Hash, holder: Holder, state: State, balances: map<(Holder, Token), int>,
                             rid: Rid, oid: string, reply: Reply): (r: Option<Books>)
  {
    if hash !in l.transactions || holder !in l.safes then None
    else
      Close(Finished(l, hash, holder, state, balances), rid, oid, reply)
  }

  /** `FailTransactionWithRequest`: only while the safe is open. */
  function FailTransaction(l: Books, hash: Hash, holder: Holder, balances: map<(Holder, Token), int>, rid: Rid, oid: string, reply: Reply): (r: Option<Books>)
  {
    if hash !in l.transactions || l.transactions[hash].state != Done || holder !in l.safes || l.safes[holder].state != Done then None
    else
      Close(SetTx(l, hash, Failed, l.transactions[hash].raw).(
              balances := balances, safes := l.safes[holder := Advanced(l.safes[holder], -1, Done)]), rid, oid, reply)
  }
}
