/**
 The store of the keeper for Ethereum and Polygon safes as it runs: tables that are updated in place.

 Every writing method is one SQL transaction. It commits all of its updates, or none and returns false.
 */
module EthereumStore {
  import opened Options
  import opened KeeperTypes
  import opened L = EthereumLedger
  import K = KeeperEthereum

  /** The unique index on the request of a transaction. */
  ghost predicate OneEach(ts: map<Hash, SafeTx>)
  {
    forall a, b :: a in ts && b in ts && ts[a].requestId == ts[b].requestId ==> a == b
  }

  lemma {:induction false} Rewritten(ts: map<Hash, SafeTx>, hash: Hash, t: SafeTx)
    requires OneEach(ts) && hash in ts && t.requestId == ts[hash].requestId
    ensures OneEach(ts[hash := t])
  {
  }

  lemma {:induction false} Inserted(l: Books, hash: Hash, t: SafeTx)
    requires OneEach(l.transactions) && hash !in l.transactions && !RequestTaken(l, t.requestId)
    ensures OneEach(l.transactions[hash := t])
  {
  }

  class Store {
    var requests: map<Rid, Request>
    var results: map<string, Reply>
    var proposals: map<Rid, Proposal>
    var safes: map<Holder, Account>
    var transactions: map<Hash, SafeTx>
    var answers: map<Rid, Answer>
    var balances: map<(Holder, Token), int>
    var deposits: map<OutPoint, Deposited>

    constructor ()
      ensures State() == NoBooks() && OneEach(transactions)
    {
      requests, results, proposals, safes := map[], map[], map[], map[];
      transactions, answers, balances, deposits := map[], map[], map[], map[];
    }

    function State(): (l: Books)
      reads this
    {
      Books(requests, results, proposals, safes, transactions, answers, balances, deposits)
    }

    ghost predicate Committed(was: Books, want: Option<Books>, ok: bool)
      reads this
    {
      ok == want.Some? && (State() == if ok then want.value else was)
    }

    // ---- Requests and results

    method WriteRequestIfNotExist(rid: Rid, amount: nat)
      modifies `requests
      ensures State() == WriteRequest(old(State()), rid, amount)
    {
      if rid !in requests { requests := requests[rid := Request(Initial, amount)]; }
    }

    method FailRequest(rid: Rid, oid: string, reply: Reply) returns (ok: bool)
      modifies `requests, `results
      ensures Committed(old(State()), L.FailRequest(old(State()), rid, oid, reply), ok)
    {
      hide OneEach;
      if rid !in requests || requests[rid].state != Initial || oid in results { return false; }
      requests := requests[rid := requests[rid].(state := Failed)];
      results := results[oid := reply];
      return true;
    }

    method WriteEmptyResult(oid: string)
      modifies `results
      ensures State() == old(State()).(results := old(results)[oid := Reply([], false)])
    {
      results := results[oid := Reply([], false)];
    }

    /** The end of every other transaction. */
    method Finish(rid: Rid, oid: string, reply: Reply)
      requires rid in requests && oid !in results
      modifies `requests, `results
      ensures Some(State()) == Close(old(State()), rid, oid, reply)
    {
      requests := requests[rid := requests[rid].(state := Done)];
      results := results[oid := reply];
    }

    // ---- Accounts

    method WriteSafeProposal(rid: Rid, p: Proposal, raw: Raw, oid: string, reply: Reply) returns (ok: bool)
      modifies this
      ensures Committed(old(State()), WriteProposal(old(State()), rid, p, raw, oid, reply), ok)
      ensures OneEach(old(transactions)) ==> OneEach(transactions)
    {
      hide OneEach, ProposalFree;
      if rid in proposals || !ProposalFree(State(), p) || p.setup in transactions || RequestTaken(State(), rid) { return false; }
      if rid !in requests || oid in results { return false; }
      proposals := proposals[rid := p];
      var t := SafeTx(p.holder, Initial, rid, true, false, raw);
      if OneEach(transactions) { Inserted(old(State()), p.setup, t); }
      transactions := transactions[p.setup := t];
      Finish(rid, oid, reply);
      return true;
    }

    method WriteUnfinishedSafe(holder: Holder, a: Account) returns (ok: bool)
      modifies `safes
      ensures Committed(old(State()), WriteUnfinished(old(State()), holder, a), ok)
    {
      hide OneEach;
      if exists h :: h in safes && safes[h].address == a.address && safes[h].state == Pending { return true; }
      if holder in safes || exists h :: h in safes && (safes[h].address == a.address || safes[h].signer == a.signer) { return false; }
      safes := safes[holder := a];
      return true;
    }

    // ---- Balances

    method CreateBalanceDeposit(holder: Holder, point: OutPoint, token: Token, amount: nat, rid: Rid, oid: string, reply: Reply) returns (ok: bool)
      modifies `requests, `results, `balances, `deposits
      ensures Committed(old(State()), WriteDeposit(old(State()), holder, point, token, amount, rid, oid, reply), ok)
    {
      hide OneEach;
      if point in deposits || rid !in requests || oid in results { return false; }
      var balance := if (holder, token) in balances then balances[(holder, token)] else 0;
      balances := balances[(holder, token) := balance + amount];
      deposits := deposits[point := Deposited(holder, token, amount)];
      Finish(rid, oid, reply);
      return true;
    }

    /** The loop that takes the payments off a copy of the balances. */
    method DebitAll(holder: Holder, ps: seq<Payment>) returns (r: Debited)
      ensures r == Debit(balances, holder, ps)
    {
      var updated := balances;
      for n := 0 to |ps|
        invariant Debit(balances, holder, ps) == Debit(updated, holder, ps[n..])
      {
        assert ps[n..][0] == ps[n] && ps[n..][1..] == ps[n + 1..];
        var key := (holder, ps[n].token);
        if key !in updated { return Unknown; }
        var left := updated[key] - ps[n].amount;
        if left < 0 { return Short; }
        updated := updated[key := left];
      }
      return L.Debited.Debited(updated);
    }

    /** The loop that compares the payments of a closing transaction with the balances. */
    method CompareOutputs(holder: Holder, ps: seq<Payment>) returns (c: Compared)
      ensures c == ClosePays(balances, holder, ps)
    {
      if |ps| != |Tokens(balances, holder)| { return Different; }
      if ps == [] { return Missing; }
      var destination := ps[0].destination;
      for n := 0 to |ps|
        invariant Compare(balances, holder, destination, ps) == Compare(balances, holder, destination, ps[n..])
      {
        assert ps[n..][0] == ps[n] && ps[n..][1..] == ps[n + 1..];
        var key := (holder, ps[n].token);
        if ps[n].destination != destination { return Different; }
        if key !in balances { return Missing; }
        if balances[key] != ps[n].amount { return Different; }
      }
      return Matching;
    }

    /** The loop that puts the payments of a refunded transaction back. */
    method CreditAll(holder: Holder, ps: seq<Payment>) returns (r: Option<map<(Holder, Token), int>>)
      ensures r == Credit(balances, holder, ps)
    {
      var updated := balances;
      for n := 0 to |ps|
        invariant Credit(balances, holder, ps) == Credit(updated, holder, ps[n..])
      {
        assert ps[n..][0] == ps[n] && ps[n..][1..] == ps[n + 1..];
        var key := (holder, ps[n].token);
        if key !in updated { return None; }
        updated := updated[key := updated[key] + ps[n].amount];
      }
      return Some(updated);
    }

    // ---- Transactions

    method SetTransaction(hash: Hash, state: State, raw: Raw)
      requires hash in transactions
      modifies `transactions
      ensures State() == SetTx(old(State()), hash, state, raw)
      ensures OneEach(old(transactions)) ==> OneEach(transactions)
    {
      hide OneEach;
      if OneEach(transactions) { Rewritten(transactions, hash, transactions[hash].(state := state, raw := raw)); }
      transactions := transactions[hash := transactions[hash].(state := state, raw := raw)];
    }

    method WriteTransactionWithRequest(hash: Hash, t: SafeTx, oid: string, reply: Reply) returns (ok: bool)
      modifies `requests, `results, `transactions
      ensures Committed(old(State()), WriteTransaction(old(State()), hash, t, oid, reply), ok)
      ensures OneEach(old(transactions)) ==> OneEach(transactions)
    {
      hide OneEach;
      if hash in transactions || RequestTaken(State(), t.requestId) || t.requestId !in requests || oid in results { return false; }
      if OneEach(transactions) { Inserted(State(), hash, t); }
      transactions := transactions[hash := t];
      Finish(t.requestId, oid, reply);
      return true;
    }

    method CloseAccountByTransaction(hash: Hash, t: SafeTx, oid: string, reply: Reply) returns (ok: bool)
      modifies this
      ensures Committed(old(State()), CloseByTransaction(old(State()), hash, t, oid, reply), ok)
      ensures OneEach(old(transactions)) ==> OneEach(transactions)
    {
      hide OneEach, WriteTransaction;
      if hash in transactions {
        if t.requestId !in requests || oid in results { return false; }
        Finish(t.requestId, oid, reply);
        return true;
      }
      if t.holder !in safes || safes[t.holder].state != Done { return false; }
      var before := safes;
      safes := safes[t.holder := safes[t.holder].(state := Failed)];
      ok := WriteTransactionWithRequest(hash, t, oid, reply);
      if !ok { safes := before; }
    }

    method RevokeTransactionWithRequest(hash: Hash, rid: Rid, oid: string, reply: Reply) returns (ok: bool)
      modifies this
      ensures Committed(old(State()), RevokeTransaction(old(State()), hash, rid, oid, reply), ok)
      ensures OneEach(old(transactions)) ==> OneEach(transactions)
    {
      hide OneEach;
      if hash !in transactions || transactions[hash].state != Initial || rid !in requests || oid in results { return false; }
      SetTransaction(hash, Failed, transactions[hash].raw);
      Finish(rid, oid, reply);
      return true;
    }

    method WriteSignatureRequest(id: Rid, q: Answer, raw: Raw, rid: Rid, oid: string, reply: Reply) returns (ok: bool)
      modifies `requests, `results, `transactions, `answers
      ensures Committed(old(State()), WriteAnswer(old(State()), id, q, raw, rid, oid, reply), ok)
      ensures OneEach(old(transactions)) ==> OneEach(transactions)
    {
      hide OneEach;
      if q.hash !in transactions || rid !in requests || oid in results { return false; }
      var t := transactions[q.hash];
      if id in answers && answers[id].state == Initial {
        SetTransaction(q.hash, t.state, raw);
      } else {
        if (t.state != Initial && t.state != Pending) || id in answers { return false; }
        SetTransaction(q.hash, Pending, raw);
        answers := answers[id := q];
      }
      Finish(rid, oid, reply);
      return true;
    }

    /** The same, and the account is closed; when it fails the account is open again. */
    method CloseAccountBySignatureRequest(holder: Holder, id: Rid, q: Answer, raw: Raw, rid: Rid, oid: string, reply: Reply) returns (ok: bool)
      requires holder in safes && safes[holder].state == Done
      modifies `safes, `requests, `results, `transactions, `answers
      ensures CloseSafe(old(State()), holder).Some?
      ensures Committed(old(State()), WriteAnswer(CloseSafe(old(State()), holder).value, id, q, raw, rid, oid, reply), ok)
      ensures OneEach(old(transactions)) ==> OneEach(transactions)
    {
      hide OneEach, WriteAnswer;
      var before := safes;
      safes := safes[holder := safes[holder].(state := Failed)];
      ok := WriteSignatureRequest(id, q, raw, rid, oid, reply);
      if !ok { safes := before; }
    }

    method FinishSignatureRequest(rid: Rid, sig: Sig) returns (ok: bool)
      modifies `answers
      ensures Committed(old(State()), FinishAnswer(old(State()), rid, sig), ok)
    {
      hide OneEach;
      if rid !in answers { return false; }
      if answers[rid].state == Pending { return true; }
      if answers[rid].state != Initial { return false; }
      answers := answers[rid := answers[rid].(signature := Some(sig), state := Pending)];
      return true;
    }

    method SetAccount(holder: Holder, step: int, state: State)
      requires holder in safes
      modifies `safes
      ensures safes == old(safes)[holder := Advanced(old(safes)[holder], step, state)]
    {
      safes := safes[holder := safes[holder].(nonce := safes[holder].nonce + step, state := state)];
    }

    /** The nonce moves on with the transaction; a new safe becomes usable with its first one. */
    method Settle(hash: Hash, holder: Holder, state: State, updated: map<(Holder, Token), int>)
      requires hash in transactions && holder in safes
      modifies `transactions, `answers, `balances, `safes
      ensures State() == Finished(old(State()), hash, holder, state, updated)
      ensures OneEach(old(transactions)) ==> OneEach(transactions)
    {
      hide OneEach, AllAnswered, SetTx, Advanced;
      SetTransaction(hash, Done, transactions[hash].raw);
      SetAccount(holder, 1, state);
      answers := AllAnswered(answers, hash);
      balances := updated;
    }

    method FinishTransactionSignatures(hash: Hash, holder: Holder, state: State, updated: map<(Holder, Token), int>,
                                       rid: Rid, oid: string, reply: Reply) returns (ok: bool)
      modifies this
      ensures Committed(old(State()), FinishTransaction(old(State()), hash, holder, state, updated, rid, oid, reply), ok)
      ensures OneEach(old(transactions)) ==> OneEach(transactions)
    {
      hide OneEach, Finished;
      if hash !in transactions || holder !in safes || rid !in requests || oid in results { return false; }
      Settle(hash, holder, state, updated);
      Finish(rid, oid, reply);
      return true;
    }

    method FailTransactionWithRequest(hash: Hash, holder: Holder, updated: map<(Holder, Token), int>, rid: Rid, oid: string, reply: Reply) returns (ok: bool)
      modifies this
      ensures Committed(old(State()), FailTransaction(old(State()), hash, holder, updated, rid, oid, reply), ok)
      ensures OneEach(old(transactions)) ==> OneEach(transactions)
    {
      hide OneEach;
      if hash !in transactions || transactions[hash].state != Done || holder !in safes || safes[holder].state != Done { return false; }
      if rid !in requests || oid in results { return false; }
      SetTransaction(hash, Failed, transactions[hash].raw);
      SetAccount(holder, -1, Done);
      balances := updated;
      Finish(rid, oid, reply);
      return true;
    }

    // ---- Queries

    method ReadTransactionByRequestId(rid: Rid) returns (r: Option<Hash>)
      requires OneEach(transactions)
      ensures r == K.ByRequest(State(), rid)
    {
      if h :| h in transactions && transactions[h].requestId == rid { return Some(h); }
      return None;
    }

    /** The latest answer to a transaction, which has a single input. */
    method LatestSignature(hash: Hash) returns (r: Option<Rid>)
      ensures r.Some? ==> K.Latest(State(), hash, r.value)
      ensures r.None? ==> forall q :: !K.Answered(State(), hash, q)
    {
      r := None;
      var left := answers.Keys;
      while left != {}
        invariant left <= answers.Keys
        invariant r.None? ==> forall q :: K.Answered(State(), hash, q) ==> q in left
        invariant r.Some? ==> K.Answered(State(), hash, r.value)
        invariant r.Some? ==> forall q :: K.Answered(State(), hash, q) && q !in left ==> K.Precedes(State(), q, r.value)
        decreases |left|
      {
        var id :| id in left;
        left := left - {id};
        if K.Answered(State(), hash, id) && (r.None? || K.Precedes(State(), r.value, id)) {
          if r.Some? { StillPrecedes(State(), hash, r.value, id, left); }
          RidOrder(id, id, id);
          r := Some(id);
        } else if K.Answered(State(), hash, id) {
          RidOrder(id, r.value, id);
        }
      }
    }
  }

  lemma {:induction false} StillPrecedes(l: Books, hash: Hash, r: Rid, id: Rid, left: set<Rid>)
    requires K.Answered(l, hash, r) && K.Answered(l, hash, id) && K.Precedes(l, r, id)
    requires forall q :: K.Answered(l, hash, q) && q !in left && q != id ==> K.Precedes(l, q, r)
    ensures forall q :: K.Answered(l, hash, q) && q !in left && q != id ==> K.Precedes(l, q, id)
  {
    forall q | K.Answered(l, hash, q) && q !in left && q != id ensures K.Precedes(l, q, id) { RidOrder(q, r, id); }
  }

  /** There is one latest answer. */
  lemma {:induction false} OneLatest(l: Books, hash: Hash, a: Rid, b: Rid)
    requires K.Latest(l, hash, a) && K.Latest(l, hash, b)
    ensures a == b
  {
    assert K.Precedes(l, a, b) && K.Precedes(l, b, a);
    RidOrder(a, b, a);
  }
}
