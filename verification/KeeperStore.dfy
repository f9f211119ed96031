/**
 The store of the keeper for Bitcoin and Litecoin safes as it runs: tables that are updated in place.

 Every writing method is one SQL transaction. It commits all of its updates, or none and returns false.
 */
module KeeperStore {
  import opened Options
  import opened KeeperTypes
  import opened L = KeeperLedger
  import B = KeeperBitcoin

  class Store {
    var requests: map<Rid, Request>
    var results: map<string, Reply>
    var safes: map<Holder, Safe>
    var order: seq<OutPoint>
    var outputs: map<OutPoint, Output>
    var deposits: set<OutPoint>
    var transactions: map<Hash, Transaction>
    var signatures: map<Rid, SignatureRequest>

    constructor ()
      ensures State() == Empty()
    {
      requests, results, safes, order := map[], map[], map[], [];
      outputs, deposits, transactions, signatures := map[], {}, map[], map[];
    }

    function State(): (l: Ledger)
      reads this
    {
      Ledger(requests, results, safes, order, outputs, deposits, transactions, signatures)
    }

    ghost predicate Committed(was: Ledger, want: Option<Ledger>, ok: bool)
      reads this
    {
      ok == want.Some? && State() == if ok then want.value else was
    }

    // ---- Requests and results

    method WriteRequestIfNotExist(rid: Rid, amount: nat)
      modifies `requests
      ensures State() == WriteRequest(old(State()), rid, amount)
    {
      if rid !in requests { requests := requests[rid := Request(Initial, amount)]; }
    }

    method WriteActionResult(oid: string, reply: Reply) returns (ok: bool)
      modifies `results
      ensures Committed(old(State()), WriteResult(old(State()), oid, reply), ok)
    {
      if oid in results { return false; }
      results := results[oid := reply];
      return true;
    }

    method FailRequest(rid: Rid, oid: string, reply: Reply) returns (ok: bool)
      modifies `requests, `results
      ensures Committed(old(State()), L.FailRequest(old(State()), rid, oid, reply), ok)
    {
      if rid !in requests || requests[rid].state != Initial || oid in results { return false; }
      requests := requests[rid := requests[rid].(state := Failed)];
      results := results[oid := reply];
      return true;
    }

    /** The end of every other transaction: the request is done and the result is there. */
    method Finish(rid: Rid, oid: string, reply: Reply)
      requires rid in requests && oid !in results
      modifies `requests, `results
      ensures MarkDone(old(State()), rid).Some?
      ensures Some(State()) == WriteResult(MarkDone(old(State()), rid).value, oid, reply)
    {
      requests := requests[rid := requests[rid].(state := Done)];
      results := results[oid := reply];
    }

    // ---- Safes and outputs

    method WriteSafeWithRequest(holder: Holder, s: Safe, rid: Rid, oid: string, reply: Reply) returns (ok: bool)
      modifies `requests, `results, `safes
      ensures Committed(old(State()), WriteSafe(old(State()), holder, s, rid, oid, reply), ok)
    {
      if holder in safes || !Unused(State(), s) || rid !in requests || oid in results { return false; }
      safes := safes[holder := s];
      Finish(rid, oid, reply);
      return true;
    }

    method WriteBitcoinOutput(s: Safe, point: OutPoint, satoshi: nat, rid: Rid, oid: string, reply: Reply) returns (ok: bool)
      modifies this
      ensures Committed(old(State()), WriteOutput(old(State()), s, point, satoshi, rid, oid, reply), ok)
    {
      if point in outputs || point in deposits || rid !in requests || oid in results { return false; }
      order := order + [point];
      outputs := outputs[point := Output(s.address, satoshi, true, Initial, None)];
      deposits := deposits + {point};
      Finish(rid, oid, reply);
      return true;
    }

    method ListAllBitcoinUTXOs(address: Address) returns (points: seq<OutPoint>)
      ensures points == Unspent(outputs, order, address)
    {
      points := [];
      for n := 0 to |order|
        invariant Unspent(outputs, order, address) == points + Unspent(outputs, order[n..], address)
      {
        assert order[n..][1..] == order[n + 1..];
        var o := order[n];
        if o in outputs && outputs[o].address == address && outputs[o].state == Initial { points := points + [o]; }
      }
    }

    // ---- Transactions

    /** The loop that hands outputs to a transaction; the updates are kept back until the transaction commits. */
    method SpendOutputs(points: seq<OutPoint>, hash: Hash, state: State) returns (r: Option<map<OutPoint, Output>>)
      ensures r == Spend(outputs, points, hash, state)
    {
      var updated := outputs;
      for n := 0 to |points|
        invariant Spend(outputs, points, hash, state) == Spend(updated, points[n..], hash, state)
      {
        var p := points[n];
        assert points[n..][0] == p && points[n..][1..] == points[n + 1..];
        if p !in updated { return None; }
        updated := updated[p := updated[p].(state := state, spentBy := Some(hash))];
      }
      return Some(updated);
    }

    method WriteTransactionWithRequest(hash: Hash, t: Transaction, points: seq<OutPoint>, oid: string, reply: Reply) returns (ok: bool)
      modifies this
      ensures Committed(old(State()), WriteTransaction(old(State()), hash, t, points, oid, reply), ok)
    {
      hide Spend;
      if hash in transactions || RequestTaken(State(), t.requestId) || t.requestId !in requests || oid in results { return false; }
      var spent := SpendOutputs(points, hash, Pending);
      if spent.None? { return false; }
      transactions := transactions[hash := t];
      outputs := spent.value;
      Finish(t.requestId, oid, reply);
      return true;
    }

    method CloseAccountByTransaction(hash: Hash, t: Transaction, points: seq<OutPoint>, oid: string, reply: Reply) returns (ok: bool)
      modifies this
      ensures Committed(old(State()), CloseByTransaction(old(State()), hash, t, points, oid, reply), ok)
    {
      hide Spend;
      if t.requestId !in requests || oid in results { return false; }
      if hash !in transactions {
        if t.holder !in safes || safes[t.holder].state != Done || RequestTaken(State(), t.requestId) { return false; }
        var spent := SpendOutputs(points, hash, Done);
        if spent.None? { return false; }
        safes := safes[t.holder := safes[t.holder].(state := Failed)];
        transactions := transactions[hash := t];
        outputs := spent.value;
      }
      Finish(t.requestId, oid, reply);
      return true;
    }

    /** The loop that gives the inputs of a transaction back. */
    method ReleaseOutputs(points: seq<OutPoint>, hash: Hash, address: Address) returns (r: Option<map<OutPoint, Output>>)
      ensures r == Release(outputs, points, hash, address)
    {
      var updated := outputs;
      for n := 0 to |points|
        invariant Release(outputs, points, hash, address) == Release(updated, points[n..], hash, address)
      {
        var p := points[n];
        assert points[n..][0] == p && points[n..][1..] == points[n + 1..];
        if p !in updated || updated[p].spentBy != Some(hash) || updated[p].address != address { return None; }
        updated := updated[p := updated[p].(state := Initial, spentBy := None)];
      }
      return Some(updated);
    }

    method RevokeTransactionWithRequest(hash: Hash, t: Transaction, s: Safe, rid: Rid, oid: string, reply: Reply) returns (ok: bool)
      modifies this
      ensures Committed(old(State()), RevokeTransaction(old(State()), hash, t, s, rid, oid, reply), ok)
    {
      hide Release;
      var released := ReleaseOutputs(t.inputs, hash, s.address);
      if released.None? || hash !in transactions || transactions[hash].state != Initial || rid !in requests || oid in results { return false; }
      outputs := released.value;
      transactions := transactions[hash := transactions[hash].(state := Failed)];
      Finish(rid, oid, reply);
      return true;
    }

    // ---- Signature requests

    method InsertSignatureRequests(wanted: seq<Wanted>) returns (r: Option<map<Rid, SignatureRequest>>)
      ensures r == InsertSignatures(signatures, wanted)
    {
      var updated := signatures;
      for n := 0 to |wanted|
        invariant InsertSignatures(signatures, wanted) == InsertSignatures(updated, wanted[n..])
      {
        assert wanted[n..][0] == wanted[n] && wanted[n..][1..] == wanted[n + 1..];
        if wanted[n].0 in updated { return None; }
        updated := updated[wanted[n].0 := wanted[n].1];
      }
      return Some(updated);
    }

    method WriteSignatureRequests(wanted: seq<Wanted>, hash: Hash, rid: Rid, oid: string, reply: Reply) returns (ok: bool)
      requires wanted != []
      modifies `requests, `results, `transactions, `signatures
      ensures Committed(old(State()), WriteSignatures(old(State()), wanted, hash, rid, oid, reply), ok)
    {
      hide InsertSignatures;
      if rid !in requests || oid in results { return false; }
      var id := wanted[0].0;
      if id !in signatures || signatures[id].state != Initial {
        if hash !in transactions || (transactions[hash].state != Initial && transactions[hash].state != Pending) { return false; }
        var inserted := InsertSignatureRequests(wanted);
        if inserted.None? { return false; }
        signatures := inserted.value;
        transactions := transactions[hash := transactions[hash].(state := Pending)];
      }
      Finish(rid, oid, reply);
      return true;
    }

    /** The same, and the account is closed; when it fails the account is open again. */
    method CloseAccountBySignatureRequests(holder: Holder, wanted: seq<Wanted>, hash: Hash, rid: Rid, oid: string, reply: Reply) returns (ok: bool)
      requires wanted != []
      modifies `safes, `requests, `results, `transactions, `signatures
      ensures Committed(old(State()), CloseBySignatures(old(State()), holder, wanted, hash, rid, oid, reply), ok)
    {
      hide WriteSignatures;
      if holder !in safes || safes[holder].state != Done { return false; }
      var before := safes;
      safes := safes[holder := safes[holder].(state := Failed)];
      ok := WriteSignatureRequests(wanted, hash, rid, oid, reply);
      if !ok { safes := before; }
    }

    method FinishSignatureRequest(rid: Rid, sig: Sig) returns (ok: bool)
      modifies `signatures
      ensures Committed(old(State()), FinishSignature(old(State()), rid, sig), ok)
    {
      if rid !in signatures { return false; }
      if signatures[rid].state == Pending { return true; }
      if signatures[rid].state != Initial { return false; }
      signatures := signatures[rid := signatures[rid].(signature := Some(sig), state := Pending)];
      return true;
    }

    /** Updates in bulk; the number of outputs that change must be the one asked for. */
    method FinishTransactionSignatures(hash: Hash, count: nat, holder: Holder, rid: Rid, oid: string, reply: Reply) returns (ok: bool)
      modifies this
      ensures Committed(old(State()), FinishTransaction(old(State()), hash, count, holder, rid, oid, reply), ok)
    {
      hide SpentBy, AllDone, AllSpent;
      if hash !in transactions || |SpentBy(outputs, hash)| != count || holder !in safes || rid !in requests || oid in results { return false; }
      transactions := transactions[hash := transactions[hash].(state := Done)];
      signatures := AllDone(signatures, hash);
      outputs := AllSpent(outputs, hash);
      safes := safes[holder := safes[holder].(nonce := safes[holder].nonce + 1)];
      Finish(rid, oid, reply);
      return true;
    }

    // ---- Queries on signature requests

    /** The order of the query: a later state first, then the later request. */
    predicate Before(a: SignatureRequest, b: SignatureRequest)
    {
      Rank(a.state) > Rank(b.state) || (Rank(a.state) == Rank(b.state) && a.createdAt >= b.createdAt)
    }

    /** The first row for an input in that order. */
    method ReadPendingSignatureRequest(hash: Hash, index: nat) returns (r: Option<SignatureRequest>)
      ensures r.None? ==> forall id :: id in signatures ==> signatures[id].hash != hash || signatures[id].index != index
      ensures r.Some? ==>
                && (exists id :: id in signatures && signatures[id] == r.value && r.value.hash == hash && r.value.index == index)
                && forall id :: id in signatures && signatures[id].hash == hash && signatures[id].index == index ==> Before(r.value, signatures[id])
    {
      r := None;
      var left := signatures.Keys;
      while left != {}
        invariant left <= signatures.Keys
        invariant r.None? ==> forall id :: id in signatures && id !in left ==> signatures[id].hash != hash || signatures[id].index != index
        invariant r.Some? ==>
                    && (exists id :: id in signatures && signatures[id] == r.value && r.value.hash == hash && r.value.index == index)
                    && forall id :: id in signatures && id !in left && signatures[id].hash == hash && signatures[id].index == index ==> Before(r.value, signatures[id])
        decreases |left|
      {
        var id :| id in left;
        left := left - {id};
        var q := signatures[id];
        if q.hash == hash && q.index == index && (r.None? || !Before(r.value, q)) { r := Some(q); }
      }
    }

    /** Looking at the first row only tells whether an answer is there or may still come. */
    method CheckTransactionIndexSignaturePending(hash: Hash, index: nat, now: int) returns (pending: bool)
      ensures pending <==> B.SignaturePending(State(), hash, index, now)
    {
      var r := ReadPendingSignatureRequest(hash, index);
      if r.None? { return false; }
      if r.value.state != Initial { return true; }
      return r.value.createdAt + SIGNATURE_TIMEOUT > now;
    }

    /** The latest answer for each input. */
    method ListAllSignatures(hash: Hash) returns (m: map<nat, Rid>)
      ensures forall index :: index in m ==> B.Latest(State(), hash, index, m[index])
      ensures forall index, id :: B.Answered(State(), hash, index, id) ==> index in m
    {
      m := map[];
      var left := signatures.Keys;
      while left != {}
        invariant left <= signatures.Keys
        invariant forall index :: index in m ==> B.Answered(State(), hash, index, m[index])
        invariant forall index, id :: B.Answered(State(), hash, index, id) && id !in left ==>
                    index in m && signatures[id].createdAt <= signatures[m[index]].createdAt
        decreases |left|
      {
        var id :| id in left;
        left := left - {id};
        var q := signatures[id];
        if q.hash == hash && q.state == Pending && q.signature.Some? {
          if q.index !in m || signatures[m[q.index]].createdAt < q.createdAt { m := m[q.index := id]; }
        }
      }
    }
  }

  function Rank(s: State): nat
  {
    match s
    case Initial => 1
    case Pending => 2
    case Done => 3
    case Failed => 4
  }
}
