/**
 Proposing an account gives a pair of keys to the holder in a commit of its own, before the proposal is written.
 A keeper that stops in between must not give out another pair.
 */
module KeeperProposals {
  import opened Options
  import opened KeeperTypes
  import opened K = KeeperKeys

  datatype Proposal = Proposal(holder: string, signer: string, observer: string, address: string)

  /** The tables that are involved. */
  datatype Desk = Desk(keys: Keys, safes: set<string>, requests: map<Rid, State>, results: map<string, Reply>, proposals: map<Rid, Proposal>)

  /** `paid`: asset and amount are those of the plan; `addressOf` is the account of the derived keys; `distinct`: the three keys differ. */
  datatype Request = Request(oid: string, rid: Rid, holder: string, amount: nat, curve: nat, preferred: string, valid: bool, priced: bool, paid: bool,
                             sendable: bool, refundable: bool, distinct: K.Pair -> bool, addressOf: K.Pair -> string)

  datatype Run = Run(commits: seq<Desk>, reply: Option<Reply>)

  function Settle(d: Desk, q: Request, state: State, reply: Reply): (run: Run)
  {
    if q.rid !in d.requests || (state == Failed && d.requests[q.rid] != Initial) || q.oid in d.results then Run([], None)
    else Run([d.(requests := d.requests[q.rid := state], results := d.results[q.oid := reply])], Some(reply))
  }

  function Fail(d: Desk, q: Request): Run
  {
    Settle(d, q, Failed, Reply([], false))
  }

  function Refund(d: Desk, q: Request): Run
  {
    Settle(d, q, Failed, if q.refundable then Reply([Bond(q.holder, q.amount)], false) else Reply([], true))
  }

  /** What is checked before any keys are given out. */
  predicate Refused(d: Desk, q: Request)
  {
    !q.valid || !q.priced || !q.paid || q.holder in d.safes || q.rid in d.proposals
  }

  predicate AddressTaken(d: Desk, address: string)
  {
    exists r :: r in d.proposals && d.proposals[r].address == address
  }

  /** The rest of `processBitcoinSafeProposeAccount`, with the answer of the key store. */
  function Written(d: Desk, q: Request, answer: Assigned): (run: Run)
  {
    match answer
    case Panic => Run([], None)
    case Unavailable => Refund(d, q)
    case Assigned(p) =>
      if q.preferred != "" && p.observer != q.preferred then Run([], None)
      else if !q.distinct(p) then Refund(d, q)
      else if AddressTaken(d, q.addressOf(p)) then Fail(d, q)
      else if !q.sendable then Refund(d, q)
      else Settle(d.(proposals := d.proposals[q.rid := Proposal(q.holder, p.signer, p.observer, q.addressOf(p))]), q, Done, Reply([Storage, Notify], false))
  }

  /** A run of the handler; `before` is the time before which a spare key must have been made. */
  ghost predicate Proposes(d: Desk, q: Request, before: int, keys: Keys, answer: Assigned, run: Run)
  {
    if Refused(d, q) then run == (if q.valid && !q.priced then Refund(d, q) else Fail(d, q))
    else
      && AssignStep(d.keys, keys, answer, q.holder, q.curve, before, q.preferred)
      && var rest := Written(d.(keys := keys), q, answer);
         run == Run([d.(keys := keys)] + rest.commits, rest.reply)
  }

  function At(d: Desk, run: Run, k: nat): Desk
    requires k <= |run.commits|
  {
    if k == 0 then d else run.commits[k - 1]
  }

  /**
   The keeper stopped before the handling was over, with nothing committed or with the keys given out. Handled again
   it ends with the same tables and the same reply: with the same clock in the first case, at any time in the second.
   */
  lemma {:induction false} ProposeReplay(d: Desk, q: Request, before: int, later: int, run: Run, again: Run, k: nat,
                                         keys: Keys, answer: Assigned, keys': Keys, answer': Assigned)
    requires Paired(d.keys) && Proposes(d, q, before, keys, answer, run)
    requires k <= |run.commits| && (run.reply.Some? ==> k < |run.commits|)
    requires Proposes(At(d, run, k), q, later, keys', answer', again)
    requires k == 0 || !answer.Assigned? ==> later == before
    ensures again.reply == run.reply
    ensures At(At(d, run, k), again, |again.commits|) == At(d, run, |run.commits|)
  {
    if !Refused(d, q) {
      var d1 := d.(keys := keys);
      if k == 0 {
        AssignDetermined(d.keys, keys, keys', answer, answer', q.holder, q.curve, before, q.preferred);
      } else {
        OneMore(d1, q, answer);
        assert At(d, run, k) == d1;
        if answer.Assigned? {
          AssignedStays(d.keys, keys, keys', answer, answer', q.holder, q.curve, before, later, q.preferred);
        } else {
          assert keys == d.keys;
          AssignDetermined(d.keys, keys, keys', answer, answer', q.holder, q.curve, before, q.preferred);
        }
        assert d1.(keys := keys') == d1;
      }
    }
  }

  lemma {:induction false} OneMore(d: Desk, q: Request, answer: Assigned)
    ensures var rest := Written(d, q, answer);
            |rest.commits| == if rest.reply.Some? then 1 else 0
  {
  }

  /** The keys are those that were asked for, all different, at an address nobody has, and the observer can be told. */
  predicate InOrder(d: Desk, q: Request, p: Pair)
  {
    (q.preferred == "" || p.observer == q.preferred) && q.distinct(p) && !AddressTaken(d, q.addressOf(p)) && q.sendable
  }

  /** The request is paid for, but no proposal can be made of it now. */
  predicate RefundDue(d: Desk, q: Request, answer: Assigned)
  {
    && q.valid
    && (|| !q.priced
        || (!Refused(d, q) &&
            match answer
            case Unavailable => true
            case Panic => false
            case Assigned(p) =>
              (q.preferred == "" || p.observer == q.preferred) && (!q.distinct(p) || (!AddressTaken(d, q.addressOf(p)) && !q.sendable))))
  }

  /**
   A new request in order is recorded with the pair of its holder; one that only fails for want of something is refunded
   in full or, if the group cannot pay, asks for compaction; nothing is recorded or sent for any other.
   */
  lemma {:induction false} ProposesExactly(d: Desk, q: Request, before: int, keys: Keys, answer: Assigned, run: Run)
    requires Proposes(d, q, before, keys, answer, run) && q.rid in d.requests && d.requests[q.rid] == Initial && q.oid !in d.results
    ensures var d', given := At(d, run, |run.commits|), if Refused(d, q) then d.keys else keys;
            if !Refused(d, q) && answer.Assigned? && InOrder(d, q, answer.pair) then
              var p := answer.pair;
              && run.reply == Some(Reply([Storage, Notify], false))
              && d' == d.(keys := keys, requests := d.requests[q.rid := Done], results := d.results[q.oid := Reply([Storage, Notify], false)],
                          proposals := d.proposals[q.rid := Proposal(q.holder, p.signer, p.observer, q.addressOf(p))])
            else if RefundDue(d, q, answer) then
              var reply := if q.refundable then Reply([Bond(q.holder, q.amount)], false) else Reply([], true);
              && run.reply == Some(reply)
              && d' == d.(keys := given, requests := d.requests[q.rid := Failed], results := d.results[q.oid := reply])
            else
              && d' == d.(keys := given, requests := d'.requests, results := d'.results)
              && (run.reply.Some? ==> run.reply == Some(Reply([], false)) && d'.requests == d.requests[q.rid := Failed])
  {
    if !Refused(d, q) {
      var d1 := d.(keys := keys);
      assert forall address :: AddressTaken(d1, address) == AddressTaken(d, address);
      OneMore(d1, q, answer);
    }
  }
}
