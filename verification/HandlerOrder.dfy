/** The order in which messages are delivered does not matter. */
module HandlerOrder {
  import opened Options
  import opened Bits
  import opened HandlerSpec

  /** What can be told from outside. An aborted handler shows its error and the round it stopped in. */
  datatype View =
    | Running(h: Handler)
    | Aborted(error: Error, round: nat)
    | Finished(result: Bytes, rounds: map<nat, Round>, hashes: map<nat, Bytes>, out: seq<Message>)

  ghost function Observe(h: Handler): (v: View)
  {
    if h.err.Some? then Aborted(h.err.value, h.current)
    else if h.result.Some? then Finished(h.result.value, h.rounds, h.hashes, h.out)
    else Running(h)
  }

  /** A message for us, of this session, of a kind its round waits for. */
  predicate Expected(p: Protocol, m: Message)
  {
    && p.Other(m.from) && (m.to == "" || m.to == p.self)
    && m.protocol == p.name && m.ssid == p.ssid && m.data.Some?
    && 2 <= m.round <= p.final
    && (if m.broadcast then p.isBroadcast(m.round) else p.expectsDirect(m.round))
  }

  predicate SameSlot(a: Message, b: Message)
  {
    a.round == b.round && a.from == b.from && a.broadcast == b.broadcast
  }

  /** Expected messages, at most one for each round, sender and kind. Their contents are arbitrary. */
  predicate WellFormed(p: Protocol, msgs: seq<Message>)
  {
    && (forall i :: 0 <= i < |msgs| ==> Expected(p, msgs[i]))
    && (forall i, j :: 0 <= i < j < |msgs| ==> !SameSlot(msgs[i], msgs[j]))
  }

  ghost predicate SlotFree(h: Handler, m: Message)
  {
    m.round in QueueOf(h, m) && m.from !in QueueOf(h, m)[m.round]
  }

  /** The shape every handler has when it looks at its current round. */
  ghost predicate AtRound(p: Protocol, h: Handler)
  {
    && p.Valid() && h.err.None? && h.result.None?
    && h.current in h.rounds && 1 <= h.current <= p.final
    && h.rounds[h.current].number == h.current
    && (forall n :: n in h.messages <==> 2 <= n <= p.final)
    && (forall n :: n in h.broadcast <==> 2 <= n <= p.final)
    && (forall n, id :: Holds(h.messages, n, id) ==> p.Other(id) && h.messages[n][id].round == n && h.messages[n][id].from == id)
  }

  ghost predicate DrainedAt(p: Protocol, h: Handler)
  {
    AtRound(p, h) && QueueOk(p, h, h.rounds[h.current]) && h.rounds[h.current] == Drained(p, h)
  }

  /** A message not yet delivered belongs to the current round or a later one. */
  ghost predicate Ahead(p: Protocol, h: Handler, m: Message)
  {
    Expected(p, m) && SlotFree(h, m) && h.current <= m.round
  }

  lemma {:induction false} HashedTwice(p: Protocol, h: Handler)
    ensures Hashed(p, Hashed(p, h)) == Hashed(p, h)
  {
  }

  lemma {:induction false} FinalizeHashed(p: Protocol, h: Handler)
    requires p.Valid() && h.current in h.rounds && h.current <= p.final
    ensures Finalize(p, Hashed(p, h)) == Finalize(p, h)
  {
    HashedTwice(p, h);
  }

  lemma {:induction false} StoreKeepsShape(p: Protocol, h: Handler, m: Message)
    requires AtRound(p, h) && p.Other(m.from)
    ensures AtRound(p, Store(h, m))
  {
    var g := Store(h, m);
    forall n, id | Holds(g.messages, n, id)
      ensures p.Other(id) && g.messages[n][id].round == n && g.messages[n][id].from == id
    {
      assert (Holds(h.messages, n, id) && g.messages[n][id] == h.messages[n][id]) || (n == m.round && id == m.from && g.messages[n][id] == m);
    }
  }

  // ---- A message of a later round

  lemma {:induction false} StoreLaterDrain(p: Protocol, h: Handler, m: Message)
    requires AtRound(p, h) && Ahead(p, h, m) && m.round > h.current
    ensures Drained(p, Store(h, m)) == Drained(p, h)
    ensures QueueOk(p, Store(h, m), h.rounds[h.current]) <==> QueueOk(p, h, h.rounds[h.current])
  {
    var g := Store(h, m);
    var n := h.current;
    assert n in h.messages ==> n in g.messages && g.messages[n] == h.messages[n];
    assert n in h.broadcast ==> n in g.broadcast && g.broadcast[n] == h.broadcast[n];
    assert forall id :: QueuedBroadcast(p, g, n, id) <==> QueuedBroadcast(p, h, n, id);
    assert forall id :: QueuedDirect(p, g, n, id) <==> QueuedDirect(p, h, n, id);
  }

  lemma {:induction false} StoreLaterFinal(p: Protocol, h: Handler, m: Message)
    requires AtRound(p, h) && Ahead(p, h, m) && m.round > h.current
    ensures Hashed(p, Store(h, m)) == Store(Hashed(p, h), m)
    ensures Received(p, Store(h, m)) <==> Received(p, h)
    ensures EchoOk(Store(h, m)) <==> EchoOk(h)
  {
    var g := Store(h, m);
    var n := h.current;
    assert n in h.messages ==> n in g.messages && g.messages[n] == h.messages[n];
    assert n in h.broadcast ==> n in g.broadcast && g.broadcast[n] == h.broadcast[n];
    if AllBroadcasts(p, h, n) { assert BroadcastList(p, g, n) == BroadcastList(p, h, n); }
  }

  // ---- A message of the current round

  ghost predicate DirectDue(p: Protocol, h: Handler, n: nat, id: Id)
  {
    p.expectsDirect(n) && Holds(h.messages, n, id)
  }

  lemma {:induction false} BroadcastQueued(p: Protocol, h: Handler, m: Message)
    requires AtRound(p, h) && Ahead(p, h, m) && m.round == h.current && m.broadcast
    ensures var g := Store(h, m);
            var n := h.current;
            && QueuedBroadcast(p, g, n, m.from) && !QueuedDirect(p, h, n, m.from)
            && (QueuedDirect(p, g, n, m.from) <==> DirectDue(p, h, n, m.from))
            && BroadcastData(p, g, n, m.from) == Some(Data(m))
            && (forall id :: id != m.from ==>
                  && (QueuedBroadcast(p, g, n, id) <==> QueuedBroadcast(p, h, n, id))
                  && (QueuedDirect(p, g, n, id) <==> QueuedDirect(p, h, n, id))
                  && BroadcastData(p, g, n, id) == BroadcastData(p, h, n, id))
  {
    var g := Store(h, m);
    assert g.broadcast[h.current] == h.broadcast[h.current][m.from := m] && g.messages == h.messages;
  }

  lemma {:induction false} BroadcastQueueOk(p: Protocol, h: Handler, m: Message)
    requires AtRound(p, h) && Ahead(p, h, m) && m.round == h.current && m.broadcast
    requires QueueOk(p, h, h.rounds[h.current])
    ensures var r := h.rounds[h.current];
            QueueOk(p, Store(h, m), r) <==>
              && BroadcastOk(p, r, m)
              && (DirectDue(p, h, r.number, m.from) ==> DirectOk(p, r, Some(Data(m)), h.messages[r.number][m.from]))
  {
    BroadcastQueued(p, h, m);
    var g, n := Store(h, m), h.current;
    assert g.broadcast[n] == h.broadcast[n][m.from := m] && g.messages == h.messages;
  }

  lemma {:induction false} BroadcastAdded(p: Protocol, h: Handler, m: Message)
    requires AtRound(p, h) && Ahead(p, h, m) && m.round == h.current && m.broadcast
    ensures StoredBroadcasts(p, Store(h, m), h.current) == StoredBroadcasts(p, h, h.current)[m.from := Data(m)]
  {
    BroadcastQueued(p, h, m);
    var g, n := Store(h, m), h.current;
    assert g.broadcast[n] == h.broadcast[n][m.from := m] && g.messages == h.messages;
  }

  lemma {:induction false} BroadcastStored(p: Protocol, h: Handler, m: Message)
    requires AtRound(p, h) && Ahead(p, h, m) && m.round == h.current && m.broadcast
    ensures var g := Store(h, m);
            var n := h.current;
            && StoredBroadcasts(p, g, n) == StoredBroadcasts(p, h, n)[m.from := Data(m)]
            && StoredDirects(p, g, n) == (if DirectDue(p, h, n, m.from)
                 then StoredDirects(p, h, n)[m.from := Data(h.messages[n][m.from])] else StoredDirects(p, h, n))
  {
    hide StoredBroadcasts;
    BroadcastAdded(p, h, m);
    BroadcastQueued(p, h, m);
    var g, n := Store(h, m), h.current;
    assert g.broadcast[n] == h.broadcast[n][m.from := m] && g.messages == h.messages;
  }

  /** A broadcast on time: storing it and its waiting direct message is what a drain would do. */
  lemma {:induction false} ArriveBroadcast(p: Protocol, h: Handler, m: Message)
    requires DrainedAt(p, h) && Ahead(p, h, m) && m.round == h.current && m.broadcast
    ensures var g := Store(h, m);
            var v := VerifyBroadcast(p, g, m);
            && (v.Some? <==> QueueOk(p, g, h.rounds[h.current]))
            && (v.Some? ==> v.value == g.(rounds := g.rounds[g.current := Drained(p, g)]))
  {
    BroadcastQueueOk(p, h, m);
    BroadcastStored(p, h, m);
    var g, n, r := Store(h, m), h.current, h.rounds[h.current];
    var h1 := g.(rounds := g.rounds[n := r.(broadcasts := r.broadcasts[m.from := Data(m)])]);
    assert Holds(h1.broadcast, n, m.from);
    if DirectDue(p, h, n, m.from) && BroadcastOk(p, r, m) {
      var d := h.messages[n][m.from];
      assert VerifyBroadcast(p, g, m) == VerifyDirect(p, h1, d);
      assert DirectOk(p, h1.rounds[n], Some(Data(m)), d) <==> DirectOk(p, r, Some(Data(m)), d);
    }
  }

  lemma {:induction false} DirectQueued(p: Protocol, h: Handler, m: Message)
    requires AtRound(p, h) && Ahead(p, h, m) && m.round == h.current && !m.broadcast
    ensures var g := Store(h, m);
            var n := h.current;
            && !QueuedDirect(p, h, n, m.from)
            && (QueuedDirect(p, g, n, m.from) <==> (p.isBroadcast(n) ==> Holds(h.broadcast, n, m.from)))
            && (forall id ::
                  && (QueuedBroadcast(p, g, n, id) <==> QueuedBroadcast(p, h, n, id))
                  && BroadcastData(p, g, n, id) == BroadcastData(p, h, n, id)
                  && (id != m.from ==> (QueuedDirect(p, g, n, id) <==> QueuedDirect(p, h, n, id))))
  {
    var g := Store(h, m);
    assert g.messages[h.current] == h.messages[h.current][m.from := m] && g.broadcast == h.broadcast;
  }

  lemma {:induction false} DirectQueueOk(p: Protocol, h: Handler, m: Message)
    requires AtRound(p, h) && Ahead(p, h, m) && m.round == h.current && !m.broadcast
    requires QueueOk(p, h, h.rounds[h.current])
    ensures var r := h.rounds[h.current];
            QueueOk(p, Store(h, m), r) <==>
              (QueuedDirect(p, Store(h, m), r.number, m.from) ==>
                DirectOk(p, r, BroadcastData(p, h, r.number, m.from), m))
  {
    DirectQueued(p, h, m);
    var g, n := Store(h, m), h.current;
    assert g.messages[n] == h.messages[n][m.from := m] && g.broadcast == h.broadcast;
  }

  lemma {:induction false} DirectStored(p: Protocol, h: Handler, m: Message)
    requires AtRound(p, h) && Ahead(p, h, m) && m.round == h.current && !m.broadcast
    ensures var g := Store(h, m);
            var n := h.current;
            && StoredBroadcasts(p, g, n) == StoredBroadcasts(p, h, n)
            && StoredDirects(p, g, n) == (if QueuedDirect(p, g, n, m.from)
                 then StoredDirects(p, h, n)[m.from := Data(m)] else StoredDirects(p, h, n))
  {
    DirectQueued(p, h, m);
    var g, n := Store(h, m), h.current;
    assert g.messages[n] == h.messages[n][m.from := m] && g.broadcast == h.broadcast;
  }

  /** A direct message on time is stored, or waits for its sender's broadcast, as a drain would have it. */
  lemma {:induction false} ArriveDirect(p: Protocol, h: Handler, m: Message)
    requires DrainedAt(p, h) && Ahead(p, h, m) && m.round == h.current && !m.broadcast
    ensures var g := Store(h, m);
            var v := VerifyDirect(p, g, m);
            && (v.Some? <==> QueueOk(p, g, h.rounds[h.current]))
            && (v.Some? ==> v.value == g.(rounds := g.rounds[g.current := Drained(p, g)]))
  {
    DirectQueued(p, h, m);
    DirectQueueOk(p, h, m);
    DirectStored(p, h, m);
    var g, n, r := Store(h, m), h.current, h.rounds[h.current];
    assert g.broadcast == h.broadcast && g.rounds == h.rounds;
    assert BroadcastData(p, h, n, m.from) == if m.from in r.broadcasts then Some(r.broadcasts[m.from]) else None;
    if !QueuedDirect(p, g, n, m.from) {
      assert r == Drained(p, g);
      assert g.rounds[n := r] == g.rounds;
    }
  }

  // ---- Our own broadcasts do not compete with the others' messages

  lemma {:induction false} PutCommutes(q: Queue, a: Message, b: Message)
    requires a.from != b.from
    ensures Put(Put(q, a), b) == Put(Put(q, b), a)
  {
    if a.round in q && b.round in q && a.round == b.round && a.from !in q[a.round] && b.from !in q[a.round] {
      assert q[a.round][a.from := a][b.from := b] == q[a.round][b.from := b][a.from := a];
    }
  }

  lemma {:induction false} SendStore(p: Protocol, h: Handler, m: Message, number: nat, outs: seq<Content>)
    requires m.from != p.self
    ensures Send(p, Store(h, m), number, outs) == Store(Send(p, h, number, outs), m)
    ensures Send(p, h, number, outs).messages == h.messages
    decreases |outs|
  {
    if |outs| > 0 {
      var o := Outgoing(p, h, number, outs[0]);
      PutCommutes(h.broadcast, m, o);
      var h1 := if o.broadcast then Store(h, o) else h;
      SendStore(p, h1.(out := h1.out + [o]), m, number, outs[1..]);
    }
  }

  lemma {:induction false} SendKeeps(p: Protocol, h: Handler, m: Message, number: nat, outs: seq<Content>)
    requires m.from != p.self
    ensures var h' := Send(p, h, number, outs);
            && (SlotFree(h, m) ==> SlotFree(h', m))
            && (forall n :: n in h'.broadcast <==> n in h.broadcast)
            && h'.messages == h.messages
    decreases |outs|
  {
    if |outs| > 0 {
      var o := Outgoing(p, h, number, outs[0]);
      var h1 := if o.broadcast then Store(h, o) else h;
      SendKeeps(p, h1.(out := h1.out + [o]), m, number, outs[1..]);
    }
  }

  lemma {:induction false} NextRoundKeeps(p: Protocol, h: Handler, m: Message, state: Bytes, outs: seq<Content>)
    requires AtRound(p, h) && h.current < p.final && Ahead(p, h, m) && m.round > h.current
    ensures var g := NextRound(p, h, h.current + 1, state, outs);
            && AtRound(p, g) && Ahead(p, g, m)
            && NextRound(p, Store(h, m), h.current + 1, state, outs) == Store(g, m)
  {
    SendKeeps(p, h, m, h.current + 1, outs);
    SendStore(p, h, m, h.current + 1, outs);
  }

  // ---- Delivering a message commutes with everything the handler does on its own

  lemma {:induction false} QueueOkShrinks(p: Protocol, h: Handler, m: Message)
    requires AtRound(p, h) && Ahead(p, h, m)
    requires QueueOk(p, Store(h, m), h.rounds[h.current])
    ensures QueueOk(p, h, h.rounds[h.current])
  {
    var g, n := Store(h, m), h.current;
    if m.round > n {
      StoreLaterDrain(p, h, m);
    } else if m.broadcast {
      BroadcastQueued(p, h, m);
      assert g.broadcast[n] == h.broadcast[n][m.from := m] && g.messages == h.messages;
      assert !QueuedBroadcast(p, h, n, m.from);
    } else {
      DirectQueued(p, h, m);
      assert g.messages[n] == h.messages[n][m.from := m] && g.broadcast == h.broadcast;
    }
  }

  lemma {:induction false} NotIgnored(p: Protocol, h: Handler, m: Message)
    requires AtRound(p, h) && Ahead(p, h, m)
    ensures !Ignored(p, h, m)
  {
  }

  lemma {:induction false} HashedKeeps(p: Protocol, h: Handler, m: Message)
    requires DrainedAt(p, h) && Ahead(p, h, m)
    ensures DrainedAt(p, Hashed(p, h)) && Ahead(p, Hashed(p, h), m)
  {
    var g, n := Hashed(p, h), h.current;
    assert forall id :: QueuedBroadcast(p, g, n, id) <==> QueuedBroadcast(p, h, n, id);
    assert forall id :: QueuedDirect(p, g, n, id) <==> QueuedDirect(p, h, n, id);
    assert g.broadcast == h.broadcast && g.messages == h.messages && g.rounds == h.rounds;
    assert StoredBroadcasts(p, g, n) == StoredBroadcasts(p, h, n);
    assert StoredDirects(p, g, n) == StoredDirects(p, h, n);
  }

  ghost function WithDrained(p: Protocol, h: Handler): (h': Handler)
    requires h.current in h.rounds
  {
    h.(rounds := h.rounds[h.current := Drained(p, h)])
  }

  /** Draining looks only at the queues and at the round's own state. */
  lemma {:induction false} DrainTwice(p: Protocol, g: Handler)
    requires AtRound(p, g) && QueueOk(p, g, g.rounds[g.current])
    ensures DrainedAt(p, WithDrained(p, g))
  {
    var h, n := WithDrained(p, g), g.current;
    assert forall id :: QueuedBroadcast(p, h, n, id) <==> QueuedBroadcast(p, g, n, id);
    assert forall id :: QueuedDirect(p, h, n, id) <==> QueuedDirect(p, g, n, id);
    assert forall id :: BroadcastData(p, h, n, id) == BroadcastData(p, g, n, id);
    assert StoredBroadcasts(p, h, n) == StoredBroadcasts(p, g, n);
    assert StoredDirects(p, h, n) == StoredDirects(p, g, n);
  }

  lemma {:induction false} EnterIgnoresStored(p: Protocol, g: Handler, r: Round)
    requires AtRound(p, g) && r.number == g.current && r.state == g.rounds[g.current].state
    ensures var h := g.(rounds := g.rounds[g.current := r]);
            Observe(Enter(p, h)) == Observe(Enter(p, g))
  {
    hide Finalize;
    var h, n := g.(rounds := g.rounds[g.current := r]), g.current;
    assert forall id :: QueuedBroadcast(p, h, n, id) <==> QueuedBroadcast(p, g, n, id);
    assert forall id :: QueuedDirect(p, h, n, id) <==> QueuedDirect(p, g, n, id);
    assert forall id :: BroadcastData(p, h, n, id) == BroadcastData(p, g, n, id);
    assert StoredBroadcasts(p, h, n) == StoredBroadcasts(p, g, n);
    assert StoredDirects(p, h, n) == StoredDirects(p, g, n);
    assert QueueOk(p, h, h.rounds[n]) <==> QueueOk(p, g, g.rounds[n]);
    assert WithDrained(p, h) == WithDrained(p, g);
  }

  /** The round is complete only when no expected message of it is outstanding. */
  lemma {:induction false} ReceivedMeansLater(p: Protocol, h: Handler, m: Message)
    requires AtRound(p, h) && Ahead(p, h, m) && Received(p, h)
    ensures m.round > h.current
  {
  }

  /** On time, round not complete: `Accept` verifies, and a drain would find the same. */
  lemma {:induction false} WaitingNow(p: Protocol, h: Handler, m: Message)
    requires DrainedAt(p, h) && Ahead(p, h, m) && m.round == h.current
    ensures Observe(Accept(p, Hashed(p, h), m)) == Observe(Enter(p, Store(h, m)))
  {
    var h1 := Hashed(p, h);
    HashedKeeps(p, h, m);
    NotIgnored(p, h1, m);
    var g, g1, n := Store(h, m), Store(h1, m), h.current;
    if m.broadcast { ArriveBroadcast(p, h1, m); } else { ArriveDirect(p, h1, m); }
    HashedStore(p, h, m);
  }

  /** The queue of a round is handled without looking at the recorded hashes. */
  lemma {:induction false} HashesUnseen(p: Protocol, g: Handler, hashes: map<nat, Bytes>, n: nat)
    ensures var g1 := g.(hashes := hashes);
            StoredBroadcasts(p, g1, n) == StoredBroadcasts(p, g, n) && StoredDirects(p, g1, n) == StoredDirects(p, g, n)
  {
    var g1 := g.(hashes := hashes);
    assert forall id :: QueuedBroadcast(p, g1, n, id) <==> QueuedBroadcast(p, g, n, id);
    assert forall id :: QueuedDirect(p, g1, n, id) <==> QueuedDirect(p, g, n, id);
  }

  lemma {:induction false} HashesUnchecked(p: Protocol, g: Handler, hashes: map<nat, Bytes>, r: Round)
    ensures QueueOk(p, g.(hashes := hashes), r) <==> QueueOk(p, g, r)
  {
    var g1, n := g.(hashes := hashes), r.number;
    assert forall id :: QueuedBroadcast(p, g1, n, id) <==> QueuedBroadcast(p, g, n, id);
    assert forall id :: QueuedDirect(p, g1, n, id) <==> QueuedDirect(p, g, n, id);
    assert forall id :: BroadcastData(p, g1, n, id) == BroadcastData(p, g, n, id);
  }

  /** Fixing the broadcast hash early changes nothing a later step sees. */
  lemma {:induction false} HashedStore(p: Protocol, h: Handler, m: Message)
    requires DrainedAt(p, h) && Ahead(p, h, m) && m.round == h.current
    ensures var g, g1 := Store(h, m), Store(Hashed(p, h), m);
            && (QueueOk(p, g, g.rounds[g.current]) <==> QueueOk(p, g1, g1.rounds[g1.current]))
            && Drained(p, g) == Drained(p, g1)
            && Finalize(p, WithDrained(p, g)) == Finalize(p, WithDrained(p, g1))
  {
    hide Finalize, QueueOk, StoredBroadcasts, StoredDirects;
    var g, g1, n := Store(h, m), Store(Hashed(p, h), m), h.current;
    assert g1 == g.(hashes := g1.hashes);
    HashesUnseen(p, g, g1.hashes, n);
    HashesUnchecked(p, g, g1.hashes, g.rounds[n]);
    var d, d1 := WithDrained(p, g), WithDrained(p, g1);
    if Hashed(p, h) != h {
      assert !m.broadcast;
      assert d.broadcast == h.broadcast;
      assert BroadcastList(p, d, n) == BroadcastList(p, h, n);
      assert Hashed(p, d) == d1;
      FinalizeHashed(p, d);
    }
  }

  /** A later message while the round is not complete only takes its slot. */
  lemma {:induction false} WaitingLater(p: Protocol, h: Handler, m: Message)
    requires DrainedAt(p, h) && Ahead(p, h, m) && m.round > h.current && !Received(p, h)
    ensures Observe(Accept(p, Hashed(p, h), m)) == Observe(Enter(p, Store(h, m)))
  {
    HashedKeeps(p, h, m);
    NotIgnored(p, Hashed(p, h), m);
    StoreLaterFinal(p, h, m);
    EnterDrained(p, h, m);
  }

  lemma {:induction false} EnterDrained(p: Protocol, h: Handler, m: Message)
    requires DrainedAt(p, h) && Ahead(p, h, m) && m.round > h.current
    ensures Enter(p, Store(h, m)) == Finalize(p, Store(h, m))
  {
    StoreLaterDrain(p, h, m);
    var g := Store(h, m);
    assert g.rounds == h.rounds;
    assert g.rounds[g.current := g.rounds[g.current]] == g.rounds;
    assert WithDrained(p, g) == g;
  }

  lemma {:induction false} FinalizeCommutes(p: Protocol, h: Handler, m: Message)
    requires DrainedAt(p, h) && Ahead(p, h, m)
    ensures Observe(Accept(p, Finalize(p, h), m)) == Observe(Enter(p, Store(h, m)))
    decreases p.final - h.current, 0
  {
    var h1 := Hashed(p, h);
    HashedKeeps(p, h, m);
    assert Received(p, h1) <==> Received(p, h);
    if !Received(p, h) {
      if m.round == h.current { WaitingNow(p, h, m); } else { WaitingLater(p, h, m); }
    } else {
      ReceivedMeansLater(p, h, m);
      EnterDrained(p, h, m);
      StoreLaterFinal(p, h, m);
      StoreLaterFinal(p, h1, m);
      CompleteCommutes(p, h, m);
    }
  }

  /** The round is complete: its outcome is settled and the message waits for a later round. */
  lemma {:induction false} CompleteCommutes(p: Protocol, h: Handler, m: Message)
    requires DrainedAt(p, h) && Ahead(p, h, m) && m.round > h.current && Received(p, h)
    ensures Observe(Accept(p, Finalize(p, h), m)) == Observe(Finalize(p, Store(h, m)))
    decreases p.final - h.current, 0, 1
  {
    var h1 := Hashed(p, h);
    HashedKeeps(p, h, m);
    StoreLaterFinal(p, h, m);
    StoreLaterFinal(p, h1, m);
    assert Received(p, h1) && Hashed(p, Store(h, m)) == Store(h1, m);
    if EchoOk(h1) { AdvanceCommutes(p, h1, m); }
  }

  lemma {:induction false} AdvanceSame(p: Protocol, h: Handler, m: Message, outs: seq<Content>)
    requires AtRound(p, h) && Ahead(p, h, m) && m.round > h.current
    ensures Accept(p, Send(p, h, h.current, outs), m) == Send(p, Store(h, m), h.current, outs)
  {
    SendStore(p, h, m, h.current, outs);
    SendKeeps(p, h, m, h.current, outs);
    NotIgnored(p, Send(p, h, h.current, outs), m);
  }

  lemma {:induction false} AdvanceStopped(p: Protocol, h: Handler, m: Message)
    requires h.err.Some? || h.result.Some?
    requires p.Valid()
    ensures Accept(p, h, m) == h
  {
  }

  ghost function Successor(p: Protocol, h: Handler): (g: Handler)
    requires h.current in h.rounds && Stepped(p, h).Next?
  {
    NextRound(p, h, h.current + 1, Stepped(p, h).state, Stepped(p, h).outs)
  }

  lemma {:induction false} AdvanceUnfold(p: Protocol, h: Handler)
    requires p.Valid() && h.current in h.rounds && h.current < p.final && Stepped(p, h).Next?
    ensures Advance(p, h) == Enter(p, Successor(p, h))
  {
  }

  lemma {:induction false} SuccessorKeeps(p: Protocol, h: Handler, m: Message)
    requires AtRound(p, h) && Ahead(p, h, m) && m.round > h.current && Stepped(p, h).Next?
    ensures h.current < p.final && AtRound(p, Successor(p, h)) && Ahead(p, Successor(p, h), m)
    ensures Stepped(p, Store(h, m)).Next? && Successor(p, Store(h, m)) == Store(Successor(p, h), m)
  {
    assert p.StepOk(h.current, Stepped(p, h));
    NextRoundKeeps(p, h, m, Stepped(p, h).state, Stepped(p, h).outs);
  }

  lemma {:induction false} AdvanceElse(p: Protocol, h: Handler, m: Message)
    requires AtRound(p, h) && Ahead(p, h, m) && m.round > h.current && !Stepped(p, h).Next?
    ensures Observe(Accept(p, Advance(p, h), m)) == Observe(Advance(p, Store(h, m)))
  {
    if Stepped(p, h).Same? {
      AdvanceSame(p, h, m, Stepped(p, h).outs);
    } else {
      AdvanceStopped(p, Advance(p, h), m);
    }
  }

  lemma {:induction false} AdvanceCommutes(p: Protocol, h: Handler, m: Message)
    requires AtRound(p, h) && Ahead(p, h, m) && m.round > h.current
    ensures Observe(Accept(p, Advance(p, h), m)) == Observe(Advance(p, Store(h, m)))
    decreases p.final - h.current, 0, 0
  {
    if Stepped(p, h).Next? {
      SuccessorKeeps(p, h, m);
      AdvanceUnfold(p, h);
      AdvanceUnfold(p, Store(h, m));
      EnterCommutes(p, Successor(p, h), m);
    } else {
      AdvanceElse(p, h, m);
    }
  }

  lemma {:induction false} EnterCommutes(p: Protocol, g: Handler, m: Message)
    requires AtRound(p, g) && Ahead(p, g, m)
    ensures Observe(Accept(p, Enter(p, g), m)) == Observe(Enter(p, Store(g, m)))
    decreases p.final - g.current, 1
  {
    var r := g.rounds[g.current];
    if !QueueOk(p, g, r) {
      if QueueOk(p, Store(g, m), r) { QueueOkShrinks(p, g, m); }
    } else {
      var h := WithDrained(p, g);
      DrainTwice(p, g);
      FinalizeCommutes(p, h, m);
      StoreKeepsShape(p, g, m);
      EnterIgnoresStored(p, Store(g, m), h.rounds[h.current]);
      assert Store(h, m) == Store(g, m).(rounds := g.rounds[g.current := h.rounds[h.current]]);
    }
  }

  // ---- Whole runs

  /** A new handler that is handed `msgs` one by one. */
  ghost function Deliver(p: Protocol, msgs: seq<Message>): (h: Handler)
    requires p.Valid()
    ensures Live(p, h)
    decreases |msgs|
  {
    if |msgs| == 0 then New(p) else Accept(p, Deliver(p, msgs[..|msgs| - 1]), msgs[|msgs| - 1])
  }

  /** A handler that has not started, with `msgs` already in its queues. */
  ghost function Filled(p: Protocol, msgs: seq<Message>): (h: Handler)
    decreases |msgs|
  {
    if |msgs| == 0 then Fresh(p, EmptyQueue(p.final), EmptyQueue(p.final))
    else Store(Filled(p, msgs[..|msgs| - 1]), msgs[|msgs| - 1])
  }

  ghost predicate InQueue(h: Handler, m: Message)
  {
    Holds(QueueOf(h, m), m.round, m.from) && QueueOf(h, m)[m.round][m.from] == m
  }

  /** Every slot is labelled with its round, sender and kind. */
  ghost predicate Labelled(q: Queue, broadcast: bool)
  {
    forall n, id :: Holds(q, n, id) ==> q[n][id].round == n && q[n][id].from == id && q[n][id].broadcast == broadcast
  }

  lemma {:induction false} FilledShape(p: Protocol, msgs: seq<Message>)
    requires p.Valid() && WellFormed(p, msgs)
    ensures AtRound(p, Filled(p, msgs)) && Filled(p, msgs).current == 1
    ensures Labelled(Filled(p, msgs).messages, false) && Labelled(Filled(p, msgs).broadcast, true)
    decreases |msgs|
  {
    if |msgs| > 0 {
      var a, m := msgs[..|msgs| - 1], msgs[|msgs| - 1];
      FilledShape(p, a);
      StoreKeepsShape(p, Filled(p, a), m);
      StoreKeepsLabels(Filled(p, a), m);
    }
  }

  lemma {:induction false} StoreKeepsLabels(h: Handler, m: Message)
    requires Labelled(h.messages, false) && Labelled(h.broadcast, true)
    ensures Labelled(Store(h, m).messages, false) && Labelled(Store(h, m).broadcast, true)
  {
    var g := Store(h, m);
    forall n, id | Holds(g.messages, n, id)
      ensures g.messages[n][id].round == n && g.messages[n][id].from == id && !g.messages[n][id].broadcast
    {
      if !(!m.broadcast && m.round == n && m.from == id) { assert Holds(h.messages, n, id); }
      if Holds(h.messages, n, id) { assert g.messages[n][id] == h.messages[n][id]; }
    }
    forall n, id | Holds(g.broadcast, n, id)
      ensures g.broadcast[n][id].round == n && g.broadcast[n][id].from == id && g.broadcast[n][id].broadcast
    {
      if !(m.broadcast && m.round == n && m.from == id) { assert Holds(h.broadcast, n, id); }
      if Holds(h.broadcast, n, id) { assert g.broadcast[n][id] == h.broadcast[n][id]; }
    }
  }

  lemma {:induction false} FilledSlotFree(p: Protocol, msgs: seq<Message>, m: Message)
    requires p.Valid() && WellFormed(p, msgs) && Expected(p, m)
    requires forall i :: 0 <= i < |msgs| ==> !SameSlot(msgs[i], m)
    ensures SlotFree(Filled(p, msgs), m)
    decreases |msgs|
  {
    if |msgs| > 0 {
      var a, l := msgs[..|msgs| - 1], msgs[|msgs| - 1];
      FilledSlotFree(p, a, m);
      assert !SameSlot(l, m);
    }
  }

  /** The queues hold exactly the messages put in. */
  lemma {:induction false} StoredInQueue(h: Handler, l: Message, m: Message)
    requires SlotFree(h, l)
    ensures InQueue(Store(h, l), m) <==> InQueue(h, m) || m == l
  {
  }

  lemma {:induction false} FilledExactly(p: Protocol, msgs: seq<Message>, m: Message)
    requires p.Valid() && WellFormed(p, msgs)
    ensures InQueue(Filled(p, msgs), m) <==> m in msgs
    decreases |msgs|
  {
    if |msgs| > 0 {
      var a, l := msgs[..|msgs| - 1], msgs[|msgs| - 1];
      assert msgs == a + [l];
      FilledExactly(p, a, m);
      FilledSlotFree(p, a, l);
      StoredInQueue(Filled(p, a), l, m);
    }
  }

  lemma {:induction false} AcceptRespectsView(p: Protocol, h: Handler, g: Handler, m: Message)
    requires p.Valid() && Live(p, h) && Live(p, g) && Observe(h) == Observe(g)
    ensures Observe(Accept(p, h, m)) == Observe(Accept(p, g, m))
  {
  }

  lemma {:induction false} StartIsEnter(p: Protocol)
    requires p.Valid()
    ensures New(p) == Enter(p, Filled(p, []))
  {
    var h := Filled(p, []);
    assert StoredBroadcasts(p, h, 1) == map[] && StoredDirects(p, h, 1) == map[];
    assert h.rounds[1 := h.rounds[1]] == h.rounds;
    assert WithDrained(p, h) == h;
  }

  /** Taking messages one at a time ends where having had them all from the start would have ended. */
  lemma {:induction false} DeliverIsReplay(p: Protocol, msgs: seq<Message>)
    requires p.Valid() && WellFormed(p, msgs)
    ensures AtRound(p, Filled(p, msgs))
    ensures Observe(Deliver(p, msgs)) == Observe(Enter(p, Filled(p, msgs)))
    decreases |msgs|
  {
    FilledShape(p, msgs);
    if |msgs| == 0 {
      StartIsEnter(p);
    } else {
      var a, m := msgs[..|msgs| - 1], msgs[|msgs| - 1];
      DeliverIsReplay(p, a);
      FilledShape(p, a);
      FilledSlotFree(p, a, m);
      EnterCommutes(p, Filled(p, a), m);
      AcceptRespectsView(p, Deliver(p, a), Enter(p, Filled(p, a)), m);
    }
  }

  lemma {:induction false} SameQueues(p: Protocol, a: seq<Message>, b: seq<Message>)
    requires p.Valid() && WellFormed(p, a) && WellFormed(p, b)
    requires forall m :: m in a <==> m in b
    ensures Filled(p, a) == Filled(p, b)
  {
    FilledShape(p, a);
    FilledShape(p, b);
    FilledStatic(p, a);
    FilledStatic(p, b);
    var x, y := Filled(p, a), Filled(p, b);
    forall m ensures InQueue(x, m) <==> InQueue(y, m) {
      FilledExactly(p, a, m);
      FilledExactly(p, b, m);
    }
    SameSlots(x.messages, y.messages, x, y, false);
    SameSlots(x.broadcast, y.broadcast, x, y, true);
  }

  lemma {:induction false} FilledStatic(p: Protocol, msgs: seq<Message>)
    ensures var h := Filled(p, msgs);
            h == Fresh(p, h.messages, h.broadcast)
    decreases |msgs|
  {
    if |msgs| > 0 { FilledStatic(p, msgs[..|msgs| - 1]); }
  }

  lemma {:induction false} SameSlots(q: Queue, r: Queue, x: Handler, y: Handler, broadcast: bool)
    requires q == (if broadcast then x.broadcast else x.messages)
    requires r == (if broadcast then y.broadcast else y.messages)
    requires Labelled(q, broadcast) && Labelled(r, broadcast)
    requires forall n :: n in q <==> n in r
    requires forall m :: InQueue(x, m) <==> InQueue(y, m)
    ensures q == r
  {
    forall n | n in q ensures q[n] == r[n] {
      forall id | id in q[n] ensures id in r[n] && r[n][id] == q[n][id] {
        assert Holds(q, n, id);
        assert InQueue(x, q[n][id]);
        assert InQueue(y, q[n][id]);
      }
      forall id | id in r[n] ensures id in q[n] {
        assert Holds(r, n, id);
        assert InQueue(y, r[n][id]);
        assert InQueue(x, r[n][id]);
      }
    }
  }

  /**
   Any two orders of the same messages leave the handler in the same state: the same rounds with the same
   messages stored, the same queues, hashes and outgoing messages, or the same result, or the same abort.
   Nothing is assumed about the contents: a message that fails verification aborts every order alike.
   */
  lemma {:induction false} DeliveryOrder(p: Protocol, a: seq<Message>, b: seq<Message>)
    requires p.Valid() && WellFormed(p, a) && multiset(a) == multiset(b)
    ensures Observe(Deliver(p, a)) == Observe(Deliver(p, b))
  {
    assert |multiset(a)| == |a| && |multiset(b)| == |b|;
    forall m ensures m in a <==> m in b {
      assert m in multiset(a) <==> m in multiset(b);
    }
    PermutedWellFormed(p, a, b);
    DeliverIsReplay(p, a);
    DeliverIsReplay(p, b);
    SameQueues(p, a, b);
  }

  lemma {:induction false} PermutedWellFormed(p: Protocol, a: seq<Message>, b: seq<Message>)
    requires WellFormed(p, a) && multiset(a) == multiset(b)
    ensures WellFormed(p, b)
  {
    forall i | 0 <= i < |b| ensures Expected(p, b[i]) {
      assert b[i] in multiset(b);
      assert b[i] in a;
    }
    forall i, j | 0 <= i < j < |b| ensures !SameSlot(b[i], b[j]) {
      assert b[i] in multiset(b) && b[j] in multiset(b);
      var k :| 0 <= k < |a| && a[k] == b[i];
      var l :| 0 <= l < |a| && a[l] == b[j];
      Different(p, a, b, i, j);
      Apart(p, a, k, l);
    }
  }

  lemma {:induction false} Apart(p: Protocol, a: seq<Message>, k: nat, l: nat)
    requires WellFormed(p, a) && k < |a| && l < |a| && k != l
    ensures !SameSlot(a[k], a[l])
  {
    assert !SameSlot(a[if k < l then k else l], a[if k < l then l else k]);
  }

  lemma {:induction false} Different(p: Protocol, a: seq<Message>, b: seq<Message>, i: nat, j: nat)
    requires WellFormed(p, a) && multiset(a) == multiset(b) && i < j < |b|
    ensures b[i] != b[j]
  {
    if b[i] == b[j] {
      TwiceInMultiset(b, i, j);
      TwiceInSequence(a, b[i]);
    }
  }

  lemma {:induction false} TwiceInMultiset(b: seq<Message>, i: nat, j: nat)
    requires i < j < |b| && b[i] == b[j]
    ensures multiset(b)[b[i]] >= 2
  {
    assert b == b[..j] + [b[j]] + b[j + 1..];
    assert b[..j] == b[..i] + [b[i]] + b[i + 1..j];
  }

  lemma {:induction false} TwiceInSequence(a: seq<Message>, m: Message)
    requires multiset(a)[m] >= 2
    ensures exists i, j :: 0 <= i < j < |a| && a[i] == m && a[j] == m
    decreases |a|
  {
    var n := |a| - 1;
    assert a == a[..n] + [a[n]];
    if a[n] == m {
      assert m in multiset(a[..n]);
      var i :| 0 <= i < n && a[..n][i] == m;
      assert a[i] == m && a[n] == m;
    } else {
      TwiceInSequence(a[..n], m);
      var i, j :| 0 <= i < j < n && a[..n][i] == m && a[..n][j] == m;
      assert a[i] == m && a[j] == m;
    }
  }
}
