/**
 Why a handler is where it is: how each round led to the next, what it holds, what was sent, and what ended it or what
 it waits for. All of it is told by the protocol's own functions, for whatever the handler was sent.
 */
module HandlerOutcome {
  import opened Options
  import opened Bits
  import opened HandlerSpec
  import opened HandlerOrder
  import opened HandlerAgreement
  import opened HandlerLog

  function StepOf(p: Protocol, r: Round): Step
  {
    p.finalizes(r.number, r.state, r.broadcasts, r.directs)
  }

  function SaidBy(r: Round, id: Id): Option<Bytes>
  {
    if id in r.broadcasts then Some(r.broadcasts[id]) else None
  }

  /** A round holds what was sent for it, and has approved all of it. */
  ghost predicate Approved(p: Protocol, h: Handler, r: Round)
  {
    && (forall id :: id in r.broadcasts ==>
          && p.isBroadcast(r.number) && p.Other(id) && Holds(h.broadcast, r.number, id)
          && h.broadcast[r.number][id].data == Some(r.broadcasts[id])
          && p.storesBroadcast(r.number, r.state, id, r.broadcasts[id]))
    && (forall id :: id in r.directs ==>
          && p.expectsDirect(r.number) && Holds(h.messages, r.number, id) && (p.isBroadcast(r.number) ==> id in r.broadcasts)
          && h.messages[r.number][id].data == Some(r.directs[id])
          && p.verifies(r.number, r.state, id, SaidBy(r, id), r.directs[id]))
  }

  /** Every message the round waits for is in it. Nothing is sent for the first round. */
  ghost predicate Whole(p: Protocol, r: Round)
  {
    r.number >= 2 ==>
      && (p.isBroadcast(r.number) ==> forall id :: p.Other(id) ==> id in r.broadcasts)
      && (p.expectsDirect(r.number) ==> forall id :: p.Other(id) ==> id in r.directs)
  }

  /** The protocol took round `n` to the next one, with the state that one has. */
  ghost predicate Led(p: Protocol, h: Handler, n: nat)
    requires n in h.rounds && n + 1 in h.rounds
  {
    && Whole(p, h.rounds[n]) && StepOf(p, h.rounds[n]).Next? && StepOf(p, h.rounds[n]).state == h.rounds[n + 1].state
  }

  ghost predicate Chain(p: Protocol, h: Handler)
  {
    && 1 in h.rounds && h.rounds[1].state == p.start
    && (forall n :: n in h.rounds && n >= 1 ==> h.rounds[n].number == n)
    && (forall n: nat {:trigger n in h.rounds} :: n >= 1 && n in h.rounds && n + 1 in h.rounds ==> Led(p, h, n))
  }

  ghost predicate AllApproved(p: Protocol, h: Handler)
  {
    forall n :: n in h.rounds && n >= 1 ==> Approved(p, h, h.rounds[n])
  }

  ghost predicate WithData(h: Handler)
  {
    && (forall n, id :: Holds(h.messages, n, id) ==> h.messages[n][id].data.Some?)
    && (forall n, id :: Holds(h.broadcast, n, id) ==> h.broadcast[n][id].data.Some?)
  }

  /** Our own broadcasts are held like those of the others. */
  ghost predicate OwnHeld(p: Protocol, h: Handler)
  {
    && (forall n :: Holds(h.broadcast, n, p.self) ==> h.broadcast[n][p.self] in h.out)
    && (forall o :: o in h.out && o.broadcast && 2 <= o.round <= p.final ==> Holds(h.broadcast, o.round, p.self))
  }

  ghost predicate Sound(p: Protocol, h: Handler)
  {
    Tables(p, h) && WithData(h) && Chain(p, h) && AllApproved(p, h) && OwnHeld(p, h)
  }

  /** Everything held for the current round is in it. */
  ghost predicate Taken(p: Protocol, h: Handler)
    requires h.current in h.rounds
  {
    var r := h.rounds[h.current];
    && (forall id :: QueuedBroadcast(p, h, r.number, id) ==> id in r.broadcasts)
    && (forall id :: QueuedDirect(p, h, r.number, id) ==> id in r.directs)
  }

  // ---- What ends a handler, and what it waits for

  ghost predicate Missing(p: Protocol, h: Handler, n: nat)
  {
    n >= 2 &&
    (|| (p.isBroadcast(n) && exists id :: id in p.parties && !Holds(h.broadcast, n, id))
     || (p.expectsDirect(n) && exists id :: p.Other(id) && !Holds(h.messages, n, id)))
  }

  /** The last round of the protocol that was entered. */
  ghost predicate Last(h: Handler, n: nat)
  {
    n >= 1 && n in h.rounds && n + 1 !in h.rounds
  }

  ghost predicate Unfit(p: Protocol, h: Handler, r: Round, id: Id)
  {
    var n := r.number;
    || (Holds(h.broadcast, n, id) && id != p.self
        && (!p.isBroadcast(n) || !p.storesBroadcast(n, r.state, id, Data(h.broadcast[n][id]))))
    || (Holds(h.messages, n, id) && (!p.expectsDirect(n) || !p.verifies(n, r.state, id, BroadcastData(p, h, n, id), Data(h.messages[n][id]))))
  }

  ghost predicate Differs(h: Handler, n: nat)
  {
    n >= 1 && n - 1 in h.hashes && exists id ::
      || (Holds(h.messages, n, id) && h.messages[n][id].echo != h.hashes[n - 1])
      || (Holds(h.broadcast, n, id) && h.broadcast[n][id].echo != h.hashes[n - 1])
  }

  ghost predicate Justified(p: Protocol, h: Handler, e: Error, n: nat)
    requires n in h.rounds
  {
    match e
    case PeerAborted => false
    case BadMessage => exists id :: Unfit(p, h, h.rounds[n], id)
    case EchoMismatch => Differs(h, n)
    case FinalizeFault => Whole(p, h.rounds[n]) && StepOf(p, h.rounds[n]) == Fault
    case RoundAborted => Whole(p, h.rounds[n]) && StepOf(p, h.rounds[n]) == Abort
  }

  ghost predicate ReasonAt(p: Protocol, h: Handler, n: nat)
  {
    && Last(h, n)
    && (if h.err.Some? then Justified(p, h, h.err.value, n)
        else if h.result.Some? then Whole(p, h.rounds[n]) && StepOf(p, h.rounds[n]) == Output(h.result.value)
        else h.current == n && Taken(p, h) && (Missing(p, h, n) || (Whole(p, h.rounds[n]) && StepOf(p, h.rounds[n]).Same?)))
  }

  /** A handler that has a result has it from its last round; one that failed has a reason; any other waits. */
  ghost predicate Reason(p: Protocol, h: Handler)
  {
    exists n: nat :: ReasonAt(p, h, n)
  }

  /** Another party gave up and said so. */
  ghost predicate ToldToStop(p: Protocol, h: Handler, msgs: seq<Message>)
  {
    h.err == Some(PeerAborted) && exists m :: m in msgs && m.round == 0 && p.Other(m.from)
  }

  // ---- Steps that keep the rounds

  lemma {:induction false} ApprovedGrows(p: Protocol, h: Handler, g: Handler)
    requires AllApproved(p, h) && g.rounds == h.rounds && SlotsKept(h, g)
    ensures AllApproved(p, g)
  {
    forall n | n in g.rounds && n >= 1 ensures Approved(p, g, g.rounds[n]) { assert Approved(p, h, h.rounds[n]); }
  }

  lemma {:induction false} ChainGrows(p: Protocol, h: Handler, g: Handler)
    requires Chain(p, h) && g.rounds == h.rounds
    ensures Chain(p, g)
  {
    forall n: nat | n >= 1 && n in g.rounds && n + 1 in g.rounds ensures Led(p, g, n) { assert Led(p, h, n); }
  }

  lemma {:induction false} SoundFrame(p: Protocol, h: Handler, g: Handler)
    requires Sound(p, h) && g.rounds == h.rounds && g.messages == h.messages && g.broadcast == h.broadcast && g.out == h.out
    ensures Sound(p, g)
  {
    hide Tables, Approved, Led;
    SameTablesOk(p, h, g);
    ChainGrows(p, h, g);
    assert SlotsKept(h, g);
    ApprovedGrows(p, h, g);
  }

  lemma {:induction false} StoreSound(p: Protocol, h: Handler, m: Message)
    requires Sound(p, h) && p.Other(m.from) && m.data.Some? && !Duplicate(h, m) && m.round != 0
    ensures Sound(p, Store(h, m)) && SlotsKept(h, Store(h, m))
  {
    hide Tables, Approved, Led;
    var g := Store(h, m);
    StoreTables(p, h, m);
    StoreSlots(h, m);
    ChainGrows(p, h, g);
    ApprovedGrows(p, h, g);
  }

  lemma {:induction false} StoreOwn(h: Handler, m: Message)
    requires WithData(h) && m.data.Some?
    ensures WithData(Store(h, m)) && SlotsKept(h, Store(h, m)) && SlotsKept(h, h)
  {
  }

  lemma {:induction false} OwnStored(p: Protocol, h: Handler, m: Message)
    requires Shape(p, h) && OwnHeld(p, h) && m.from == p.self
    ensures var g := if m.broadcast then Store(h, m) else h;
            OwnHeld(p, g.(out := g.out + [m]))
  {
    hide Labelled;
    var g := if m.broadcast then Store(h, m) else h;
    var out := g.out + [m];
    assert forall o :: o in out <==> o in h.out || o == m;
  }

  lemma {:induction false} SendOneSound(p: Protocol, h: Handler, m: Message)
    requires Sound(p, h) && m.from == p.self && m.data.Some?
    ensures var g := if m.broadcast then Store(h, m) else h;
            Sound(p, g.(out := g.out + [m]))
  {
    OwnStored(p, h, m);
    StoreOwn(h, m);
    hide Tables, Approved, Led, WithData, OwnHeld, SlotsKept;
    var g := if m.broadcast then Store(h, m) else h;
    var g1 := g.(out := g.out + [m]);
    if m.broadcast { StoreOwnTables(p, h, m); }
    SameTablesOk(p, g, g1);
    ChainGrows(p, h, g);
    ApprovedGrows(p, h, g);
    SameRounds(p, g, g1);
  }

  lemma {:induction false} StoreOwnTables(p: Protocol, h: Handler, m: Message)
    requires Tables(p, h) && m.from == p.self && m.broadcast
    ensures Tables(p, Store(h, m))
  {
    StoreTables(p, h, m);
  }

  lemma {:induction false} SameRounds(p: Protocol, g: Handler, g1: Handler)
    requires Chain(p, g) && AllApproved(p, g) && WithData(g)
    requires g1.rounds == g.rounds && g1.messages == g.messages && g1.broadcast == g.broadcast
    ensures Chain(p, g1) && AllApproved(p, g1) && WithData(g1)
  {
    hide Approved, Led;
    ChainGrows(p, g, g1);
    assert SlotsKept(g, g1);
    ApprovedGrows(p, g, g1);
  }

  lemma {:induction false} SendSound(p: Protocol, h: Handler, number: nat, outs: seq<Content>)
    requires Sound(p, h)
    ensures Sound(p, Send(p, h, number, outs)) && Send(p, h, number, outs).rounds == h.rounds
    decreases |outs|
  {
    if |outs| > 0 {
      var m := Outgoing(p, h, number, outs[0]);
      var g := if m.broadcast then Store(h, m) else h;
      SendOneSound(p, h, m);
      SendSound(p, g.(out := g.out + [m]), number, outs[1..]);
    }
  }

  // ---- Messages enter the current round

  /** The current round is the last one entered. */
  ghost predicate AtLast(p: Protocol, h: Handler)
  {
    h.current in h.rounds && 1 <= h.current <= p.final && h.current + 1 !in h.rounds
  }

  ghost function WithRound(h: Handler, r: Round): Handler
  {
    h.(rounds := h.rounds[h.current := r])
  }

  /** Filling the current round changes nothing for the others. */
  lemma {:induction false} RoundSound(p: Protocol, h: Handler, r: Round)
    requires Sound(p, h) && AtLast(p, h) && r.number == h.current && r.state == h.rounds[h.current].state && Approved(p, h, r)
    ensures Sound(p, WithRound(h, r))
  {
    hide Tables, Whole, Approved, WithData, OwnHeld;
    var g := WithRound(h, r);
    RoundApproved(p, h, r);
    SentSame(p, h, g);
    RoundChain(p, h, r);
  }

  lemma {:induction false} RoundChain(p: Protocol, h: Handler, r: Round)
    requires Chain(p, h) && AtLast(p, h) && r.number == h.current && r.state == h.rounds[h.current].state
    ensures Chain(p, WithRound(h, r))
  {
    hide Whole;
    var g := WithRound(h, r);
    forall n: nat | n >= 1 && n in g.rounds && n + 1 in g.rounds ensures Led(p, g, n) { assert Led(p, h, n) && n != h.current; }
  }

  lemma {:induction false} RoundApproved(p: Protocol, h: Handler, r: Round)
    requires AllApproved(p, h) && Approved(p, h, r)
    ensures AllApproved(p, WithRound(h, r))
  {
    var g := WithRound(h, r);
    forall n | n in g.rounds && n >= 1 ensures Approved(p, g, g.rounds[n]) {
      if n != h.current { assert Approved(p, h, h.rounds[n]); }
    }
  }

  lemma {:induction false} DrainedApproved(p: Protocol, h: Handler)
    requires Tables(p, h) && WithData(h) && h.current in h.rounds && QueueOk(p, h, h.rounds[h.current])
    ensures Approved(p, h, Drained(p, h))
  {
    var r, n := Drained(p, h), h.rounds[h.current].number;
    forall id | id in r.directs
      ensures p.expectsDirect(n) && Holds(h.messages, n, id) && (p.isBroadcast(n) ==> id in r.broadcasts)
              && h.messages[n][id].data == Some(r.directs[id]) && p.verifies(n, r.state, id, SaidBy(r, id), r.directs[id])
    {
      assert QueuedDirect(p, h, n, id);
      assert DirectOk(p, h.rounds[h.current], BroadcastData(p, h, n, id), h.messages[n][id]);
      assert BroadcastData(p, h, n, id) == SaidBy(r, id);
    }
  }

  lemma {:induction false} DrainSound(p: Protocol, h: Handler)
    requires Sound(p, h) && AtLast(p, h) && QueueOk(p, h, h.rounds[h.current])
    ensures Sound(p, WithDrained(p, h)) && Taken(p, WithDrained(p, h))
  {
    assert Chain(p, h);
    DrainedApproved(p, h);
    RoundSound(p, h, Drained(p, h));
    var g, n := WithDrained(p, h), h.current;
    assert forall id :: QueuedBroadcast(p, g, n, id) <==> QueuedBroadcast(p, h, n, id);
    assert forall id :: QueuedDirect(p, g, n, id) <==> QueuedDirect(p, h, n, id);
  }

  lemma {:induction false} QueueUnfit(p: Protocol, h: Handler)
    requires Tables(p, h) && h.current in h.rounds && !QueueOk(p, h, h.rounds[h.current])
    ensures exists id :: Unfit(p, h, h.rounds[h.current], id)
  {
    var r := h.rounds[h.current];
    if id :| QueuedBroadcast(p, h, r.number, id) && !BroadcastOk(p, r, h.broadcast[r.number][id]) {
      assert Unfit(p, h, r, id);
    } else {
      var id :| QueuedDirect(p, h, r.number, id) && !DirectOk(p, r, BroadcastData(p, h, r.number, id), h.messages[r.number][id]);
      assert Unfit(p, h, r, id);
    }
  }

  // ---- A message arrives for the current round

  ghost predicate Arriving(p: Protocol, h: Handler, m: Message)
  {
    && Sound(p, h) && AtLast(p, h) && Taken(p, h) && p.Other(m.from) && m.data.Some? && m.round == h.current
    && SlotFree(h, m)
  }

  /** In a broadcast round nothing direct is in the round from a sender whose broadcast is not. */
  lemma {:induction false} ArrivingNew(p: Protocol, h: Handler, m: Message)
    requires Arriving(p, h, m)
    ensures var r := h.rounds[h.current];
            r.number == h.current && Approved(p, Store(h, m), r) && Sound(p, Store(h, m))
            && (if m.broadcast then m.from !in r.broadcasts && (p.isBroadcast(h.current) ==> m.from !in r.directs) else m.from !in r.directs)
            && m.round in QueueOf(Store(h, m), m) && m.from in QueueOf(Store(h, m), m)[m.round] && QueueOf(Store(h, m), m)[m.round][m.from] == m
  {
    hide Led, Whole, Tables;
    StoreSound(p, h, m);
    assert Approved(p, h, h.rounds[h.current]);
  }

  lemma {:induction false} DirectApproved(p: Protocol, g: Handler, r: Round, m: Message)
    requires Approved(p, g, r) && m.round == r.number && Holds(g.messages, r.number, m.from) && g.messages[r.number][m.from] == m && m.data.Some?
    requires DirectOk(p, r, SaidBy(r, m.from), m) && (p.isBroadcast(r.number) ==> m.from in r.broadcasts)
    ensures Approved(p, g, r.(directs := r.directs[m.from := Data(m)]))
  {
  }

  lemma {:induction false} BroadcastApproved(p: Protocol, g: Handler, r: Round, m: Message)
    requires Approved(p, g, r) && m.round == r.number && Holds(g.broadcast, r.number, m.from) && g.broadcast[r.number][m.from] == m
    requires m.data.Some? && p.Other(m.from) && p.isBroadcast(r.number) && BroadcastOk(p, r, m) && m.from !in r.directs
    ensures Approved(p, g, r.(broadcasts := r.broadcasts[m.from := Data(m)]))
  {
  }

  /** What the round knows of a sender's broadcast is what the queue has of it. */
  lemma {:induction false} SaidHeld(p: Protocol, h: Handler, id: Id)
    requires Sound(p, h) && AtLast(p, h) && Taken(p, h) && p.Other(id)
    ensures var r, n := h.rounds[h.current], h.current;
            && (p.isBroadcast(n) && Holds(h.broadcast, n, id) ==> id in r.broadcasts)
            && BroadcastData(p, h, n, id) == SaidBy(r, id)
  {
    hide Led, Whole, Tables;
    var r, n := h.rounds[h.current], h.current;
    assert Approved(p, h, r) && r.number == n;
    if p.isBroadcast(n) && Holds(h.broadcast, n, id) { assert QueuedBroadcast(p, h, n, id); }
  }

  /** A direct message changes what is due from its sender only. */
  lemma {:induction false} DirectDueNow(p: Protocol, h: Handler, m: Message, r: Round)
    requires h.current in h.rounds && Taken(p, h) && !m.broadcast && h.rounds[h.current].number == h.current == r.number
    requires r.broadcasts == h.rounds[h.current].broadcasts && h.rounds[h.current].directs.Keys <= r.directs.Keys
    requires QueuedDirect(p, Store(h, m), h.current, m.from) ==> m.from in r.directs
    ensures Taken(p, WithRound(Store(h, m), r))
  {
    var g, n := WithRound(Store(h, m), r), h.current;
    assert forall id :: QueuedBroadcast(p, g, n, id) <==> QueuedBroadcast(p, h, n, id);
    assert forall id :: id != m.from ==> (QueuedDirect(p, g, n, id) <==> QueuedDirect(p, h, n, id));
  }

  lemma {:induction false} DirectArrives(p: Protocol, h: Handler, m: Message)
    requires Arriving(p, h, m) && !m.broadcast
    ensures var g := Store(h, m);
            match VerifyDirect(p, g, m)
            case None => Unfit(p, g, g.rounds[g.current], m.from)
            case Some(g1) => Sound(p, g1) && AtLast(p, g1) && Taken(p, g1)
  {
    hide Sound, Taken, Approved, SlotFree;
    var g, r, n := Store(h, m), h.rounds[h.current], h.current;
    ArrivingNew(p, h, m);
    SaidHeld(p, h, m.from);
    assert BroadcastData(p, g, n, m.from) == BroadcastData(p, h, n, m.from);
    if p.isBroadcast(n) && !Holds(g.broadcast, n, m.from) {
      DirectDueNow(p, h, m, r);
      assert WithRound(g, r) == g;
    } else if DirectOk(p, r, SaidBy(r, m.from), m) {
      var r1 := r.(directs := r.directs[m.from := Data(m)]);
      DirectApproved(p, g, r, m);
      RoundSound(p, g, r1);
      DirectDueNow(p, h, m, r1);
    }
  }

  /** A broadcast brings itself and, if one waits, its sender's direct message. */
  lemma {:induction false} BroadcastDueNow(p: Protocol, h: Handler, m: Message, r: Round)
    requires h.current in h.rounds && Taken(p, h) && m.broadcast && h.rounds[h.current].number == h.current == r.number
    requires h.rounds[h.current].broadcasts.Keys + {m.from} <= r.broadcasts.Keys && h.rounds[h.current].directs.Keys <= r.directs.Keys
    requires QueuedDirect(p, Store(h, m), h.current, m.from) ==> m.from in r.directs
    ensures Taken(p, WithRound(Store(h, m), r))
  {
    var g, n := WithRound(Store(h, m), r), h.current;
    assert forall id :: id != m.from ==> (QueuedBroadcast(p, g, n, id) <==> QueuedBroadcast(p, h, n, id));
    assert forall id :: id != m.from ==> (QueuedDirect(p, g, n, id) <==> QueuedDirect(p, h, n, id));
  }

  ghost predicate DirectWaits(p: Protocol, g: Handler, id: Id)
  {
    p.expectsDirect(g.current) && Holds(g.messages, g.current, id)
  }

  lemma {:induction false} BroadcastCases(p: Protocol, g: Handler, m: Message)
    requires g.current in g.rounds && m.round == g.current == g.rounds[g.current].number && Holds(g.broadcast, m.round, m.from)
    requires Holds(g.messages, m.round, m.from) ==> g.messages[m.round][m.from].round == m.round && g.messages[m.round][m.from].from == m.from
    ensures var r := g.rounds[g.current];
            var r1 := r.(broadcasts := r.broadcasts[m.from := Data(m)]);
            VerifyBroadcast(p, g, m) ==
              if !p.isBroadcast(g.current) || !BroadcastOk(p, r, m) then None
              else if !DirectWaits(p, g, m.from) then Some(WithRound(g, r1))
              else
                var d := g.messages[m.round][m.from];
                if DirectOk(p, r1, Some(Data(m)), d) then Some(WithRound(g, r1.(directs := r1.directs[m.from := Data(d)]))) else None
  {
    var r, n := g.rounds[g.current], g.current;
    var r1 := r.(broadcasts := r.broadcasts[m.from := Data(m)]);
    if DirectWaits(p, g, m.from) {
      var r2 := r1.(directs := r1.directs[m.from := Data(g.messages[n][m.from])]);
      assert g.rounds[n := r1][n := r2] == g.rounds[n := r2];
    }
  }

  lemma {:induction false} BroadcastTakes(p: Protocol, h: Handler, m: Message, r: Round)
    requires Arriving(p, h, m) && m.broadcast && Sound(p, Store(h, m)) && Approved(p, Store(h, m), r)
    requires r.number == h.current && r.state == h.rounds[h.current].state && h.rounds[h.current].number == h.current
    requires h.rounds[h.current].broadcasts.Keys + {m.from} <= r.broadcasts.Keys && h.rounds[h.current].directs.Keys <= r.directs.Keys
    requires QueuedDirect(p, Store(h, m), h.current, m.from) ==> m.from in r.directs
    ensures var g1 := WithRound(Store(h, m), r);
            Sound(p, g1) && AtLast(p, g1) && Taken(p, g1)
  {
    hide Sound, Taken, Approved, SlotFree;
    RoundSound(p, Store(h, m), r);
    BroadcastDueNow(p, h, m, r);
  }

  lemma {:induction false} BroadcastArrives(p: Protocol, h: Handler, m: Message)
    requires Arriving(p, h, m) && m.broadcast
    ensures var g := Store(h, m);
            match VerifyBroadcast(p, g, m)
            case None => Unfit(p, g, g.rounds[g.current], m.from)
            case Some(g1) => Sound(p, g1) && AtLast(p, g1) && Taken(p, g1)
  {
    var g, r, n := Store(h, m), h.rounds[h.current], h.current;
    var r1 := r.(broadcasts := r.broadcasts[m.from := Data(m)]);
    ArrivingNew(p, h, m);
    HeldRight(p, g, n, m.from);
    ArrivingLast(p, h, m);
    hide Sound, Taken, Approved, SlotFree, Arriving;
    BroadcastCases(p, g, m);
    hide VerifyBroadcast, Store;
    if p.isBroadcast(n) && BroadcastOk(p, r, m) {
      BroadcastApproved(p, g, r, m);
      if DirectWaits(p, g, m.from) {
        var d := g.messages[n][m.from];
        if DirectOk(p, r1, Some(Data(m)), d) {
          DirectApproved(p, g, r1, d);
          BroadcastTakes(p, h, m, r1.(directs := r1.directs[m.from := Data(d)]));
        }
      } else {
        BroadcastTakes(p, h, m, r1);
      }
    }
  }

  lemma {:induction false} ArrivingLast(p: Protocol, h: Handler, m: Message)
    requires Arriving(p, h, m)
    ensures AtLast(p, h) && m.round == h.current && p.Other(m.from) && m.data.Some?
    ensures Store(h, m).current == h.current && Store(h, m).rounds == h.rounds
  {
  }

  lemma {:induction false} HeldRight(p: Protocol, h: Handler, n: nat, id: Id)
    requires Sound(p, h)
    ensures Holds(h.messages, n, id) ==> h.messages[n][id].data.Some? && h.messages[n][id].round == n && h.messages[n][id].from == id
  {
  }

  // ---- Finalizing

  lemma {:induction false} NotReceived(p: Protocol, h: Handler)
    requires Tables(p, h) && AtLast(p, h)
    ensures !Received(p, h) <==> Missing(p, h, h.current)
  {
    var n := h.current;
    if n >= 2 {
      assert n in h.messages && n in h.broadcast;
      if p.isBroadcast(n) && !AllBroadcasts(p, h, n) { var id :| id in p.parties && id !in h.broadcast[n]; assert !Holds(h.broadcast, n, id); }
      if p.expectsDirect(n) && !AllDirects(p, h, n) { var id :| p.Other(id) && id !in h.messages[n]; assert !Holds(h.messages, n, id); }
    }
  }

  lemma {:induction false} ReceivedWhole(p: Protocol, h: Handler)
    requires Tables(p, h) && AtLast(p, h) && Taken(p, h) && h.rounds[h.current].number == h.current && !Missing(p, h, h.current)
    ensures Whole(p, h.rounds[h.current])
  {
    var n, r := h.current, h.rounds[h.current];
    if n >= 2 {
      forall id | p.isBroadcast(n) && p.Other(id) ensures id in r.broadcasts { assert QueuedBroadcast(p, h, n, id); }
      forall id | p.expectsDirect(n) && p.Other(id) ensures id in r.directs { assert QueuedDirect(p, h, n, id); }
    }
  }

  lemma {:induction false} NotEchoed(p: Protocol, h: Handler)
    requires !EchoOk(h)
    ensures Differs(h, h.current)
  {
    var n := h.current;
    if id :| Holds(h.messages, n, id) && h.messages[n][id].echo != h.hashes[n - 1] {
    } else {
      var id :| Holds(h.broadcast, n, id) && h.broadcast[n][id].echo != h.hashes[n - 1];
    }
  }

  /** Everything the handler has done so far is as it should be, and it has not stopped. */
  ghost predicate Going(p: Protocol, h: Handler)
  {
    Inv(p, h) && IsRunning(h) && Sound(p, h) && AtLast(p, h)
  }

  lemma {:induction false} LastOne(p: Protocol, h: Handler)
    requires Inv(p, h) && IsRunning(h)
    ensures AtLast(p, h)
  {
    CurrentEntered(p, h);
  }

  /** Sending leaves what is due from others as it is. */
  lemma {:induction false} SendTaken(p: Protocol, h: Handler, outs: seq<Content>)
    requires h.current in h.rounds && Taken(p, h)
    ensures var g := Send(p, h, h.current, outs);
            g.current == h.current && g.rounds == h.rounds && Taken(p, g)
  {
    SendKept(p, h, h.current, outs);
    var g, n := Send(p, h, h.current, outs), h.rounds[h.current].number;
    assert forall id :: QueuedBroadcast(p, g, n, id) ==> QueuedBroadcast(p, h, n, id);
    assert forall id :: QueuedDirect(p, g, n, id) ==> QueuedDirect(p, h, n, id);
  }

  lemma {:induction false} NextSound(p: Protocol, h: Handler, state: Bytes, outs: seq<Content>)
    requires Sound(p, h) && AtLast(p, h) && h.current < p.final && Whole(p, h.rounds[h.current])
    requires StepOf(p, h.rounds[h.current]) == Next(state, outs) && forall n :: n in h.rounds ==> n <= h.current
    ensures Sound(p, NextRound(p, h, h.current + 1, state, outs))
  {
    var n := h.current + 1;
    var sent := Send(p, h, n, outs);
    SendSound(p, h, n, outs);
    hide Send, Tables, Whole, WithData, OwnHeld;
    var g := NextRound(p, h, n, state, outs);
    SentSame(p, sent, g);
    forall k: nat | k >= 1 && k in g.rounds && k + 1 in g.rounds ensures Led(p, g, k) {
      if k + 1 < n { assert Led(p, sent, k); } else { assert k == h.current; }
    }
    forall k | k in g.rounds && k >= 1 ensures Approved(p, g, g.rounds[k]) {
      if k != n { assert Approved(p, sent, sent.rounds[k]); }
    }
  }

  lemma {:induction false} SentSame(p: Protocol, h: Handler, g: Handler)
    requires g.messages == h.messages && g.broadcast == h.broadcast && g.out == h.out && Tables(p, h) && WithData(h) && OwnHeld(p, h)
    ensures Tables(p, g) && WithData(g) && OwnHeld(p, g)
  {
    SameTablesOk(p, h, g);
  }

  /** The handler's own last round, `n`, is the reason for where it stands. */
  lemma {:induction false} FailReason(p: Protocol, h: Handler, e: Error)
    requires Sound(p, h) && AtLast(p, h) && Justified(p, h, e, h.current)
    ensures Sound(p, Fail(h, e)) && Reason(p, Fail(h, e))
  {
    SoundFrame(p, h, Fail(h, e));
    hide Sound, Whole;
    assert ReasonAt(p, Fail(h, e), h.current) by { FailedAt(p, h, e); }
  }

  lemma {:induction false} FailedAt(p: Protocol, h: Handler, e: Error)
    requires AtLast(p, h) && Justified(p, h, e, h.current)
    ensures ReasonAt(p, Fail(h, e), h.current)
  {
    var g, n := Fail(h, e), h.current;
    if e.BadMessage? {
      var id :| Unfit(p, h, h.rounds[n], id);
      assert BroadcastData(p, g, h.rounds[n].number, id) == BroadcastData(p, h, h.rounds[n].number, id);
      assert Unfit(p, g, g.rounds[n], id);
    }
  }

  lemma {:induction false} SoundNumber(p: Protocol, h: Handler)
    requires Sound(p, h) && AtLast(p, h)
    ensures h.rounds[h.current].number == h.current && StepOf(p, h.rounds[h.current]) == Stepped(p, h) && Tables(p, h)
  {
  }

  lemma {:induction false} WaitReason(p: Protocol, h: Handler)
    requires IsRunning(h) && Sound(p, h) && AtLast(p, h) && Taken(p, h)
    requires Missing(p, h, h.current) || (Whole(p, h.rounds[h.current]) && StepOf(p, h.rounds[h.current]).Same?)
    ensures Reason(p, h)
  {
    assert ReasonAt(p, h, h.current);
  }

  lemma {:induction false} LastReason(p: Protocol, h: Handler, result: Option<Bytes>, err: Option<Error>)
    requires Inv(p, h) && IsRunning(h) && Sound(p, h) && AtLast(p, h) && Whole(p, h.rounds[h.current])
    requires (err.None? && result.Some? && StepOf(p, h.rounds[h.current]) == Output(result.value))
             || (err == Some(RoundAborted) && StepOf(p, h.rounds[h.current]) == Abort)
    ensures var g := h.(rounds := h.rounds[0 := LastRound()], current := 0, result := result, err := err);
            Sound(p, g) && Reason(p, g)
  {
    hide Inv, Whole;
    var g := h.(rounds := h.rounds[0 := LastRound()], current := 0, result := result, err := err);
    SentSame(p, h, g);
    hide Tables, WithData, OwnHeld;
    forall n: nat | n >= 1 && n in g.rounds && n + 1 in g.rounds ensures Led(p, g, n) { assert Led(p, h, n); }
    forall n | n in g.rounds && n >= 1 ensures Approved(p, g, g.rounds[n]) { assert Approved(p, h, h.rounds[n]); }
    assert ReasonAt(p, g, h.current);
  }

  lemma {:induction false} FinalizeReason(p: Protocol, h: Handler)
    requires Going(p, h) && Taken(p, h)
    ensures Sound(p, Finalize(p, h)) && Reason(p, Finalize(p, h))
    decreases p.final - h.current, 1
  {
    hide Inv, Sound, Received, EchoOk, Missing, Whole;
    var g := Hashed(p, h);
    HashedGoing(p, h);
    SoundNumber(p, g);
    NotReceived(p, g);
    if !Received(p, g) {
      WaitReason(p, g);
    } else if !EchoOk(g) {
      NotEchoed(p, g);
      FailReason(p, g, EchoMismatch);
    } else {
      ReceivedWhole(p, g);
      ReadyNow(p, h);
      AdvanceReason(p, g);
    }
  }

  lemma {:induction false} HashedGoing(p: Protocol, h: Handler)
    requires Going(p, h) && Taken(p, h)
    ensures Going(p, Hashed(p, h)) && Taken(p, Hashed(p, h)) && Hashed(p, h).current == h.current
  {
    hide Inv, Sound;
    HashedInv(p, h);
    var g, n := Hashed(p, h), h.rounds[h.current].number;
    SoundFrame(p, h, g);
    assert forall id :: QueuedBroadcast(p, g, n, id) <==> QueuedBroadcast(p, h, n, id);
    assert forall id :: QueuedDirect(p, g, n, id) <==> QueuedDirect(p, h, n, id);
  }

  lemma {:induction false} ReadyNow(p: Protocol, h: Handler)
    requires Inv(p, h) && IsRunning(h) && Received(p, Hashed(p, h)) && EchoOk(Hashed(p, h))
    ensures Ready(p, Hashed(p, h))
  {
    ReadyToGo(p, h);
  }

  lemma {:induction false} AdvanceReason(p: Protocol, h: Handler)
    requires Ready(p, h) && Sound(p, h) && AtLast(p, h) && Taken(p, h) && Whole(p, h.rounds[h.current])
    ensures p.Valid() && Sound(p, Advance(p, h)) && Reason(p, Advance(p, h))
    decreases p.final - h.current, 0
  {
    ReadyLast(p, h);
    hide Inv, Sound, Received, EchoOk, Missing, Whole, Ready, Taken, Send, Enter, NextRound, Going, Reason;
    SoundNumber(p, h);
    var s := Stepped(p, h);
    assert p.StepOk(h.current, s);
    match s
    case Fault => FailReason(p, h, FinalizeFault);
    case Same(outs) => SameReason(p, h, outs);
    case Next(state, outs) =>
      NextGoing(p, h);
      AdvanceUnfold(p, h);
      EnterReason(p, Successor(p, h));
    case Output(result) => LastReason(p, h, Some(result), None);
    case Abort => LastReason(p, h, None, Some(RoundAborted));
  }

  lemma {:induction false} SameReason(p: Protocol, h: Handler, outs: seq<Content>)
    requires IsRunning(h) && Sound(p, h) && AtLast(p, h) && Taken(p, h) && Whole(p, h.rounds[h.current])
    requires StepOf(p, h.rounds[h.current]) == Same(outs)
    ensures Sound(p, Send(p, h, h.current, outs)) && Reason(p, Send(p, h, h.current, outs))
  {
    hide Sound, Taken, Whole, Send;
    SendSound(p, h, h.current, outs);
    SendTaken(p, h, outs);
    SendNumbers(p, h, h.current, outs);
    WaitReason(p, Send(p, h, h.current, outs));
  }

  lemma {:induction false} NextGoing(p: Protocol, h: Handler)
    requires Ready(p, h) && Sound(p, h) && AtLast(p, h) && Whole(p, h.rounds[h.current]) && Stepped(p, h).Next?
    ensures h.current < p.final && Going(p, Successor(p, h)) && Successor(p, h).current == h.current + 1
  {
    hide Inv, Sound, Whole, Ready, Send, Chain, NextRound;
    ReadyLast(p, h);
    SoundNumber(p, h);
    var s := Stepped(p, h);
    NextWithin(p, h);
    NextRoundInv(p, h, s.state, s.outs);
    NextSound(p, h, s.state, s.outs);
    LastOne(p, Successor(p, h));
    NextCurrent(p, h, s.state, s.outs);
  }

  lemma {:induction false} NextWithin(p: Protocol, h: Handler)
    requires p.Valid() && h.current in h.rounds && Stepped(p, h).Next?
    ensures h.current < p.final && forall o :: o in Stepped(p, h).outs ==> o.round == h.current + 1
  {
    assert p.StepOk(h.current, Stepped(p, h));
  }

  lemma {:induction false} NextCurrent(p: Protocol, h: Handler, state: Bytes, outs: seq<Content>)
    ensures NextRound(p, h, h.current + 1, state, outs).current == h.current + 1
  {
  }

  lemma {:induction false} ReadyLast(p: Protocol, h: Handler)
    requires Ready(p, h)
    ensures p.Valid() && Inv(p, h) && IsRunning(h) && forall n :: n in h.rounds ==> n <= h.current
  {
  }

  lemma {:induction false} EnterReason(p: Protocol, h: Handler)
    requires Going(p, h)
    ensures Sound(p, Enter(p, h)) && Reason(p, Enter(p, h))
    decreases p.final - h.current, 2
  {
    hide Inv, Sound, Taken;
    SoundNumber(p, h);
    if QueueOk(p, h, h.rounds[h.current]) {
      DrainSound(p, h);
      RoundsInv(p, h, h.rounds[h.current := Drained(p, h)]);
      FinalizeReason(p, WithDrained(p, h));
    } else {
      QueueUnfit(p, h);
      FailReason(p, h, BadMessage);
    }
  }

  // ---- Whole runs

  /** A message for another round changes nothing for this one. */
  lemma {:induction false} OtherSlots(p: Protocol, h: Handler, m: Message, n: nat, id: Id)
    requires m.round != n
    ensures var g := Store(h, m);
            && (Holds(g.broadcast, n, id) <==> Holds(h.broadcast, n, id)) && (Holds(g.messages, n, id) <==> Holds(h.messages, n, id))
            && (QueuedBroadcast(p, g, n, id) <==> QueuedBroadcast(p, h, n, id))
            && (QueuedDirect(p, g, n, id) <==> QueuedDirect(p, h, n, id))
  {
  }

  lemma {:induction false} LaterAt(p: Protocol, h: Handler, m: Message, n: nat)
    requires IsRunning(h) && h.current in h.rounds && h.rounds[h.current].number == h.current && ReasonAt(p, h, n) && m.round != n
    ensures ReasonAt(p, Store(h, m), n)
  {
    hide QueuedBroadcast, QueuedDirect, Holds, Whole;
    var g := Store(h, m);
    forall id ensures (QueuedBroadcast(p, g, n, id) <==> QueuedBroadcast(p, h, n, id)) && (QueuedDirect(p, g, n, id) <==> QueuedDirect(p, h, n, id))
                      && (Holds(g.broadcast, n, id) <==> Holds(h.broadcast, n, id)) && (Holds(g.messages, n, id) <==> Holds(h.messages, n, id))
    {
      OtherSlots(p, h, m, n, id);
    }
    assert g.rounds == h.rounds && g.current == h.current;
  }

  lemma {:induction false} LaterReason(p: Protocol, h: Handler, m: Message)
    requires Going(p, h) && Reason(p, h) && p.Other(m.from) && m.data.Some? && SlotFree(h, m) && m.round > h.current
    ensures Sound(p, Store(h, m)) && Reason(p, Store(h, m))
  {
    hide Sound, Inv, ReasonAt, Store;
    StoreSound(p, h, m);
    SoundNumber(p, h);
    var n: nat :| ReasonAt(p, h, n);
    assert n == h.current by { RunningAt(p, h, n); }
    LaterAt(p, h, m, n);
  }

  lemma {:induction false} RunningAt(p: Protocol, h: Handler, n: nat)
    requires IsRunning(h) && ReasonAt(p, h, n)
    ensures n == h.current
  {
  }

  lemma {:induction false} NowReason(p: Protocol, h: Handler, m: Message)
    requires Going(p, h) && Arriving(p, h, m)
    ensures var g := Store(h, m);
            match Verify(p, g, m)
            case None => Sound(p, Fail(g, BadMessage)) && Reason(p, Fail(g, BadMessage))
            case Some(g1) => g1.current == h.current && Going(p, g1) && Taken(p, g1)
  {
    var g := Store(h, m);
    ArrivingNew(p, h, m);
    ArrivingLast(p, h, m);
    ArrivingInv(p, h, m);
    if m.broadcast { BroadcastArrives(p, h, m); } else { DirectArrives(p, h, m); }
    hide Inv, Sound, Taken, Arriving, VerifyBroadcast, VerifyDirect;
    VerifyKeeps(p, g, m);
    match Verify(p, g, m)
    case None => FailReason(p, g, BadMessage);
    case Some(g1) => RoundsInv(p, g, g1.rounds);
  }

  lemma {:induction false} ArrivingInv(p: Protocol, h: Handler, m: Message)
    requires Going(p, h) && Arriving(p, h, m)
    ensures Inv(p, Store(h, m)) && IsRunning(Store(h, m))
  {
    hide Inv, Sound;
    StoreInv(p, h, m);
  }

  lemma {:induction false} AcceptReason(p: Protocol, h: Handler, m: Message)
    requires Inv(p, h) && Live(p, h) && Sound(p, h) && (Reason(p, h) || h.err.Some?)
    ensures var h' := Accept(p, h, m);
            Sound(p, h') && (h' == h || Reason(p, h') || (h'.err == Some(PeerAborted) && m.round == 0 && p.Other(m.from)))
  {
    if !Ignored(p, h, m) {
      LastOne(p, h);
      ReasonTaken(p, h);
      if m.round == 0 {
        SoundFrame(p, h, Fail(h, PeerAborted));
      } else {
        hide Inv, Sound, Taken, Verify, Finalize, Reason;
        if m.round != h.current {
          LaterReason(p, h, m);
        } else {
          NowReason(p, h, m);
          var v := Verify(p, Store(h, m), m);
          if v.Some? { FinalizeReason(p, v.value); }
        }
      }
    }
  }

  lemma {:induction false} ReasonTaken(p: Protocol, h: Handler)
    requires IsRunning(h) && Reason(p, h)
    ensures h.current in h.rounds && Taken(p, h)
  {
  }

  /**
   Every handler, whatever it was sent: each round was started by the one before it as the protocol says, holds what it
   was sent and has approved it; and there is a reason for where the handler stands, in its last round or in a message.
   */
  lemma {:induction false} DeliverReason(p: Protocol, msgs: seq<Message>)
    requires p.Valid()
    ensures Sound(p, Deliver(p, msgs)) && (Reason(p, Deliver(p, msgs)) || ToldToStop(p, Deliver(p, msgs), msgs))
    decreases |msgs|
  {
    if |msgs| == 0 {
      var h := Fresh(p, EmptyQueue(p.final), EmptyQueue(p.final));
      assert Inv(p, h);
      FreshSound(p);
      FinalizeReason(p, h);
    } else {
      hide Accept, Sound, Reason, Inv;
      var init, m := msgs[..|msgs| - 1], msgs[|msgs| - 1];
      DeliverReason(p, init);
      DeliverInv(p, init);
      AcceptReason(p, Deliver(p, init), m);
      assert m in msgs && forall x :: x in init ==> x in msgs;
    }
  }

  lemma {:induction false} FreshSound(p: Protocol)
    requires p.Valid()
    ensures var h := Fresh(p, EmptyQueue(p.final), EmptyQueue(p.final));
            Sound(p, h) && AtLast(p, h) && Taken(p, h)
  {
  }

  lemma {:induction false} LadderDown(p: Protocol, h: Handler, a: nat, b: nat)
    requires Ladder(p, h) && b in h.rounds && 1 <= a <= b
    ensures a in h.rounds
    decreases b - a
  {
    if a < b { LadderDown(p, h, a, b - 1); }
  }

  lemma {:induction false} LastUnique(p: Protocol, h: Handler, a: nat, b: nat)
    requires Ladder(p, h) && Last(h, a) && Last(h, b)
    ensures a == b
  {
    if a < b { LadderDown(p, h, a + 1, b); }
    if b < a { LadderDown(p, h, b + 1, a); }
  }

  /** There is a result if and only if the last round has every message it waits for and the protocol puts it out. */
  lemma {:induction false} ResultExactly(p: Protocol, msgs: seq<Message>, n: nat, result: Bytes)
    requires p.Valid() && Deliver(p, msgs).err.None? && Last(Deliver(p, msgs), n)
    ensures var h := Deliver(p, msgs);
            h.result == Some(result) <==>
              !Missing(p, h, n) && p.finalizes(n, h.rounds[n].state, h.rounds[n].broadcasts, h.rounds[n].directs) == Output(result)
  {
    hide Deliver, Sound, Whole, HashesExact, SentExact, Shape;
    var h := Deliver(p, msgs);
    DeliverReason(p, msgs);
    DeliverInv(p, msgs);
    var k: nat :| ReasonAt(p, h, k);
    LastUnique(p, h, n, k);
    assert h.rounds[n].number == n by { NumberAt(p, h, n); }
    if h.result.Some? && n >= 2 { assert Past(h, n) && Complete(p, h, n); }
  }

  lemma {:induction false} NumberAt(p: Protocol, h: Handler, n: nat)
    requires Sound(p, h) && n in h.rounds && n >= 1
    ensures h.rounds[n].number == n
  {
  }

  // ---- What was sent

  /** A message as a round handed it over, with the session's header; the echo is told by `SentExact`. */
  function Headed(p: Protocol, o: Content): Message
  {
    Message(p.ssid, p.self, o.to, p.name, o.round, Some(o.data), o.broadcast, [])
  }

  function Bare(ms: seq<Message>): (r: seq<Message>)
    ensures |r| == |ms|
  {
    seq(|ms|, i requires 0 <= i < |ms| => ms[i].(echo := []))
  }

  function AllHeaded(p: Protocol, outs: seq<Content>): (r: seq<Message>)
    ensures |r| == |outs|
  {
    seq(|outs|, i requires 0 <= i < |outs| => Headed(p, outs[i]))
  }

  lemma {:induction false} SendBare(p: Protocol, h: Handler, number: nat, outs: seq<Content>)
    ensures Bare(Send(p, h, number, outs).out) == Bare(h.out) + AllHeaded(p, outs)
    decreases |outs|
  {
    if |outs| > 0 {
      var m := Outgoing(p, h, number, outs[0]);
      var h1 := if m.broadcast then Store(h, m) else h;
      SendBare(p, h1.(out := h1.out + [m]), number, outs[1..]);
      assert Bare(h.out + [m]) == Bare(h.out) + [Headed(p, outs[0])];
      assert AllHeaded(p, outs) == [Headed(p, outs[0])] + AllHeaded(p, outs[1..]);
    } else {
      assert AllHeaded(p, outs) == [];
    }
  }

  /** What the rounds from `n` on handed over, told from where the handler stands. */
  ghost function Handing(p: Protocol, h: Handler, n: nat): (outs: seq<Content>)
    decreases p.final - n
  {
    if n !in h.rounds then []
    else match StepOf(p, h.rounds[n])
      case Next(_, outs) => if n + 1 in h.rounds && n < p.final then outs + Handing(p, h, n + 1) else []
      case Same(outs) => if h.err.None? && !Missing(p, h, n) then outs else []
      case _ => []
  }

  /** All that was handed over while the messages arrived, in order. */
  ghost function Handed(p: Protocol, msgs: seq<Message>): (outs: seq<Content>)
    requires p.Valid()
    decreases |msgs|
  {
    if |msgs| == 0 then Handing(p, Deliver(p, msgs), 1)
    else
      var init, m := msgs[..|msgs| - 1], msgs[|msgs| - 1];
      var h := Deliver(p, init);
      Handed(p, init) + if Accepted(p, h, m) then Handing(p, Deliver(p, msgs), h.current) else []
  }

  /** The rounds up to `n` are as they were. */
  ghost predicate KeptUpTo(h: Handler, h': Handler, n: nat)
  {
    forall k :: 1 <= k <= n && k in h.rounds ==> k in h'.rounds && h'.rounds[k] == h.rounds[k]
  }

  ghost predicate Hands(p: Protocol, h: Handler, h': Handler)
  {
    Bare(h'.out) == Bare(h.out) + AllHeaded(p, Handing(p, h', h.current))
  }

  lemma {:induction false} HeadedMore(p: Protocol, a: seq<Content>, b: seq<Content>)
    ensures AllHeaded(p, a + b) == AllHeaded(p, a) + AllHeaded(p, b)
    ensures AllHeaded(p, []) == []
  {
  }

  lemma {:induction false} NothingHanded(p: Protocol, h: Handler, h': Handler)
    requires h'.out == h.out && Handing(p, h', h.current) == []
    ensures Hands(p, h, h')
  {
    HeadedMore(p, [], []);
    assert Bare(h.out) + [] == Bare(h.out);
  }

  lemma {:induction false} SendMissing(p: Protocol, h: Handler, outs: seq<Content>)
    requires !Missing(p, h, h.current)
    ensures !Missing(p, Send(p, h, h.current, outs), h.current)
  {
    SendKept(p, h, h.current, outs);
  }

  lemma {:induction false} FinalizeHands(p: Protocol, h: Handler)
    requires Going(p, h) && Taken(p, h)
    ensures Hands(p, h, Finalize(p, h)) && KeptUpTo(h, Finalize(p, h), h.current)
    decreases p.final - h.current, 1
  {
    hide Inv, Sound, Received, EchoOk, Missing, Whole, Taken, Hands, Advance;
    var g := Hashed(p, h);
    HashedGoing(p, h);
    SoundNumber(p, g);
    NotReceived(p, g);
    if !Received(p, g) {
      NothingHanded(p, h, g);
    } else if !EchoOk(g) {
      NothingHanded(p, h, Fail(g, EchoMismatch));
    } else {
      ReceivedWhole(p, g);
      ReadyNow(p, h);
      AdvanceHands(p, g);
      SameHands(p, h, g, Advance(p, g));
    }
  }

  lemma {:induction false} SameHands(p: Protocol, h: Handler, g: Handler, h': Handler)
    requires Hands(p, g, h') && g.out == h.out && g.current == h.current
    ensures Hands(p, h, h')
  {
  }

  lemma {:induction false} AdvanceHands(p: Protocol, h: Handler)
    requires Ready(p, h) && Sound(p, h) && AtLast(p, h) && Taken(p, h) && Whole(p, h.rounds[h.current]) && !Missing(p, h, h.current)
    ensures p.Valid() && Hands(p, h, Advance(p, h)) && KeptUpTo(h, Advance(p, h), h.current)
    decreases p.final - h.current, 0
  {
    hide Inv, Sound, Missing, Whole, Ready, Taken, Enter, NextRound, Going, Hands, KeptUpTo, Advance;
    ReadyLast(p, h);
    SoundNumber(p, h);
    if Stepped(p, h).Next? {
      NextGoing(p, h);
      AdvanceUnfold(p, h);
      EnterHands(p, Successor(p, h));
      NextHanded(p, h, Advance(p, h));
    } else {
      AdvanceStays(p, h);
      if Stepped(p, h).Same? {
        SameHanded(p, h, Stepped(p, h).outs);
      } else {
        EndHanded(p, h, Advance(p, h));
      }
    }
  }

  lemma {:induction false} AdvanceStays(p: Protocol, h: Handler)
    requires p.Valid() && AtLast(p, h) && !Stepped(p, h).Next?
    ensures var h' := Advance(p, h);
            if Stepped(p, h).Same? then h' == Send(p, h, h.current, Stepped(p, h).outs)
            else h'.out == h.out && (h'.rounds == h.rounds || h'.rounds == h.rounds[0 := LastRound()])
  {
  }

  lemma {:induction false} EndHanded(p: Protocol, h: Handler, h': Handler)
    requires AtLast(p, h) && h'.out == h.out && (h'.rounds == h.rounds || h'.rounds == h.rounds[0 := LastRound()])
    requires var s := StepOf(p, h.rounds[h.current]);
             !s.Next? && !s.Same?
    ensures Hands(p, h, h') && KeptUpTo(h, h', h.current)
  {
    NothingHanded(p, h, h');
  }

  lemma {:induction false} SameHanded(p: Protocol, h: Handler, outs: seq<Content>)
    requires AtLast(p, h) && IsRunning(h) && StepOf(p, h.rounds[h.current]) == Same(outs) && !Missing(p, h, h.current)
    ensures var h' := Send(p, h, h.current, outs);
            Hands(p, h, h') && KeptUpTo(h, h', h.current)
  {
    hide Missing, Send;
    SendMissing(p, h, outs);
    SendNumbers(p, h, h.current, outs);
    SendBare(p, h, h.current, outs);
  }

  lemma {:induction false} NextHanded(p: Protocol, h: Handler, h': Handler)
    requires AtLast(p, h) && h.current < p.final && h.rounds[h.current].number == h.current && Stepped(p, h).Next?
    requires var g := Successor(p, h);
             Hands(p, g, h') && KeptUpTo(g, h', h.current) && h.current + 1 in h'.rounds
    ensures Hands(p, h, h') && KeptUpTo(h, h', h.current)
  {
    hide Send;
    var s, n := Stepped(p, h), h.current;
    SendBare(p, h, n + 1, s.outs);
    SendNumbers(p, h, n + 1, s.outs);
    assert h'.rounds[n] == h.rounds[n];
    assert Handing(p, h', n) == s.outs + Handing(p, h', n + 1);
    HeadedMore(p, s.outs, Handing(p, h', n + 1));
  }

  lemma {:induction false} EnterHands(p: Protocol, h: Handler)
    requires Going(p, h)
    ensures Hands(p, h, Enter(p, h)) && KeptUpTo(h, Enter(p, h), h.current - 1) && h.current in Enter(p, h).rounds
    decreases p.final - h.current, 2
  {
    hide Inv, Sound, Taken, Hands, Finalize;
    SoundNumber(p, h);
    if QueueOk(p, h, h.rounds[h.current]) {
      DrainSound(p, h);
      RoundsInv(p, h, h.rounds[h.current := Drained(p, h)]);
      var g := WithDrained(p, h);
      FinalizeHands(p, g);
      SameHands(p, h, g, Finalize(p, g));
    } else {
      NothingHanded(p, h, Fail(h, BadMessage));
    }
  }

  lemma {:induction false} AcceptHands(p: Protocol, h: Handler, m: Message)
    requires Inv(p, h) && Live(p, h) && Sound(p, h) && (Reason(p, h) || h.err.Some?)
    ensures var h' := Accept(p, h, m);
            if Accepted(p, h, m) then Hands(p, h, h') else h'.out == h.out
  {
    if Accepted(p, h, m) {
      LastOne(p, h);
      ReasonTaken(p, h);
      NowReason(p, h, m);
      hide Inv, Sound, Taken, Verify, Finalize, Hands;
      VerifyKeeps(p, Store(h, m), m);
      var v := Verify(p, Store(h, m), m).value;
      FinalizeHands(p, v);
      SameHands(p, h, v, Finalize(p, v));
    }
  }

  /** Exactly what the rounds handed over was sent, in that order, to the receivers and in the kind they asked for. */
  lemma {:induction false} SentExactly(p: Protocol, msgs: seq<Message>)
    requires p.Valid()
    ensures Bare(Deliver(p, msgs).out) == AllHeaded(p, Handed(p, msgs))
    decreases |msgs|
  {
    if |msgs| == 0 {
      var h := Fresh(p, EmptyQueue(p.final), EmptyQueue(p.final));
      assert Inv(p, h);
      FreshSound(p);
      FinalizeHands(p, h);
      assert Bare([]) + AllHeaded(p, Handed(p, msgs)) == AllHeaded(p, Handed(p, msgs));
    } else {
      hide Accept, Hands, Handing, Accepted;
      var init, m := msgs[..|msgs| - 1], msgs[|msgs| - 1];
      var h := Deliver(p, init);
      SentExactly(p, init);
      DeliverReason(p, init);
      DeliverInv(p, init);
      AcceptHands(p, h, m);
      var more := if Accepted(p, h, m) then Handing(p, Deliver(p, msgs), h.current) else [];
      HeadedMore(p, Handed(p, init), more);
      if Accepted(p, h, m) { HandsMore(p, h, Deliver(p, msgs)); } else { assert Bare(h.out) + [] == Bare(h.out); }
    }
  }

  lemma {:induction false} HandsMore(p: Protocol, h: Handler, h': Handler)
    requires Hands(p, h, h')
    ensures Bare(h'.out) == Bare(h.out) + AllHeaded(p, Handing(p, h', h.current))
  {
  }

  // ---- What is held from others

  /** A message of this session for us, from that party, in the slot of its round. */
  predicate ForUs(p: Protocol, m: Message, n: nat, id: Id)
  {
    && m.ssid == p.ssid && m.protocol == p.name && (m.to == "" || m.to == p.self) && m.from == id && m.round == n && m.data.Some?
    && id in p.parties && n <= p.final
  }

  ghost predicate AllForUs(p: Protocol, h: Handler)
  {
    forall n, id :: id != p.self ==>
      && (Holds(h.messages, n, id) ==> ForUs(p, h.messages[n][id], n, id) && !h.messages[n][id].broadcast)
      && (Holds(h.broadcast, n, id) ==> ForUs(p, h.broadcast[n][id], n, id) && h.broadcast[n][id].broadcast)
  }

  lemma {:induction false} KeptForUs(p: Protocol, h: Handler, g: Handler)
    requires AllForUs(p, h) && OthersKept(p, h, g)
    ensures AllForUs(p, g)
  {
  }

  lemma {:induction false} StoreForUs(p: Protocol, h: Handler, m: Message)
    requires AllForUs(p, h) && ForUs(p, m, m.round, m.from)
    ensures AllForUs(p, Store(h, m))
  {
  }

  /** Nothing is held from others but messages of this session for us, each in its own slot. */
  lemma {:induction false} DeliverForUs(p: Protocol, msgs: seq<Message>)
    requires p.Valid()
    ensures AllForUs(p, Deliver(p, msgs))
    decreases |msgs|
  {
    if |msgs| == 0 {
      var h := Fresh(p, EmptyQueue(p.final), EmptyQueue(p.final));
      FinalizeKept(p, h);
      hide Finalize;
      KeptForUs(p, h, Finalize(p, h));
    } else {
      var init, m := msgs[..|msgs| - 1], msgs[|msgs| - 1];
      var h := Deliver(p, init);
      var h' := Accept(p, h, m);
      DeliverForUs(p, init);
      if Ignored(p, h, m) {
        assert h' == h;
      } else {
        hide Accept, AllForUs, OthersKept;
        AcceptKept(p, h, m);
        StoreForUs(p, h, m);
        if OthersKept(p, h, h') { KeptForUs(p, h, h'); } else if OthersKept(p, Store(h, m), h') { KeptForUs(p, Store(h, m), h'); }
      }
    }
  }

  // ---- What is taken is kept

  /** A message that is taken is held from then on, whatever comes after it. */
  lemma {:induction false} TakenIsKept(p: Protocol, msgs: seq<Message>, k: nat)
    requires p.Valid() && k < |msgs| && !Ignored(p, Deliver(p, msgs[..k]), msgs[k]) && msgs[k].round != 0
    ensures var q, m := QueueOf(Deliver(p, msgs), msgs[k]), msgs[k];
            Holds(q, m.round, m.from) && q[m.round][m.from] == m
    decreases |msgs|
  {
    var init, last := msgs[..|msgs| - 1], msgs[|msgs| - 1];
    var h := Deliver(p, init);
    AcceptKept(p, h, last);
    if k < |msgs| - 1 {
      assert init[..k] == msgs[..k];
      TakenIsKept(p, init, k);
    } else {
      assert init == msgs[..k];
      AcceptStores(p, h, last);
    }
  }

  lemma {:induction false} AcceptStores(p: Protocol, h: Handler, m: Message)
    requires p.Valid() && Live(p, h) && !Ignored(p, h, m) && m.round != 0
    ensures var q := QueueOf(Accept(p, h, m), m);
            Holds(q, m.round, m.from) && q[m.round][m.from] == m
  {
    var g := Store(h, m);
    assert Holds(QueueOf(g, m), m.round, m.from) && QueueOf(g, m)[m.round][m.from] == m;
    VerifyKeeps(p, g, m);
    if g.current == m.round && Verify(p, g, m).Some? {
      hide Finalize, Verify;
      FinalizeKept(p, Verify(p, g, m).value);
    }
  }
}
