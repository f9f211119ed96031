/** What every run of the handler keeps, whatever it is sent, and what two honest parties can conclude from it. */
module HandlerAgreement {
  import opened Options
  import opened Bits
  import opened HandlerSpec
  import opened HandlerOrder

  /** The handler left round `n` behind, for the next one or for the result. */
  predicate Past(h: Handler, n: nat)
  {
    n >= 1 && n in h.rounds && (n + 1 in h.rounds || h.result.Some?)
  }

  /** Every message the round waits for is there. */
  ghost predicate Complete(p: Protocol, h: Handler, n: nat)
  {
    && (p.isBroadcast(n) ==> AllBroadcasts(p, h, n) && n in h.hashes)
    && (p.expectsDirect(n) ==> AllDirects(p, h, n))
  }

  ghost predicate Echoed(h: Handler, n: nat)
  {
    n >= 1 && n - 1 in h.hashes ==>
      && (n in h.messages ==> forall id :: id in h.messages[n] ==> h.messages[n][id].echo == h.hashes[n - 1])
      && (n in h.broadcast ==> forall id :: id in h.broadcast[n] ==> h.broadcast[n][id].echo == h.hashes[n - 1])
  }

  ghost predicate Shape(p: Protocol, h: Handler)
  {
    && (forall n :: n in h.messages <==> 2 <= n <= p.final)
    && (forall n :: n in h.broadcast <==> 2 <= n <= p.final)
    && Labelled(h.messages, false) && Labelled(h.broadcast, true)
    && (forall n, id :: Holds(h.broadcast, n, id) ==> id in p.parties)
  }

  /** Rounds are entered one after the other. */
  ghost predicate Ladder(p: Protocol, h: Handler)
  {
    && (forall n :: n in h.rounds ==> n <= p.final)
    && (forall n :: n in h.rounds && n > 1 ==> n - 1 in h.rounds)
    && (h.err.None? && h.result.None? ==> h.current >= 1 && h.current in h.rounds)
    && (h.err.None? && h.result.None? ==> forall n :: n in h.rounds ==> n <= h.current)
  }

  /** A recorded hash is that of the broadcasts in the queue. */
  ghost predicate HashesExact(p: Protocol, h: Handler)
  {
    forall n :: n in h.hashes ==>
      n >= 1 && n in h.rounds && AllBroadcasts(p, h, n) && h.hashes[n] == p.hash(BroadcastList(p, h, n))
  }

  function EchoOf(h: Handler, n: nat): Bytes
  {
    if n >= 1 && n - 1 in h.hashes then h.hashes[n - 1] else []
  }

  /** Everything sent carries the hash of the previous round's broadcasts. */
  ghost predicate SentExact(p: Protocol, h: Handler)
  {
    forall o :: o in h.out ==> o.round >= 1 && o.round in h.rounds && o.from == p.self && o.echo == EchoOf(h, o.round)
  }

  ghost predicate PastExact(p: Protocol, h: Handler)
  {
    forall n :: n >= 2 && Past(h, n) ==> Complete(p, h, n) && Echoed(h, n)
  }

  ghost predicate Inv(p: Protocol, h: Handler)
  {
    p.Valid() && Shape(p, h) && Ladder(p, h) && HashesExact(p, h) && SentExact(p, h) && PastExact(p, h)
  }

  predicate IsRunning(h: Handler)
  {
    h.err.None? && h.result.None?
  }

  // ---- Steps

  ghost predicate SameTables(h: Handler, g: Handler)
  {
    && g.messages == h.messages && g.broadcast == h.broadcast && g.hashes == h.hashes
    && h.rounds.Keys <= g.rounds.Keys
  }

  lemma {:induction false} HashesFrame(p: Protocol, h: Handler, g: Handler)
    requires SameTables(h, g) && HashesExact(p, h)
    ensures HashesExact(p, g)
  {
    forall n | n in g.hashes
      ensures n >= 1 && n in g.rounds && AllBroadcasts(p, g, n) && g.hashes[n] == p.hash(BroadcastList(p, g, n))
    {
      assert AllBroadcasts(p, h, n);
      assert BroadcastList(p, g, n) == BroadcastList(p, h, n);
    }
  }

  lemma {:induction false} SentFrame(p: Protocol, h: Handler, g: Handler)
    requires SameTables(h, g) && g.out == h.out && SentExact(p, h)
    ensures SentExact(p, g)
  {
    forall o | o in g.out ensures o.round >= 1 && o.round in g.rounds && o.from == p.self && o.echo == EchoOf(g, o.round) {
      assert EchoOf(g, o.round) == EchoOf(h, o.round);
    }
  }

  lemma {:induction false} DoneFrame(p: Protocol, h: Handler, g: Handler, n: nat)
    requires SameTables(h, g) && Complete(p, h, n) && Echoed(h, n)
    ensures Complete(p, g, n) && Echoed(g, n)
  {
    assert AllBroadcasts(p, h, n) <==> AllBroadcasts(p, g, n);
    assert AllDirects(p, h, n) <==> AllDirects(p, g, n);
  }

  lemma {:induction false} TablesFrame(p: Protocol, h: Handler, g: Handler)
    requires SameTables(h, g) && g.out == h.out && Inv(p, h)
    requires forall n: nat :: n >= 2 && Past(g, n) ==> Past(h, n)
    requires Ladder(p, g)
    ensures Inv(p, g)
  {
    HashesFrame(p, h, g);
    SentFrame(p, h, g);
    forall n: nat | n >= 2 && Past(g, n) ensures Complete(p, g, n) && Echoed(g, n) {
      DoneFrame(p, h, g, n);
    }
  }

  /** No slot is ever overwritten. */
  ghost predicate SlotsKept(h: Handler, h': Handler)
  {
    && (forall n, id :: Holds(h.messages, n, id) ==> Holds(h'.messages, n, id) && h'.messages[n][id] == h.messages[n][id])
    && (forall n, id :: Holds(h.broadcast, n, id) ==> Holds(h'.broadcast, n, id) && h'.broadcast[n][id] == h.broadcast[n][id])
  }

  lemma {:induction false} StoreShape(p: Protocol, h: Handler, m: Message)
    requires Shape(p, h) && m.from in p.parties
    ensures Shape(p, Store(h, m))
  {
    StoreKeepsLabels(h, m);
    var g := Store(h, m);
    forall n, id | Holds(g.broadcast, n, id) ensures id in p.parties {
      if id != m.from { assert Holds(h.broadcast, n, id); }
    }
  }

  /** A complete set of broadcasts does not change. */
  lemma {:induction false} StoreHashes(p: Protocol, h: Handler, m: Message)
    requires HashesExact(p, h) && m.from in p.parties
    ensures HashesExact(p, Store(h, m))
  {
    var g := Store(h, m);
    forall n | n in g.hashes
      ensures n >= 1 && n in g.rounds && AllBroadcasts(p, g, n) && g.hashes[n] == p.hash(BroadcastList(p, g, n))
    {
      assert AllBroadcasts(p, h, n) && n in g.broadcast && g.broadcast[n] == h.broadcast[n];
      assert BroadcastList(p, g, n) == BroadcastList(p, h, n);
    }
  }

  lemma {:induction false} StorePast(p: Protocol, h: Handler, m: Message)
    requires Ladder(p, h) && PastExact(p, h) && IsRunning(h) && m.round >= h.current
    ensures PastExact(p, Store(h, m))
  {
    var g := Store(h, m);
    forall n: nat | n >= 2 && Past(g, n)
      ensures Complete(p, g, n) && Echoed(g, n)
    {
      assert Past(h, n) && n < h.current;
      assert n in h.messages ==> n in g.messages && g.messages[n] == h.messages[n];
      assert n in h.broadcast ==> n in g.broadcast && g.broadcast[n] == h.broadcast[n];
    }
  }

  lemma {:induction false} StoreInv(p: Protocol, h: Handler, m: Message)
    requires Inv(p, h) && IsRunning(h) && m.from in p.parties && m.round >= h.current
    ensures Inv(p, Store(h, m))
  {
    StoreShape(p, h, m);
    StoreHashes(p, h, m);
    StorePast(p, h, m);
    var g := Store(h, m);
    forall o | o in g.out ensures o.round >= 1 && o.round in g.rounds && o.from == p.self && o.echo == EchoOf(g, o.round) {
      assert EchoOf(g, o.round) == EchoOf(h, o.round);
    }
  }

  /** What is stored inside the rounds plays no part. */
  lemma {:induction false} RoundsInv(p: Protocol, h: Handler, rounds: map<nat, Round>)
    requires Inv(p, h) && rounds.Keys == h.rounds.Keys
    ensures Inv(p, h.(rounds := rounds))
  {
    TablesFrame(p, h, h.(rounds := rounds));
  }

  lemma {:induction false} VerifyKeeps(p: Protocol, h: Handler, m: Message)
    ensures Verify(p, h, m).Some? ==>
              var g := Verify(p, h, m).value;
              g.rounds.Keys == h.rounds.Keys && g == h.(rounds := g.rounds)
  {
  }

  lemma {:induction false} FailInv(p: Protocol, h: Handler, e: Error)
    requires Inv(p, h) && h.result.None?
    ensures Inv(p, Fail(h, e))
  {
    TablesFrame(p, h, Fail(h, e));
  }

  lemma {:induction false} HashedHashes(p: Protocol, h: Handler)
    requires Inv(p, h) && IsRunning(h)
    ensures HashesExact(p, Hashed(p, h))
  {
    var g := Hashed(p, h);
    forall n | n in g.hashes
      ensures n >= 1 && n in g.rounds && AllBroadcasts(p, g, n) && g.hashes[n] == p.hash(BroadcastList(p, g, n))
    {
      assert AllBroadcasts(p, h, n);
      assert BroadcastList(p, g, n) == BroadcastList(p, h, n);
    }
  }

  lemma {:induction false} HashedPast(p: Protocol, h: Handler)
    requires Inv(p, h) && IsRunning(h)
    ensures PastExact(p, Hashed(p, h))
  {
    var g := Hashed(p, h);
    forall n: nat | n >= 2 && Past(g, n) ensures Complete(p, g, n) && Echoed(g, n) {
      assert Past(h, n) && n < h.current;
      assert AllBroadcasts(p, h, n) <==> AllBroadcasts(p, g, n);
      assert AllDirects(p, h, n) <==> AllDirects(p, g, n);
      assert n - 1 in g.hashes <==> n - 1 in h.hashes;
    }
  }

  lemma {:induction false} HashedInv(p: Protocol, h: Handler)
    requires Inv(p, h) && IsRunning(h)
    ensures Inv(p, Hashed(p, h))
  {
    HashedHashes(p, h);
    HashedPast(p, h);
    var g := Hashed(p, h);
    forall o | o in g.out ensures o.round >= 1 && o.round in g.rounds && o.from == p.self && o.echo == EchoOf(g, o.round) {
      assert o.round in h.rounds && o.round <= h.current;
      assert EchoOf(g, o.round) == EchoOf(h, o.round);
    }
  }

  /** Sending a message with the right header changes nothing else. */
  lemma {:induction false} OutInv(p: Protocol, g: Handler, m: Message)
    requires Inv(p, g) && m.round >= 1 && m.round in g.rounds && m.from == p.self && m.echo == EchoOf(g, m.round)
    ensures Inv(p, g.(out := g.out + [m]))
  {
    hide Shape;
    var g1 := g.(out := g.out + [m]);
    HashesFrame(p, g, g1);
    SameShape(p, g, g1);
    forall n: nat | n >= 2 && Past(g1, n) ensures Complete(p, g1, n) && Echoed(g1, n) {
      assert Past(g, n);
      DoneFrame(p, g, g1, n);
    }
    forall x | x in g1.out ensures x.round >= 1 && x.round in g1.rounds && x.from == p.self && x.echo == EchoOf(g1, x.round) {
      assert x in g.out || x == m;
      assert EchoOf(g1, x.round) == EchoOf(g, x.round);
    }
  }

  lemma {:induction false} SameShape(p: Protocol, h: Handler, g: Handler)
    requires Shape(p, h) && g.messages == h.messages && g.broadcast == h.broadcast
    ensures Shape(p, g)
  {
  }

  lemma {:induction false} SendOneInv(p: Protocol, h: Handler, o: Content)
    requires Inv(p, h) && IsRunning(h) && o.round == h.current
    ensures var m := Outgoing(p, h, h.current, o);
            var g := if m.broadcast then Store(h, m) else h;
            Inv(p, g.(out := g.out + [m]))
  {
    var m := Outgoing(p, h, h.current, o);
    CurrentEntered(p, h);
    StoreInv(p, h, m);
    OutInv(p, if m.broadcast then Store(h, m) else h, m);
  }

  lemma {:induction false} CurrentEntered(p: Protocol, h: Handler)
    requires Inv(p, h) && IsRunning(h)
    ensures 1 <= h.current <= p.final && h.current in h.rounds && p.self in p.parties
  {
  }

  lemma {:induction false} SendInv(p: Protocol, h: Handler, outs: seq<Content>)
    requires Inv(p, h) && IsRunning(h) && forall o :: o in outs ==> o.round == h.current
    ensures Inv(p, Send(p, h, h.current, outs))
    decreases |outs|
  {
    if |outs| > 0 {
      var m := Outgoing(p, h, h.current, outs[0]);
      var g := if m.broadcast then Store(h, m) else h;
      SendOneInv(p, h, outs[0]);
      SendInv(p, g.(out := g.out + [m]), outs[1..]);
    }
  }

  /** Sending looks neither at the rounds nor at the round number of the handler. */
  lemma {:induction false} SendMoves(p: Protocol, h: Handler, number: nat, outs: seq<Content>, rounds: map<nat, Round>, current: nat)
    ensures Send(p, h, number, outs).(rounds := rounds, current := current)
         == Send(p, h.(rounds := rounds, current := current), number, outs)
    decreases |outs|
  {
    if |outs| > 0 {
      var m := Outgoing(p, h, number, outs[0]);
      var g := if m.broadcast then Store(h, m) else h;
      SendMoves(p, g.(out := g.out + [m]), number, outs[1..], rounds, current);
    }
  }

  ghost function Climbed(h: Handler, n: nat, r: Round): Handler
  {
    h.(rounds := h.rounds[n := r], current := n)
  }

  ghost predicate Ready(p: Protocol, h: Handler)
  {
    Inv(p, h) && IsRunning(h) && Received(p, h) && EchoOk(h)
    && (h.current >= 2 && p.isBroadcast(h.current) ==> h.current in h.hashes)
  }

  lemma {:induction false} ReadyDone(p: Protocol, h: Handler)
    requires Ready(p, h) && h.current >= 2
    ensures Complete(p, h, h.current) && Echoed(h, h.current)
  {
    hide HashesExact, SentExact, PastExact;
  }

  lemma {:induction false} LeavePast(p: Protocol, h: Handler, g: Handler)
    requires Ready(p, h) && SameTables(h, g)
    requires forall n: nat :: n >= 2 && Past(g, n) ==> n <= h.current
    ensures PastExact(p, g)
  {
    hide HashesExact, SentExact, Shape, Received, EchoOk, Complete, Echoed;
    forall n: nat | n >= 2 && Past(g, n) ensures Complete(p, g, n) && Echoed(g, n) {
      if n < h.current {
        LadderUp(p, h, n);
        LadderUp(p, h, n + 1);
        assert Past(h, n);
      } else {
        ReadyDone(p, h);
      }
      DoneFrame(p, h, g, n);
    }
  }

  lemma {:induction false} ClimbInv(p: Protocol, h: Handler, r: Round)
    requires Ready(p, h) && h.current < p.final
    ensures Inv(p, Climbed(h, h.current + 1, r))
  {
    var g := Climbed(h, h.current + 1, r);
    HashesFrame(p, h, g);
    SentFrame(p, h, g);
    LeavePast(p, h, g);
  }

  lemma {:induction false} NextRoundInv(p: Protocol, h: Handler, state: Bytes, outs: seq<Content>)
    requires Ready(p, h) && h.current < p.final && forall o :: o in outs ==> o.round == h.current + 1
    ensures Inv(p, NextRound(p, h, h.current + 1, state, outs)) && IsRunning(NextRound(p, h, h.current + 1, state, outs))
  {
    assert IsRunning(h);
    hide Inv, Ready, Send;
    var n := h.current + 1;
    var r := Round(n, state, map[], map[]);
    ClimbInv(p, h, r);
    SendInv(p, Climbed(h, n, r), outs);
    SendMoves(p, h, n, outs, h.rounds[n := r], n);
  }

  /** Leaving for the round numbered 0, with the result or with an abort. */
  lemma {:induction false} LastInv(p: Protocol, h: Handler, result: Option<Bytes>, err: Option<Error>)
    requires Ready(p, h) && (result.Some? || err.Some?)
    ensures Inv(p, h.(rounds := h.rounds[0 := LastRound()], current := 0, result := result, err := err))
  {
    var g := h.(rounds := h.rounds[0 := LastRound()], current := 0, result := result, err := err);
    HashesFrame(p, h, g);
    SentFrame(p, h, g);
    LeavePast(p, h, g);
  }

  lemma {:induction false} LadderUp(p: Protocol, h: Handler, n: nat)
    requires Ladder(p, h) && IsRunning(h) && 1 <= n <= h.current
    ensures n in h.rounds
    decreases h.current - n
  {
    if n < h.current { LadderUp(p, h, n + 1); }
  }

  lemma {:induction false} ReadyToGo(p: Protocol, h: Handler)
    requires Inv(p, h) && IsRunning(h) && Received(p, Hashed(p, h)) && EchoOk(Hashed(p, h))
    ensures Ready(p, Hashed(p, h))
  {
    HashedInv(p, h);
    assert h.current <= p.final;
  }

  lemma {:induction false} FinalizeInv(p: Protocol, h: Handler)
    requires Inv(p, h) && IsRunning(h)
    ensures h.current <= p.final && Inv(p, Finalize(p, h))
    decreases p.final - h.current, 1
  {
    var g := Hashed(p, h);
    HashedInv(p, h);
    assert h.current in h.rounds;
    if Received(p, g) {
      if EchoOk(g) {
        ReadyToGo(p, h);
        AdvanceInv(p, g);
      } else {
        FailInv(p, g, EchoMismatch);
      }
    }
  }

  lemma {:induction false} AdvanceInv(p: Protocol, h: Handler)
    requires Ready(p, h)
    ensures h.current in h.rounds && h.current <= p.final && Inv(p, Advance(p, h))
    decreases p.final - h.current, 0
  {
    hide Shape, HashesExact, SentExact, PastExact, Received, EchoOk;
    assert h.current in h.rounds;
    var s := Stepped(p, h);
    assert p.StepOk(h.current, s);
    match s
    case Fault => FailInv(p, h, FinalizeFault);
    case Same(outs) => SendInv(p, h, outs);
    case Next(state, outs) =>
      NextRoundInv(p, h, state, outs);
      AdvanceUnfold(p, h);
      EnterInv(p, Successor(p, h));
    case Output(result) => LastInv(p, h, Some(result), None);
    case Abort => LastInv(p, h, None, Some(RoundAborted));
  }

  lemma {:induction false} EnterInv(p: Protocol, h: Handler)
    requires Inv(p, h) && IsRunning(h)
    ensures h.current in h.rounds && h.current <= p.final && Inv(p, Enter(p, h))
    decreases p.final - h.current, 2
  {
    assert h.current in h.rounds;
    if QueueOk(p, h, h.rounds[h.current]) {
      RoundsInv(p, h, h.rounds[h.current := Drained(p, h)]);
      FinalizeInv(p, WithDrained(p, h));
    } else {
      FailInv(p, h, BadMessage);
    }
  }

  lemma {:induction false} AcceptInv(p: Protocol, h: Handler, m: Message)
    requires Inv(p, h) && Live(p, h)
    ensures Inv(p, Accept(p, h, m))
  {
    if !Ignored(p, h, m) && m.round != 0 {
      var g := Store(h, m);
      StoreInv(p, h, m);
      if g.current == m.round {
        VerifyKeeps(p, g, m);
        if Verify(p, g, m).Some? {
          RoundsInv(p, g, Verify(p, g, m).value.rounds);
          FinalizeInv(p, Verify(p, g, m).value);
        } else {
          FailInv(p, g, BadMessage);
        }
      }
    } else if !Ignored(p, h, m) {
      FailInv(p, h, PeerAborted);
    }
  }

  /** Every handler that can be reached, by any messages whatever, satisfies the invariant. */
  lemma {:induction false} DeliverInv(p: Protocol, msgs: seq<Message>)
    requires p.Valid()
    ensures Inv(p, Deliver(p, msgs))
    decreases |msgs|
  {
    if |msgs| == 0 {
      var h := Fresh(p, EmptyQueue(p.final), EmptyQueue(p.final));
      assert Inv(p, h);
      FinalizeInv(p, h);
    } else {
      DeliverInv(p, msgs[..|msgs| - 1]);
      AcceptInv(p, Deliver(p, msgs[..|msgs| - 1]), msgs[|msgs| - 1]);
    }
  }

  // ---- Where the queued messages come from

  /** Nothing but our own broadcasts is added, and nothing is replaced. */
  ghost predicate OthersKept(p: Protocol, h: Handler, g: Handler)
  {
    && g.messages == h.messages
    && (forall n, id :: Holds(h.broadcast, n, id) ==> Holds(g.broadcast, n, id) && g.broadcast[n][id] == h.broadcast[n][id])
    && (forall n, id :: id != p.self && Holds(g.broadcast, n, id) ==> Holds(h.broadcast, n, id))
  }

  lemma {:induction false} KeptTrans(p: Protocol, a: Handler, b: Handler, c: Handler)
    requires OthersKept(p, a, b) && OthersKept(p, b, c)
    ensures OthersKept(p, a, c)
  {
  }

  lemma {:induction false} OwnKept(p: Protocol, h: Handler, m: Message)
    requires m.from == p.self
    ensures var g := if m.broadcast then Store(h, m) else h;
            OthersKept(p, h, g.(out := g.out + [m]))
  {
  }

  lemma {:induction false} SendKept(p: Protocol, h: Handler, number: nat, outs: seq<Content>)
    ensures OthersKept(p, h, Send(p, h, number, outs))
    decreases |outs|
  {
    if |outs| > 0 {
      hide OthersKept;
      var m := Outgoing(p, h, number, outs[0]);
      var g := if m.broadcast then Store(h, m) else h;
      OwnKept(p, h, m);
      SendKept(p, g.(out := g.out + [m]), number, outs[1..]);
      KeptTrans(p, h, g.(out := g.out + [m]), Send(p, h, number, outs));
    }
  }

  lemma {:induction false} FinalizeKept(p: Protocol, h: Handler)
    requires p.Valid() && h.current in h.rounds && h.current <= p.final
    ensures OthersKept(p, h, Finalize(p, h))
    decreases p.final - h.current, 1
  {
    var g := Hashed(p, h);
    if Received(p, g) && EchoOk(g) { AdvanceKept(p, g); }
  }

  lemma {:induction false} AdvanceKept(p: Protocol, h: Handler)
    requires p.Valid() && h.current in h.rounds && h.current <= p.final
    ensures OthersKept(p, h, Advance(p, h))
    decreases p.final - h.current, 0
  {
    hide Send, Enter;
    assert p.StepOk(h.current, Stepped(p, h));
    match Stepped(p, h)
    case Same(outs) => SendKept(p, h, h.current, outs);
    case Next(state, outs) =>
      SendKept(p, h, h.current + 1, outs);
      AdvanceUnfold(p, h);
      var g := Successor(p, h);
      assert OthersKept(p, h, g);
      EnterKept(p, g);
    case _ =>
  }

  lemma {:induction false} EnterKept(p: Protocol, h: Handler)
    requires p.Valid() && h.current in h.rounds && h.current <= p.final
    ensures OthersKept(p, h, Enter(p, h))
    decreases p.final - h.current, 2
  {
    if QueueOk(p, h, h.rounds[h.current]) { FinalizeKept(p, WithDrained(p, h)); }
  }

  lemma {:induction false} SameKept(p: Protocol, h: Handler, g: Handler)
    requires g.messages == h.messages && g.broadcast == h.broadcast
    ensures OthersKept(p, h, g)
  {
  }

  lemma {:induction false} OthersSlots(p: Protocol, h: Handler, g: Handler, h': Handler)
    requires OthersKept(p, g, h') && SlotsKept(h, g)
    ensures SlotsKept(h, h')
  {
  }

  lemma {:induction false} StoreSlots(h: Handler, m: Message)
    ensures !Duplicate(h, m) ==> SlotsKept(h, Store(h, m))
    ensures SlotsKept(h, h)
  {
  }

  /** The queues of `Accept` gain the message and our own broadcasts, nothing else. */
  lemma {:induction false} AcceptKept(p: Protocol, h: Handler, m: Message)
    requires p.Valid() && Live(p, h)
    ensures Accept(p, h, m) == h || OthersKept(p, h, Accept(p, h, m)) || OthersKept(p, Store(h, m), Accept(p, h, m))
    ensures SlotsKept(h, Accept(p, h, m))
  {
    hide Finalize, Verify, OthersKept, SlotsKept, Duplicate;
    var h' := Accept(p, h, m);
    StoreSlots(h, m);
    if Ignored(p, h, m) || m.round == 0 {
      SameKept(p, h, h');
      OthersSlots(p, h, h, h');
    } else {
      var g := Store(h, m);
      VerifyKeeps(p, g, m);
      if g.current == m.round && Verify(p, g, m).Some? {
        var v := Verify(p, g, m).value;
        FinalizeKept(p, v);
        SameKept(p, g, v);
        KeptTrans(p, g, v, h');
      } else {
        SameKept(p, g, h');
      }
      OthersSlots(p, h, g, h');
    }
  }

  /** What is held from another party was delivered. */
  ghost predicate Heard(p: Protocol, h: Handler, msgs: seq<Message>)
  {
    && (forall n, id :: id != p.self && Holds(h.messages, n, id) ==> h.messages[n][id] in msgs)
    && (forall n, id :: id != p.self && Holds(h.broadcast, n, id) ==> h.broadcast[n][id] in msgs)
  }

  lemma {:induction false} KeptHeard(p: Protocol, h: Handler, g: Handler, msgs: seq<Message>)
    requires Heard(p, h, msgs) && OthersKept(p, h, g)
    ensures Heard(p, g, msgs)
  {
  }

  lemma {:induction false} StoreHeard(p: Protocol, h: Handler, a: seq<Message>, m: Message)
    requires Heard(p, h, a)
    ensures Heard(p, h, a + [m]) && Heard(p, Store(h, m), a + [m])
  {
  }

  lemma {:induction false} DeliverHeard(p: Protocol, msgs: seq<Message>)
    requires p.Valid()
    ensures Heard(p, Deliver(p, msgs), msgs)
    decreases |msgs|
  {
    hide Accept, Heard, OthersKept, Finalize;
    if |msgs| == 0 {
      var h := Fresh(p, EmptyQueue(p.final), EmptyQueue(p.final));
      FinalizeKept(p, h);
      FreshHeard(p, msgs);
      KeptHeard(p, h, Finalize(p, h), msgs);
    } else {
      var a, m := msgs[..|msgs| - 1], msgs[|msgs| - 1];
      var h := Deliver(p, a);
      DeliverHeard(p, a);
      AcceptKept(p, h, m);
      assert msgs == a + [m];
      StoreHeard(p, h, a, m);
      var h' := Accept(p, h, m);
      if h' != h { KeptHeard(p, if OthersKept(p, h, h') then h else Store(h, m), h', msgs); }
    }
  }

  lemma {:induction false} FreshHeard(p: Protocol, msgs: seq<Message>)
    ensures Heard(p, Fresh(p, EmptyQueue(p.final), EmptyQueue(p.final)), msgs)
  {
  }

  // ---- Two parties

  ghost predicate Injective(hash: seq<Message> -> Bytes)
  {
    forall a, b :: hash(a) == hash(b) ==> a == b
  }

  /** Two parties of one session. */
  ghost predicate SameSession(a: Protocol, b: Protocol)
  {
    && a.Valid() && b.Valid() && a.self != b.self && a.parties == b.parties && a.hash == b.hash
    && (forall n :: a.isBroadcast(n) == b.isBroadcast(n))
  }

  /** What `h` holds from `id` in round `n`, by broadcast or directly. */
  ghost predicate HeldFrom(h: Handler, n: nat, id: Id, m: Message)
  {
    || (Holds(h.broadcast, n, id) && m == h.broadcast[n][id])
    || (Holds(h.messages, n, id) && m == h.messages[n][id])
  }

  lemma {:induction false} EchoHeld(p: Protocol, h: Handler, k: nat, id: Id) returns (m: Message)
    requires Inv(p, h) && k >= 2 && p.isBroadcast(k) && Past(h, k + 1) && p.Other(id)
    requires p.isBroadcast(k + 1) || p.expectsDirect(k + 1)
    ensures k in h.hashes && HeldFrom(h, k + 1, id, m) && m.round == k + 1 && m.from == id && m.echo == h.hashes[k]
  {
    assert k in h.rounds && Past(h, k);
    assert Complete(p, h, k) && Complete(p, h, k + 1) && Echoed(h, k + 1);
    if p.isBroadcast(k + 1) {
      assert Holds(h.broadcast, k + 1, id);
      m := h.broadcast[k + 1][id];
    } else {
      assert Holds(h.messages, k + 1, id);
      m := h.messages[k + 1][id];
    }
  }

  lemma {:induction false} EchoSent(p: Protocol, h: Handler, k: nat, m: Message)
    requires Inv(p, h) && k >= 2 && p.isBroadcast(k) && m in h.out && m.round == k + 1
    ensures k in h.hashes && m.echo == h.hashes[k]
  {
    assert k + 1 in h.rounds && Past(h, k);
    assert Complete(p, h, k);
  }

  lemma {:induction false} HashesAgree(a: Protocol, b: Protocol, g: Handler, h: Handler, toA: seq<Message>, k: nat)
    requires SameSession(a, b) && Inv(a, g) && Inv(b, h) && Heard(a, g, toA)
    requires forall m :: m in toA && m.from == b.self ==> m in h.out
    requires k >= 2 && a.isBroadcast(k) && (a.isBroadcast(k + 1) || a.expectsDirect(k + 1)) && Past(g, k + 1)
    ensures k in g.hashes && k in h.hashes && g.hashes[k] == h.hashes[k]
  {
    var m := EchoHeld(a, g, k, b.self);
    EchoSent(b, h, k, m);
  }

  lemma {:induction false} SameHashes(a: Protocol, b: Protocol, g: Handler, h: Handler, k: nat)
    requires SameSession(a, b) && Injective(a.hash) && HashesExact(a, g) && HashesExact(b, h)
    requires k in g.hashes && k in h.hashes && g.hashes[k] == h.hashes[k]
    ensures AllBroadcasts(a, g, k) && AllBroadcasts(b, h, k)
    ensures forall id :: id in a.parties ==> g.broadcast[k][id] == h.broadcast[k][id]
  {
    var l, l' := BroadcastList(a, g, k), BroadcastList(b, h, k);
    assert a.hash(l) == a.hash(l');
    assert l == l';
    forall id | id in a.parties ensures g.broadcast[k][id] == h.broadcast[k][id] {
      var i :| 0 <= i < |a.parties| && a.parties[i] == id;
      assert l[i] == l'[i];
    }
  }

  /**
   When `a` has got past the round after a broadcast round, it and every party `b` whose messages reached it
   unforged hold the same broadcast of that round from every party, whatever else either of them was sent.
   */
  lemma {:induction false} BroadcastAgreement(a: Protocol, b: Protocol, toA: seq<Message>, toB: seq<Message>, k: nat)
    requires SameSession(a, b) && Injective(a.hash)
    requires forall m :: m in toA && m.from == b.self ==> m in Deliver(b, toB).out
    requires k >= 2 && a.isBroadcast(k) && (a.isBroadcast(k + 1) || a.expectsDirect(k + 1))
    requires Past(Deliver(a, toA), k + 1)
    ensures AllBroadcasts(a, Deliver(a, toA), k) && AllBroadcasts(b, Deliver(b, toB), k)
    ensures forall id :: id in a.parties ==> Deliver(a, toA).broadcast[k][id] == Deliver(b, toB).broadcast[k][id]
  {
    var g, h := Deliver(a, toA), Deliver(b, toB);
    DeliverInv(a, toA);
    DeliverInv(b, toB);
    DeliverHeard(a, toA);
    HashesAgree(a, b, g, h, toA, k);
    SameHashes(a, b, g, h, k);
  }
}
