/** The order in which a handler stores messages into its rounds and finalizes them. */
module HandlerLog {
  import opened Options
  import opened Bits
  import opened HandlerSpec
  import opened HandlerOrder
  import opened HandlerAgreement

  datatype Event =
    | StoredBroadcast(round: nat, from: Id)
    | StoredDirect(round: nat, from: Id)
    | Finalized(round: nat)

  /** Nothing is stored twice. */
  predicate Once(log: seq<Event>)
  {
    forall i, j :: 0 <= i < j < |log| && log[i] == log[j] ==> log[i].Finalized?
  }

  predicate RoundsAscend(log: seq<Event>)
  {
    forall i, j :: 0 <= i < j < |log| ==> log[i].round <= log[j].round
  }

  /** In a broadcast round a direct message is stored only after its sender's broadcast. */
  predicate BroadcastFirst(p: Protocol, log: seq<Event>)
  {
    forall j :: 0 <= j < |log| && log[j].StoredDirect? && p.isBroadcast(log[j].round) ==>
      StoredBroadcast(log[j].round, log[j].from) in log[..j]
  }

  ghost predicate AllStored(p: Protocol, log: seq<Event>, n: nat)
  {
    && (p.isBroadcast(n) ==> forall id :: p.Other(id) ==> StoredBroadcast(n, id) in log)
    && (p.expectsDirect(n) ==> forall id :: p.Other(id) ==> StoredDirect(n, id) in log)
  }

  /** When a round is finalized, every message it waits for has been stored into it. */
  ghost predicate WholeRounds(p: Protocol, log: seq<Event>)
  {
    forall k :: 0 <= k < |log| && log[k].Finalized? && log[k].round >= 2 ==> AllStored(p, log[..k], log[k].round)
  }

  ghost predicate Orderly(p: Protocol, log: seq<Event>)
  {
    Once(log) && RoundsAscend(log) && BroadcastFirst(p, log) && WholeRounds(p, log)
  }

  predicate UpTo(log: seq<Event>, n: nat)
  {
    forall e :: e in log ==> e.round <= n
  }

  /** The event may come next. */
  ghost predicate Due(p: Protocol, log: seq<Event>, e: Event)
  {
    && UpTo(log, e.round)
    && (e in log ==> e.Finalized?)
    && (e.StoredDirect? && p.isBroadcast(e.round) ==> StoredBroadcast(e.round, e.from) in log)
    && (e.Finalized? && e.round >= 2 ==> AllStored(p, log, e.round))
  }

  lemma {:induction false} AppendOnce(log: seq<Event>, e: Event)
    requires Once(log) && (e in log ==> e.Finalized?)
    ensures Once(log + [e])
  {
  }

  lemma {:induction false} AppendFirst(p: Protocol, log: seq<Event>, e: Event)
    requires BroadcastFirst(p, log) && Due(p, log, e)
    ensures BroadcastFirst(p, log + [e])
  {
    var l := log + [e];
    forall j | 0 <= j < |l| && l[j].StoredDirect? && p.isBroadcast(l[j].round)
      ensures StoredBroadcast(l[j].round, l[j].from) in l[..j]
    {
      if j < |log| { assert l[..j] == log[..j] && l[j] == log[j]; } else { assert l[..j] == log; }
    }
  }

  lemma {:induction false} AppendWhole(p: Protocol, log: seq<Event>, e: Event)
    requires WholeRounds(p, log) && Due(p, log, e)
    ensures WholeRounds(p, log + [e])
  {
    var l := log + [e];
    forall k | 0 <= k < |l| && l[k].Finalized? && l[k].round >= 2 ensures AllStored(p, l[..k], l[k].round) {
      if k < |log| { assert l[..k] == log[..k] && l[k] == log[k]; } else { assert l[..k] == log; }
    }
  }

  lemma {:induction false} Append(p: Protocol, log: seq<Event>, e: Event)
    requires Orderly(p, log) && Due(p, log, e)
    ensures Orderly(p, log + [e])
    ensures UpTo(log + [e], e.round)
  {
    AppendOnce(log, e);
    AppendFirst(p, log, e);
    AppendWhole(p, log, e);
  }

  /** Only queued messages are stored. */
  ghost predicate Backed(p: Protocol, h: Handler, log: seq<Event>)
  {
    && (forall n, id :: StoredBroadcast(n, id) in log ==> Holds(h.broadcast, n, id) && p.Other(id))
    && (forall n, id :: StoredDirect(n, id) in log ==> Holds(h.messages, n, id))
  }

  /** Everything queued for the current round that can be stored has been. */
  ghost predicate CaughtUp(p: Protocol, h: Handler, log: seq<Event>)
  {
    && (forall id :: QueuedBroadcast(p, h, h.current, id) ==> StoredBroadcast(h.current, id) in log)
    && (forall id :: QueuedDirect(p, h, h.current, id) ==> StoredDirect(h.current, id) in log)
  }

  ghost predicate Tables(p: Protocol, h: Handler)
  {
    p.Valid() && Shape(p, h) && forall n, id :: Holds(h.messages, n, id) ==> p.Other(id)
  }

  lemma {:induction false} StoreTables(p: Protocol, h: Handler, m: Message)
    requires Tables(p, h) && m.from in p.parties && (!m.broadcast ==> p.Other(m.from))
    ensures Tables(p, Store(h, m))
  {
    StoreShape(p, h, m);
    var g := Store(h, m);
    forall n, id | Holds(g.messages, n, id) ensures p.Other(id) {
      if g.messages[n][id] != m { assert Holds(h.messages, n, id); }
    }
  }

  /** A complete round has everything stored. */
  lemma {:induction false} ReceivedStored(p: Protocol, h: Handler, log: seq<Event>)
    requires Tables(p, h) && CaughtUp(p, h, log) && Received(p, h) && 2 <= h.current <= p.final
    ensures AllStored(p, log, h.current)
  {
    var n := h.current;
    forall id | p.isBroadcast(n) && p.Other(id) ensures StoredBroadcast(n, id) in log {
      assert QueuedBroadcast(p, h, n, id);
    }
    forall id | p.expectsDirect(n) && p.Other(id) ensures StoredDirect(n, id) in log {
      assert QueuedDirect(p, h, n, id);
    }
  }

  // ---- Handling the queue of a new round one message at a time

  /** The round with the queued messages of the senders in `done` stored. */
  ghost function Partly(p: Protocol, h: Handler, n: nat, r: Round, done: set<Id>): (r': Round)
  {
    r.(broadcasts := map id | id in done && QueuedBroadcast(p, h, n, id) :: Data(h.broadcast[n][id]),
       directs := map id | id in done && QueuedDirect(p, h, n, id) :: Data(h.messages[n][id]))
  }

  ghost function WithPartly(p: Protocol, h: Handler, done: set<Id>): (h': Handler)
    requires h.current in h.rounds
  {
    h.(rounds := h.rounds[h.current := Partly(p, h, h.current, h.rounds[h.current], done)])
  }

  ghost predicate SenderOk(p: Protocol, h: Handler, r: Round, id: Id)
  {
    && (QueuedBroadcast(p, h, r.number, id) ==> BroadcastOk(p, r, h.broadcast[r.number][id]))
    && (QueuedDirect(p, h, r.number, id) ==> DirectOk(p, r, BroadcastData(p, h, r.number, id), h.messages[r.number][id]))
  }

  lemma {:induction false} PartlyNothing(p: Protocol, h: Handler)
    requires h.current in h.rounds && h.rounds[h.current] == Round(h.current, h.rounds[h.current].state, map[], map[])
    ensures WithPartly(p, h, {}) == h
  {
    var r := h.rounds[h.current];
    assert Partly(p, h, h.current, r, {}).broadcasts == map[];
    assert Partly(p, h, h.current, r, {}).directs == map[];
    assert h.rounds[h.current := r] == h.rounds;
  }

  lemma {:induction false} PartlySkips(p: Protocol, h: Handler, done: set<Id>, id: Id)
    requires h.current in h.rounds && !QueuedBroadcast(p, h, h.current, id) && !QueuedDirect(p, h, h.current, id)
    ensures WithPartly(p, h, done + {id}) == WithPartly(p, h, done)
  {
    var n, r := h.current, h.rounds[h.current];
    assert Partly(p, h, n, r, done + {id}).broadcasts == Partly(p, h, n, r, done).broadcasts;
    assert Partly(p, h, n, r, done + {id}).directs == Partly(p, h, n, r, done).directs;
  }

  ghost predicate Entered(p: Protocol, h: Handler)
  {
    && Tables(p, h) && h.current in h.rounds && 2 <= h.current <= p.final
    && h.rounds[h.current].number == h.current
  }

  lemma {:induction false} PartlyAll(p: Protocol, h: Handler, done: set<Id>)
    requires Entered(p, h)
    requires forall id :: QueuedBroadcast(p, h, h.current, id) || QueuedDirect(p, h, h.current, id) ==> id in done
    ensures WithPartly(p, h, done) == WithDrained(p, h)
    ensures (forall id :: id in done ==> SenderOk(p, h, h.rounds[h.current], id)) ==> QueueOk(p, h, h.rounds[h.current])
  {
    var n, r := h.current, h.rounds[h.current];
    assert Partly(p, h, n, r, done).broadcasts == StoredBroadcasts(p, h, n);
    assert Partly(p, h, n, r, done).directs == StoredDirects(p, h, n);
    if forall id :: id in done ==> SenderOk(p, h, r, id) {
      forall id | QueuedBroadcast(p, h, n, id) || QueuedDirect(p, h, n, id) ensures SenderOk(p, h, r, id) {
      }
      assert forall id :: QueuedBroadcast(p, h, n, id) ==> SenderOk(p, h, r, id);
      assert forall id :: QueuedDirect(p, h, n, id) ==> SenderOk(p, h, r, id);
    }
  }

  /** The part of `VerifyBroadcast` before the waiting direct message. */
  ghost function WithBroadcast(p: Protocol, h: Handler, done: set<Id>, id: Id): (h': Handler)
    requires h.current in h.rounds && Holds(h.broadcast, h.current, id)
  {
    var g := WithPartly(p, h, done);
    var r := g.rounds[h.current];
    g.(rounds := g.rounds[h.current := r.(broadcasts := r.broadcasts[id := Data(h.broadcast[h.current][id])])])
  }

  lemma {:induction false} PartlyRound(p: Protocol, h: Handler, n: nat, r: Round, done: set<Id>, id: Id)
    requires QueuedBroadcast(p, h, n, id)
    ensures var x, y := Partly(p, h, n, r, done), Partly(p, h, n, r, done + {id});
            && y.broadcasts == x.broadcasts[id := Data(h.broadcast[n][id])]
            && y.directs == if QueuedDirect(p, h, n, id) then x.directs[id := Data(h.messages[n][id])] else x.directs
  {
  }

  lemma {:induction false} PartlyBroadcastStored(p: Protocol, h: Handler, done: set<Id>, id: Id)
    requires Entered(p, h) && p.isBroadcast(h.current) && QueuedBroadcast(p, h, h.current, id) && id !in done
    ensures QueuedDirect(p, h, h.current, id) <==> DirectDue(p, h, h.current, id)
    ensures !QueuedDirect(p, h, h.current, id) ==> WithBroadcast(p, h, done, id) == WithPartly(p, h, done + {id})
    ensures QueuedDirect(p, h, h.current, id) ==>
              var g := WithBroadcast(p, h, done, id);
              var r := g.rounds[h.current];
              g.(rounds := g.rounds[h.current := r.(directs := r.directs[id := Data(h.messages[h.current][id])])])
                == WithPartly(p, h, done + {id})
  {
    var n, r := h.current, h.rounds[h.current];
    PartlyRound(p, h, n, r, done, id);
    var x, y := Partly(p, h, n, r, done), Partly(p, h, n, r, done + {id});
    assert WithBroadcast(p, h, done, id).rounds == h.rounds[n := x.(broadcasts := y.broadcasts)];
  }

  lemma {:induction false} PartlyBroadcast(p: Protocol, h: Handler, done: set<Id>, id: Id)
    requires Entered(p, h) && p.isBroadcast(h.current) && QueuedBroadcast(p, h, h.current, id) && id !in done
    ensures var v := VerifyBroadcast(p, WithPartly(p, h, done), h.broadcast[h.current][id]);
            && (v.Some? <==> SenderOk(p, h, h.rounds[h.current], id))
            && (v.Some? ==> v.value == WithPartly(p, h, done + {id}))
  {
    PartlyBroadcastStored(p, h, done, id);
    var n, r := h.current, h.rounds[h.current];
    var m, g := h.broadcast[n][id], WithPartly(p, h, done);
    assert Holds(h.broadcast, n, id) && m.round == n && m.from == id;
    var g1 := WithBroadcast(p, h, done, id);
    assert BroadcastOk(p, g.rounds[n], m) <==> BroadcastOk(p, r, m);
    if BroadcastOk(p, r, m) && QueuedDirect(p, h, n, id) {
      var d := h.messages[n][id];
      assert Holds(h.messages, n, id) && d.round == n && d.from == id;
      assert VerifyBroadcast(p, g, m) == VerifyDirect(p, g1, d);
      assert DirectOk(p, g1.rounds[n], Some(Data(m)), d) <==> DirectOk(p, r, Some(Data(m)), d);
    }
  }

  lemma {:induction false} PartlyDirect(p: Protocol, h: Handler, done: set<Id>, id: Id)
    requires Entered(p, h) && !p.isBroadcast(h.current) && Holds(h.messages, h.current, id) && id !in done
    ensures var v := VerifyDirect(p, WithPartly(p, h, done), h.messages[h.current][id]);
            && (v.Some? <==> SenderOk(p, h, h.rounds[h.current], id))
            && (v.Some? ==> v.value == WithPartly(p, h, done + {id}))
  {
    var n, r := h.current, h.rounds[h.current];
    var m, g := h.messages[n][id], WithPartly(p, h, done);
    assert m.round == n && m.from == id;
    var x, y := Partly(p, h, n, r, done), Partly(p, h, n, r, done + {id});
    assert x.broadcasts == map[] && y.broadcasts == map[];
    assert y.directs == x.directs[id := Data(m)];
    assert DirectOk(p, g.rounds[n], None, m) <==> DirectOk(p, r, None, m);
  }

  // ---- The events of one verified message

  /** A direct message of a broadcast round waits for its sender's broadcast. */
  predicate CanStore(p: Protocol, h: Handler, m: Message)
  {
    m.round in h.rounds && (p.isBroadcast(h.rounds[m.round].number) ==> Holds(h.broadcast, m.round, m.from))
  }

  function DirectEvents(p: Protocol, h: Handler, m: Message): (es: seq<Event>)
  {
    if CanStore(p, h, m) && VerifyDirect(p, h, m).Some? then [StoredDirect(m.round, m.from)] else []
  }

  function BroadcastEvents(p: Protocol, h: Handler, m: Message): (es: seq<Event>)
  {
    if m.round !in h.rounds then []
    else
      var r := h.rounds[m.round];
      if !p.isBroadcast(r.number) || !BroadcastOk(p, r, m) then []
      else
        [StoredBroadcast(m.round, m.from)] +
        var h1 := h.(rounds := h.rounds[m.round := r.(broadcasts := r.broadcasts[m.from := Data(m)])]);
        if !p.expectsDirect(r.number) || !Holds(h.messages, m.round, m.from) then []
        else DirectEvents(p, h1, h.messages[m.round][m.from])
  }

  /** The round the handler works on is the highest one it has entered. */
  ghost predicate OnTop(p: Protocol, h: Handler)
  {
    && IsRunning(h) && Tables(p, h)
    && h.current in h.rounds && 1 <= h.current <= p.final && h.rounds[h.current].number == h.current
    && (forall n :: n in h.rounds ==> n <= h.current)
  }

  ghost predicate Recorded(p: Protocol, h: Handler, log: seq<Event>)
  {
    Orderly(p, log) && Backed(p, h, log) && UpTo(log, h.current)
  }

  lemma {:induction false} DirectRecorded(p: Protocol, h: Handler, log: seq<Event>, m: Message)
    requires OnTop(p, h) && Recorded(p, h, log) && m.round == h.current && Holds(h.messages, m.round, m.from)
    requires StoredDirect(m.round, m.from) !in log
    requires p.isBroadcast(m.round) && Holds(h.broadcast, m.round, m.from) ==> StoredBroadcast(m.round, m.from) in log
    ensures Recorded(p, h, log + DirectEvents(p, h, m))
  {
    if CanStore(p, h, m) && VerifyDirect(p, h, m).Some? {
      Append(p, log, StoredDirect(m.round, m.from));
    } else {
      assert log + [] == log;
    }
  }

  lemma {:induction false} BroadcastRecorded(p: Protocol, h: Handler, log: seq<Event>, m: Message)
    requires OnTop(p, h) && Recorded(p, h, log) && m.round == h.current && p.Other(m.from) && Holds(h.broadcast, m.round, m.from)
    requires StoredBroadcast(m.round, m.from) !in log && StoredDirect(m.round, m.from) !in log
    ensures Recorded(p, h, log + BroadcastEvents(p, h, m))
  {
    var n, r := m.round, h.rounds[m.round];
    if p.isBroadcast(n) && BroadcastOk(p, r, m) {
      Append(p, log, StoredBroadcast(n, m.from));
      var l := log + [StoredBroadcast(n, m.from)];
      assert Recorded(p, h, l);
      var h1 := h.(rounds := h.rounds[n := r.(broadcasts := r.broadcasts[m.from := Data(m)])]);
      if p.expectsDirect(n) && Holds(h.messages, n, m.from) {
        assert Tables(p, h1);
        DirectRecorded(p, h1, l, h.messages[n][m.from]);
        assert log + BroadcastEvents(p, h, m) == l + DirectEvents(p, h1, h.messages[n][m.from]);
      } else {
        assert log + BroadcastEvents(p, h, m) == l;
      }
    } else {
      assert log + BroadcastEvents(p, h, m) == log;
    }
  }

  // ---- Handling the queue

  lemma {:induction false} Moved(rest: set<Id>, done: set<Id>, id: Id)
    requires rest !! done && id in rest
    ensures rest - {id} !! done + {id} && (rest - {id}) + (done + {id}) == rest + done
    ensures |rest - {id}| < |rest|
  {
  }

  /** The events of the current round are those of the senders handled so far. */
  ghost predicate Handled(p: Protocol, h: Handler, log: seq<Event>, done: set<Id>)
  {
    && (forall id :: StoredBroadcast(h.current, id) in log <==> id in done && QueuedBroadcast(p, h, h.current, id))
    && (forall id :: StoredDirect(h.current, id) in log <==> id in done && QueuedDirect(p, h, h.current, id))
  }

  /** The queued messages of the senders in `done` have been stored, and all of them verified. */
  ghost predicate Midway(p: Protocol, h: Handler, log: seq<Event>, done: set<Id>)
  {
    && OnTop(p, h) && Recorded(p, h, log) && Entered(p, h) && Handled(p, h, log, done)
    && (forall id :: id in done ==> SenderOk(p, h, h.rounds[h.current], id))
  }

  ghost predicate InStep(p: Protocol, h: Handler, log: seq<Event>)
  {
    OnTop(p, h) && Recorded(p, h, log) && CaughtUp(p, h, log)
  }

  lemma {:induction false} PartlyTop(p: Protocol, h: Handler, log: seq<Event>, done: set<Id>)
    requires OnTop(p, h) && Recorded(p, h, log)
    ensures OnTop(p, WithPartly(p, h, done)) && Recorded(p, WithPartly(p, h, done), log)
  {
    var g := WithPartly(p, h, done);
    assert g.messages == h.messages && g.broadcast == h.broadcast;
    assert Tables(p, g);
  }

  lemma {:induction false} EventsOfBroadcast(p: Protocol, h: Handler, done: set<Id>, id: Id)
    requires Entered(p, h) && p.isBroadcast(h.current) && QueuedBroadcast(p, h, h.current, id) && id !in done
    requires SenderOk(p, h, h.rounds[h.current], id)
    ensures BroadcastEvents(p, WithPartly(p, h, done), h.broadcast[h.current][id]) ==
            if QueuedDirect(p, h, h.current, id) then [StoredBroadcast(h.current, id), StoredDirect(h.current, id)]
            else [StoredBroadcast(h.current, id)]
  {
    hide Tables;
    PartlyBroadcast(p, h, done, id);
    PartlyBroadcastStored(p, h, done, id);
    var n := h.current;
    var m, g := h.broadcast[n][id], WithPartly(p, h, done);
    assert Holds(h.broadcast, n, id);
    SlotsMatch(p, h, n, id);
    var g1 := WithBroadcast(p, h, done, id);
    if QueuedDirect(p, h, n, id) {
      assert VerifyBroadcast(p, g, m) == VerifyDirect(p, g1, h.messages[n][id]);
      assert DirectEvents(p, g1, h.messages[n][id]) == [StoredDirect(n, id)];
    }
  }

  lemma {:induction false} SlotsMatch(p: Protocol, h: Handler, n: nat, id: Id)
    requires Tables(p, h)
    ensures Holds(h.broadcast, n, id) ==> h.broadcast[n][id].round == n && h.broadcast[n][id].from == id
    ensures Holds(h.messages, n, id) ==> h.messages[n][id].round == n && h.messages[n][id].from == id
  {
  }

  lemma {:induction false} MidwayBroadcastEvents(p: Protocol, h: Handler, log: seq<Event>, done: set<Id>, id: Id)
    requires Midway(p, h, log, done) && p.isBroadcast(h.current) && QueuedBroadcast(p, h, h.current, id) && id !in done
    ensures var m := h.broadcast[h.current][id];
            var es := BroadcastEvents(p, WithPartly(p, h, done), m);
            && Recorded(p, h, log + es)
            && (SenderOk(p, h, h.rounds[h.current], id) ==>
                  es == if QueuedDirect(p, h, h.current, id) then [StoredBroadcast(h.current, id), StoredDirect(h.current, id)]
                        else [StoredBroadcast(h.current, id)])
  {
    hide Orderly, Tables, BroadcastEvents, SenderOk, Partly;
    PartlyTop(p, h, log, done);
    var m, g := h.broadcast[h.current][id], WithPartly(p, h, done);
    assert Holds(h.broadcast, h.current, id);
    SlotsMatch(p, h, h.current, id);
    BroadcastRecorded(p, g, log, m);
    if SenderOk(p, h, h.rounds[h.current], id) { EventsOfBroadcast(p, h, done, id); }
  }

  lemma {:induction false} HandledMore(p: Protocol, h: Handler, log: seq<Event>, done: set<Id>, id: Id)
    requires Handled(p, h, log, done) && QueuedBroadcast(p, h, h.current, id)
    ensures Handled(p, h, log + (if QueuedDirect(p, h, h.current, id)
                                 then [StoredBroadcast(h.current, id), StoredDirect(h.current, id)]
                                 else [StoredBroadcast(h.current, id)]), done + {id})
  {
  }

  lemma {:induction false} MidwayBroadcast(p: Protocol, h: Handler, log: seq<Event>, done: set<Id>, id: Id)
    requires Midway(p, h, log, done) && p.isBroadcast(h.current) && QueuedBroadcast(p, h, h.current, id) && id !in done
    ensures var g := WithPartly(p, h, done);
            var m := h.broadcast[h.current][id];
            var v := VerifyBroadcast(p, g, m);
            && (v.Some? <==> SenderOk(p, h, h.rounds[h.current], id))
            && (v.Some? ==> v.value == WithPartly(p, h, done + {id}))
            && (v.Some? ==> Midway(p, h, log + BroadcastEvents(p, g, m), done + {id}))
            && Orderly(p, log + BroadcastEvents(p, g, m))
  {
    PartlyBroadcast(p, h, done, id);
    MidwayBroadcastEvents(p, h, log, done, id);
    HandledMore(p, h, log, done, id);
  }

  lemma {:induction false} MidwaySelf(p: Protocol, h: Handler, log: seq<Event>, done: set<Id>)
    requires Midway(p, h, log, done) && p.isBroadcast(h.current)
    ensures Midway(p, h, log, done + {p.self}) && WithPartly(p, h, done + {p.self}) == WithPartly(p, h, done)
  {
    PartlySkips(p, h, done, p.self);
  }

  lemma {:induction false} HandledDirect(p: Protocol, h: Handler, log: seq<Event>, done: set<Id>, id: Id)
    requires Handled(p, h, log, done) && QueuedDirect(p, h, h.current, id) && !QueuedBroadcast(p, h, h.current, id)
    ensures Handled(p, h, log + [StoredDirect(h.current, id)], done + {id})
  {
  }

  lemma {:induction false} EventsOfDirect(p: Protocol, h: Handler, done: set<Id>, id: Id)
    requires Entered(p, h) && !p.isBroadcast(h.current) && Holds(h.messages, h.current, id)
    ensures var g := WithPartly(p, h, done);
            var m := h.messages[h.current][id];
            VerifyDirect(p, g, m).Some? ==> DirectEvents(p, g, m) == [StoredDirect(h.current, id)]
    ensures QueuedDirect(p, h, h.current, id) && !QueuedBroadcast(p, h, h.current, id)
  {
    hide VerifyDirect;
    SlotsMatch(p, h, h.current, id);
  }

  lemma {:induction false} MidwayDirect(p: Protocol, h: Handler, log: seq<Event>, done: set<Id>, id: Id)
    requires Midway(p, h, log, done) && !p.isBroadcast(h.current) && Holds(h.messages, h.current, id) && id !in done
    ensures var g := WithPartly(p, h, done);
            var m := h.messages[h.current][id];
            var v := VerifyDirect(p, g, m);
            && (v.Some? <==> SenderOk(p, h, h.rounds[h.current], id))
            && (v.Some? ==> v.value == WithPartly(p, h, done + {id}))
            && (v.Some? ==> Midway(p, h, log + DirectEvents(p, g, m), done + {id}))
            && Orderly(p, log + DirectEvents(p, g, m))
  {
    hide Orderly, Tables, SenderOk, Partly, VerifyDirect, DirectEvents;
    PartlyTop(p, h, log, done);
    PartlyDirect(p, h, done, id);
    EventsOfDirect(p, h, done, id);
    HandledDirect(p, h, log, done, id);
    SlotsMatch(p, h, h.current, id);
    DirectRecorded(p, WithPartly(p, h, done), log, h.messages[h.current][id]);
  }

  lemma {:induction false} MidwayDone(p: Protocol, h: Handler, log: seq<Event>, done: set<Id>)
    requires Midway(p, h, log, done)
    requires forall id :: QueuedBroadcast(p, h, h.current, id) || QueuedDirect(p, h, h.current, id) ==> id in done
    ensures QueueOk(p, h, h.rounds[h.current]) && WithPartly(p, h, done) == WithDrained(p, h)
    ensures InStep(p, WithDrained(p, h), log)
  {
    PartlyAll(p, h, done);
    PartlyTop(p, h, log, done);
    var g := WithDrained(p, h);
    assert forall id :: QueuedBroadcast(p, g, h.current, id) <==> QueuedBroadcast(p, h, h.current, id);
    assert forall id :: QueuedDirect(p, g, h.current, id) <==> QueuedDirect(p, h, h.current, id);
  }

  lemma {:induction false} BroadcastsDone(p: Protocol, h: Handler, log: seq<Event>)
    requires Entered(p, h) && p.isBroadcast(h.current) && Midway(p, h, log, h.broadcast[h.current].Keys)
    ensures QueueOk(p, h, h.rounds[h.current]) && WithPartly(p, h, h.broadcast[h.current].Keys) == WithDrained(p, h)
    ensures InStep(p, WithDrained(p, h), log)
  {
    MidwayDone(p, h, log, h.broadcast[h.current].Keys);
  }

  lemma {:induction false} DirectsDone(p: Protocol, h: Handler, log: seq<Event>)
    requires Entered(p, h) && !p.isBroadcast(h.current) && Midway(p, h, log, h.messages[h.current].Keys)
    ensures QueueOk(p, h, h.rounds[h.current]) && WithPartly(p, h, h.messages[h.current].Keys) == WithDrained(p, h)
    ensures InStep(p, WithDrained(p, h), log)
  {
    MidwayDone(p, h, log, h.messages[h.current].Keys);
  }

  // ---- The other steps

  lemma {:induction false} HashedRunning(p: Protocol, h: Handler, log: seq<Event>)
    requires InStep(p, h, log)
    ensures InStep(p, Hashed(p, h), log)
  {
    var g := Hashed(p, h);
    assert g.messages == h.messages && g.broadcast == h.broadcast && g.rounds == h.rounds;
    assert forall id :: QueuedBroadcast(p, g, h.current, id) <==> QueuedBroadcast(p, h, h.current, id);
    assert forall id :: QueuedDirect(p, g, h.current, id) <==> QueuedDirect(p, h, h.current, id);
  }

  lemma {:induction false} FinalizedRunning(p: Protocol, h: Handler, log: seq<Event>)
    requires InStep(p, h, log) && Received(p, h)
    ensures InStep(p, h, log + [Finalized(h.current)])
  {
    if h.current >= 2 { ReceivedStored(p, h, log); }
    Append(p, log, Finalized(h.current));
  }

  lemma {:induction false} SendTables(p: Protocol, h: Handler, number: nat, outs: seq<Content>)
    requires Tables(p, h)
    ensures Tables(p, Send(p, h, number, outs))
    decreases |outs|
  {
    if |outs| > 0 {
      var m := Outgoing(p, h, number, outs[0]);
      var g := if m.broadcast then Store(h, m) else h;
      StoreTables(p, h, m.(broadcast := true));
      SendTables(p, g.(out := g.out + [m]), number, outs[1..]);
    }
  }

  lemma {:induction false} SendRunning(p: Protocol, h: Handler, log: seq<Event>, outs: seq<Content>)
    requires InStep(p, h, log)
    ensures InStep(p, Send(p, h, h.current, outs), log)
  {
    SendTables(p, h, h.current, outs);
    SendKept(p, h, h.current, outs);
    var g := Send(p, h, h.current, outs);
    assert forall id :: QueuedBroadcast(p, g, h.current, id) ==> QueuedBroadcast(p, h, h.current, id);
    assert forall id :: QueuedDirect(p, g, h.current, id) ==> QueuedDirect(p, h, h.current, id);
  }

  lemma {:induction false} NextTop(p: Protocol, h: Handler, state: Bytes, outs: seq<Content>)
    requires OnTop(p, h) && h.current < p.final
    ensures var g := NextRound(p, h, h.current + 1, state, outs);
            OnTop(p, g) && Entered(p, g) && WithPartly(p, g, {}) == g
  {
    hide Shape, Send;
    SendTables(p, h, h.current + 1, outs);
    var g := NextRound(p, h, h.current + 1, state, outs);
    SendNumbers(p, h, h.current + 1, outs);
    SameTablesOk(p, Send(p, h, h.current + 1, outs), g);
    PartlyNothing(p, g);
  }

  lemma {:induction false} SendNumbers(p: Protocol, h: Handler, number: nat, outs: seq<Content>)
    ensures var g := Send(p, h, number, outs);
            g == h.(broadcast := g.broadcast, out := g.out)
  {
  }

  lemma {:induction false} SameTablesOk(p: Protocol, h: Handler, g: Handler)
    requires Tables(p, h) && g.messages == h.messages && g.broadcast == h.broadcast
    ensures Tables(p, g)
  {
  }

  lemma {:induction false} OthersBacked(p: Protocol, h: Handler, g: Handler, log: seq<Event>)
    requires Backed(p, h, log) && OthersKept(p, h, g)
    ensures Backed(p, g, log)
  {
  }

  lemma {:induction false} NothingHandled(p: Protocol, g: Handler, log: seq<Event>, n: nat)
    requires UpTo(log, n) && n < g.current
    ensures UpTo(log, g.current) && Handled(p, g, log, {})
  {
  }

  lemma {:induction false} NextMidway(p: Protocol, h: Handler, log: seq<Event>, state: Bytes, outs: seq<Content>)
    requires InStep(p, h, log) && h.current < p.final
    ensures var g := NextRound(p, h, h.current + 1, state, outs);
            Midway(p, g, log, {}) && WithPartly(p, g, {}) == g
  {
    hide OnTop, Entered, Orderly, Backed, UpTo, Handled, CaughtUp, OthersKept, Partly, SenderOk, Send;
    NextTop(p, h, state, outs);
    var n, g := h.current, NextRound(p, h, h.current + 1, state, outs);
    var sent := Send(p, h, n + 1, outs);
    SendKept(p, h, n + 1, outs);
    SameKept(p, sent, g);
    KeptTrans(p, h, sent, g);
    OthersBacked(p, h, g, log);
    NothingHandled(p, g, log, n);
  }

  lemma {:induction false} AdvanceNext(p: Protocol, h: Handler, state: Bytes, outs: seq<Content>)
    requires p.Valid() && h.current in h.rounds && h.current < p.final && Stepped(p, h) == Next(state, outs)
    ensures Advance(p, h) == Enter(p, NextRound(p, h, h.current + 1, state, outs))
  {
    AdvanceUnfold(p, h);
  }

  // ---- A message arrives

  lemma {:induction false} StoreRecorded(p: Protocol, h: Handler, log: seq<Event>, m: Message)
    requires InStep(p, h, log) && !Ignored(p, h, m) && m.round != 0
    ensures OnTop(p, Store(h, m)) && Recorded(p, Store(h, m), log)
    ensures Holds(QueueOf(Store(h, m), m), m.round, m.from)
    ensures if m.broadcast then StoredBroadcast(m.round, m.from) !in log else StoredDirect(m.round, m.from) !in log
    ensures m.round != h.current ==> InStep(p, Store(h, m), log)
  {
    StoreTables(p, h, m);
    var g, n := Store(h, m), h.current;
    assert SlotsKept(h, g);
    if m.round != n {
      assert forall id :: QueuedBroadcast(p, g, n, id) ==> QueuedBroadcast(p, h, n, id);
      assert forall id :: QueuedDirect(p, g, n, id) ==> QueuedDirect(p, h, n, id);
    }
  }

  /** A direct message cannot have been stored before its sender's broadcast. */
  lemma {:induction false} DirectNotYet(p: Protocol, h: Handler, log: seq<Event>, n: nat, id: Id)
    requires Recorded(p, h, log) && p.isBroadcast(n) && StoredBroadcast(n, id) !in log
    ensures StoredDirect(n, id) !in log
  {
  }

  lemma {:induction false} ArriveCaughtUp(p: Protocol, h: Handler, log: seq<Event>, m: Message)
    requires InStep(p, h, log) && !Ignored(p, h, m) && m.round == h.current && m.broadcast && p.isBroadcast(h.current)
    requires VerifyBroadcast(p, Store(h, m), m).Some?
    ensures CaughtUp(p, VerifyBroadcast(p, Store(h, m), m).value, log + BroadcastEvents(p, Store(h, m), m))
  {
    hide Orderly, Backed;
    StoreRecorded(p, h, log, m);
    var g, n := Store(h, m), h.current;
    var v, l := VerifyBroadcast(p, g, m).value, log + BroadcastEvents(p, g, m);
    assert StoredBroadcast(n, m.from) in l;
    assert v == g.(rounds := v.rounds);
    assert forall id :: id != m.from && QueuedBroadcast(p, v, n, id) ==> QueuedBroadcast(p, h, n, id);
    assert forall id :: id != m.from && QueuedDirect(p, v, n, id) ==> QueuedDirect(p, h, n, id);
    BroadcastLogsDirect(p, g, m);
  }

  lemma {:induction false} ArriveBroadcastEvents(p: Protocol, h: Handler, log: seq<Event>, m: Message)
    requires InStep(p, h, log) && !Ignored(p, h, m) && m.round == h.current && m.broadcast
    ensures var g := Store(h, m);
            var v := VerifyBroadcast(p, g, m);
            && Recorded(p, g, log + BroadcastEvents(p, g, m))
            && (v.Some? ==> CaughtUp(p, v.value, log + BroadcastEvents(p, g, m)))
  {
    hide Orderly, Tables;
    StoreRecorded(p, h, log, m);
    var g, n := Store(h, m), h.current;
    if !p.isBroadcast(n) {
      assert log + BroadcastEvents(p, g, m) == log;
    } else {
      DirectNotYet(p, h, log, n, m.from);
      BroadcastRecorded(p, g, log, m);
      if VerifyBroadcast(p, g, m).Some? { ArriveCaughtUp(p, h, log, m); }
    }
  }

  lemma {:induction false} BroadcastLogsDirect(p: Protocol, g: Handler, m: Message)
    requires OnTop(p, g) && m.round == g.current && Holds(g.broadcast, m.round, m.from)
    requires p.isBroadcast(m.round) && VerifyBroadcast(p, g, m).Some?
    ensures QueuedDirect(p, g, m.round, m.from) ==> StoredDirect(m.round, m.from) in BroadcastEvents(p, g, m)
  {
  }

  lemma {:induction false} ArriveDirectEvents(p: Protocol, h: Handler, log: seq<Event>, m: Message)
    requires InStep(p, h, log) && !Ignored(p, h, m) && m.round == h.current && !m.broadcast
    ensures var g := Store(h, m);
            var v := VerifyDirect(p, g, m);
            && Recorded(p, g, log + DirectEvents(p, g, m))
            && (v.Some? ==> CaughtUp(p, v.value, log + DirectEvents(p, g, m)))
  {
    StoreRecorded(p, h, log, m);
    var g, n := Store(h, m), h.current;
    if p.isBroadcast(n) && Holds(h.broadcast, n, m.from) { assert QueuedBroadcast(p, h, n, m.from); }
    DirectRecorded(p, g, log, m);
    var v := VerifyDirect(p, g, m);
    if v.Some? {
      assert v.value == g.(rounds := v.value.rounds);
      assert forall id :: QueuedBroadcast(p, v.value, n, id) ==> QueuedBroadcast(p, h, n, id);
      assert forall id :: id != m.from && QueuedDirect(p, v.value, n, id) ==> QueuedDirect(p, h, n, id);
    }
  }

  function Events(p: Protocol, h: Handler, m: Message): (es: seq<Event>)
  {
    if m.broadcast then BroadcastEvents(p, h, m) else DirectEvents(p, h, m)
  }

  lemma {:induction false} ArriveEvents(p: Protocol, h: Handler, log: seq<Event>, m: Message)
    requires InStep(p, h, log) && !Ignored(p, h, m) && m.round == h.current
    ensures var g := Store(h, m);
            var v := Verify(p, g, m);
            && Orderly(p, log + Events(p, g, m))
            && (v.Some? ==> InStep(p, v.value, log + Events(p, g, m)))
  {
    StoreRecorded(p, h, log, m);
    var g := Store(h, m);
    var v := Verify(p, g, m);
    if m.broadcast { ArriveBroadcastEvents(p, h, log, m); } else { ArriveDirectEvents(p, h, log, m); }
    if v.Some? {
      VerifyTop(p, g, m);
      assert Recorded(p, v.value, log + Events(p, g, m));
    }
  }

  lemma {:induction false} VerifyTop(p: Protocol, h: Handler, m: Message)
    requires OnTop(p, h) && m.round == h.current && Verify(p, h, m).Some?
    requires Holds(QueueOf(h, m), m.round, m.from)
    ensures OnTop(p, Verify(p, h, m).value)
    ensures var g := Verify(p, h, m).value;
            g.messages == h.messages && g.broadcast == h.broadcast && g.current == h.current
  {
    VerifyKeeps(p, h, m);
    var g := Verify(p, h, m).value;
    assert Tables(p, g);
    if m.broadcast && Holds(h.messages, m.round, m.from) {
      assert h.messages[m.round][m.from].round == m.round;
    }
  }
}
