/** The message handler of signer/protocol/handler.go, working on its own fields. */
module ProtocolHandler {
  import opened Options
  import opened Bits
  import opened HandlerSpec
  import opened HandlerOrder
  import opened HandlerAgreement
  import opened HandlerLog

  class MultiHandler {
    const p: Protocol
    var rounds: map<nat, Round>
    var current: nat
    var messages: Queue
    var broadcast: Queue
    var hashes: map<nat, Bytes>
    var out: seq<Message>
    var err: Option<Error>
    var result: Option<Bytes>
    ghost var log: seq<Event>

    ghost function State(): (h: Handler)
      reads this
    {
      Handler(rounds, current, messages, broadcast, hashes, out, err, result)
    }

    /** Kept by every call, after an abort and after the result too. */
    ghost predicate Valid()
      reads this
    {
      p.Valid() && Live(p, State()) && Orderly(p, log) && (IsRunning(State()) ==> InStep(p, State(), log))
    }

    constructor (p: Protocol)
      requires p.Valid()
      ensures this.p == p && Valid()
      ensures Observe(State()) == Observe(New(p))
    {
      this.p := p;
      rounds := map[1 := Round(1, p.start, map[], map[])];
      current := 1;
      hashes := map[];
      out := [];
      err := None;
      result := None;
      log := [];
      new;
      messages := NewQueue(p.final);
      broadcast := NewQueue(p.final);
      assert State() == Fresh(p, EmptyQueue(p.final), EmptyQueue(p.final));
      Finalize();
    }

    static method NewQueue(rounds: nat) returns (q: Queue)
      ensures q == EmptyQueue(rounds)
    {
      q := map[];
      var i := 2;
      while i <= rounds
        invariant 2 <= i && if rounds >= 2 then i <= rounds + 1 else i == 2
        invariant q == EmptyQueue(i - 1)
      {
        q := q[i := map[]];
        i := i + 1;
      }
      assert rounds < 2 ==> EmptyQueue(rounds) == EmptyQueue(1);
    }

    method StoreMessage(m: Message)
      modifies `messages, `broadcast
      ensures State() == Store(old(State()), m)
    {
      var q := if m.broadcast then broadcast else messages;
      if m.round !in q || m.from in q[m.round] { return; }
      q := q[m.round := q[m.round][m.from := m]];
      if m.broadcast { broadcast := q; } else { messages := q; }
    }

    method IsDuplicate(m: Message) returns (b: bool)
      ensures b == Duplicate(State(), m)
    {
      if m.round == 0 { return false; }
      var q := if m.broadcast then broadcast else messages;
      if m.round !in q { return true; }
      return m.from in q[m.round];
    }

    /** Stores a direct message into its round, unless it has to wait for its sender's broadcast. */
    method VerifyMessage(m: Message) returns (ok: bool)
      modifies `rounds, `log
      ensures ok == VerifyDirect(p, old(State()), m).Some?
      ensures State() == if ok then VerifyDirect(p, old(State()), m).value else old(State())
      ensures log == old(log) + DirectEvents(p, old(State()), m)
    {
      if m.round !in rounds { return true; }
      var r := rounds[m.round];
      if p.isBroadcast(r.number) && (m.round !in broadcast || m.from !in broadcast[m.round]) { return true; }
      var b := if m.from in r.broadcasts then Some(r.broadcasts[m.from]) else None;
      if !p.expectsDirect(r.number) || !p.verifies(r.number, r.state, m.from, b, Data(m)) { return false; }
      rounds := rounds[m.round := r.(directs := r.directs[m.from := Data(m)])];
      log := log + [StoredDirect(m.round, m.from)];
      return true;
    }

    /** Stores a broadcast into its round, then the direct message that waited for it. */
    method VerifyBroadcastMessage(m: Message) returns (ok: bool)
      modifies `rounds, `log
      ensures ok == VerifyBroadcast(p, old(State()), m).Some?
      ensures ok ==> State() == VerifyBroadcast(p, old(State()), m).value
      ensures log == old(log) + BroadcastEvents(p, old(State()), m)
    {
      if m.round !in rounds { return true; }
      var r := rounds[m.round];
      if !p.isBroadcast(r.number) || !p.storesBroadcast(r.number, r.state, m.from, Data(m)) { return false; }
      rounds := rounds[m.round := r.(broadcasts := r.broadcasts[m.from := Data(m)])];
      log := log + [StoredBroadcast(m.round, m.from)];
      if !p.expectsDirect(r.number) { return true; }
      if m.round !in messages || m.from !in messages[m.round] { return true; }
      ok := VerifyMessage(messages[m.round][m.from]);
    }

    /** Whether everything the round waits for is there; fixes the hash of its broadcasts. */
    method ReceivedAll() returns (all: bool)
      modifies `hashes
      ensures State() == Hashed(p, old(State())) && all == Received(p, State())
    {
      var n := current;
      if p.isBroadcast(n) {
        if n !in broadcast { return true; }
        var list := [];
        var i := 0;
        while i < |p.parties|
          invariant 0 <= i <= |p.parties| && |list| == i
          invariant forall j :: 0 <= j < i ==> p.parties[j] in broadcast[n] && list[j] == broadcast[n][p.parties[j]]
        {
          if p.parties[i] !in broadcast[n] {
            assert p.parties[i] in p.parties;
            return false;
          }
          list := list + [broadcast[n][p.parties[i]]];
          i := i + 1;
        }
        assert list == BroadcastList(p, State(), n);
        if n !in hashes { hashes := hashes[n := p.hash(list)]; }
      }
      if p.expectsDirect(n) {
        if n !in messages { return true; }
        all := HasAll(messages[n]);
      } else {
        all := true;
      }
    }

    method HasAll(slots: map<Id, Message>) returns (all: bool)
      ensures all == forall id :: p.Other(id) ==> id in slots
    {
      var i := 0;
      while i < |p.parties|
        invariant 0 <= i <= |p.parties|
        invariant forall j :: 0 <= j < i && p.parties[j] != p.self ==> p.parties[j] in slots
      {
        if p.parties[i] != p.self && p.parties[i] !in slots {
          assert p.Other(p.parties[i]);
          return false;
        }
        i := i + 1;
      }
      return true;
    }

    static method Echo(slots: map<Id, Message>, hash: Bytes) returns (same: bool)
      ensures same == forall id :: id in slots ==> slots[id].echo == hash
    {
      var rest := slots.Keys;
      while rest != {}
        invariant rest <= slots.Keys
        invariant forall id :: id in slots && id !in rest ==> slots[id].echo == hash
        decreases |rest|
      {
        var id :| id in rest;
        if slots[id].echo != hash { return false; }
        rest := rest - {id};
      }
      return true;
    }

    method CheckBroadcastHash() returns (ok: bool)
      ensures ok == EchoOk(State())
    {
      var n := current;
      if n < 1 || n - 1 !in hashes { return true; }
      if n in messages {
        ok := Echo(messages[n], hashes[n - 1]);
        if !ok { return; }
      }
      if n in broadcast {
        ok := Echo(broadcast[n], hashes[n - 1]);
        return;
      }
      return true;
    }

    /** Puts the headers on what a round sends; our own broadcasts take their slot. */
    method Forward(number: nat, outs: seq<Content>)
      modifies `broadcast, `messages, `out
      ensures State() == Send(p, old(State()), number, outs)
    {
      var i := 0;
      while i < |outs|
        invariant 0 <= i <= |outs|
        invariant Send(p, State(), number, outs[i..]) == Send(p, old(State()), number, outs)
      {
        var o := outs[i];
        var m := Message(p.ssid, p.self, o.to, p.name, o.round, Some(o.data), o.broadcast,
                         if number >= 1 && number - 1 in hashes then hashes[number - 1] else []);
        assert outs[i..][0] == o && outs[i..][1..] == outs[i + 1..];
        if m.broadcast { StoreMessage(m); }
        out := out + [m];
        i := i + 1;
      }
    }

    /** Stores everything that was queued for the round just entered, in no particular order. */
    method HandleQueued() returns (ok: bool)
      requires Midway(p, State(), log, {}) && WithPartly(p, State(), {}) == State()
      modifies `rounds, `log
      ensures old(log) <= log
      ensures ok == QueueOk(p, old(State()), old(rounds[current]))
      ensures ok ==> State() == WithDrained(p, old(State())) && InStep(p, State(), log)
      ensures Orderly(p, log)
    {
      ghost var h := State();
      if p.isBroadcast(current) {
        ok := HandleBroadcasts();
        if ok { BroadcastsDone(p, h, log); }
      } else {
        ok := HandleDirects();
        if ok { DirectsDone(p, h, log); }
      }
    }

    method HandleBroadcast(ghost h: Handler, ghost done: set<Id>, id: Id) returns (ok: bool)
      requires Midway(p, h, log, done) && State() == WithPartly(p, h, done) && p.isBroadcast(current)
      requires Holds(h.broadcast, current, id) && id !in done
      modifies `rounds, `log
      ensures old(log) <= log
      ensures ok ==> Midway(p, h, log, done + {id}) && State() == WithPartly(p, h, done + {id})
      ensures !ok ==> !QueueOk(p, h, h.rounds[current])
      ensures Orderly(p, log)
    {
      if id == p.self {
        MidwaySelf(p, h, log, done);
        return true;
      }
      MidwayBroadcast(p, h, log, done, id);
      ok := VerifyBroadcastMessage(broadcast[current][id]);
    }

    method HandleBroadcasts() returns (ok: bool)
      requires Midway(p, State(), log, {}) && WithPartly(p, State(), {}) == State() && p.isBroadcast(current)
      modifies `rounds, `log
      ensures old(log) <= log
      ensures !ok ==> !QueueOk(p, old(State()), old(rounds[current])) && Orderly(p, log)
      ensures ok ==> Midway(p, old(State()), log, old(broadcast[current].Keys))
      ensures ok ==> State() == WithPartly(p, old(State()), old(broadcast[current].Keys))
    {
      ghost var h := State();
      var rest := broadcast[current].Keys;
      ghost var done := {};
      while rest != {}
        invariant old(log) <= log
        invariant rest !! done && rest + done == h.broadcast[current].Keys
        invariant Midway(p, h, log, done) && State() == WithPartly(p, h, done)
        decreases |rest|
      {
        var id :| id in rest;
        ok := HandleBroadcast(h, done, id);
        if !ok { return; }
        Moved(rest, done, id);
        rest := rest - {id};
        done := done + {id};
      }
      assert done == h.broadcast[current].Keys;
      ok := true;
    }

    method HandleDirect(ghost h: Handler, ghost done: set<Id>, id: Id) returns (ok: bool)
      requires Midway(p, h, log, done) && State() == WithPartly(p, h, done) && !p.isBroadcast(current)
      requires Holds(h.messages, current, id) && id !in done
      modifies `rounds, `log
      ensures old(log) <= log
      ensures ok ==> Midway(p, h, log, done + {id}) && State() == WithPartly(p, h, done + {id})
      ensures !ok ==> !QueueOk(p, h, h.rounds[current])
      ensures Orderly(p, log)
    {
      MidwayDirect(p, h, log, done, id);
      ok := VerifyMessage(messages[current][id]);
    }

    method HandleDirects() returns (ok: bool)
      requires Midway(p, State(), log, {}) && WithPartly(p, State(), {}) == State() && !p.isBroadcast(current)
      modifies `rounds, `log
      ensures old(log) <= log
      ensures !ok ==> !QueueOk(p, old(State()), old(rounds[current])) && Orderly(p, log)
      ensures ok ==> Midway(p, old(State()), log, old(messages[current].Keys))
      ensures ok ==> State() == WithPartly(p, old(State()), old(messages[current].Keys))
    {
      ghost var h := State();
      var rest := messages[current].Keys;
      ghost var done := {};
      while rest != {}
        invariant old(log) <= log
        invariant rest !! done && rest + done == h.messages[current].Keys
        invariant Midway(p, h, log, done) && State() == WithPartly(p, h, done)
        decreases |rest|
      {
        var id :| id in rest;
        ok := HandleDirect(h, done, id);
        if !ok { return; }
        Moved(rest, done, id);
        rest := rest - {id};
        done := done + {id};
      }
      assert done == h.messages[current].Keys;
      ok := true;
    }

    method Abort(e: Error)
      modifies `err
      ensures State() == Fail(old(State()), e)
    {
      err := Some(e);
    }

    /** Finalizes the current round and every further one whose messages are already there. */
    method Finalize()
      requires InStep(p, State(), log)
      modifies this
      ensures Valid()
      ensures Observe(State()) == Observe(HandlerSpec.Finalize(p, old(State())))
      ensures old(log) <= log
      decreases p.final - current, 3
    {
      HashedRunning(p, State(), log);
      var all := ReceivedAll();
      if !all { return; }
      var same := CheckBroadcastHash();
      if !same {
        Abort(EchoMismatch);
        return;
      }
      FinalizedRunning(p, State(), log);
      log := log + [Finalized(current)];
      Advance();
    }

    /** Runs the round itself and acts on what it returns. */
    method Advance()
      requires InStep(p, State(), log)
      modifies this
      ensures Valid()
      ensures Observe(State()) == Observe(HandlerSpec.Advance(p, old(State())))
      ensures old(log) <= log
      decreases p.final - current, 2
    {
      var r := rounds[current];
      var step := p.finalizes(current, r.state, r.broadcasts, r.directs);
      assert p.StepOk(current, step);
      match step
      case Fault => Abort(FinalizeFault);
      case Same(outs) =>
        Repeat(outs);
      case Next(state, outs) =>
        Climb(state, outs);
      case Output(value) =>
        Conclude(value);
      case Abort =>
        Leave();
        Abort(RoundAborted);
    }

    /** The round stays; it only had more to send. */
    method Repeat(outs: seq<Content>)
      requires InStep(p, State(), log)
      modifies this
      ensures State() == Send(p, old(State()), old(current), outs) && log == old(log)
      ensures Valid()
    {
      SendRunning(p, State(), log, outs);
      Forward(current, outs);
    }

    method Conclude(value: Bytes)
      requires p.Valid() && Orderly(p, log)
      modifies this
      ensures State() == old(State()).(rounds := old(rounds)[0 := LastRound()], current := 0, result := Some(value))
      ensures log == old(log) && Valid()
    {
      Leave();
      result := Some(value);
    }

    /** Enters the last round, which is numbered 0. */
    method Leave()
      modifies `rounds, `current
      ensures State() == old(State()).(rounds := old(rounds)[0 := LastRound()], current := 0)
    {
      rounds := rounds[0 := LastRound()];
      current := 0;
    }

    method Climb(state: Bytes, outs: seq<Content>)
      requires InStep(p, State(), log) && current < p.final && Stepped(p, State()) == Next(state, outs)
      modifies this
      ensures Valid()
      ensures Observe(State()) == Observe(HandlerSpec.Advance(p, old(State())))
      ensures old(log) <= log
      decreases p.final - current, 1
    {
      hide Orderly, Shape, Backed, CaughtUp, Observe;
      AdvanceNext(p, State(), state, outs);
      Ascend(state, outs);
    }

    method Ascend(state: Bytes, outs: seq<Content>)
      requires InStep(p, State(), log) && current < p.final
      modifies this
      ensures Valid()
      ensures Observe(State()) == Observe(Enter(p, NextRound(p, old(State()), old(current) + 1, state, outs)))
      ensures old(log) <= log
      decreases p.final - current, 0
    {
      hide Orderly, Backed, CaughtUp, Observe, Handled, SenderOk, Shape, Partly;
      NextMidway(p, State(), log, state, outs);
      MoveOn(state, outs);
      EnterRound();
    }

    /** Sends what the new round starts with and makes it the current one. */
    method MoveOn(state: Bytes, outs: seq<Content>)
      modifies `broadcast, `messages, `out, `current, `rounds
      ensures State() == NextRound(p, old(State()), old(current) + 1, state, outs)
    {
      Forward(current + 1, outs);
      current := current + 1;
      rounds := rounds[current := Round(current, state, map[], map[])];
    }

    method EnterRound()
      requires Midway(p, State(), log, {}) && WithPartly(p, State(), {}) == State()
      modifies this
      ensures Valid()
      ensures Observe(State()) == Observe(Enter(p, old(State())))
      ensures old(log) <= log
      decreases p.final - current, 4
    {
      var ok := HandleQueued();
      if ok { Finalize(); } else { Abort(BadMessage); }
    }

    method Accepts(m: Message) returns (b: bool)
      ensures b == CanAccept(p, State(), m)
    {
      if m.from == p.self || !(m.to == "" || m.to == p.self) { return false; }
      if m.protocol != p.name { return false; }
      if m.ssid != p.ssid { return false; }
      if m.from !in p.parties { return false; }
      if m.data.None? { return false; }
      if m.round > p.final { return false; }
      if m.round < current && m.round > 0 { return false; }
      return true;
    }

    /**
     Takes one message. The outcome is the specified one whatever order the queues are gone through in; `Valid`
     says that everything stored so far was stored once, broadcast before direct message, and that every round
     finalized so far was complete.
     */
    method Accept(m: Message) returns (taken: bool)
      requires Valid()
      modifies this
      ensures Valid() && old(log) <= log
      ensures Observe(State()) == Observe(HandlerSpec.Accept(p, old(State()), m))
      ensures taken <==> Accepted(p, old(State()), m)
    {
      hide Orderly, Shape, Backed, CaughtUp, Verify;
      var can := Accepts(m);
      if !can || err.Some? || result.Some? { return false; }
      var dup := IsDuplicate(m);
      if dup { return false; }
      if m.round == 0 {
        Abort(PeerAborted);
        return false;
      }
      StoreRecorded(p, State(), log, m);
      if current == m.round { ArriveEvents(p, State(), log, m); }
      StoreMessage(m);
      if current != m.round { return false; }
      taken := VerifyArrived(m);
      if taken { Finalize(); } else { Abort(BadMessage); }
    }

    method VerifyArrived(m: Message) returns (ok: bool)
      modifies `rounds, `log
      ensures ok == Verify(p, old(State()), m).Some?
      ensures ok ==> State() == Verify(p, old(State()), m).value
      ensures log == old(log) + Events(p, old(State()), m)
    {
      if m.broadcast { ok := VerifyBroadcastMessage(m); } else { ok := VerifyMessage(m); }
    }
  }
}
