/**
 What the message handler of signer/protocol/handler.go does, as functions on its fields.

 The cryptographic rounds are abstract: a protocol is a set of pure functions. A round keeps the messages
 handed to it by sender, and whether it accepts one depends on its own state, on the message, and, for a
 direct message of a broadcast round, on what the same sender broadcast.
 */
module HandlerSpec {
  import opened Options
  import opened Bits

  type Id = string
  datatype Message = Message(ssid: Bytes, from: Id, to: Id, protocol: string, round: nat,
                             data: Option<Bytes>, broadcast: bool, echo: Bytes)

  /** A message a round hands over for sending. */
  datatype Content = Content(to: Id, round: nat, data: Bytes, broadcast: bool)

  /** The outcome of finalizing a round: an error, the same round, the next one, or one of the two last ones. */
  datatype Step =
    | Fault
    | Same(outs: seq<Content>)
    | Next(state: Bytes, outs: seq<Content>)
    | Output(result: Bytes)
    | Abort

  datatype Protocol = Protocol(
    self: Id,
    parties: seq<Id>,
    ssid: Bytes,
    name: string,
    final: nat,
    start: Bytes,
    isBroadcast: nat -> bool,
    expectsDirect: nat -> bool,
    storesBroadcast: (nat, Bytes, Id, Bytes) -> bool,
    verifies: (nat, Bytes, Id, Option<Bytes>, Bytes) -> bool,
    finalizes: (nat, Bytes, map<Id, Bytes>, map<Id, Bytes>) -> Step,
    hash: seq<Message> -> Bytes)
  {
    /** What the handler relies on from a round: it stays within the final round and labels what it sends. */
    ghost predicate Valid()
    {
      && self in parties && final >= 1
      && (forall i, j :: 0 <= i < j < |parties| ==> parties[i] != parties[j])
      && (forall n: nat, s: Bytes, b: map<Id, Bytes>, d: map<Id, Bytes> :: StepOk(n, finalizes(n, s, b, d)))
    }

    predicate StepOk(n: nat, step: Step)
    {
      match step
      case Same(outs) => forall o :: o in outs ==> o.round == n
      case Next(_, outs) => n < final && forall o :: o in outs ==> o.round == n + 1
      case _ => true
    }

    predicate Other(id: Id)
    {
      id in parties && id != self
    }
  }

  /** A round in progress: its private state and the messages stored into it, by sender. */
  datatype Round = Round(number: nat, state: Bytes, broadcasts: map<Id, Bytes>, directs: map<Id, Bytes>)

  datatype Error = PeerAborted | BadMessage | EchoMismatch | FinalizeFault | RoundAborted

  /** One slot per round and sender; an absent sender is Go's nil message, an absent round a nil queue. */
  type Queue = map<nat, map<Id, Message>>

  datatype Handler = Handler(
    rounds: map<nat, Round>,
    current: nat,
    messages: Queue,
    broadcast: Queue,
    hashes: map<nat, Bytes>,
    out: seq<Message>,
    err: Option<Error>,
    result: Option<Bytes>)

  // ---- Queues

  predicate Holds(q: Queue, n: nat, id: Id)
  {
    n in q && id in q[n]
  }

  function Put(q: Queue, m: Message): (q': Queue)
  {
    if m.round !in q || m.from in q[m.round] then q else q[m.round := q[m.round][m.from := m]]
  }

  /** `store`: fills an empty slot and leaves a full one alone. */
  function Store(h: Handler, m: Message): (h': Handler)
  {
    if m.broadcast then h.(broadcast := Put(h.broadcast, m)) else h.(messages := Put(h.messages, m))
  }

  function QueueOf(h: Handler, m: Message): Queue
  {
    if m.broadcast then h.broadcast else h.messages
  }

  predicate Duplicate(h: Handler, m: Message)
  {
    m.round != 0 && (m.round !in QueueOf(h, m) || m.from in QueueOf(h, m)[m.round])
  }

  // ---- Verification of stored messages

  function Data(m: Message): Bytes
  {
    if m.data.Some? then m.data.value else []
  }

  predicate BroadcastOk(p: Protocol, r: Round, m: Message)
  {
    p.storesBroadcast(r.number, r.state, m.from, Data(m))
  }

  /** `b` is what the sender broadcast in this round, if the round has it. */
  predicate DirectOk(p: Protocol, r: Round, b: Option<Bytes>, m: Message)
  {
    p.expectsDirect(r.number) && p.verifies(r.number, r.state, m.from, b, Data(m))
  }

  /** `verifyMessage`: `None` is an error; a direct message waits for its sender's broadcast. */
  function VerifyDirect(p: Protocol, h: Handler, m: Message): (r: Option<Handler>)
  {
    if m.round !in h.rounds then Some(h)
    else
      var r := h.rounds[m.round];
      if p.isBroadcast(r.number) && !Holds(h.broadcast, m.round, m.from) then Some(h)
      else if !DirectOk(p, r, if m.from in r.broadcasts then Some(r.broadcasts[m.from]) else None, m) then None
      else Some(h.(rounds := h.rounds[m.round := r.(directs := r.directs[m.from := Data(m)])]))
  }

  /** `verifyBroadcastMessage`: stores the broadcast, then the direct message that waited for it. */
  function VerifyBroadcast(p: Protocol, h: Handler, m: Message): (r: Option<Handler>)
  {
    if m.round !in h.rounds then Some(h)
    else
      var r := h.rounds[m.round];
      if !p.isBroadcast(r.number) || !BroadcastOk(p, r, m) then None
      else
        var h1 := h.(rounds := h.rounds[m.round := r.(broadcasts := r.broadcasts[m.from := Data(m)])]);
        if !p.expectsDirect(r.number) || !Holds(h.messages, m.round, m.from) then Some(h1)
        else VerifyDirect(p, h1, h.messages[m.round][m.from])
  }

  // ---- Entering a round: everything that was queued for it is stored, in whatever order

  ghost predicate QueuedBroadcast(p: Protocol, h: Handler, n: nat, id: Id)
  {
    p.isBroadcast(n) && p.Other(id) && Holds(h.broadcast, n, id)
  }

  /** A queued direct message is due once the broadcast it depends on is there. */
  ghost predicate QueuedDirect(p: Protocol, h: Handler, n: nat, id: Id)
  {
    && Holds(h.messages, n, id)
    && (if p.isBroadcast(n) then p.Other(id) && Holds(h.broadcast, n, id) && p.expectsDirect(n) else true)
  }

  ghost function BroadcastData(p: Protocol, h: Handler, n: nat, id: Id): (b: Option<Bytes>)
  {
    if QueuedBroadcast(p, h, n, id) then Some(Data(h.broadcast[n][id])) else None
  }

  ghost predicate QueueOk(p: Protocol, h: Handler, r: Round)
  {
    && (forall id :: QueuedBroadcast(p, h, r.number, id) ==> BroadcastOk(p, r, h.broadcast[r.number][id]))
    && (forall id :: QueuedDirect(p, h, r.number, id) ==>
          DirectOk(p, r, BroadcastData(p, h, r.number, id), h.messages[r.number][id]))
  }

  ghost function StoredBroadcasts(p: Protocol, h: Handler, n: nat): (m: map<Id, Bytes>)
  {
    if n !in h.broadcast then map[] else
      map id | id in h.broadcast[n] && QueuedBroadcast(p, h, n, id) :: Data(h.broadcast[n][id])
  }

  ghost function StoredDirects(p: Protocol, h: Handler, n: nat): (m: map<Id, Bytes>)
  {
    if n !in h.messages then map[] else
      map id | id in h.messages[n] && QueuedDirect(p, h, n, id) :: Data(h.messages[n][id])
  }

  /** The current round with everything queued for it stored. */
  ghost function Drained(p: Protocol, h: Handler): (r: Round)
    requires h.current in h.rounds
  {
    var r := h.rounds[h.current];
    r.(broadcasts := StoredBroadcasts(p, h, r.number), directs := StoredDirects(p, h, r.number))
  }

  // ---- Finalizing a round

  /** The running handler always works on a recorded round of the protocol. */
  predicate Live(p: Protocol, h: Handler)
  {
    h.err.None? && h.result.None? ==> h.current in h.rounds && 1 <= h.current <= p.final
  }

  function Fail(h: Handler, e: Error): (h': Handler)
  {
    h.(err := Some(e))
  }

  ghost predicate AllBroadcasts(p: Protocol, h: Handler, n: nat)
  {
    n in h.broadcast && forall id :: id in p.parties ==> id in h.broadcast[n]
  }

  ghost predicate AllDirects(p: Protocol, h: Handler, n: nat)
  {
    n in h.messages && forall id :: p.Other(id) ==> id in h.messages[n]
  }

  ghost function BroadcastList(p: Protocol, h: Handler, n: nat): (l: seq<Message>)
    requires AllBroadcasts(p, h, n)
    ensures |l| == |p.parties|
  {
    seq(|p.parties|, i requires 0 <= i < |p.parties| => h.broadcast[n][p.parties[i]])
  }

  /** `receivedAll` also fixes the hash of a complete set of broadcasts, once. */
  ghost function Hashed(p: Protocol, h: Handler): (h': Handler)
  {
    if p.isBroadcast(h.current) && AllBroadcasts(p, h, h.current) && h.current !in h.hashes then
      h.(hashes := h.hashes[h.current := p.hash(BroadcastList(p, h, h.current))])
    else h
  }

  ghost predicate Received(p: Protocol, h: Handler)
  {
    var n := h.current;
    if p.isBroadcast(n) && n !in h.broadcast then true
    else if p.isBroadcast(n) && !AllBroadcasts(p, h, n) then false
    else p.expectsDirect(n) && n in h.messages ==> AllDirects(p, h, n)
  }

  ghost predicate EchoOk(h: Handler)
  {
    var n := h.current;
    n >= 1 && n - 1 in h.hashes ==>
      && (n in h.messages ==> forall id :: id in h.messages[n] ==> h.messages[n][id].echo == h.hashes[n - 1])
      && (n in h.broadcast ==> forall id :: id in h.broadcast[n] ==> h.broadcast[n][id].echo == h.hashes[n - 1])
  }

  /** The header put on an outgoing message of the round `number`. */
  function Outgoing(p: Protocol, h: Handler, number: nat, o: Content): (m: Message)
  {
    Message(p.ssid, p.self, o.to, p.name, o.round, Some(o.data), o.broadcast,
            if number >= 1 && number - 1 in h.hashes then h.hashes[number - 1] else [])
  }

  /** Our own broadcasts take their slot in the queue; everything is sent. */
  function Send(p: Protocol, h: Handler, number: nat, outs: seq<Content>): (h': Handler)
    ensures h' == h.(broadcast := h'.broadcast, out := h'.out)
    decreases |outs|
  {
    if |outs| == 0 then h
    else
      var m := Outgoing(p, h, number, outs[0]);
      var h1 := if m.broadcast then Store(h, m) else h;
      Send(p, h1.(out := h1.out + [m]), number, outs[1..])
  }

  ghost function Stepped(p: Protocol, h: Handler): (s: Step)
    requires h.current in h.rounds
  {
    var r := h.rounds[h.current];
    p.finalizes(h.current, r.state, r.broadcasts, r.directs)
  }

  function NextRound(p: Protocol, h: Handler, n: nat, state: Bytes, outs: seq<Content>): (h': Handler)
  {
    Send(p, h, n, outs).(rounds := h.rounds[n := Round(n, state, map[], map[])], current := n)
  }

  /** `finalize`: only a complete round whose echoes agree moves on. */
  ghost function Finalize(p: Protocol, h0: Handler): (h': Handler)
    requires p.Valid() && h0.current in h0.rounds && h0.current <= p.final
    ensures h0.current >= 1 ==> Live(p, h')
    decreases p.final - h0.current, 1
  {
    var h := Hashed(p, h0);
    if !Received(p, h) then h
    else if !EchoOk(h) then Fail(h, EchoMismatch)
    else Advance(p, h)
  }

  /** Runs the round's own `Finalize` and handles what it returns. */
  ghost function Advance(p: Protocol, h: Handler): (h': Handler)
    requires p.Valid() && h.current in h.rounds && h.current <= p.final
    ensures h.current >= 1 ==> Live(p, h')
    decreases p.final - h.current, 0
  {
    assert p.StepOk(h.current, Stepped(p, h));
    match Stepped(p, h)
    case Fault => Fail(h, FinalizeFault)
    case Same(outs) => Send(p, h, h.current, outs)
    case Next(state, outs) => Enter(p, NextRound(p, h, h.current + 1, state, outs))
    case Output(result) => h.(rounds := h.rounds[0 := LastRound()], current := 0, result := Some(result))
    case Abort => Fail(h.(rounds := h.rounds[0 := LastRound()], current := 0), RoundAborted)
  }

  /** Output and Abort are rounds numbered 0 that hold nothing. */
  function LastRound(): Round
  {
    Round(0, [], map[], map[])
  }

  /** Handles what was queued for the round just entered, then tries to finalize it. */
  ghost function Enter(p: Protocol, h: Handler): (h': Handler)
    requires p.Valid() && h.current in h.rounds && h.current <= p.final
    ensures h.current >= 1 ==> Live(p, h')
    decreases p.final - h.current, 2
  {
    if !QueueOk(p, h, h.rounds[h.current]) then Fail(h, BadMessage)
    else Finalize(p, h.(rounds := h.rounds[h.current := Drained(p, h)]))
  }

  // ---- The interface

  /** `newQueue`: an empty slot table for every round from 2 on. */
  function EmptyQueue(rounds: nat): (q: Queue)
    ensures forall n :: n in q <==> 2 <= n <= rounds
    ensures forall n :: n in q ==> q[n] == map[]
  {
    if rounds < 2 then map[] else EmptyQueue(rounds - 1)[rounds := map[]]
  }

  ghost function Fresh(p: Protocol, messages: Queue, broadcast: Queue): (h: Handler)
  {
    Handler(map[1 := Round(1, p.start, map[], map[])], 1, messages, broadcast, map[], [], None, None)
  }

  /** `NewMultiHandler`. */
  ghost function New(p: Protocol): (h: Handler)
    requires p.Valid()
  {
    Finalize(p, Fresh(p, EmptyQueue(p.final), EmptyQueue(p.final)))
  }

  predicate IsFor(m: Message, id: Id)
  {
    m.from != id && (m.to == "" || m.to == id)
  }

  predicate CanAccept(p: Protocol, h: Handler, m: Message)
  {
    && IsFor(m, p.self)
    && m.protocol == p.name
    && m.ssid == p.ssid
    && m.from in p.parties
    && m.data.Some?
    && m.round <= p.final
    && !(0 < m.round < h.current)
  }

  predicate Ignored(p: Protocol, h: Handler, m: Message)
  {
    !CanAccept(p, h, m) || h.err.Some? || h.result.Some? || Duplicate(h, m)
  }

  function Verify(p: Protocol, h: Handler, m: Message): (r: Option<Handler>)
  {
    if m.broadcast then VerifyBroadcast(p, h, m) else VerifyDirect(p, h, m)
  }

  /** `Accept`. */
  ghost function Accept(p: Protocol, h: Handler, m: Message): (h': Handler)
    requires p.Valid() && Live(p, h)
    ensures Live(p, h')
  {
    if Ignored(p, h, m) then h
    else if m.round == 0 then Fail(h, PeerAborted)
    else
      var h1 := Store(h, m);
      if h1.current != m.round then h1
      else match Verify(p, h1, m)
        case None => Fail(h1, BadMessage)
        case Some(h2) => Finalize(p, h2)
  }

  /** What `Accept` returns. */
  ghost predicate Accepted(p: Protocol, h: Handler, m: Message)
  {
    && !Ignored(p, h, m) && m.round != 0 && h.current == m.round
    && Verify(p, Store(h, m), m).Some?
  }
}
