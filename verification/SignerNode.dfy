/**
 One signer node. Besides what the group agrees on it keeps, for each session, a state of its own and the
 signature it produced; loops of its own move these at any time. None of that shows in what the group answers.
 */
module SignerNode {
  import opened Options
  import opened Bits
  import opened SignerSessions

  datatype State = Initial | Pending | Done

  /** `extra` is the message, or the message with the node's own signature appended. */
  datatype Session = Session(curve: nat, public: string, extra: Bytes, state: State, prepared: bool, committed: bool)

  datatype Node = Node(sessions: map<Sid, Session>, rows: map<Sid, map<Member, Bytes>>, results: map<string, Entry>)

  /** Who the node is, and how it verifies a signature with its own share of a key. */
  datatype Local = Local(id: Member, valid: (nat, string, Bytes, Bytes) -> bool)

  function Fresh(): Node
  {
    Node(map[], map[], map[])
  }

  /** What the node shares with the group. */
  function Shared(n: Node): (g: Group)
  {
    Group(map sid | sid in n.sessions :: Info(n.sessions[sid].curve, n.sessions[sid].public, n.sessions[sid].prepared), n.rows, n.results)
  }

  // ---- Messages with a signature appended

  const EXTRA_LIMIT: nat := 128

  function Word(b: Bytes): nat
    requires |b| >= 4
  {
    ((b[0] as nat * 256 + b[1] as nat) * 256 + b[2] as nat) * 256 + b[3] as nat
  }

  /** `concatMessageAndSignature`; a long message panics. */
  function Append(message: Bytes, signature: Bytes): (r: Option<Bytes>)
  {
    if |message| > EXTRA_LIMIT then None else Some([0, 0, 0, |message| as Byte] + message + signature)
  }

  /** `checkSignatureAppended`. */
  predicate Appended(extra: Bytes)
  {
    |extra| >= 4 && Word(extra) <= 160 && |extra| > Word(extra) + 32
  }

  /** `verifySessionSignature`: the signature in `extra`, if it is there and valid. */
  function SignatureIn(local: Local, s: Session, extra: Bytes): (r: Option<Bytes>)
  {
    if !Appended(extra) then None
    else
      var message, signature := extra[4..4 + Word(extra)], extra[4 + Word(extra)..];
      if local.valid(s.curve, s.public, message, signature) then Some(signature) else None
  }

  /** Reading back what was appended: it works for signatures longer than 28 bytes, and only for those. */
  lemma {:induction false} AppendedExactly(local: Local, s: Session, message: Bytes, signature: Bytes)
    requires |message| <= EXTRA_LIMIT
    ensures Append(message, signature).Some?
    ensures var extra := Append(message, signature).value;
            && (Appended(extra) <==> |signature| > 28)
            && (SignatureIn(local, s, extra) == Some(signature) <==> |signature| > 28 && local.valid(s.curve, s.public, message, signature))
  {
    var extra := Append(message, signature).value;
    assert Word(extra) == |message|;
    assert extra[4..4 + |message|] == message && extra[4 + |message|..] == signature;
  }

  /** Which messages are taken for one that has a signature: some of more than 32 bytes that begin with a small number. */
  lemma {:induction false} MistakenExactly(message: Bytes)
    ensures Appended(message) <==>
              && |message| > 32 && message[0] == 0 && message[1] == 0 && message[2] == 0
              && message[3] <= 160 && message[3] as nat + 32 < |message|
  {
    if |message| >= 4 { assert message[0] == 0 && message[1] == 0 && message[2] == 0 ==> Word(message) == message[3] as nat; }
  }

  /** A bare message of 64 bytes, as long as those signed for the Mixin curve, that is mistaken. */
  lemma {:induction false} MistakenMessage()
    ensures var message := [0, 0, 0, 31] + seq(60, _ => 7);
            |message| == 64 && Appended(message)
  {
    MistakenExactly([0, 0, 0, 31] + seq(60, _ => 7));
  }

  // ---- Local steps

  datatype Step = Fail(sid: Sid) | Commit(sid: Sid) | Sign(sid: Sid, extra: Bytes) | Finish(sid: Sid)

  function StepSid(st: Step): Sid
  {
    match st
    case Fail(sid) => sid
    case Commit(sid) => sid
    case Sign(sid, _) => sid
    case Finish(sid) => sid
  }

  /** `FailSession`, `MarkSessionCommitted`, `MarkSessionPending`, `MarkSessionDone`; each acts in one state only. */
  function Stepped(s: Session, st: Step): (r: Option<Session>)
  {
    match st
    case Fail(_) => if s.state == Initial then Some(s.(state := Pending)) else None
    case Commit(_) => if s.state == Initial && !s.committed then Some(s.(committed := true)) else None
    case Sign(_, extra) => if s.state == Initial && s.prepared then Some(s.(extra := extra, state := Pending)) else None
    case Finish(_) => if s.state == Pending then Some(s.(state := Done)) else None
  }

  function Move(n: Node, st: Step): (r: Option<Node>)
  {
    var sid := StepSid(st);
    if sid !in n.sessions then None
    else match Stepped(n.sessions[sid], st)
      case None => None
      case Some(s) => Some(n.(sessions := n.sessions[sid := s]))
  }

  lemma {:induction false} MoveShared(n: Node, st: Step)
    ensures var r := Move(n, st);
            r.Some? ==> Shared(r.value) == Shared(n)
  {
    var r := Move(n, st);
    if r.Some? { assert r.value.sessions.Keys == n.sessions.Keys; }
  }

  // ---- Ordered outputs, one store call after another

  /** How far the node is with an output. `s` is the session as it was read at the start. */
  datatype Stage =
    | Idle
    | Taking(out: Output)
    | Acting(out: Output)
    | Preparing(out: Output, sid: Sid)
    | Counting(out: Output, sid: Sid)
    | Updating(out: Output, sid: Sid, signature: Bytes, s: Session)
    | Judging(out: Output, sid: Sid, s: Session)
    | Signing(out: Output, sid: Sid, s: Session, sig: Bytes)
    | Checking(out: Output, sid: Sid, s: Session, sig: Bytes, extra: Bytes)
    | Recording(out: Output, reply: Reply)

  function Rank(t: Stage): nat
  {
    match t
    case Idle => 0
    case Recording(_, _) => 1
    case Checking(_, _, _, _, _) => 2
    case Signing(_, _, _, _) => 3
    case Judging(_, _, _) => 4
    case Updating(_, _, _, _) => 5
    case Counting(_, _) => 2
    case Preparing(_, _) => 3
    case Acting(_) => 6
    case Taking(_) => 7
  }

  /** The session a stage works on is there: sessions are never removed. */
  predicate Present(n: Node, t: Stage)
  {
    match t
    case Preparing(_, sid) => sid in n.sessions
    case Counting(_, sid) => sid in n.sessions
    case Updating(_, sid, _, _) => sid in n.sessions
    case Judging(_, sid, _) => sid in n.sessions
    case Signing(_, sid, _, _) => sid in n.sessions
    case Checking(_, sid, _, _, _) => sid in n.sessions
    case _ => true
  }

  /** After one store call: the next stage, the end with a reply, or a panic that keeps what was committed before. */
  datatype Result = On(node: Node, stage: Stage) | Over(node: Node, reply: Reply) | Panic

  function Begun(n: Node, e: Event): Node
    requires e.Begin?
  {
    if e.sid in n.sessions then n
    else n.(sessions := n.sessions[e.sid := Session(e.curve, e.public, e.message, Initial, false, false)])
  }

  /** `processAction`. */
  function Acted(c: Config, n: Node, out: Output): (r: Result)
  {
    match out.event
    case Nothing => On(n, Recording(out, Silent))
    case Begin(_, _, _, _) => On(Begun(n, out.event), Recording(out, Silent))
    case Prepare(sid) =>
      if out.sender !in c.members then On(n, Recording(out, Silent))
      else if sid !in n.sessions then Panic
      else if n.sessions[sid].prepared then On(n, Recording(out, Silent))
      else On(n, Preparing(out, sid))
    case Report(sid, sig) =>
      if out.sender !in c.members then On(n, Recording(out, Silent))
      else if sid !in n.sessions then Panic
      else On(n, Updating(out, sid, sig, n.sessions[sid]))
  }

  /** `PrepareSessionSignerIfNotExist`. */
  function WithRow(n: Node, sid: Sid, sender: Member): Node
  {
    var rows := RowsOf(n.rows, sid);
    if sender in rows then n else n.(rows := n.rows[sid := rows[sender := []]])
  }

  /** Enough rows mark the session prepared, which insists that it has not been left meanwhile. */
  function Counted(c: Config, n: Node, out: Output, sid: Sid): (r: Result)
    requires sid in n.sessions
  {
    var s := n.sessions[sid];
    if |RowsOf(n.rows, sid)| <= c.threshold || s.prepared then On(n, Recording(out, Silent))
    else if s.state != Initial then Panic
    else On(n.(sessions := n.sessions[sid := s.(prepared := true)]), Recording(out, Silent))
  }

  /** `UpdateSessionSigner`: our own report also moves our own state. */
  function Updated(local: Local, n: Node, sid: Sid, sender: Member, signature: Bytes): (n': Node)
    requires sid in n.sessions
  {
    var rows := RowsOf(n.rows, sid);
    if sender !in rows then n
    else
      var n1 := n.(rows := n.rows[sid := rows[sender := signature]]);
      if sender == local.id && n.sessions[sid].state == Initial
      then n1.(sessions := n.sessions[sid := n.sessions[sid].(state := Pending)]) else n1
  }

  function Extra(s: Session, sig: Bytes): Option<Bytes>
  {
    if Appended(s.extra) then Some(s.extra) else Append(s.extra, sig)
  }

  function Signed(n: Node, out: Output, sid: Sid, s: Session, sig: Bytes): (r: Result)
  {
    match Extra(s, sig)
    case None => Panic
    case Some(extra) =>
      if s.state != Initial || !s.prepared then On(n, Checking(out, sid, s, sig, extra))
      else match Move(n, Sign(sid, extra))
        case None => Panic
        case Some(n1) => On(n1, Checking(out, sid, s, sig, extra))
  }

  function ReplyFor(c: Config, n: Node, out: Output, sid: Sid, s: Session, sig: Bytes): Reply
  {
    if Replied(Shared(n), sid) then Silent
    else if !out.affordable then Compact
    else Answer(sid, s.curve, c.holderOf(s.public), sig)
  }

  function Advance(c: Config, local: Local, n: Node, t: Stage): (r: Result)
    requires !t.Idle? && Present(n, t)
    ensures r.On? ==> !r.stage.Idle? && Rank(r.stage) < Rank(t) && Present(r.node, r.stage) && r.stage.out == t.out
    ensures r.Over? ==> t.Taking? || t.Recording?
    ensures r.On? ==> !r.stage.Taking?
  {
    match t
    case Taking(out) => if out.oid in n.results then Over(n, n.results[out.oid].reply) else On(n, Acting(out))
    case Acting(out) => Acted(c, n, out)
    case Preparing(out, sid) => On(WithRow(n, sid, out.sender), Counting(out, sid))
    case Counting(out, sid) => Counted(c, n, out, sid)
    case Updating(out, sid, sig, s) => On(Updated(local, n, sid, out.sender, sig), Judging(out, sid, s))
    case Judging(out, sid, s) =>
      (match Verdict(c, RowsOf(n.rows, sid))
       case None => On(n, Recording(out, Silent))
       case Some(sig) => On(n, Signing(out, sid, s, sig)))
    case Signing(out, sid, s, sig) => Signed(n, out, sid, s, sig)
    case Checking(out, sid, s, sig, extra) =>
      if SignatureIn(local, s, extra) != Some(sig) then Panic else On(n, Recording(out, ReplyFor(c, n, out, sid, s, sig)))
    case Recording(out, reply) => Over(n.(results := n.results[out.oid := Entry(SessionOf(c, out), reply)]), reply)
  }

  /** The work on an output up to recording its result, when nothing comes between. */
  function Worked(c: Config, local: Local, n: Node, t: Stage): (r: (Node, Option<Reply>))
    requires !t.Idle? && !t.Taking? && Present(n, t)
    decreases Rank(t)
  {
    if t.Recording? then (n, Some(t.reply))
    else match Advance(c, local, n, t)
      case On(n1, t1) => Worked(c, local, n1, t1)
      case _ => (n, None)
  }

  /** A node left alone with an output: where it ends, and its reply unless it panicked. */
  function Complete(c: Config, local: Local, n: Node, out: Output): (r: (Node, Option<Reply>))
  {
    if out.oid in n.results then (n, Some(n.results[out.oid].reply))
    else
      var (n1, reply) := Worked(c, local, n, Acting(out));
      if reply.None? then (n1, None)
      else (n1.(results := n1.results[out.oid := Entry(SessionOf(c, out), reply.value)]), reply)
  }

  // ---- The work, unfolded

  lemma {:induction false} PrepareWork(c: Config, local: Local, n: Node, out: Output)
    requires out.event.Prepare? && out.sender in c.members && out.event.sid in n.sessions && !n.sessions[out.event.sid].prepared
    ensures var n1 := WithRow(n, out.event.sid, out.sender);
            Worked(c, local, n, Acting(out)) ==
              match Counted(c, n1, out, out.event.sid)
              case On(n2, _) => (n2, Some(Silent))
              case _ => (n1, None)
  {
    var sid := out.event.sid;
    var n1 := WithRow(n, sid, out.sender);
    assert Worked(c, local, n, Acting(out)) == Worked(c, local, n, Preparing(out, sid));
    assert Worked(c, local, n, Preparing(out, sid)) == Worked(c, local, n1, Counting(out, sid));
    var r := Counted(c, n1, out, sid);
    if r.On? { assert Worked(c, local, n1, Counting(out, sid)) == Worked(c, local, r.node, Recording(out, Silent)); }
  }

  lemma {:induction false} UpdatingWork(c: Config, local: Local, n: Node, out: Output, sid: Sid, signature: Bytes)
    requires sid in n.sessions
    ensures var n1, s := Updated(local, n, sid, out.sender, signature), n.sessions[sid];
            var v := Verdict(c, RowsOf(n1.rows, sid));
            Worked(c, local, n, Updating(out, sid, signature, s)) ==
              if v.None? then (n1, Some(Silent)) else Worked(c, local, n1, Signing(out, sid, s, v.value))
  {
    var n1, s := Updated(local, n, sid, out.sender, signature), n.sessions[sid];
    assert Worked(c, local, n, Updating(out, sid, signature, s)) == Worked(c, local, n1, Judging(out, sid, s));
    if Verdict(c, RowsOf(n1.rows, sid)).None? {
      assert Worked(c, local, n1, Judging(out, sid, s)) == Worked(c, local, n1, Recording(out, Silent));
    }
  }

  lemma {:induction false} ReportWork(c: Config, local: Local, n: Node, out: Output)
    requires out.event.Report? && out.sender in c.members && out.event.sid in n.sessions
    ensures var sid := out.event.sid;
            var n1, s := Updated(local, n, sid, out.sender, out.event.signature), n.sessions[sid];
            Worked(c, local, n, Acting(out)) ==
              match Verdict(c, RowsOf(n1.rows, sid))
              case None => (n1, Some(Silent))
              case Some(sig) => Worked(c, local, n1, Signing(out, sid, s, sig))
  {
    var sid := out.event.sid;
    assert Worked(c, local, n, Acting(out)) == Worked(c, local, n, Updating(out, sid, out.event.signature, n.sessions[sid]));
    UpdatingWork(c, local, n, out, sid, out.event.signature);
  }

  lemma {:induction false} SigningWork(c: Config, local: Local, n: Node, out: Output, sid: Sid, s: Session, sig: Bytes)
    requires sid in n.sessions
    ensures Worked(c, local, n, Signing(out, sid, s, sig)) ==
              match Signed(n, out, sid, s, sig)
              case On(n1, t1) => Worked(c, local, n1, t1)
              case _ => (n, None)
  {
    assert Advance(c, local, n, Signing(out, sid, s, sig)) == Signed(n, out, sid, s, sig);
  }

  lemma {:induction false} CheckingWork(c: Config, local: Local, n: Node, out: Output, sid: Sid, s: Session, sig: Bytes, extra: Bytes)
    requires sid in n.sessions
    ensures Worked(c, local, n, Checking(out, sid, s, sig, extra)) ==
              (n, if SignatureIn(local, s, extra) == Some(sig) then Some(ReplyFor(c, n, out, sid, s, sig)) else None)
  {
    if SignatureIn(local, s, extra) == Some(sig) {
      assert Worked(c, local, n, Checking(out, sid, s, sig, extra)) == Worked(c, local, n, Recording(out, ReplyFor(c, n, out, sid, s, sig)));
    }
  }

  // ---- When a report stops the node

  /** Our own report came before we had left the initial state. */
  predicate OwnTooEarly(local: Local, n: Node, out: Output, sid: Sid)
    requires sid in n.sessions
  {
    out.sender == local.id && n.sessions[sid].state == Initial && n.sessions[sid].prepared && out.sender in RowsOf(n.rows, sid)
  }

  predicate Verifies(local: Local, s: Session, sig: Bytes)
  {
    Extra(s, sig).Some? && SignatureIn(local, s, Extra(s, sig).value) == Some(sig)
  }

  lemma {:induction false} SigningStops(c: Config, local: Local, n: Node, out: Output, sid: Sid, s: Session, sig: Bytes)
    requires sid in n.sessions
    ensures Worked(c, local, n, Signing(out, sid, s, sig)).1.Some? <==>
              Verifies(local, s, sig) && (s.state == Initial && s.prepared ==> n.sessions[sid].state == Initial && n.sessions[sid].prepared)
    ensures s.state == Initial && s.prepared && n.sessions[sid].state != Initial ==>
              Worked(c, local, n, Signing(out, sid, s, sig)).0 == n
  {
    hide Worked, SignatureIn;
    SigningWork(c, local, n, out, sid, s, sig);
    var r := Signed(n, out, sid, s, sig);
    if r.On? { CheckingWork(c, local, r.node, out, sid, s, sig, r.stage.extra); }
  }

  /**
   A report that finishes a session is answered, and the node goes on, exactly when it is not the node's own
   report on a session it has not left yet, and the finished signature verifies here.
   */
  lemma {:induction false} ReportStops(c: Config, local: Local, n: Node, out: Output, sid: Sid, signature: Bytes)
    requires sid in n.sessions
    ensures var v := Verdict(c, RowsOf(Updated(local, n, sid, out.sender, signature).rows, sid));
            Worked(c, local, n, Updating(out, sid, signature, n.sessions[sid])).1.Some? <==>
              (v.Some? ==> !OwnTooEarly(local, n, out, sid) && Verifies(local, n.sessions[sid], v.value))
  {
    hide Worked, Verifies;
    var n1 := Updated(local, n, sid, out.sender, signature);
    UpdatingWork(c, local, n, out, sid, signature);
    var v := Verdict(c, RowsOf(n1.rows, sid));
    if v.Some? { SigningStops(c, local, n1, out, sid, n.sessions[sid], v.value); }
  }

  /** Whoever panicked on its own early report goes on when it takes it again, if the signature verifies. */
  lemma {:induction false} RestartGoesOn(c: Config, local: Local, n: Node, out: Output, sid: Sid, signature: Bytes)
    requires sid in n.sessions && OwnTooEarly(local, n, out, sid)
    requires Verdict(c, RowsOf(Updated(local, n, sid, out.sender, signature).rows, sid)).Some?
    ensures var n1 := Worked(c, local, n, Updating(out, sid, signature, n.sessions[sid])).0;
            var v := Verdict(c, RowsOf(Updated(local, n, sid, out.sender, signature).rows, sid));
            && sid in n1.sessions
            && (Worked(c, local, n1, Updating(out, sid, signature, n1.sessions[sid])).1.Some? <==>
                  Verifies(local, n.sessions[sid], v.value))
  {
    hide Worked;
    var n1 := Updated(local, n, sid, out.sender, signature);
    UpdatingWork(c, local, n, out, sid, signature);
    SigningStops(c, local, n1, out, sid, n.sessions[sid], Verdict(c, RowsOf(n1.rows, sid)).value);
    ReportStops(c, local, n1, out, sid, signature);
    assert RowsOf(n1.rows, sid)[out.sender := signature] == RowsOf(n1.rows, sid);
  }

  /** A message that is not too long and not mistaken: a valid signature of more than 28 bytes is what it takes. */
  lemma {:induction false} ReportVerifies(local: Local, s: Session, sig: Bytes)
    requires !Appended(s.extra) && |s.extra| <= EXTRA_LIMIT
    ensures Verifies(local, s, sig) <==> |sig| > 28 && local.valid(s.curve, s.public, s.extra, sig)
  {
    AppendedExactly(local, s, s.extra, sig);
  }

  /** The node of a group of one that has prepared its own session. */
  lemma {:induction false} OnePrepared(c: Config, local: Local, s: Session)
    requires c.members == ["a"] && c.threshold == 0 && s.state == Initial && !s.prepared
    ensures var n := Node(map["s" := s], map[], map["1" := Entry("s", Silent)]);
            var (n1, reply) := Complete(c, local, n, Output("2", "a", Prepare("s"), true));
            && reply.Some? && n1.sessions == map["s" := s.(prepared := true)] && n1.rows == map["s" := map["a" := []]]
            && "3" !in n1.results
  {
    var n := Node(map["s" := s], map[], map["1" := Entry("s", Silent)]);
    var out := Output("2", "a", Prepare("s"), true);
    var row := n.(rows := map["s" := map["a" := []]]);
    PrepareWork(c, local, n, out);
    assert |RowsOf(row.rows, "s")| == 1;
    assert row.sessions["s" := s.(prepared := true)] == map["s" := s.(prepared := true)];
  }

  lemma {:induction false} OneReported(c: Config, local: Local, n: Node, sig: Bytes)
    requires c.members == ["a"] && c.threshold == 0 && local.id == "a" && sig != []
    requires "s" in n.sessions && n.sessions["s"].state == Initial && n.sessions["s"].prepared
    requires n.rows == map["s" := map["a" := []]] && "3" !in n.results
    ensures Complete(c, local, n, Output("3", "a", Report("s", sig), true)).1.None?
  {
    var out := Output("3", "a", Report("s", sig), true);
    assert Worked(c, local, n, Acting(out)) == Worked(c, local, n, Updating(out, "s", sig, n.sessions["s"]));
    ReportStops(c, local, n, out, "s", sig);
    assert CountReports(["a"], map["a" := sig], sig) == 1;
  }

  /** A group of one whose signatures always verify: its member's own report stops it. */
  lemma {:induction false} OwnReport(sig: Bytes)
    requires sig != []
    ensures var c, local := Config(["a"], 0, p => p), Local("a", (_, _, _, _) => true);
            var (n1, r1) := Complete(c, local, Fresh(), Output("1", "k", Begin("s", 1, "p", []), true));
            var (n2, r2) := Complete(c, local, n1, Output("2", "a", Prepare("s"), true));
            r1.Some? && r2.Some? && Complete(c, local, n2, Output("3", "a", Report("s", sig), true)).1.None?
  {
    var c, local := Config(["a"], 0, p => p), Local("a", (_, _, _, _) => true);
    var s := Session(1, "p", [], Initial, false, false);
    assert Complete(c, local, Fresh(), Output("1", "k", Begin("s", 1, "p", []), true)) ==
           (Node(map["s" := s], map[], map["1" := Entry("s", Silent)]), Some(Silent));
    OnePrepared(c, local, s);
    var n := Node(map["s" := s], map[], map["1" := Entry("s", Silent)]);
    OneReported(c, local, Complete(c, local, n, Output("2", "a", Prepare("s"), true)).0, sig);
  }
}
