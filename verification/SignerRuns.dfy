/**
 Whole runs of a signer node. Between any two store calls its own loops may move its sessions, and it may stop,
 by a crash or a panic, with what it has committed; it then takes the same output again.
 */
module SignerRuns {
  import opened Options
  import opened Bits
  import opened SignerSessions
  import N = SignerNode

  /** `pending` is the output that was begun and not finished; `done` are those that were, with their replies. */
  datatype Machine = Machine(node: N.Node, stage: N.Stage, pending: Option<Output>, done: seq<Output>, replies: seq<Reply>)

  datatype Action =
    | Start(out: Output)
    | Go
    | Own(step: N.Step)
    | Crash

  function Begin(): Machine
  {
    Machine(N.Fresh(), N.Idle, None, [], [])
  }

  /** An output that was interrupted comes again before any other; a step that does not apply is no step. */
  function Act(c: Config, local: N.Local, m: Machine, a: Action): (m': Machine)
  {
    match a
    case Start(out) =>
      if m.stage.Idle? && (m.pending.None? || m.pending == Some(out)) then m.(stage := N.Taking(out), pending := Some(out)) else m
    case Crash => m.(stage := N.Idle)
    case Own(st) => (match N.Move(m.node, st) case None => m case Some(n1) => m.(node := n1))
    case Go =>
      if m.stage.Idle? || !N.Present(m.node, m.stage) then m
      else match N.Advance(c, local, m.node, m.stage)
        case Panic => m.(stage := N.Idle)
        case On(n1, t1) => m.(node := n1, stage := t1)
        case Over(n1, reply) => Machine(n1, N.Idle, None, m.done + [m.stage.out], m.replies + [reply])
  }

  function Run(c: Config, local: N.Local, acts: seq<Action>): (m: Machine)
    decreases |acts|
  {
    if acts == [] then Begin() else Act(c, local, Run(c, local, acts[..|acts| - 1]), acts[|acts| - 1])
  }

  // ---- What an output may have done to the shared tables so far

  /** The row of a sender that prepares, without the mark that may follow it. */
  function Half(c: Config, g: Group, out: Output): (h: Group)
  {
    if out.event.Prepare? && out.sender in c.members && out.event.sid in g.sessions && !g.sessions[out.event.sid].prepared then
      var sid := out.event.sid;
      var rows := RowsOf(g.rows, sid);
      if out.sender in rows then g else g.(rows := g.rows[sid := rows[out.sender := []]])
    else g
  }

  ghost predicate Between(c: Config, g: Group, out: Output, h: Group)
  {
    h == g || (out.oid !in g.results && (h == Half(c, g, out) || h == Apply(c, g, out).0))
  }

  ghost predicate Known(g: Group, sid: Sid, s: N.Session)
  {
    sid in g.sessions && g.sessions[sid].curve == s.curve && g.sessions[sid].public == s.public
  }

  ghost predicate ReportOn(c: Config, g: Group, out: Output, sid: Sid)
  {
    out.event.Report? && out.event.sid == sid && out.sender in c.members && sid in g.sessions
  }

  /** Where the shared tables `h` stand when the node is at a stage of `out` after the outputs that led to `g`. */
  ghost predicate StageOk(c: Config, g: Group, out: Output, h: Group, t: N.Stage)
  {
    match t
    case Idle => true
    case Taking(o) => o == out
    case Acting(o) => o == out && out.oid !in g.results
    case Preparing(o, sid) =>
      && o == out && out.oid !in g.results && out.event == Prepare(sid) && out.sender in c.members
      && sid in g.sessions && !g.sessions[sid].prepared && (h == g || h == Half(c, g, out))
    case Counting(o, sid) =>
      && o == out && out.oid !in g.results && out.event == Prepare(sid) && out.sender in c.members
      && sid in g.sessions && !g.sessions[sid].prepared && h == Half(c, g, out)
    case Updating(o, sid, sig, s) =>
      o == out && out.oid !in g.results && ReportOn(c, g, out, sid) && out.event.signature == sig && Known(g, sid, s)
    case Judging(o, sid, s) =>
      o == out && out.oid !in g.results && ReportOn(c, g, out, sid) && Known(g, sid, s) && h == Apply(c, g, out).0
    case Signing(o, sid, s, sig) =>
      && o == out && out.oid !in g.results && ReportOn(c, g, out, sid) && Known(g, sid, s) && h == Apply(c, g, out).0
      && Verdict(c, RowsOf(h.rows, sid)) == Some(sig)
    case Checking(o, sid, s, sig, _) =>
      && o == out && out.oid !in g.results && ReportOn(c, g, out, sid) && Known(g, sid, s) && h == Apply(c, g, out).0
      && Verdict(c, RowsOf(h.rows, sid)) == Some(sig)
    case Recording(o, reply) => o == out && out.oid !in g.results && (h, reply) == Apply(c, g, out)
  }

  /** What one store call may lead to. */
  ghost predicate ResultOk(c: Config, g: Group, out: Output, r: N.Result)
  {
    match r
    case Panic => true
    case On(n1, t1) => Between(c, g, out, N.Shared(n1)) && StageOk(c, g, out, N.Shared(n1), t1)
    case Over(n1, reply) => (N.Shared(n1), reply) == Take(c, g, out)
  }

  // ---- Each store call

  lemma {:induction false} BegunShared(n: N.Node, e: Event)
    requires e.Begin?
    ensures N.Shared(N.Begun(n, e)) == Begun(N.Shared(n), e)
  {
    assert N.Shared(N.Begun(n, e)).sessions == Begun(N.Shared(n), e).sessions;
  }

  /** An output that has already had its whole effect has no further one. */
  lemma {:induction false} BegunTwice(g: Group, e: Event)
    requires e.Begin?
    ensures Begun(Begun(g, e), e) == Begun(g, e)
  {
  }

  lemma {:induction false} ReportedTwice(g: Group, sid: Sid, sender: Member, sig: Bytes)
    ensures Reported(Reported(g, sid, sender, sig), sid, sender, sig) == Reported(g, sid, sender, sig)
  {
    var once := Reported(g, sid, sender, sig);
    var rows := RowsOf(g.rows, sid);
    if sender in rows {
      assert RowsOf(once.rows, sid) == rows[sender := sig];
      assert RowsOf(once.rows, sid)[sender := sig] == rows[sender := sig];
      assert Reported(once, sid, sender, sig).rows == once.rows;
    }
  }

  lemma {:induction false} ActedOk(c: Config, n: N.Node, g: Group, out: Output)
    requires Between(c, g, out, N.Shared(n)) && out.oid !in g.results
    ensures ResultOk(c, g, out, N.Acted(c, n, out))
  {
    match out.event
    case Nothing =>
    case Begin(_, _, _, _) =>
      BegunShared(n, out.event);
      BegunTwice(g, out.event);
    case Prepare(sid) => ToPrepareOk(c, n, g, out, sid);
    case Report(sid, sig) =>
  }

  lemma {:induction false} ToPrepareOk(c: Config, n: N.Node, g: Group, out: Output, sid: Sid)
    requires Between(c, g, out, N.Shared(n)) && out.oid !in g.results && out.event == Prepare(sid)
    ensures ResultOk(c, g, out, N.Acted(c, n, out))
  {
    if out.sender in c.members && sid in g.sessions && !g.sessions[sid].prepared { HalfPrepared(c, g, out, sid); }
  }

  lemma {:induction false} RowShared(c: Config, n: N.Node, g: Group, out: Output, sid: Sid)
    requires StageOk(c, g, out, N.Shared(n), N.Preparing(out, sid))
    ensures ResultOk(c, g, out, N.On(N.WithRow(n, sid, out.sender), N.Counting(out, sid)))
  {
    var n1 := N.WithRow(n, sid, out.sender);
    assert N.Shared(n1).sessions == N.Shared(n).sessions;
  }

  lemma {:induction false} HalfPrepared(c: Config, g: Group, out: Output, sid: Sid)
    requires out.event == Prepare(sid) && out.sender in c.members && sid in g.sessions && !g.sessions[sid].prepared
    ensures var h := Half(c, g, out);
            Apply(c, g, out) == (if |RowsOf(h.rows, sid)| <= c.threshold then h
                                 else h.(sessions := h.sessions[sid := h.sessions[sid].(prepared := true)]), Silent)
  {
    var h := Half(c, g, out);
    var rows := RowsOf(g.rows, sid);
    if out.sender in rows { assert g.rows[sid := rows] == g.rows; }
    assert Prepared(c, g, sid, out.sender).rows == h.rows;
  }

  lemma {:induction false} CountedOk(c: Config, n: N.Node, g: Group, out: Output, sid: Sid)
    requires sid in n.sessions && StageOk(c, g, out, N.Shared(n), N.Counting(out, sid))
    ensures ResultOk(c, g, out, N.Counted(c, n, out, sid))
  {
    HalfPrepared(c, g, out, sid);
    var r := N.Counted(c, n, out, sid);
    if r.On? { assert N.Shared(r.node).sessions == Apply(c, g, out).0.sessions; }
  }

  lemma {:induction false} UpdatedShared(local: N.Local, n: N.Node, sid: Sid, sender: Member, sig: Bytes)
    requires sid in n.sessions
    ensures N.Shared(N.Updated(local, n, sid, sender, sig)) == Reported(N.Shared(n), sid, sender, sig)
  {
    var n1 := N.Updated(local, n, sid, sender, sig);
    assert n1.sessions.Keys == n.sessions.Keys;
    assert N.Shared(n1).sessions == N.Shared(n).sessions;
  }

  lemma {:induction false} UpdatedOk(c: Config, local: N.Local, n: N.Node, g: Group, out: Output, sid: Sid, sig: Bytes, s: N.Session)
    requires sid in n.sessions && Between(c, g, out, N.Shared(n)) && StageOk(c, g, out, N.Shared(n), N.Updating(out, sid, sig, s))
    ensures ResultOk(c, g, out, N.On(N.Updated(local, n, sid, out.sender, sig), N.Judging(out, sid, s)))
  {
    UpdatedShared(local, n, sid, out.sender, sig);
    ReportedTwice(g, sid, out.sender, sig);
  }

  lemma {:induction false} SignedOk(c: Config, n: N.Node, g: Group, out: Output, sid: Sid, s: N.Session, sig: Bytes)
    requires StageOk(c, g, out, N.Shared(n), N.Signing(out, sid, s, sig))
    ensures ResultOk(c, g, out, N.Signed(n, out, sid, s, sig))
  {
    var extra := N.Extra(s, sig);
    if extra.Some? { N.MoveShared(n, N.Sign(sid, extra.value)); }
  }

  lemma {:induction false} RecordedOk(c: Config, n: N.Node, g: Group, out: Output, reply: Reply)
    requires StageOk(c, g, out, N.Shared(n), N.Recording(out, reply))
    ensures (N.Shared(n.(results := n.results[out.oid := Entry(SessionOf(c, out), reply)])), reply) == Take(c, g, out)
  {
    var e := Entry(SessionOf(c, out), reply);
    assert N.Shared(n.(results := n.results[out.oid := e])).sessions == N.Shared(n).sessions;
  }

  lemma {:induction false} TakenOk(c: Config, n: N.Node, g: Group, out: Output)
    requires Between(c, g, out, N.Shared(n))
    ensures ResultOk(c, g, out, if out.oid in n.results then N.Over(n, n.results[out.oid].reply) else N.On(n, N.Acting(out)))
  {
    ApplyResults(c, g, out);
  }

  lemma {:induction false} JudgedOk(c: Config, local: N.Local, n: N.Node, g: Group, out: Output, sid: Sid, s: N.Session)
    requires sid in n.sessions && Between(c, g, out, N.Shared(n)) && StageOk(c, g, out, N.Shared(n), N.Judging(out, sid, s))
    ensures ResultOk(c, g, out, N.Advance(c, local, n, N.Judging(out, sid, s)))
  {
  }

  lemma {:induction false} CheckedOk(c: Config, local: N.Local, n: N.Node, g: Group, out: Output, sid: Sid, s: N.Session, sig: Bytes, extra: Bytes)
    requires sid in n.sessions && Between(c, g, out, N.Shared(n)) && StageOk(c, g, out, N.Shared(n), N.Checking(out, sid, s, sig, extra))
    ensures ResultOk(c, g, out, N.Advance(c, local, n, N.Checking(out, sid, s, sig, extra)))
  {
  }

  /** Every store call keeps the shared tables where the group's own handling of the output has them. */
  lemma {:induction false} AdvanceOk(c: Config, local: N.Local, n: N.Node, t: N.Stage, g: Group, out: Output)
    requires !t.Idle? && N.Present(n, t) && Between(c, g, out, N.Shared(n)) && StageOk(c, g, out, N.Shared(n), t)
    ensures ResultOk(c, g, out, N.Advance(c, local, n, t))
  {
    hide N.Acted, N.Counted, N.Signed, N.Updated, N.WithRow, Half, Apply, Take, Between;
    match t
    case Taking(_) => TakenOk(c, n, g, out);
    case Acting(_) => ActedOk(c, n, g, out);
    case Preparing(_, sid) => RowShared(c, n, g, out, sid);
    case Counting(_, sid) => CountedOk(c, n, g, out, sid);
    case Updating(_, sid, sig, s) => UpdatedOk(c, local, n, g, out, sid, sig, s);
    case Judging(_, sid, s) => JudgedOk(c, local, n, g, out, sid, s);
    case Signing(_, sid, s, sig) => SignedOk(c, n, g, out, sid, s, sig);
    case Checking(_, sid, s, sig, extra) => CheckedOk(c, local, n, g, out, sid, s, sig, extra);
    case Recording(_, reply) => RecordedOk(c, n, g, out, reply);
  }

  /** The session a stage works on is always there. */
  lemma {:induction false} StagePresent(c: Config, g: Group, out: Output, n: N.Node, t: N.Stage)
    requires Between(c, g, out, N.Shared(n)) && StageOk(c, g, out, N.Shared(n), t)
    ensures N.Present(n, t)
  {
    assert N.Shared(n).sessions.Keys == n.sessions.Keys;
  }

  // ---- Every run

  ghost predicate MachineOk(c: Config, m: Machine)
  {
    var g, h := After(c, m.done), N.Shared(m.node);
    && m.replies == Replies(c, m.done)
    && match m.pending
       case None => m.stage.Idle? && h == g
       case Some(out) => Between(c, g, out, h) && StageOk(c, g, out, h, m.stage)
  }

  lemma {:induction false} ActOk(c: Config, local: N.Local, m: Machine, a: Action)
    requires MachineOk(c, m)
    ensures MachineOk(c, Act(c, local, m, a))
  {
    hide StageOk, Between;
    var g := After(c, m.done);
    match a
    case Start(out) => Started(c, g, out, N.Shared(m.node));
    case Crash => if m.pending.Some? { Started(c, g, m.pending.value, N.Shared(m.node)); }
    case Own(st) => N.MoveShared(m.node, st);
    case Go =>
      if !m.stage.Idle? {
        var out := m.pending.value;
        StagePresent(c, g, out, m.node, m.stage);
        Started(c, g, out, N.Shared(m.node));
        SameOutput(c, g, out, N.Shared(m.node), m.stage);
        AdvanceOk(c, local, m.node, m.stage, g, out);
        if N.Advance(c, local, m.node, m.stage).Over? { assert (m.done + [out])[..|m.done|] == m.done; }
      }
  }

  lemma {:induction false} Started(c: Config, g: Group, out: Output, h: Group)
    ensures StageOk(c, g, out, h, N.Idle) && StageOk(c, g, out, h, N.Taking(out)) && Between(c, g, out, g)
  {
  }

  lemma {:induction false} SameOutput(c: Config, g: Group, out: Output, h: Group, t: N.Stage)
    requires !t.Idle? && StageOk(c, g, out, h, t)
    ensures t.out == out
  {
  }

  lemma {:induction false} RunOk(c: Config, local: N.Local, acts: seq<Action>)
    ensures MachineOk(c, Run(c, local, acts))
    decreases |acts|
  {
    if acts == [] {
      assert N.Shared(N.Fresh()).sessions == map[];
    } else {
      hide MachineOk, Act;
      RunOk(c, local, acts[..|acts| - 1]);
      ActOk(c, local, Run(c, local, acts[..|acts| - 1]), acts[|acts| - 1]);
    }
  }

  /**
   A node follows the group through every run, whatever it does on its own between any two store calls and however
   often it stops: its replies are the group's, and between outputs its sessions, rows and results are the group's.
   With an output pending they are the group's before it, after it, or with the new row alone.
   */
  lemma {:induction false} Follows(c: Config, local: N.Local, acts: seq<Action>)
    ensures var m := Run(c, local, acts);
            && m.replies == Replies(c, m.done)
            && (m.pending.None? ==> N.Shared(m.node) == After(c, m.done))
            && (m.pending.Some? ==> Between(c, After(c, m.done), m.pending.value, N.Shared(m.node)))
            && N.Present(m.node, m.stage)
  {
    RunOk(c, local, acts);
    var m := Run(c, local, acts);
    if m.pending.Some? { StagePresent(c, After(c, m.done), m.pending.value, m.node, m.stage); }
  }

  /**
   Two nodes that have finished the same outputs hold the same sessions, prepared flags, signer rows and results and
   gave the same replies, however their own steps, crashes and panics fell.
   */
  lemma {:induction false} Replicas(c: Config, a: N.Local, b: N.Local, actsA: seq<Action>, actsB: seq<Action>)
    requires Run(c, a, actsA).done == Run(c, b, actsB).done
    ensures Run(c, a, actsA).replies == Run(c, b, actsB).replies
    ensures Run(c, a, actsA).pending.None? && Run(c, b, actsB).pending.None? ==>
              N.Shared(Run(c, a, actsA).node) == N.Shared(Run(c, b, actsB).node)
  {
    Follows(c, a, actsA);
    Follows(c, b, actsB);
  }

  lemma {:induction false} WorkedOk(c: Config, local: N.Local, n: N.Node, t: N.Stage, g: Group, out: Output)
    requires !t.Idle? && !t.Taking? && N.Present(n, t) && Between(c, g, out, N.Shared(n)) && StageOk(c, g, out, N.Shared(n), t)
    ensures var r := N.Worked(c, local, n, t);
            && Between(c, g, out, N.Shared(r.0))
            && (r.1.Some? ==> StageOk(c, g, out, N.Shared(r.0), N.Recording(out, r.1.value)))
    decreases N.Rank(t)
  {
    hide Between, StageOk, N.Advance;
    SameOutput(c, g, out, N.Shared(n), t);
    if !t.Recording? {
      AdvanceOk(c, local, n, t, g, out);
      var r := N.Advance(c, local, n, t);
      if r.On? { WorkedOk(c, local, r.node, r.stage, g, out); }
    }
  }

  /** Left alone with an output, a node that does not panic does to its tables, and replies, what the group does. */
  lemma {:induction false} CompleteOk(c: Config, local: N.Local, n: N.Node, out: Output)
    ensures var (n1, reply) := N.Complete(c, local, n, out);
            if reply.Some? then (N.Shared(n1), reply.value) == Take(c, N.Shared(n), out) else Between(c, N.Shared(n), out, N.Shared(n1))
  {
    if out.oid !in n.results {
      WorkedOk(c, local, n, N.Acting(out), N.Shared(n), out);
      var (n1, reply) := N.Worked(c, local, n, N.Acting(out));
      if reply.Some? { RecordedOk(c, n1, N.Shared(n), out, reply.value); }
    }
  }
}
