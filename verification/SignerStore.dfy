/** The signer node as it runs: its tables are updated in place, by ordered outputs and by its own loops. */
module SignerStore {
  import opened Options
  import opened Bits
  import opened SignerSessions
  import N = SignerNode
  import R = SignerRuns

  class Signer {
    const c: Config
    const local: N.Local
    var sessions: map<Sid, N.Session>
    var rows: map<Sid, map<Member, Bytes>>
    var results: map<string, Entry>

    constructor (c: Config, local: N.Local)
      ensures this.c == c && this.local == local
      ensures State() == N.Fresh()
    {
      this.c := c;
      this.local := local;
      sessions, rows, results := map[], map[], map[];
    }

    ghost function State(): N.Node
      reads this
    {
      N.Node(sessions, rows, results)
    }

    // ---- Own steps: each updates one row, or reports that there is none to update

    method FailSession(sid: Sid) returns (ok: bool)
      modifies `sessions
      ensures ok <==> N.Move(old(State()), N.Fail(sid)).Some?
      ensures State() == if ok then N.Move(old(State()), N.Fail(sid)).value else old(State())
    {
      ok := sid in sessions && sessions[sid].state == N.Initial;
      if ok { sessions := sessions[sid := sessions[sid].(state := N.Pending)]; }
    }

    method MarkSessionCommitted(sid: Sid) returns (ok: bool)
      modifies `sessions
      ensures ok <==> N.Move(old(State()), N.Commit(sid)).Some?
      ensures State() == if ok then N.Move(old(State()), N.Commit(sid)).value else old(State())
    {
      ok := sid in sessions && sessions[sid].state == N.Initial && !sessions[sid].committed;
      if ok { sessions := sessions[sid := sessions[sid].(committed := true)]; }
    }

    method MarkSessionPending(sid: Sid, extra: Bytes) returns (ok: bool)
      modifies `sessions
      ensures ok <==> N.Move(old(State()), N.Sign(sid, extra)).Some?
      ensures State() == if ok then N.Move(old(State()), N.Sign(sid, extra)).value else old(State())
    {
      ok := sid in sessions && sessions[sid].state == N.Initial && sessions[sid].prepared;
      if ok { sessions := sessions[sid := sessions[sid].(extra := extra, state := N.Pending)]; }
    }

    method MarkSessionDone(sid: Sid) returns (ok: bool)
      modifies `sessions
      ensures ok <==> N.Move(old(State()), N.Finish(sid)).Some?
      ensures State() == if ok then N.Move(old(State()), N.Finish(sid)).value else old(State())
    {
      ok := sid in sessions && sessions[sid].state == N.Pending;
      if ok { sessions := sessions[sid := sessions[sid].(state := N.Done)]; }
    }

    // ---- What the outputs do

    method WriteSessionIfNotExist(e: Event)
      requires e.Begin?
      modifies `sessions
      ensures State() == N.Begun(old(State()), e)
    {
      if e.sid !in sessions {
        sessions := sessions[e.sid := N.Session(e.curve, e.public, e.message, N.Initial, false, false)];
      }
    }

    /** Counts the members that reported what the first of them reported. */
    method VerifySessionSignerResults(signers: map<Member, Bytes>) returns (finished: bool, sig: Bytes)
      ensures Verdict(c, signers) == if finished then Some(sig) else None
    {
      var found := false;
      var signed := 0;
      sig := [];
      for i := 0 to |c.members|
        invariant found ==> FirstReport(c.members, signers) == Some(sig)
        invariant !found ==> signed == 0 && FirstReport(c.members, signers) == FirstReport(c.members[i..], signers)
        invariant found && sig != [] ==> CountReports(c.members, signers, sig) == signed + CountReports(c.members[i..], signers, sig)
        invariant found && sig == [] ==> signed == 0
        invariant !found ==> forall s :: CountReports(c.members, signers, s) == CountReports(c.members[i..], signers, s)
      {
        var id := c.members[i];
        assert c.members[i..][0] == id && c.members[i..][1..] == c.members[i + 1..];
        if !found && id in signers {
          found, sig := true, signers[id];
        }
        if id in signers && signers[id] != [] && signers[id] == sig { signed := signed + 1; }
      }
      finished := signed >= c.threshold + 1;
    }

    /** Looks for an answer among the recorded results, in whatever order they come. */
    method CheckActionResultsBySessionId(sid: Sid) returns (found: bool)
      ensures found <==> Replied(N.Shared(State()), sid)
    {
      var left := results.Keys;
      while left != {}
        invariant left <= results.Keys
        invariant forall o :: o in results && o !in left ==> results[o].sid != sid || results[o].reply == Silent
        decreases |left|
      {
        var o :| o in left;
        if results[o].sid == sid && results[o].reply != Silent { return true; }
        left := left - {o};
      }
      return false;
    }

    method PrepareSessionSignerIfNotExist(sid: Sid, sender: Member)
      modifies `rows
      ensures State() == N.WithRow(old(State()), sid, sender)
    {
      var signers := RowsOf(rows, sid);
      if sender !in signers { rows := rows[sid := signers[sender := []]]; }
    }

    /** Here and below `None` is a panic; the tables are then as the store calls before it left them. */
    method ProcessSignerPrepare(out: Output) returns (reply: Option<Reply>)
      requires out.event.Prepare? && out.sender in c.members
      modifies `sessions, `rows
      ensures (State(), reply) == N.Worked(c, local, old(State()), N.Acting(out))
    {
      var sid := out.event.sid;
      if sid !in sessions { return None; }
      if sessions[sid].prepared { return Some(Silent); }
      PrepareSessionSignerIfNotExist(sid, out.sender);
      N.PrepareWork(c, local, old(State()), out);
      if |RowsOf(rows, sid)| <= c.threshold { return Some(Silent); }
      if sessions[sid].state != N.Initial { return None; }
      sessions := sessions[sid := sessions[sid].(prepared := true)];
      return Some(Silent);
    }

    method UpdateSessionSigner(sid: Sid, sender: Member, signature: Bytes)
      requires sid in sessions
      modifies `sessions, `rows
      ensures State() == N.Updated(local, old(State()), sid, sender, signature)
    {
      var signers := RowsOf(rows, sid);
      if sender !in signers { return; }
      rows := rows[sid := signers[sender := signature]];
      if sender == local.id && sessions[sid].state == N.Initial {
        sessions := sessions[sid := sessions[sid].(state := N.Pending)];
      }
    }

    method ProcessSignerResult(out: Output) returns (reply: Option<Reply>)
      requires out.event.Report? && out.sender in c.members
      modifies `sessions, `rows
      ensures (State(), reply) == N.Worked(c, local, old(State()), N.Acting(out))
    {
      var sid := out.event.sid;
      if sid !in sessions { return None; }
      var session := sessions[sid];
      N.ReportWork(c, local, State(), out);
      UpdateSessionSigner(sid, out.sender, out.event.signature);
      var finished, sig := VerifySessionSignerResults(RowsOf(rows, sid));
      if !finished { return Some(Silent); }
      N.SigningWork(c, local, State(), out, sid, session, sig);
      var extra := session.extra;
      if !N.Appended(extra) {
        if |extra| > N.EXTRA_LIMIT { return None; }
        extra := N.Append(extra, sig).value;
      }
      if session.state == N.Initial && session.prepared {
        var marked := MarkSessionPending(sid, extra);
        if !marked { return None; }
      }
      N.CheckingWork(c, local, State(), out, sid, session, sig, extra);
      if N.SignatureIn(local, session, extra) != Some(sig) { return None; }
      var replied := CheckActionResultsBySessionId(sid);
      if replied { return Some(Silent); }
      if !out.affordable { return Some(Compact); }
      return Some(Answer(sid, session.curve, c.holderOf(session.public), sig));
    }

    method ProcessAction(out: Output) returns (reply: Option<Reply>)
      modifies `sessions, `rows
      ensures (State(), reply) == N.Worked(c, local, old(State()), N.Acting(out))
    {
      reply := Some(Silent);
      match out.event
      case Nothing =>
      case Begin(_, _, _, _) => WriteSessionIfNotExist(out.event);
      case Prepare(_) => if out.sender in c.members { reply := ProcessSignerPrepare(out); }
      case Report(_, _) => if out.sender in c.members { reply := ProcessSignerResult(out); }
    }

    /** With a reply the node has done to its tables what the group does; after a panic they are somewhere on the way. */
    method ProcessActionWithPersistence(out: Output) returns (reply: Option<Reply>)
      modifies this
      ensures (State(), reply) == N.Complete(c, local, old(State()), out)
      ensures reply.Some? ==> (N.Shared(State()), reply.value) == Take(c, N.Shared(old(State())), out)
      ensures reply.None? ==> R.Between(c, N.Shared(old(State())), out, N.Shared(State()))
    {
      R.CompleteOk(c, local, State(), out);
      if out.oid in results { return Some(results[out.oid].reply); }
      reply := ProcessAction(out);
      if reply.Some? { results := results[out.oid := Entry(SessionOf(c, out), reply.value)]; }
    }
  }
}
