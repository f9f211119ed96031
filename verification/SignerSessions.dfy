/**
 The sign sessions that a signer group agrees on: who prepared, who reported what, and what was answered.

 This is the replicated part of signer/group.go and signer/store.go, as a function of the ordered outputs alone.
 */
module SignerSessions {
  import opened Options
  import opened Bits

  type Sid = string
  type Member = string
  datatype Config = Config(members: seq<Member>, threshold: nat, holderOf: string -> string)
  {
    ghost predicate Valid()
    {
      forall i, j :: 0 <= i < j < |members| ==> members[i] != members[j]
    }
  }

  /** What the ordered outputs carry for sign sessions. */
  datatype Event =
    | Begin(sid: Sid, curve: nat, public: string, message: Bytes)
    | Prepare(sid: Sid)
    | Report(sid: Sid, signature: Bytes)
    | Nothing

  /** `affordable`: the group can pay for the answer to the keeper at this output. */
  datatype Output = Output(oid: string, sender: Member, event: Event, affordable: bool)

  datatype Reply =
    | Silent
    | Answer(sid: Sid, curve: nat, holder: string, signature: Bytes)
    | Compact

  datatype Info = Info(curve: nat, public: string, prepared: bool)

  datatype Entry = Entry(sid: Sid, reply: Reply)

  datatype Group = Group(sessions: map<Sid, Info>, rows: map<Sid, map<Member, Bytes>>, results: map<string, Entry>)

  function Empty(): Group
  {
    Group(map[], map[], map[])
  }

  function RowsOf(rows: map<Sid, map<Member, Bytes>>, sid: Sid): map<Member, Bytes>
  {
    if sid in rows then rows[sid] else map[]
  }

  // ---- Counting reports

  /** The report of the first member that has one, in the order of the members. */
  function FirstReport(members: seq<Member>, rows: map<Member, Bytes>): (r: Option<Bytes>)
  {
    if members == [] then None
    else if members[0] in rows then Some(rows[members[0]])
    else FirstReport(members[1..], rows)
  }

  function CountReports(members: seq<Member>, rows: map<Member, Bytes>, sig: Bytes): (n: nat)
  {
    if members == [] then 0
    else (if members[0] in rows && rows[members[0]] == sig then 1 else 0) + CountReports(members[1..], rows, sig)
  }

  /** `verifySessionSignerResults`: the signature, if enough members reported it. */
  function Verdict(c: Config, rows: map<Member, Bytes>): (r: Option<Bytes>)
  {
    match FirstReport(c.members, rows)
    case None => None
    case Some(sig) => if sig != [] && CountReports(c.members, rows, sig) >= c.threshold + 1 then Some(sig) else None
  }

  predicate Replied(g: Group, sid: Sid)
  {
    exists o :: o in g.results && g.results[o].sid == sid && g.results[o].reply != Silent
  }

  // ---- One output

  function SidOf(e: Event): Sid
  {
    match e
    case Begin(sid, _, _, _) => sid
    case Prepare(sid) => sid
    case Report(sid, _) => sid
    case Nothing => ""
  }

  function Begun(g: Group, e: Event): Group
    requires e.Begin?
  {
    if e.sid in g.sessions then g else g.(sessions := g.sessions[e.sid := Info(e.curve, e.public, false)])
  }

  /** `processSignerPrepare`: the first to prepare take part, up to one more than the threshold. */
  function Prepared(c: Config, g: Group, sid: Sid, sender: Member): (g': Group)
    requires sid in g.sessions
  {
    if g.sessions[sid].prepared then g
    else
      var rows := RowsOf(g.rows, sid);
      var rows' := if sender in rows then rows else rows[sender := []];
      g.(rows := g.rows[sid := rows'],
         sessions := if |rows'| <= c.threshold then g.sessions else g.sessions[sid := g.sessions[sid].(prepared := true)])
  }

  function Reported(g: Group, sid: Sid, sender: Member, signature: Bytes): (g': Group)
  {
    var rows := RowsOf(g.rows, sid);
    if sender !in rows then g else g.(rows := g.rows[sid := rows[sender := signature]])
  }

  /** `processSignerResult`: answers the keeper when the session is finished and was not answered before. */
  function AnswerOf(c: Config, g: Group, sid: Sid, affordable: bool): (r: Reply)
    requires sid in g.sessions
  {
    match Verdict(c, RowsOf(g.rows, sid))
    case None => Silent
    case Some(sig) =>
      if Replied(g, sid) then Silent
      else if !affordable then Compact
      else Answer(sid, g.sessions[sid].curve, c.holderOf(g.sessions[sid].public), sig)
  }

  function Apply(c: Config, g: Group, out: Output): (r: (Group, Reply))
  {
    match out.event
    case Nothing => (g, Silent)
    case Begin(_, _, _, _) => (Begun(g, out.event), Silent)
    case Prepare(sid) =>
      if out.sender !in c.members || sid !in g.sessions then (g, Silent) else (Prepared(c, g, sid, out.sender), Silent)
    case Report(sid, sig) =>
      if out.sender !in c.members || sid !in g.sessions then (g, Silent)
      else
        var g1 := Reported(g, sid, out.sender, sig);
        (g1, AnswerOf(c, g1, sid, out.affordable))
  }

  /** Unknown senders and unreadable messages belong to no session. */
  function SessionOf(c: Config, out: Output): Sid
  {
    if (out.event.Prepare? || out.event.Report?) && out.sender !in c.members then "" else SidOf(out.event)
  }

  /** `processActionWithPersistence`: an output that was handled before returns its recorded result. */
  function Take(c: Config, g: Group, out: Output): (r: (Group, Reply))
  {
    if out.oid in g.results then (g, g.results[out.oid].reply)
    else
      var (g1, reply) := Apply(c, g, out);
      (g1.(results := g1.results[out.oid := Entry(SessionOf(c, out), reply)]), reply)
  }

  function After(c: Config, outs: seq<Output>): (g: Group)
    decreases |outs|
  {
    if outs == [] then Empty() else Take(c, After(c, outs[..|outs| - 1]), outs[|outs| - 1]).0
  }

  /** The replies to a sequence of outputs, in order. */
  function Replies(c: Config, outs: seq<Output>): (rs: seq<Reply>)
    decreases |outs|
  {
    if outs == [] then [] else
      Replies(c, outs[..|outs| - 1]) + [Take(c, After(c, outs[..|outs| - 1]), outs[|outs| - 1]).1]
  }

  // ---- When a session is finished

  lemma {:induction false} CountBound(members: seq<Member>, rows: map<Member, Bytes>, sig: Bytes)
    requires forall i, j :: 0 <= i < j < |members| ==> members[i] != members[j]
    ensures CountReports(members, rows, sig) == |set m | m in members && m in rows && rows[m] == sig|
    decreases |members|
  {
    var s := set m | m in members && m in rows && rows[m] == sig;
    if members == [] {
      assert s == {};
    } else {
      var t := set m | m in members[1..] && m in rows && rows[m] == sig;
      CountBound(members[1..], rows, sig);
      assert members[0] !in members[1..];
      if members[0] in rows && rows[members[0]] == sig {
        assert s == t + {members[0]};
      } else {
        assert s == t;
      }
    }
  }

  lemma {:induction false} FirstIsRow(members: seq<Member>, rows: map<Member, Bytes>)
    ensures var r := FirstReport(members, rows);
            && (r.Some? ==> exists m :: m in members && m in rows && rows[m] == r.value)
            && (r.None? ==> forall m :: m in members ==> m !in rows)
    decreases |members|
  {
    if members != [] {
      if members[0] in rows {
        assert members[0] in members;
      } else {
        FirstIsRow(members[1..], rows);
        var r := FirstReport(members[1..], rows);
        if r.Some? {
          var m :| m in members[1..] && m in rows && rows[m] == r.value;
          assert m in members;
        }
      }
    }
  }

  /** With no more rows than needed, a session is finished exactly when all of them report one and the same signature. */
  lemma {:induction false} FinishedExactly(c: Config, rows: map<Member, Bytes>, sig: Bytes)
    requires c.Valid() && |rows| <= c.threshold + 1 && forall m :: m in rows ==> m in c.members
    ensures Verdict(c, rows) == Some(sig) <==>
              |rows| == c.threshold + 1 && sig != [] && forall m :: m in rows ==> rows[m] == sig
  {
    FirstIsRow(c.members, rows);
    CountBound(c.members, rows, sig);
    var same := set m | m in c.members && m in rows && rows[m] == sig;
    assert same <= rows.Keys;
    SubsetSize(same, rows.Keys);
    if |rows| == c.threshold + 1 && (forall m :: m in rows ==> rows[m] == sig) {
      assert same == rows.Keys;
      assert rows.Keys != {};
      var m :| m in rows;
      assert m in c.members;
    }
    if Verdict(c, rows) == Some(sig) {
      assert same == rows.Keys;
    }
  }

  lemma {:induction false} SubsetSize<T>(a: set<T>, b: set<T>)
    requires a <= b
    ensures |a| <= |b| && (|a| == |b| ==> a == b)
  {
    assert b == a + (b - a);
    assert |b| == |a| + |b - a|;
  }

  // ---- What every output keeps

  /** Never more rows than one over the threshold; a session is prepared exactly when that many are there. */
  ghost predicate SessionOk(c: Config, g: Group, sid: Sid)
  {
    && |RowsOf(g.rows, sid)| <= c.threshold + 1
    && (forall m :: m in RowsOf(g.rows, sid) ==> m in c.members)
    && (sid in g.sessions ==> (g.sessions[sid].prepared <==> |RowsOf(g.rows, sid)| == c.threshold + 1))
    && (sid !in g.sessions ==> RowsOf(g.rows, sid) == map[])
  }

  predicate Spoken(g: Group, o: string)
  {
    o in g.results && g.results[o].reply != Silent
  }

  ghost predicate OneAnswer(g: Group)
  {
    forall o, p :: Spoken(g, o) && Spoken(g, p) && g.results[o].sid == g.results[p].sid ==> o == p
  }

  ghost predicate Inv(c: Config, g: Group)
  {
    (forall sid :: SessionOk(c, g, sid)) && OneAnswer(g)
  }

  lemma {:induction false} PreparedOk(c: Config, g: Group, sid: Sid, sender: Member, x: Sid)
    requires SessionOk(c, g, x) && SessionOk(c, g, sid) && sid in g.sessions && sender in c.members
    ensures SessionOk(c, Prepared(c, g, sid, sender), x)
  {
    if x == sid {
      var rows := RowsOf(g.rows, sid);
      if !g.sessions[sid].prepared && sender !in rows {
        assert rows[sender := []].Keys == rows.Keys + {sender};
        assert |rows[sender := []]| == |rows| + 1;
      }
    }
  }

  lemma {:induction false} ReportedOk(c: Config, g: Group, sid: Sid, sender: Member, sig: Bytes, x: Sid)
    requires SessionOk(c, g, x) && SessionOk(c, g, sid)
    ensures SessionOk(c, Reported(g, sid, sender, sig), x)
  {
    var rows := RowsOf(g.rows, sid);
    if x == sid && sender in rows { assert rows[sender := sig].Keys == rows.Keys; }
  }

  lemma {:induction false} ApplyOk(c: Config, g: Group, out: Output)
    requires Inv(c, g)
    ensures forall sid :: SessionOk(c, Apply(c, g, out).0, sid)
    ensures Apply(c, g, out).0.results == g.results
    ensures Apply(c, g, out).1 != Silent ==> !Replied(g, SessionOf(c, out))
  {
    var g1 := Apply(c, g, out).0;
    forall sid ensures SessionOk(c, g1, sid) {
      assert SessionOk(c, g, sid);
      match out.event
      case Prepare(x) => if out.sender in c.members && x in g.sessions { PreparedOk(c, g, x, out.sender, sid); }
      case Report(x, sig) => if out.sender in c.members && x in g.sessions { ReportedOk(c, g, x, out.sender, sig, sid); }
      case _ =>
    }
  }

  lemma {:induction false} TakeOk(c: Config, g: Group, out: Output)
    requires Inv(c, g)
    ensures Inv(c, Take(c, g, out).0)
  {
    if out.oid !in g.results {
      ApplyOk(c, g, out);
      var g1, g2 := Apply(c, g, out).0, Take(c, g, out).0;
      forall sid ensures SessionOk(c, g2, sid) { assert SessionOk(c, g1, sid); }
      forall o, p | Spoken(g2, o) && Spoken(g2, p) && g2.results[o].sid == g2.results[p].sid ensures o == p {
        assert o != out.oid ==> Spoken(g, o) && g2.results[o] == g.results[o];
        assert p != out.oid ==> Spoken(g, p) && g2.results[p] == g.results[p];
      }
    }
  }

  /** After any outputs, repeated ones included, the rows are bounded and a session has at most one answer. */
  lemma {:induction false} AlwaysOk(c: Config, outs: seq<Output>)
    ensures Inv(c, After(c, outs))
    decreases |outs|
  {
    if outs != [] {
      AlwaysOk(c, outs[..|outs| - 1]);
      TakeOk(c, After(c, outs[..|outs| - 1]), outs[|outs| - 1]);
    }
  }

  /** Once a session is prepared its members are settled. */
  lemma {:induction false} FrozenStep(c: Config, g: Group, out: Output, sid: Sid)
    requires sid in g.sessions && g.sessions[sid].prepared
    ensures var g1 := Take(c, g, out).0;
            && sid in g1.sessions && g1.sessions[sid] == g.sessions[sid]
            && RowsOf(g1.rows, sid).Keys == RowsOf(g.rows, sid).Keys
  {
  }

  lemma {:induction false} FrozenForever(c: Config, outs: seq<Output>, j: nat, k: nat, sid: Sid)
    requires j <= k <= |outs| && sid in After(c, outs[..j]).sessions && After(c, outs[..j]).sessions[sid].prepared
    ensures sid in After(c, outs[..k]).sessions && After(c, outs[..k]).sessions[sid] == After(c, outs[..j]).sessions[sid]
    ensures RowsOf(After(c, outs[..k]).rows, sid).Keys == RowsOf(After(c, outs[..j]).rows, sid).Keys
    decreases k - j
  {
    if j < k {
      assert outs[..j + 1][..j] == outs[..j];
      FrozenStep(c, After(c, outs[..j]), outs[j], sid);
      FrozenForever(c, outs, j + 1, k, sid);
    }
  }

  /** A reported session is answered if and only if all its prepared members have reported the same signature. */
  lemma {:induction false} AnsweredExactly(c: Config, outs: seq<Output>, sid: Sid, sig: Bytes)
    requires c.Valid()
    ensures var rows := RowsOf(After(c, outs).rows, sid);
            Verdict(c, rows) == Some(sig) <==>
              |rows| == c.threshold + 1 && sig != [] && forall m :: m in rows ==> rows[m] == sig
  {
    AlwaysOk(c, outs);
    assert SessionOk(c, After(c, outs), sid);
    FinishedExactly(c, RowsOf(After(c, outs).rows, sid), sig);
  }

  /** At most one output of a session has a result that is not empty. */
  lemma {:induction false} AnsweredOnce(c: Config, outs: seq<Output>, o: string, p: string)
    requires var g := After(c, outs);
             Spoken(g, o) && Spoken(g, p) && g.results[o].sid == g.results[p].sid
    ensures o == p
  {
    AlwaysOk(c, outs);
  }

  lemma {:induction false} ResultsKept(c: Config, outs: seq<Output>, j: nat, k: nat, o: string)
    requires j <= k <= |outs| && o in After(c, outs[..j]).results
    ensures o in After(c, outs[..k]).results && After(c, outs[..k]).results[o] == After(c, outs[..j]).results[o]
    decreases k - j
  {
    if j < k {
      assert outs[..j + 1][..j] == outs[..j];
      ApplyResults(c, After(c, outs[..j]), outs[j]);
      ResultsKept(c, outs, j + 1, k, o);
    }
  }

  lemma {:induction false} ApplyResults(c: Config, g: Group, out: Output)
    ensures Apply(c, g, out).0.results == g.results
  {
  }

  /** Whenever an output comes again, it is given the reply it was given first, and nothing else changes. */
  lemma {:induction false} SameAgain(c: Config, outs: seq<Output>, j: nat, k: nat)
    requires j < k < |outs| && outs[j].oid == outs[k].oid
    ensures Take(c, After(c, outs[..k]), outs[k]) == (After(c, outs[..k]), Take(c, After(c, outs[..j]), outs[j]).1)
  {
    assert outs[..j + 1][..j] == outs[..j];
    assert outs[j].oid in After(c, outs[..j + 1]).results;
    ResultsKept(c, outs, j + 1, k, outs[j].oid);
  }
}
