/**
 What the signer group holds and answers, told from the outputs alone: which began a session, who prepared first,
 what each of them said last, and which output is the one that is answered.
 */
module SignerAnswers {
  import opened Options
  import opened Bits
  import opened SignerSessions

  /** An output that comes for the first time; any later one with the same id is only given the recorded reply. */
  ghost predicate New(outs: seq<Output>, k: nat)
  {
    k < |outs| && forall j :: 0 <= j < k ==> outs[j].oid != outs[k].oid
  }

  ghost predicate NewLast(outs: seq<Output>)
  {
    outs != [] && New(outs, |outs| - 1)
  }

  lemma {:induction false} NewBefore(outs: seq<Output>, k: nat)
    requires k < |outs| - 1
    ensures New(outs, k) <==> New(outs[..|outs| - 1], k)
  {
    var init := outs[..|outs| - 1];
    assert init[k] == outs[k] && forall j :: 0 <= j < k ==> init[j] == outs[j];
  }

  // ---- The recorded results

  lemma {:induction false} RepliesLength(c: Config, outs: seq<Output>)
    ensures |Replies(c, outs)| == |outs|
    decreases |outs|
  {
    if outs != [] { RepliesLength(c, outs[..|outs| - 1]); }
  }

  lemma {:induction false} RepliesPrefix(c: Config, outs: seq<Output>, k: nat)
    requires k < |outs|
    ensures |Replies(c, outs)| == |outs|
    ensures Replies(c, outs)[k] == Take(c, After(c, outs[..k]), outs[k]).1
    decreases |outs|
  {
    RepliesLength(c, outs);
    RepliesLength(c, outs[..|outs| - 1]);
    if k < |outs| - 1 {
      RepliesPrefix(c, outs[..|outs| - 1], k);
      assert outs[..|outs| - 1][..k] == outs[..k];
    }
  }

  /** A result is there exactly for the outputs that came, with the session and the reply of the first that had its id. */
  lemma {:induction false} ResultsExactly(c: Config, outs: seq<Output>, k: nat)
    requires New(outs, k)
    ensures |Replies(c, outs)| == |outs|
    ensures outs[k].oid in After(c, outs).results
    ensures After(c, outs).results[outs[k].oid] == Entry(SessionOf(c, outs[k]), Replies(c, outs)[k])
    decreases |outs|
  {
    var init := outs[..|outs| - 1];
    RepliesLength(c, outs);
    RepliesLength(c, init);
    ApplyResults(c, After(c, init), outs[|outs| - 1]);
    if k < |outs| - 1 {
      NewBefore(outs, k);
      ResultsExactly(c, init, k);
    } else {
      ResultsCame(c, init, outs[k].oid);
    }
  }

  lemma {:induction false} ResultsCame(c: Config, outs: seq<Output>, oid: string)
    ensures oid in After(c, outs).results <==> exists k: nat :: New(outs, k) && outs[k].oid == oid
    ensures oid in After(c, outs).results <==> exists k :: 0 <= k < |outs| && outs[k].oid == oid
    decreases |outs|
  {
    if outs != [] {
      var n := |outs| - 1;
      var init := outs[..n];
      ResultsCame(c, init, oid);
      ApplyResults(c, After(c, init), outs[n]);
      if oid in After(c, init).results {
        var k: nat :| New(init, k) && init[k].oid == oid;
        NewBefore(outs, k);
        assert New(outs, k) && outs[k].oid == oid;
      } else {
        forall k | 0 <= k < n ensures outs[k].oid != oid { assert init[k].oid != oid; }
        if outs[n].oid == oid { assert New(outs, n); }
      }
    }
  }

  // ---- What the outputs say of a session

  /** The event that began the session: the first that asks for it. */
  ghost function BeginOf(outs: seq<Output>, sid: Sid): (e: Option<Event>)
    ensures e.Some? ==> e.value.Begin? && e.value.sid == sid
    decreases |outs|
  {
    if outs == [] then None
    else
      var init, out := outs[..|outs| - 1], outs[|outs| - 1];
      if BeginOf(init, sid).Some? then BeginOf(init, sid)
      else if NewLast(outs) && out.event.Begin? && out.event.sid == sid then Some(out.event) else None
  }

  /** The members that asked to take part once the session had begun, in the order in which they first did. */
  ghost function Asked(c: Config, outs: seq<Output>, sid: Sid): (ms: seq<Member>)
    decreases |outs|
  {
    if outs == [] then []
    else
      var n := |outs| - 1;
      var init, out := outs[..n], outs[n];
      var before := Asked(c, init, sid);
      if NewLast(outs) && out.event == Prepare(sid) && out.sender in c.members && BeginOf(init, sid).Some? && out.sender !in before
      then before + [out.sender] else before
  }

  /** The first of them are the participants, one more than the threshold. */
  ghost function Participants(c: Config, outs: seq<Output>, sid: Sid): (ms: seq<Member>)
  {
    var ms := Asked(c, outs, sid);
    if |ms| <= c.threshold then ms else ms[..c.threshold + 1]
  }

  /** The last signature a participant reported since it takes part, or none. */
  ghost function Said(c: Config, outs: seq<Output>, sid: Sid, m: Member): (sig: Bytes)
    decreases |outs|
  {
    if outs == [] then []
    else
      var n := |outs| - 1;
      var init, out := outs[..n], outs[n];
      if NewLast(outs) && out.event.Report? && out.event.sid == sid && out.sender == m && m in c.members && m in Participants(c, init, sid)
      then out.event.signature else Said(c, init, sid, m)
  }

  // ---- The tables

  ghost predicate Distinct(ms: seq<Member>)
  {
    forall i, j :: 0 <= i < j < |ms| ==> ms[i] != ms[j]
  }

  ghost function SetOf(ms: seq<Member>): set<Member>
  {
    set m | m in ms
  }

  lemma {:induction false} SizeOf(ms: seq<Member>)
    requires Distinct(ms)
    ensures |SetOf(ms)| == |ms|
    decreases |ms|
  {
    if ms == [] {
      assert SetOf(ms) == {};
    } else {
      var init, m := ms[..|ms| - 1], ms[|ms| - 1];
      SizeOf(init);
      assert SetOf(ms) == SetOf(init) + {m};
      assert m !in SetOf(init);
    }
  }

  lemma {:induction false} AskedDistinct(c: Config, outs: seq<Output>, sid: Sid)
    ensures Distinct(Asked(c, outs, sid)) && Distinct(Participants(c, outs, sid))
    decreases |outs|
  {
    if outs != [] { AskedDistinct(c, outs[..|outs| - 1], sid); }
  }

  lemma {:induction false} SetOfMore(ms: seq<Member>, m: Member)
    ensures SetOf(ms + [m]) == SetOf(ms) + {m}
    ensures m in SetOf(ms) <==> m in ms
  {
  }

  lemma {:induction false} ParticipantsSize(c: Config, outs: seq<Output>, sid: Sid)
    ensures |SetOf(Participants(c, outs, sid))| == |Participants(c, outs, sid)|
  {
    AskedDistinct(c, outs, sid);
    SizeOf(Participants(c, outs, sid));
  }

  /** The session, the rows and the reports in the tables are those the outputs tell of. */
  ghost predicate Told(c: Config, g: Group, outs: seq<Output>, sid: Sid)
  {
    var e, rows := BeginOf(outs, sid), RowsOf(g.rows, sid);
    && (sid in g.sessions <==> e.Some?)
    && (e.Some? ==> g.sessions[sid].curve == e.value.curve && g.sessions[sid].public == e.value.public)
    && rows.Keys == SetOf(Participants(c, outs, sid))
    && forall m :: m in rows ==> rows[m] == Said(c, outs, sid, m)
  }

  lemma {:induction false} NewExactly(c: Config, outs: seq<Output>)
    requires outs != []
    ensures NewLast(outs) <==> outs[|outs| - 1].oid !in After(c, outs[..|outs| - 1]).results
  {
    var n := |outs| - 1;
    ResultsCame(c, outs[..n], outs[n].oid);
    forall k | 0 <= k < n ensures outs[..n][k] == outs[k] {}
  }

  /** An output that is about another session, or has come before, says nothing new of this one. */
  lemma {:induction false} NothingNew(c: Config, outs: seq<Output>, sid: Sid, m: Member)
    requires outs != [] && (NewLast(outs) ==> SessionOf(c, outs[|outs| - 1]) != sid || outs[|outs| - 1].event.Nothing?)
    ensures var init := outs[..|outs| - 1];
            && BeginOf(outs, sid) == BeginOf(init, sid) && Participants(c, outs, sid) == Participants(c, init, sid)
            && Said(c, outs, sid, m) == Said(c, init, sid, m)
  {
  }

  lemma {:induction false} BeginTold(c: Config, g: Group, outs: seq<Output>, sid: Sid)
    requires NewLast(outs) && outs[|outs| - 1].event.Begin? && outs[|outs| - 1].event.sid == sid
    requires Told(c, g, outs[..|outs| - 1], sid)
    ensures Told(c, Begun(g, outs[|outs| - 1].event), outs, sid)
  {
    var init := outs[..|outs| - 1];
    assert Participants(c, outs, sid) == Participants(c, init, sid);
    assert forall m :: Said(c, outs, sid, m) == Said(c, init, sid, m);
  }

  lemma {:induction false} PreparedAsked(c: Config, outs: seq<Output>, sid: Sid)
    requires NewLast(outs) && outs[|outs| - 1].event == Prepare(sid) && outs[|outs| - 1].sender in c.members
    requires BeginOf(outs[..|outs| - 1], sid).Some?
    ensures var before, m := Participants(c, outs[..|outs| - 1], sid), outs[|outs| - 1].sender;
            Participants(c, outs, sid) == if |before| == c.threshold + 1 || m in before then before else before + [m]
  {
    var init := outs[..|outs| - 1];
    var asked, m := Asked(c, init, sid), outs[|outs| - 1].sender;
    assert Asked(c, outs, sid) == if m in asked then asked else asked + [m];
    if |asked| > c.threshold && m !in asked { assert (asked + [m])[..c.threshold + 1] == asked[..c.threshold + 1]; }
  }

  lemma {:induction false} PreparedRows(c: Config, g: Group, sid: Sid, m: Member)
    requires sid in g.sessions && SessionOk(c, g, sid)
    ensures var g1, rows := Prepared(c, g, sid, m), RowsOf(g.rows, sid);
            && RowsOf(g1.rows, sid) == (if |rows| == c.threshold + 1 || m in rows then rows else rows[m := []])
            && sid in g1.sessions && g1.sessions[sid].curve == g.sessions[sid].curve && g1.sessions[sid].public == g.sessions[sid].public
  {
  }

  /** Nothing that is told has changed but perhaps the rows, by one that has just come and says nothing. */
  lemma {:induction false} Retold(c: Config, g: Group, g1: Group, outs: seq<Output>, sid: Sid, m: Member)
    requires outs != [] && Told(c, g, outs[..|outs| - 1], sid) && BeginOf(outs, sid) == BeginOf(outs[..|outs| - 1], sid)
    requires forall x :: Said(c, outs, sid, x) == Said(c, outs[..|outs| - 1], sid, x)
    requires sid in g.sessions && sid in g1.sessions
    requires g1.sessions[sid].curve == g.sessions[sid].curve && g1.sessions[sid].public == g.sessions[sid].public
    requires var rows, rows1 := RowsOf(g.rows, sid), RowsOf(g1.rows, sid);
             var before, after := Participants(c, outs[..|outs| - 1], sid), Participants(c, outs, sid);
             || (rows1 == rows && after == before)
             || (rows1 == rows[m := []] && after == before + [m] && Said(c, outs, sid, m) == [])
    ensures Told(c, g1, outs, sid)
  {
    hide Participants, Said, BeginOf, RowsOf, SetOf;
    SetOfMore(Participants(c, outs[..|outs| - 1], sid), m);
  }

  lemma {:induction false} PrepareTold(c: Config, g: Group, outs: seq<Output>, sid: Sid)
    requires NewLast(outs) && outs[|outs| - 1].event == Prepare(sid) && outs[|outs| - 1].sender in c.members && sid in g.sessions
    requires SessionOk(c, g, sid) && Told(c, g, outs[..|outs| - 1], sid)
    ensures Told(c, Prepared(c, g, sid, outs[|outs| - 1].sender), outs, sid)
  {
    var init, m := outs[..|outs| - 1], outs[|outs| - 1].sender;
    var before, rows := Participants(c, init, sid), RowsOf(g.rows, sid);
    assert |rows| == |before| && (m in rows <==> m in before) by {
      hide Participants, Said, BeginOf;
      ParticipantsSize(c, init, sid);
      assert |rows| == |rows.Keys|;
    }
    hide Participants, Asked, SessionOk, Prepared, Said, BeginOf, NewLast, SetOf, RowsOf, Told;
    PreparedSays(c, outs, sid);
    PreparedRows(c, g, sid, m);
    PreparedBegun(c, g, init, sid);
    PreparedAsked(c, outs, sid);
    if |before| != c.threshold + 1 && m !in before { SaidNothing(c, init, sid, m); }
    Retold(c, g, Prepared(c, g, sid, m), outs, sid, m);
  }

  lemma {:induction false} PreparedBegun(c: Config, g: Group, outs: seq<Output>, sid: Sid)
    requires Told(c, g, outs, sid)
    ensures sid in g.sessions <==> BeginOf(outs, sid).Some?
  {
  }

  lemma {:induction false} PreparedSays(c: Config, outs: seq<Output>, sid: Sid)
    requires NewLast(outs) && outs[|outs| - 1].event == Prepare(sid)
    ensures BeginOf(outs, sid) == BeginOf(outs[..|outs| - 1], sid)
    ensures forall x :: Said(c, outs, sid, x) == Said(c, outs[..|outs| - 1], sid, x)
  {
  }

  lemma {:induction false} StillIn(c: Config, outs: seq<Output>, sid: Sid, m: Member)
    requires outs != [] && m in Participants(c, outs[..|outs| - 1], sid)
    ensures m in Participants(c, outs, sid)
  {
    var init := outs[..|outs| - 1];
    var a, b := Asked(c, init, sid), Asked(c, outs, sid);
    assert b == a || b == a + [outs[|outs| - 1].sender];
    var i :| 0 <= i < |Participants(c, init, sid)| && Participants(c, init, sid)[i] == m;
    assert Participants(c, outs, sid)[i] == m;
  }

  /** Who does not take part has not said anything that counts. */
  lemma {:induction false} SaidNothing(c: Config, outs: seq<Output>, sid: Sid, m: Member)
    requires m !in Participants(c, outs, sid)
    ensures Said(c, outs, sid, m) == []
    decreases |outs|
  {
    if outs != [] {
      var init := outs[..|outs| - 1];
      if m in Participants(c, init, sid) {
        StillIn(c, outs, sid, m);
        assert false;
      }
      SaidNothing(c, init, sid, m);
    }
  }

  lemma {:induction false} ReportTold(c: Config, g: Group, outs: seq<Output>, sid: Sid)
    requires NewLast(outs) && outs[|outs| - 1].event.Report? && outs[|outs| - 1].event.sid == sid && outs[|outs| - 1].sender in c.members
    requires Told(c, g, outs[..|outs| - 1], sid)
    ensures Told(c, Reported(g, sid, outs[|outs| - 1].sender, outs[|outs| - 1].event.signature), outs, sid)
  {
    var init, out := outs[..|outs| - 1], outs[|outs| - 1];
    var rows := RowsOf(g.rows, sid);
    assert Participants(c, outs, sid) == Participants(c, init, sid) && BeginOf(outs, sid) == BeginOf(init, sid);
    hide Participants;
    assert out.sender in rows <==> out.sender in Participants(c, init, sid);
    if out.sender in rows { assert rows[out.sender := out.event.signature].Keys == rows.Keys; }
  }

  lemma {:induction false} OtherTold(c: Config, g: Group, g1: Group, outs: seq<Output>, sid: Sid)
    requires outs != [] && (NewLast(outs) ==> SessionOf(c, outs[|outs| - 1]) != sid || outs[|outs| - 1].event.Nothing?)
    requires Told(c, g, outs[..|outs| - 1], sid)
    requires (sid in g1.sessions <==> sid in g.sessions) && (sid in g.sessions ==> g1.sessions[sid] == g.sessions[sid])
    requires RowsOf(g1.rows, sid) == RowsOf(g.rows, sid)
    ensures Told(c, g1, outs, sid)
  {
    hide BeginOf, Participants, Said;
    forall m ensures Said(c, outs, sid, m) == Said(c, outs[..|outs| - 1], sid, m) { NothingNew(c, outs, sid, m); }
    NothingNew(c, outs, sid, "");
  }

  /** Told looks at sessions and rows only. */
  lemma {:induction false} ToldRecorded(c: Config, g: Group, results: map<string, Entry>, outs: seq<Output>, sid: Sid)
    requires Told(c, g, outs, sid)
    ensures Told(c, g.(results := results), outs, sid)
  {
  }

  lemma {:induction false} ToldStep(c: Config, outs: seq<Output>, sid: Sid)
    requires outs != []
    requires var init := outs[..|outs| - 1];
             SessionOk(c, After(c, init), sid) && Told(c, After(c, init), init, sid)
    ensures Told(c, After(c, outs), outs, sid)
  {
    hide Told, NewLast, SessionOk, Begun, Prepared, Reported, AnswerOf;
    var init, out := outs[..|outs| - 1], outs[|outs| - 1];
    var g := After(c, init);
    NewExactly(c, outs);
    if !NewLast(outs) {
      OtherTold(c, g, g, outs, sid);
    } else {
      var g1 := Apply(c, g, out).0;
      ApplyTold(c, g, outs, sid);
      ToldRecorded(c, g1, After(c, outs).results, outs, sid);
    }
  }

  lemma {:induction false} ApplyTold(c: Config, g: Group, outs: seq<Output>, sid: Sid)
    requires outs != [] && NewLast(outs) && SessionOk(c, g, sid) && Told(c, g, outs[..|outs| - 1], sid)
    ensures Told(c, Apply(c, g, outs[|outs| - 1]).0, outs, sid)
  {
    hide Told, SessionOk, NewLast;
    var out := outs[|outs| - 1];
    var g1 := Apply(c, g, out).0;
    if SessionOf(c, out) != sid || out.event.Nothing? {
      OtherTold(c, g, g1, outs, sid);
    } else if out.event.Begin? {
      BeginTold(c, g, outs, sid);
    } else if out.sender !in c.members || sid !in g.sessions {
      UnknownTold(c, g, outs, sid);
    } else if out.event.Prepare? {
      PrepareTold(c, g, outs, sid);
    } else {
      ReportTold(c, g, outs, sid);
    }
  }

  /** Who speaks of a session that has not begun, or is no member, is not heard. */
  lemma {:induction false} UnknownTold(c: Config, g: Group, outs: seq<Output>, sid: Sid)
    requires NewLast(outs) && (outs[|outs| - 1].event.Prepare? || outs[|outs| - 1].event.Report?)
    requires outs[|outs| - 1].sender !in c.members || sid !in g.sessions
    requires Told(c, g, outs[..|outs| - 1], sid) && SessionOk(c, g, sid)
    ensures Told(c, g, outs, sid)
  {
    var init, out := outs[..|outs| - 1], outs[|outs| - 1];
    assert BeginOf(outs, sid) == BeginOf(init, sid);
    assert Participants(c, outs, sid) == Participants(c, init, sid);
    hide Participants;
    if sid !in g.sessions { assert RowsOf(g.rows, sid) == map[]; }
    forall m | m in RowsOf(g.rows, sid) ensures Said(c, outs, sid, m) == Said(c, init, sid, m) {}
  }

  lemma {:induction false} AlwaysTold(c: Config, outs: seq<Output>, sid: Sid)
    ensures Told(c, After(c, outs), outs, sid)
    decreases |outs|
  {
    if outs == [] {
      assert SetOf([]) == {};
    } else {
      var init := outs[..|outs| - 1];
      AlwaysTold(c, init, sid);
      AlwaysOk(c, init);
      assert SessionOk(c, After(c, init), sid);
      ToldStep(c, outs, sid);
    }
  }

  // ---- The answer

  /** All participants have said one and the same signature. */
  ghost predicate Agreed(c: Config, outs: seq<Output>, sid: Sid, sig: Bytes)
  {
    && sig != [] && |Participants(c, outs, sid)| == c.threshold + 1
    && forall m :: m in Participants(c, outs, sid) ==> Said(c, outs, sid, m) == sig
  }

  ghost predicate Settled(c: Config, outs: seq<Output>, sid: Sid)
  {
    exists sig :: Agreed(c, outs, sid, sig)
  }

  /** No output of the session was answered. */
  ghost predicate Unanswered(c: Config, outs: seq<Output>, sid: Sid)
    requires |Replies(c, outs)| == |outs|
  {
    forall k: nat :: New(outs, k) && SessionOf(c, outs[k]) == sid ==> Replies(c, outs)[k] == Silent
  }

  lemma {:induction false} VerdictAgreed(c: Config, outs: seq<Output>, sid: Sid, sig: Bytes)
    requires c.Valid()
    ensures Verdict(c, RowsOf(After(c, outs).rows, sid)) == Some(sig) <==> Agreed(c, outs, sid, sig)
  {
    hide Verdict, Participants, Said;
    var rows := RowsOf(After(c, outs).rows, sid);
    AnsweredExactly(c, outs, sid, sig);
    AlwaysTold(c, outs, sid);
    ParticipantsSize(c, outs, sid);
    assert |rows| == |rows.Keys|;
  }

  lemma {:induction false} RepliedExactly(c: Config, outs: seq<Output>, sid: Sid)
    ensures |Replies(c, outs)| == |outs|
    ensures Replied(After(c, outs), sid) <==> !Unanswered(c, outs, sid)
  {
    RepliesLength(c, outs);
    var g := After(c, outs);
    if Replied(g, sid) {
      var o :| o in g.results && g.results[o].sid == sid && g.results[o].reply != Silent;
      ResultsCame(c, outs, o);
      var k: nat :| New(outs, k) && outs[k].oid == o;
      ResultsExactly(c, outs, k);
    }
    if !Unanswered(c, outs, sid) {
      var k: nat :| New(outs, k) && SessionOf(c, outs[k]) == sid && Replies(c, outs)[k] != Silent;
      ResultsExactly(c, outs, k);
      assert g.results[outs[k].oid].sid == sid;
    }
  }

  lemma {:induction false} ReportReply(c: Config, outs: seq<Output>, k: nat, sid: Sid)
    requires c.Valid() && New(outs, k) && outs[k].event.Report? && outs[k].event.sid == sid
    requires outs[k].sender in c.members && BeginOf(outs[..k], sid).Some?
    ensures var g, g1 := After(c, outs[..k]), After(c, outs[..k + 1]);
            && sid in g.sessions && outs[k].oid !in g.results
            && Take(c, g, outs[k]).1 ==
                 match Verdict(c, RowsOf(g1.rows, sid))
                 case None => Silent
                 case Some(sig) =>
                   if Replied(g, sid) then Silent
                   else if !outs[k].affordable then Compact
                   else Answer(sid, g.sessions[sid].curve, c.holderOf(g.sessions[sid].public), sig)
  {
    var init := outs[..k];
    var g := After(c, init);
    AlwaysTold(c, init, sid);
    assert outs[..k + 1][..k] == init;
    assert forall j :: 0 <= j < k ==> init[j] == outs[j];
    ResultsCame(c, init, outs[k].oid);
    var g2 := Reported(g, sid, outs[k].sender, outs[k].event.signature);
    assert Replied(g2, sid) <==> Replied(g, sid);
  }

  /**
   The reply to a new report of a member on a session that has begun: the answer, if and only if with it all the
   participants have said one signature, the group can pay, and no earlier output of the session was answered; the
   request for compaction, if the group cannot pay; and silence otherwise. Curve and key are those it began with.
   */
  lemma {:induction false} AnswerExactly(c: Config, outs: seq<Output>, k: nat, sid: Sid, sig: Bytes)
    requires c.Valid() && New(outs, k) && outs[k].event.Report? && outs[k].event.sid == sid
    requires outs[k].sender in c.members && BeginOf(outs[..k], sid).Some?
    ensures |Replies(c, outs)| == |outs| && |Replies(c, outs[..k])| == k
    ensures var e, reply := BeginOf(outs[..k], sid).value, Replies(c, outs)[k];
            var first := Unanswered(c, outs[..k], sid);
            && (reply == Answer(sid, e.curve, c.holderOf(e.public), sig) <==> Agreed(c, outs[..k + 1], sid, sig) && first && outs[k].affordable)
            && (reply == Compact <==> Settled(c, outs[..k + 1], sid) && first && !outs[k].affordable)
            && (reply == Silent <==> !Settled(c, outs[..k + 1], sid) || !first)
  {
    hide Verdict, Agreed, Unanswered, Take, After, BeginOf;
    RepliesPrefix(c, outs, k);
    ReportReply(c, outs, k, sid);
    RepliedExactly(c, outs[..k], sid);
    AlwaysTold(c, outs[..k], sid);
    VerdictAgreed(c, outs[..k + 1], sid, sig);
    var v := Verdict(c, RowsOf(After(c, outs[..k + 1]).rows, sid));
    if v.Some? { VerdictAgreed(c, outs[..k + 1], sid, v.value); }
    if Settled(c, outs[..k + 1], sid) {
      var x :| Agreed(c, outs[..k + 1], sid, x);
      VerdictAgreed(c, outs[..k + 1], sid, x);
    }
  }

  /** Every other new output is met with silence. */
  lemma {:induction false} OtherwiseSilent(c: Config, outs: seq<Output>, k: nat)
    requires New(outs, k) && |Replies(c, outs)| == |outs|
    requires !outs[k].event.Report? || outs[k].sender !in c.members || BeginOf(outs[..k], outs[k].event.sid).None?
    ensures Replies(c, outs)[k] == Silent
  {
    RepliesPrefix(c, outs, k);
    var init := outs[..k];
    assert forall j :: 0 <= j < k ==> init[j] == outs[j];
    ResultsCame(c, init, outs[k].oid);
    if outs[k].event.Report? { AlwaysTold(c, init, outs[k].event.sid); }
  }
}
