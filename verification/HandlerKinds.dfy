/** Why the order theorem asks for messages of the kind their round waits for: one that is not makes order matter. */
module HandlerKinds {
  import opened Options
  import opened HandlerSpec
  import opened HandlerOrder

  /** Two parties and one exchange: round 1 sends nothing, round 2 waits for one direct message. */
  function OneExchange(): Protocol
  {
    Protocol("a", ["a", "b"], [], "exchange", 2, [],
             n => false, n => n == 2, (n, s, id, d) => true, (n, s, id, b, d) => true,
             (n, s, b, d) => if n == 1 then Next([], []) else Output([1]), l => [])
  }

  function From(broadcast: bool): Message
  {
    Message([], "b", "", "exchange", 2, Some([]), broadcast, [])
  }

  ghost function Waiting(): Handler
  {
    var h := Fresh(OneExchange(), EmptyQueue(2), EmptyQueue(2));
    h.(rounds := h.rounds[2 := Round(2, [], map[], map[])], current := 2)
  }

  lemma {:induction false} ValidExchange()
    ensures OneExchange().Valid()
  {
    var p := OneExchange();
    assert p.parties[0] == "a" && p.parties[1] == "b" && "a" != "b";
  }

  lemma {:induction false} Begins()
    ensures OneExchange().Valid() && New(OneExchange()) == Enter(OneExchange(), Waiting())
  {
    ValidExchange();
    var p := OneExchange();
    var h := Fresh(p, EmptyQueue(2), EmptyQueue(2));
    assert Finalize(p, h) == Advance(p, h);
    assert Stepped(p, h) == Next([], []);
    assert NextRound(p, h, 2, [], []) == Waiting();
  }

  lemma {:induction false} Waits()
    ensures OneExchange().Valid() && Enter(OneExchange(), Waiting()) == Waiting()
  {
    ValidExchange();
    var p, g := OneExchange(), Waiting();
    assert Drained(p, g) == g.rounds[2];
    assert g.rounds[2 := g.rounds[2]] == g.rounds;
    assert WithDrained(p, g) == g;
    assert p.Other("b") && !AllDirects(p, g, 2);
    assert !Received(p, g) && Hashed(p, g) == g;
  }

  lemma {:induction false} Started()
    ensures OneExchange().Valid() && New(OneExchange()) == Waiting()
  {
    hide New, Enter;
    Begins();
    Waits();
  }

  lemma {:induction false} Direct()
    ensures OneExchange().Valid() && Observe(Accept(OneExchange(), Waiting(), From(false))).Finished?
  {
    Started();
    var p, h, m := OneExchange(), Waiting(), From(false);
    var g := Store(h, m);
    assert !Ignored(p, h, m);
    var v := Verify(p, g, m).value;
    assert forall id :: p.Other(id) ==> id == "b";
    assert Received(p, v) && Hashed(p, v) == v && EchoOk(v);
    assert Stepped(p, v) == Output([1]);
  }

  lemma {:induction false} Unexpected()
    ensures OneExchange().Valid() && Observe(Accept(OneExchange(), Waiting(), From(true))) == Aborted(BadMessage, 2)
  {
    Started();
    assert !Ignored(OneExchange(), Waiting(), From(true));
  }

  /** The same two messages, in both orders: one run finishes, the other aborts. */
  lemma {:induction false} KindMatters()
    ensures OneExchange().Valid()
    ensures Observe(Deliver(OneExchange(), [From(false), From(true)])).Finished?
    ensures Observe(Deliver(OneExchange(), [From(true), From(false)])) == Aborted(BadMessage, 2)
  {
    Started();
    Direct();
    Unexpected();
    TwoMessages(OneExchange(), From(false), From(true));
    TwoMessages(OneExchange(), From(true), From(false));
  }

  lemma {:induction false} TwoMessages(p: Protocol, a: Message, b: Message)
    requires p.Valid()
    ensures Deliver(p, [a, b]) == Accept(p, Accept(p, New(p), a), b)
  {
    assert [a, b][..1] == [a] && [a][..0] == [];
    assert Deliver(p, [a]) == Accept(p, Deliver(p, []), a);
  }
}
