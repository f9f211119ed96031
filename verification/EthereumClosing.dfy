/**
 What closing an Ethereum safe pays. The keeper compares the payments with the balances one by one and counts them;
 it does not ask that they are in different tokens.
 */
module EthereumClosing {
  import opened KeeperTypes
  import opened EthereumLedger
  import opened EthereumInvariant

  function Times(ps: seq<Payment>, token: Token): (n: nat)
    decreases |ps|
  {
    if ps == [] then 0 else (if ps[0].token == token then 1 else 0) + Times(ps[1..], token)
  }

  /** Every token with a balance is paid in once. */
  ghost predicate EachOnce(balances: Balances, holder: Holder, ps: seq<Payment>)
  {
    forall token :: Balance(balances, holder, token) != 0 ==> Times(ps, token) == 1
  }

  ghost predicate PaysBalances(balances: Balances, holder: Holder, ps: seq<Payment>)
  {
    forall token :: PaidIn(ps, token) == Balance(balances, holder, token)
  }

  /** Payments that match pay the balance of a token as often as they mention it. */
  lemma {:induction false} MatchingPays(balances: Balances, holder: Holder, destination: Address, ps: seq<Payment>, token: Token)
    requires Compare(balances, holder, destination, ps) == Matching
    ensures PaidIn(ps, token) == Times(ps, token) * Balance(balances, holder, token)
    ensures forall i :: 0 <= i < |ps| ==> (holder, ps[i].token) in balances && ps[i].destination == destination
    decreases |ps|
  {
    if ps != [] {
      MatchingPays(balances, holder, destination, ps[1..], token);
      assert forall i :: 1 <= i < |ps| ==> ps[i] == ps[1..][i - 1];
    }
  }

  /** A close that the keeper lets pass pays exactly the balances if and only if each of them is paid once. */
  lemma {:induction false} CloseExact(balances: Balances, holder: Holder, ps: seq<Payment>)
    requires ClosePays(balances, holder, ps) == Matching
    ensures PaysBalances(balances, holder, ps) <==> EachOnce(balances, holder, ps)
  {
    hide Compare, PaidIn, Times, Balance;
    forall token ensures PaidIn(ps, token) == Times(ps, token) * Balance(balances, holder, token) {
      MatchingPays(balances, holder, ps[0].destination, ps, token);
    }
    forall token ensures PaidIn(ps, token) == Balance(balances, holder, token) <==>
                           (Balance(balances, holder, token) != 0 ==> Times(ps, token) == 1) {
      OnceOrNothing(Times(ps, token), Balance(balances, holder, token));
    }
  }

  lemma {:induction false} OnceOrNothing(n: nat, b: int)
    ensures n * b == b <==> (b != 0 ==> n == 1)
  {
    if b != 0 && n != 1 { assert (n - 1) * b != 0; }
  }

  /** Such a close, once it is signed, can be taken off the balances and leaves nothing. */
  lemma {:induction false} CloseEmpties(balances: Balances, holder: Holder, ps: seq<Payment>, token: Token)
    requires ClosePays(balances, holder, ps) == Matching && EachOnce(balances, holder, ps)
    ensures Debit(balances, holder, ps).Debited?
    ensures Balance(Debit(balances, holder, ps).balances, holder, token) == 0
  {
    CloseExact(balances, holder, ps);
    MatchingPays(balances, holder, ps[0].destination, ps, token);
    DebitSucceeds(balances, holder, ps);
    forall i | 0 <= i < |ps| ensures Affords(balances, holder, ps, ps[i].token) {
      assert PaidIn(ps, ps[i].token) == Balance(balances, holder, ps[i].token);
    }
    DebitExact(balances, holder, ps, holder, token);
  }

  /** Two balances and two payments in the first token: the comparison passes, and the second token is left out. */
  lemma {:induction false} SameTokenTwice()
    ensures var balances := map[("h", "x") := 5, ("h", "y") := 7];
            var ps := [Payment("x", "d", 5), Payment("x", "d", 5)];
            ClosePays(balances, "h", ps) == Matching && PaidIn(ps, "x") == 10 && PaidIn(ps, "y") == 0
  {
    var balances := map[("h", "x") := 5, ("h", "y") := 7];
    var a := Payment("x", "d", 5);
    var ps := [a, a];
    assert ("h", "x") in balances && ("h", "y") in balances;
    assert Tokens(balances, "h") == {"x", "y"} && "x" != "y";
    assert ps[1..] == [a] && [a][1..] == [];
    assert Compare(balances, "h", "d", [a]) == Matching;
    assert PaidIn([a], "x") == 5 && PaidIn([a], "y") == 0;
  }
}
