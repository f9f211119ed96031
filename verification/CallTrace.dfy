/** Native transfers in the call tree of an Ethereum transaction, numbered by the order of the calls. */
module CallTrace {
  import opened Options

  /** `value` is absent for calls that carry none; a failed or a static call counts, but nothing inside it does. */
  datatype Trace = Trace(failed: bool, fixed: bool, value: Option<nat>, sender: string, receiver: string, calls: seq<Trace>)
  {
    predicate Skipped()
    {
      failed || fixed
    }
  }

  datatype Transfer = Transfer(hash: string, asset: string, index: nat, token: string, sender: string, receiver: string, value: nat)

  const EMPTY: string := "0x0000000000000000000000000000000000000000"

  // ---- The calls in order

  /** The calls that are counted, a call before those it makes. */
  function Calls(t: Trace): (ts: seq<Trace>)
    ensures |ts| >= 1 && ts[0] == t
    decreases t
  {
    [t] + if t.Skipped() then [] else AllCalls(t.calls)
  }

  function AllCalls(ts: seq<Trace>): seq<Trace>
    decreases ts
  {
    if ts == [] then [] else AllCalls(ts[..|ts| - 1]) + Calls(ts[|ts| - 1])
  }

  predicate Pays(t: Trace)
  {
    !t.Skipped() && t.value.Some? && t.value.value > 0
  }

  function Payment(asset: string, hash: string, t: Trace, index: nat): Transfer
    requires Pays(t)
  {
    Transfer(hash, asset, index, EMPTY, t.sender, t.receiver, t.value.value)
  }

  /** The payments among the calls, each with the number of its call. */
  function Payments(asset: string, hash: string, ts: seq<Trace>, index: nat): (ps: seq<Transfer>)
    decreases |ts|
  {
    if ts == [] then []
    else
      var n := |ts| - 1;
      Payments(asset, hash, ts[..n], index) + if Pays(ts[n]) then [Payment(asset, hash, ts[n], index + n)] else []
  }

  lemma {:induction false} PaymentsAppend(asset: string, hash: string, a: seq<Trace>, b: seq<Trace>, index: nat)
    ensures Payments(asset, hash, a + b, index) == Payments(asset, hash, a, index) + Payments(asset, hash, b, index + |a|)
    decreases |b|
  {
    if b == [] {
      assert a + b == a;
    } else {
      var n := |b| - 1;
      PaymentsAppend(asset, hash, a, b[..n], index);
      assert (a + b)[..|a + b| - 1] == a + b[..n];
    }
  }

  lemma {:induction false} OneCall(asset: string, hash: string, t: Trace, index: nat)
    ensures Payments(asset, hash, [t], index) == if Pays(t) then [Payment(asset, hash, t, index)] else []
    ensures Calls(t) == if t.Skipped() then [t] else [t] + AllCalls(t.calls)
  {
    assert [t][..0] == [];
  }

  lemma {:induction false} NextCall(asset: string, hash: string, t: Trace, n: nat, index: nat)
    requires n < |t.calls|
    ensures var done, call := AllCalls(t.calls[..n]), Calls(t.calls[n]);
            && AllCalls(t.calls[..n + 1]) == done + call
            && Payments(asset, hash, [t] + (done + call), index) ==
               Payments(asset, hash, [t] + done, index) + Payments(asset, hash, call, index + 1 + |done|)
  {
    hide Payments, Calls;
    assert t.calls[..n + 1][..n] == t.calls[..n];
    var done, call := AllCalls(t.calls[..n]), Calls(t.calls[n]);
    PaymentsAppend(asset, hash, [t] + done, call, index);
    assert [t] + done + call == [t] + (done + call);
  }

  /** Walks over the tree, handing out the numbers as it goes. */
  method LoopCalls(asset: string, hash: string, t: Trace, index: nat) returns (transfers: seq<Transfer>, end: nat)
    ensures end == index + |Calls(t)|
    ensures transfers == Payments(asset, hash, Calls(t), index)
    decreases t
  {
    hide Payments, Calls;
    OneCall(asset, hash, t, index);
    transfers := [];
    if t.failed || t.fixed { return transfers, index + 1; }
    if t.value.Some? {
      if t.value.value > 0 {
        transfers := [Payment(asset, hash, t, index)];
      }
    }
    end := index + 1;
    assert [t] + AllCalls(t.calls[..0]) == [t];
    for n := 0 to |t.calls|
      invariant end == index + 1 + |AllCalls(t.calls[..n])|
      invariant transfers == Payments(asset, hash, [t] + AllCalls(t.calls[..n]), index)
    {
      var inner, after := LoopCalls(asset, hash, t.calls[n], end);
      NextCall(asset, hash, t, n, index);
      end := after;
      transfers := transfers + inner;
    }
    assert t.calls[..|t.calls|] == t.calls;
  }

  // ---- All transactions of a block

  datatype BlockTx = BlockTx(hash: string, sender: string)

  /** Transactions from the empty address have no trace. */
  function Traced(txs: seq<BlockTx>): seq<BlockTx>
    decreases |txs|
  {
    if txs == [] then []
    else
      var n := |txs| - 1;
      Traced(txs[..n]) + if txs[n].sender == EMPTY then [] else [txs[n]]
  }

  /** The transfers of a block are those of its traced transactions; traces that do not pair up with them panic. */
  method LoopBlockTraces(asset: string, traces: seq<Trace>, block: seq<BlockTx>) returns (r: Option<seq<Transfer>>)
    ensures r.Some? <==> |Traced(block)| == |traces|
    ensures r.Some? ==> forall t :: t in r.value <==> exists i :: 0 <= i < |traces| && t in Payments(asset, Traced(block)[i].hash, Calls(traces[i]), 0)
  {
    hide Payments, Calls;
    var txs: seq<BlockTx> := [];
    for n := 0 to |block|
      invariant txs == Traced(block[..n])
    {
      assert block[..n + 1][..n] == block[..n];
      if block[n].sender != EMPTY { txs := txs + [block[n]]; }
    }
    assert block[..|block|] == block;
    if |txs| != |traces| { return None; }
    var transfers: seq<Transfer> := [];
    for n := 0 to |traces|
      invariant forall t :: t in transfers <==> exists i :: 0 <= i < n && t in Payments(asset, txs[i].hash, Calls(traces[i]), 0)
    {
      var some, _ := LoopCalls(asset, txs[n].hash, traces[n], 0);
      transfers := transfers + some;
    }
    return Some(transfers);
  }

  // ---- What the numbers say

  ghost predicate Ascending(ps: seq<Transfer>, low: nat, high: nat)
  {
    && (forall i :: 0 <= i < |ps| ==> low <= ps[i].index < high)
    && forall i, j :: 0 <= i < j < |ps| ==> ps[i].index < ps[j].index
  }

  /** The numbers strictly increase and lie in the range that is returned. */
  lemma {:induction false} Numbered(asset: string, hash: string, ts: seq<Trace>, index: nat)
    ensures Ascending(Payments(asset, hash, ts, index), index, index + |ts|)
    decreases |ts|
  {
    if ts != [] { Numbered(asset, hash, ts[..|ts| - 1], index); }
  }

  /** The transfer of native coin that a call with this number makes: one that did not fail and carries a value. */
  predicate PaidBy(t: Trace, asset: string, hash: string, number: nat, p: Transfer)
  {
    && !t.failed && !t.fixed && t.value.Some? && t.value.value > 0
    && p == Transfer(hash, asset, number, EMPTY, t.sender, t.receiver, t.value.value)
  }

  /** A call has a payment under its number exactly when it pays. */
  lemma {:induction false} PaidExactly(asset: string, hash: string, ts: seq<Trace>, index: nat, p: Transfer)
    ensures p in Payments(asset, hash, ts, index) <==> exists k :: 0 <= k < |ts| && PaidBy(ts[k], asset, hash, index + k, p)
    decreases |ts|
  {
    if ts != [] {
      hide PaidBy;
      var n := |ts| - 1;
      PaidExactly(asset, hash, ts[..n], index, p);
      assert forall k :: 0 <= k < n ==> ts[..n][k] == ts[k];
      LastPaid(asset, hash, ts, index, p);
      if exists k :: 0 <= k < n && PaidBy(ts[..n][k], asset, hash, index + k, p) {
        var k :| 0 <= k < n && PaidBy(ts[..n][k], asset, hash, index + k, p);
        assert PaidBy(ts[k], asset, hash, index + k, p);
      }
    }
  }

  lemma {:induction false} LastPaid(asset: string, hash: string, ts: seq<Trace>, index: nat, p: Transfer)
    requires ts != []
    ensures p in Payments(asset, hash, ts, index) <==>
              p in Payments(asset, hash, ts[..|ts| - 1], index) || PaidBy(ts[|ts| - 1], asset, hash, index + |ts| - 1, p)
  {
  }

  // ---- Finding a recorded transfer again

  predicate Matches(t: Transfer, token: string, index: nat, receiver: string, amount: nat)
  {
    t.token == token && t.index == index && t.receiver == receiver && t.value == amount
  }

  /** The matching loop of `VerifyDeposit`: the first transfer that matches. */
  method FindTransfer(ts: seq<Transfer>, token: string, index: nat, receiver: string, amount: nat) returns (r: Option<Transfer>)
    ensures r.Some? ==> exists i :: 0 <= i < |ts| && r.value == ts[i] && Matches(ts[i], token, index, receiver, amount)
                                 && forall j :: 0 <= j < i ==> !Matches(ts[j], token, index, receiver, amount)
    ensures r.None? ==> forall i :: 0 <= i < |ts| ==> !Matches(ts[i], token, index, receiver, amount)
  {
    for n := 0 to |ts|
      invariant forall i :: 0 <= i < n ==> !Matches(ts[i], token, index, receiver, amount)
    {
      if Matches(ts[n], token, index, receiver, amount) { return Some(ts[n]); }
    }
    return None;
  }

  function Swapped(t: Transfer): Transfer
  {
    t.(hash := t.asset, asset := t.hash)
  }

  lemma {:induction false} SwappedPayments(asset: string, hash: string, ts: seq<Trace>, index: nat)
    ensures var a, b := Payments(asset, hash, ts, index), Payments(hash, asset, ts, index);
            |a| == |b| && forall i :: 0 <= i < |a| ==> b[i] == Swapped(a[i])
    decreases |ts|
  {
    if ts != [] { SwappedPayments(asset, hash, ts[..|ts| - 1], index); }
  }

  /**
   `VerifyDeposit` on the traced calls and the token logs: the first transfer that matches. A native transfer that
   was recorded from the same calls is found again, it and no other, whatever token logs follow. The source
   exchanges two arguments of the walk there, so its hash and asset come back exchanged.
   */
  method VerifyDeposit(asset: string, hash: string, trace: Trace, logs: seq<Transfer>,
                       token: string, index: nat, receiver: string, amount: nat) returns (r: Option<Transfer>)
    ensures forall t :: t in Payments(asset, hash, Calls(trace), 0) && Matches(t, token, index, receiver, amount) ==> r == Some(Swapped(t))
    ensures r.Some? ==> Matches(r.value, token, index, receiver, amount) && r.value in Payments(hash, asset, Calls(trace), 0) + logs
    ensures r.None? ==> forall t :: t in Payments(hash, asset, Calls(trace), 0) + logs ==> !Matches(t, token, index, receiver, amount)
  {
    hide Payments, Calls;
    var native, _ := LoopCalls(hash, asset, trace, 0);
    var all := native + logs;
    r := FindTransfer(all, token, index, receiver, amount);
    ghost var was := Payments(asset, hash, Calls(trace), 0);
    SwappedPayments(asset, hash, Calls(trace), 0);
    Numbered(hash, asset, Calls(trace), 0);
    forall t | t in was && Matches(t, token, index, receiver, amount) ensures r == Some(Swapped(t)) {
      var i :| 0 <= i < |was| && was[i] == t;
      assert all[i] == Swapped(t) && Matches(all[i], token, index, receiver, amount);
      assert forall j :: 0 <= j < |native| && j != i ==> all[j].index != index;
    }
  }

  // ---- The order of the calls

  /** A call is named by the way to it from the top: which call of that call, and so on. */
  type Path = seq<nat>

  /** The call at the end of the way, if nothing on the way failed or was static. */
  function At(t: Trace, path: Path): (r: Option<Trace>)
    decreases |path|
  {
    if path == [] then Some(t)
    else if t.Skipped() || path[0] >= |t.calls| then None
    else At(t.calls[path[0]], path[1..])
  }

  /** A call comes before those it makes, and before everything that is made after them. */
  predicate Earlier(a: Path, b: Path)
    decreases |a|
  {
    if a == [] then b != []
    else b != [] && (a[0] < b[0] || (a[0] == b[0] && Earlier(a[1..], b[1..])))
  }

  ghost predicate InOrder(ps: seq<Path>)
  {
    forall i, j :: 0 <= i < j < |ps| ==> Earlier(ps[i], ps[j])
  }

  /** The paths name these calls, in order, and every call that counts is named. */
  ghost predicate Names(t: Trace, ps: seq<Path>, ts: seq<Trace>)
  {
    && |ps| == |ts| && InOrder(ps)
    && (forall k :: 0 <= k < |ps| ==> At(t, ps[k]) == Some(ts[k]))
    && (forall path :: At(t, path).Some? ==> path in ps)
  }

  /** The same for the first calls a call makes. */
  ghost predicate NamesInner(calls: seq<Trace>, ps: seq<Path>, ts: seq<Trace>)
  {
    && |ps| == |ts| && InOrder(ps)
    && (forall k :: 0 <= k < |ps| ==> ps[k] != [] && ps[k][0] < |calls| && At(calls[ps[k][0]], ps[k][1..]) == Some(ts[k]))
    && (forall n: nat, path :: n < |calls| && At(calls[n], path).Some? ==> [n] + path in ps)
  }

  function Under(n: nat, ps: seq<Path>): (r: seq<Path>)
    ensures |r| == |ps| && forall k :: 0 <= k < |ps| ==> r[k] == [n] + ps[k]
  {
    seq(|ps|, k requires 0 <= k < |ps| => [n] + ps[k])
  }

  /** The calls are numbered by their place in this order. */
  lemma {:induction false} CallOrder(t: Trace) returns (ps: seq<Path>)
    ensures Names(t, ps, Calls(t))
    decreases t
  {
    if t.Skipped() {
      ps := [[]];
    } else {
      var inner := InnerOrder(t.calls);
      ps := [[]] + inner;
      TopFirst(t, inner, AllCalls(t.calls));
    }
  }

  lemma {:induction false} TopFirst(t: Trace, inner: seq<Path>, ts: seq<Trace>)
    requires !t.Skipped() && NamesInner(t.calls, inner, ts)
    ensures Names(t, [[]] + inner, [t] + ts)
  {
    var ps := [[]] + inner;
    forall path | At(t, path).Some? ensures path in ps {
      if path == [] {
        assert ps[0] == path;
      } else {
        assert [path[0]] + path[1..] == path;
        assert path in inner;
      }
    }
  }

  lemma {:induction false} InnerOrder(calls: seq<Trace>) returns (ps: seq<Path>)
    ensures NamesInner(calls, ps, AllCalls(calls))
    decreases calls
  {
    if calls == [] {
      ps := [];
    } else {
      var n := |calls| - 1;
      var before := InnerOrder(calls[..n]);
      var last := CallOrder(calls[n]);
      ps := before + Under(n, last);
      OneMoreCall(calls, before, AllCalls(calls[..n]), last, Calls(calls[n]));
    }
  }

  lemma {:induction false} OneMoreCall(calls: seq<Trace>, before: seq<Path>, ts: seq<Trace>, last: seq<Path>, us: seq<Trace>)
    requires calls != [] && NamesInner(calls[..|calls| - 1], before, ts) && Names(calls[|calls| - 1], last, us)
    ensures NamesInner(calls, before + Under(|calls| - 1, last), ts + us)
  {
    var n := |calls| - 1;
    var ps := before + Under(n, last);
    MoreInOrder(n, before, last);
    hide InOrder, Under, At;
    forall k | 0 <= k < |ps| ensures ps[k] != [] && ps[k][0] < |calls| && At(calls[ps[k][0]], ps[k][1..]) == Some((ts + us)[k]) {
      if k < |before| {
        assert ps[k] == before[k] && calls[..n][before[k][0]] == calls[before[k][0]];
      } else {
        assert ps[k] == [n] + last[k - |before|];
        assert ps[k][1..] == last[k - |before|];
      }
    }
    forall m: nat, path | m < |calls| && At(calls[m], path).Some? ensures [m] + path in ps {
      if m < n { assert calls[..n][m] == calls[m]; } else { MoreNamed(n, before, last, path); }
    }
  }

  lemma {:induction false} MoreNamed(n: nat, before: seq<Path>, last: seq<Path>, path: Path)
    requires path in last
    ensures [n] + path in before + Under(n, last)
  {
    var k :| 0 <= k < |last| && last[k] == path;
    assert (before + Under(n, last))[|before| + k] == [n] + path;
  }

  lemma {:induction false} MoreInOrder(n: nat, before: seq<Path>, last: seq<Path>)
    requires InOrder(before) && InOrder(last) && forall k :: 0 <= k < |before| ==> before[k] != [] && before[k][0] < n
    ensures InOrder(before + Under(n, last))
  {
    var ps := before + Under(n, last);
    forall i, j | 0 <= i < j < |ps| ensures Earlier(ps[i], ps[j]) {
      if |before| <= i {
        UnderEarlier(n, last[i - |before|], last[j - |before|]);
      } else if |before| <= j {
        assert ps[i] == before[i] && ps[j] == [n] + last[j - |before|];
      }
    }
  }

  lemma {:induction false} UnderEarlier(n: nat, a: Path, b: Path)
    requires Earlier(a, b)
    ensures Earlier([n] + a, [n] + b)
  {
    assert ([n] + a)[1..] == a && ([n] + b)[1..] == b;
  }
}
