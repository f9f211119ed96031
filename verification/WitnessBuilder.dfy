/** Building the account script, the inputs of a transaction and their witnesses, step by step as the program does. */
module WitnessBuilder {
  import opened Options
  import opened Bits
  import opened Script
  import opened WitnessScript

  class ScriptBuilder {
    var script: Bytes
    ghost var ops: seq<Op>

    constructor ()
      ensures Valid() && ops == []
    {
      script, ops := [], [];
    }

    ghost predicate Valid()
      reads this
    {
      (forall i :: 0 <= i < |ops| ==> WellFormed(ops[i])) && script == Assemble(ops)
    }

    method AddOp(code: Byte)
      requires Valid() && code >= OP_1
      modifies this
      ensures Valid() && ops == old(ops) + [Code(code)]
    {
      AssembleAppend(ops, Code(code));
      script := script + [code];
      ops := ops + [Code(code)];
    }

    method AddData(data: Bytes)
      requires Valid() && 1 < |data| <= MAX_DIRECT_PUSH
      modifies this
      ensures Valid() && ops == old(ops) + [Push(data)]
    {
      hide Assemble;
      AssembleAppend(ops, Push(data));
      script := script + ([|data| as Byte] + data);
      ops := ops + [Push(data)];
    }

    method AddInt64(n: nat)
      requires Valid() && 1 <= n <= MAX_LOCK
      modifies this
      ensures Valid() && ops == old(ops) + [PushNumber(n)]
    {
      hide Assemble, Number;
      AssembleAppend(ops, PushNumber(n));
      if n <= 16 {
        script := script + [(80 + n) as Byte];
      } else {
        script := script + ([|Number(n)| as Byte] + Number(n));
      }
      ops := ops + [PushNumber(n)];
    }
  }

  /** The part of the script that counts holder and signer, and asks for an observer. */
  method AddCounting(builder: ScriptBuilder, keys: Keys)
    requires keys.Valid() && builder.Valid()
    modifies builder
    ensures builder.Valid() && builder.ops == old(builder.ops) + (Counting(keys) + ASKING)
  {
    hide Assemble, WellFormed;
    builder.AddData(keys.holder);
    builder.AddOp(OP_CHECKSIG);
    builder.AddOp(OP_SWAP);
    builder.AddData(keys.signer);
    builder.AddOp(OP_CHECKSIG);
    builder.AddOp(OP_ADD);
    builder.AddOp(OP_SWAP);
    builder.AddOp(OP_SIZE);
    builder.AddOp(OP_0NOTEQUAL);
    builder.AddOp(OP_IF);
  }

  /** The part that holds an observer to the time lock, and the comparison. */
  method AddWaiting(builder: ScriptBuilder, keys: Keys, sequence: nat)
    requires keys.Valid() && builder.Valid() && 1 <= sequence <= MAX_LOCK
    modifies builder
    ensures builder.Valid() && builder.ops == old(builder.ops) + (Waiting(keys, sequence) + DECIDING)
  {
    hide Assemble, WellFormed, Number;
    builder.AddData(keys.observer);
    builder.AddOp(OP_CHECKSIGVERIFY);
    builder.AddInt64(sequence);
    builder.AddOp(OP_CHECKSEQUENCEVERIFY);
    builder.AddOp(OP_0NOTEQUAL);
    builder.AddOp(OP_ENDIF);
    builder.AddOp(OP_ADD);
    builder.AddInt64(2);
    builder.AddOp(OP_EQUAL);
  }

  datatype Account = Account(sequence: nat, script: Bytes)

  /** An account exists exactly for the time locks in range; its script is the one whose meaning is known. */
  method BuildWitnessScriptAccount(keys: Keys, lock: nat, chain: nat) returns (r: Option<Account>)
    requires keys.Valid()
    ensures r.Some? <==> LOCK_MINIMUM <= lock <= LOCK_MAXIMUM
    ensures r.Some? ==> 1 <= r.value.sequence <= MAX_LOCK && r.value == Account(Blocks(lock, chain), AccountScript(keys, r.value.sequence))
  {
    hide Assemble, WellFormed, PushNumber;
    if lock < LOCK_MINIMUM || lock > LOCK_MAXIMUM { return None; }
    var sequence := ParseSequence(lock, chain);
    var builder := new ScriptBuilder();
    AddCounting(builder, keys);
    AddWaiting(builder, keys, sequence);
    assert builder.ops == Instructions(keys, sequence);
    return Some(Account(sequence, builder.script));
  }

  // ---- Inputs

  datatype Input = Input(satoshi: nat, script: Bytes, sequence: nat, backup: bool)

  /** How scripts are turned into addresses; addresses are never empty. */
  datatype Net = Net(ofScript: Bytes -> string, ofKey: Bytes -> string)
  {
    ghost predicate Valid()
    {
      forall b: Bytes :: ofScript(b) != "" && ofKey(b) != ""
    }
  }

  datatype TxIn = TxIn(address: string, sequence: nat)

  /** `addInput`; `None` for an error or a panic. */
  function Spending(net: Net, input: Input): (r: Option<TxIn>)
  {
    if |input.script| != 33 && |input.script| <= 100 then None
    else
      var address := if |input.script| == 33 && !input.backup then net.ofKey(input.script) else net.ofScript(input.script);
      var sequence := if input.backup then input.sequence else MAX_SEQUENCE;
      if sequence == 0 then None else Some(TxIn(address, sequence))
  }

  lemma {:induction false} TailShorter(ops: seq<Op>, k: nat)
    requires k <= |ops| && forall i :: 0 <= i < |ops| ==> WellFormed(ops[i])
    ensures |Assemble(ops)| >= |Assemble(ops[k..])|
    decreases k
  {
    if k > 0 {
      TailShorter(ops[1..], k - 1);
      assert ops[1..][k - 1..] == ops[k..];
    }
  }

  lemma {:induction false} PushedLength(ops: seq<Op>, k: nat)
    requires k < |ops| && (forall i :: 0 <= i < |ops| ==> WellFormed(ops[i])) && ops[k].Push? && |ops[k].data| >= 33
    ensures |Assemble(ops)| >= 34 + |Assemble(ops[k + 1..])|
  {
    TailShorter(ops, k);
    assert ops[k..][0] == ops[k] && ops[k..][1..] == ops[k + 1..];
  }

  /** The script of an account is long enough to be told from a key, so that its outputs can be spent by either route. */
  lemma {:induction false} AccountSpendable(net: Net, keys: Keys, blocks: nat, satoshi: nat, backup: bool)
    requires keys.Valid() && 1 <= blocks <= MAX_LOCK
    ensures var script := AccountScript(keys, blocks);
            Spending(net, Input(satoshi, script, blocks, backup)) == Some(TxIn(net.ofScript(script), if backup then blocks else MAX_SEQUENCE))
  {
    hide Assemble, PushNumber;
    InstructionsWellFormed(keys, blocks);
    var ops := Instructions(keys, blocks);
    PushedLength(ops, 0);
    assert ops[1..][2] == Push(keys.signer) && ops[1..][3..] == ops[4..];
    PushedLength(ops[1..], 2);
    assert ops[4..][6] == Push(keys.observer);
    PushedLength(ops[4..], 6);
  }

  function Satoshi(inputs: seq<Input>): nat
  {
    if inputs == [] then 0 else Satoshi(inputs[..|inputs| - 1]) + inputs[|inputs| - 1].satoshi
  }

  lemma {:induction false} AddressGiven(net: Net, input: Input)
    requires net.Valid()
    ensures Spending(net, input).Some? ==> Spending(net, input).value.address != ""
  {
  }

  ghost predicate OneAddress(net: Net, inputs: seq<Input>)
  {
    && (forall i :: 0 <= i < |inputs| ==> Spending(net, inputs[i]).Some?)
    && forall i :: 0 <= i < |inputs| ==> Spending(net, inputs[i]).value.address == Spending(net, inputs[0]).value.address
  }

  lemma {:induction false} OneMore(net: Net, inputs: seq<Input>, n: nat)
    requires n < |inputs| && OneAddress(net, inputs[..n])
    ensures OneAddress(net, inputs[..n + 1]) <==>
              && Spending(net, inputs[n]).Some?
              && (n > 0 ==> Spending(net, inputs[0]).Some? && Spending(net, inputs[n]).value.address == Spending(net, inputs[0]).value.address)
  {
    hide Spending;
    var more := inputs[..n + 1];
    assert more[n] == inputs[n] && more[0] == inputs[0];
    forall i | 0 <= i < n ensures more[i] == inputs[..n][i] {}
    assert n > 0 ==> inputs[..n][0] == inputs[0];
  }

  lemma {:induction false} FewerAddresses(net: Net, inputs: seq<Input>, n: nat)
    requires n <= |inputs| && OneAddress(net, inputs)
    ensures OneAddress(net, inputs[..n])
  {
    hide Spending;
  }

  /** The inputs are taken exactly when each can be spent and all are at one address. */
  method AddInputs(net: Net, inputs: seq<Input>) returns (r: Option<(string, nat, seq<nat>)>)
    requires net.Valid()
    ensures r.Some? <==> OneAddress(net, inputs)
    ensures r.Some? ==>
              var (address, satoshi, sequences) := r.value;
              && satoshi == Satoshi(inputs)
              && (inputs != [] ==> address == Spending(net, inputs[0]).value.address)
              && |sequences| == |inputs|
              && forall i :: 0 <= i < |inputs| ==> sequences[i] == Spending(net, inputs[i]).value.sequence
  {
    hide Spending, OneAddress;
    var address, satoshi, sequences := "", 0, [];
    assert OneAddress(net, inputs[..0]) by { NoInputs(net, inputs[..0]); }
    for n := 0 to |inputs|
      invariant OneAddress(net, inputs[..n])
      invariant satoshi == Satoshi(inputs[..n])
      invariant n > 0 ==> Spending(net, inputs[0]).Some?
      invariant address == if n == 0 then "" else Spending(net, inputs[0]).value.address
      invariant |sequences| == n && forall i :: 0 <= i < n ==> Spending(net, inputs[i]).Some? && sequences[i] == Spending(net, inputs[i]).value.sequence
    {
      var input := inputs[n];
      assert inputs[..n + 1][..n] == inputs[..n];
      OneMore(net, inputs, n);
      AddressGiven(net, input);
      AddressGiven(net, inputs[0]);
      if OneAddress(net, inputs) { FewerAddresses(net, inputs, n + 1); }
      var txin := Spending(net, input);
      if txin.None? { return None; }
      if address == "" { address := txin.value.address; }
      if address != txin.value.address { return None; }
      satoshi := satoshi + input.satoshi;
      sequences := sequences + [txin.value.sequence];
    }
    assert inputs[..|inputs|] == inputs;
    return Some((address, satoshi, sequences));
  }

  lemma {:induction false} NoInputs(net: Net, inputs: seq<Input>)
    requires inputs == []
    ensures OneAddress(net, inputs)
  {
  }

  // ---- Witnesses

  const SIGHASH: Byte := 0x81

  datatype Partial = Partial(key: Bytes, sig: Bytes)

  /** An input of the transaction with the signatures gathered for it. */
  datatype Slot = Slot(sequence: nat, script: Bytes, partials: seq<Partial>)

  type Canonical = Bytes -> Option<Bytes>

  /** The signatures by key, a later one in place of an earlier; none if one is malformed. */
  function Collected(canon: Canonical, partials: seq<Partial>): (r: Option<map<Bytes, Bytes>>)
    decreases |partials|
  {
    if partials == [] then Some(map[])
    else
      var last := partials[|partials| - 1];
      match (Collected(canon, partials[..|partials| - 1]), canon(last.sig))
      case (Some(sigs), Some(sig)) => Some(sigs[last.key := sig])
      case _ => None
  }

  function Element(sigs: map<Bytes, Bytes>, key: Bytes): Bytes
  {
    if key in sigs then sigs[key] + [SIGHASH] else []
  }

  predicate Sufficient(recovery: bool, keys: Keys, sigs: map<Bytes, Bytes>)
  {
    if recovery then keys.observer in sigs && (keys.holder in sigs || keys.signer in sigs)
    else keys.holder in sigs && keys.signer in sigs
  }

  function Stack(keys: Keys, sigs: map<Bytes, Bytes>): seq<Bytes>
  {
    [Element(sigs, keys.observer), Element(sigs, keys.signer), Element(sigs, keys.holder)]
  }

  predicate Recovery(slots: seq<Slot>)
  {
    slots != [] && slots[0].sequence != MAX_SEQUENCE
  }

  predicate Signable(canon: Canonical, keys: Keys, recovery: bool, slot: Slot)
  {
    var sigs := Collected(canon, slot.partials);
    sigs.Some? && Sufficient(recovery, keys, sigs.value)
  }

  method CollectSignatures(canon: Canonical, partials: seq<Partial>) returns (r: Option<map<Bytes, Bytes>>)
    ensures r == Collected(canon, partials)
  {
    var sigs := map[];
    for n := 0 to |partials|
      invariant Collected(canon, partials[..n]) == Some(sigs)
      invariant Malformed(canon, partials[..n]) == false
    {
      assert partials[..n + 1][..n] == partials[..n];
      var sig := canon(partials[n].sig);
      if sig.None? {
        Spoiled(canon, partials, n);
        return None;
      }
      sigs := sigs[partials[n].key := sig.value];
    }
    assert partials[..|partials|] == partials;
    return Some(sigs);
  }

  predicate Malformed(canon: Canonical, partials: seq<Partial>)
  {
    exists i :: 0 <= i < |partials| && canon(partials[i].sig).None?
  }

  lemma {:induction false} Spoiled(canon: Canonical, partials: seq<Partial>, n: nat)
    requires n < |partials| && canon(partials[n].sig).None?
    ensures Collected(canon, partials).None?
    decreases |partials|
  {
    if n < |partials| - 1 {
      Spoiled(canon, partials[..|partials| - 1], n);
    }
  }

  predicate WellFormedAll(canon: Canonical, partials: seq<Partial>)
  {
    forall i :: 0 <= i < |partials| ==> canon(partials[i].sig).Some?
  }

  predicate SignedBy(partials: seq<Partial>, key: Bytes)
  {
    exists i :: 0 <= i < |partials| && partials[i].key == key
  }

  /** `sig` is the signature of the last partial with that key, in canonical form. */
  ghost predicate LastSigned(canon: Canonical, partials: seq<Partial>, key: Bytes, sig: Bytes)
  {
    exists i :: 0 <= i < |partials| && partials[i].key == key && canon(partials[i].sig) == Some(sig)
                && forall j :: i < j < |partials| ==> partials[j].key != key
  }

  lemma {:induction false} LastStays(canon: Canonical, partials: seq<Partial>, last: Partial, key: Bytes, sig: Bytes)
    requires if last.key == key then canon(last.sig) == Some(sig) else LastSigned(canon, partials, key, sig)
    ensures LastSigned(canon, partials + [last], key, sig)
  {
    var all := partials + [last];
    if last.key == key {
      assert all[|partials|] == last;
    } else {
      var i :| 0 <= i < |partials| && partials[i].key == key && canon(partials[i].sig) == Some(sig)
               && forall j :: i < j < |partials| ==> partials[j].key != key;
      assert all[i] == partials[i];
    }
  }

  /** The signatures collected are those of the partials, by key, if every one of them is well formed. */
  lemma {:induction false} CollectedExactly(canon: Canonical, partials: seq<Partial>, key: Bytes)
    ensures var sigs := Collected(canon, partials);
            && (sigs.Some? <==> WellFormedAll(canon, partials))
            && (sigs.Some? ==> (key in sigs.value <==> SignedBy(partials, key)))
            && (sigs.Some? && key in sigs.value ==> LastSigned(canon, partials, key, sigs.value[key]))
    decreases |partials|
  {
    if partials != [] {
      var init, last := partials[..|partials| - 1], partials[|partials| - 1];
      CollectedExactly(canon, init, key);
      assert partials == init + [last];
      assert WellFormedAll(canon, partials) <==> WellFormedAll(canon, init) && canon(last.sig).Some?;
      assert SignedBy(partials, key) <==> SignedBy(init, key) || last.key == key by { SignedByMore(init, last, key); }
      var sigs := Collected(canon, partials);
      if sigs.Some? && key in sigs.value { LastStays(canon, init, last, key, sigs.value[key]); }
    }
  }

  lemma {:induction false} SignedByMore(partials: seq<Partial>, last: Partial, key: Bytes)
    ensures SignedBy(partials + [last], key) <==> SignedBy(partials, key) || last.key == key
  {
    var all := partials + [last];
    assert all[|partials|] == last;
    if SignedBy(partials, key) {
      var i :| 0 <= i < |partials| && partials[i].key == key;
      assert all[i].key == key;
    }
  }

  /** On the normal route holder and signer must have signed, on the recovery route the observer and one of them. */
  lemma {:induction false} SignableExactly(canon: Canonical, keys: Keys, recovery: bool, slot: Slot)
    ensures Signable(canon, keys, recovery, slot) <==>
              && WellFormedAll(canon, slot.partials)
              && (if recovery then
                    SignedBy(slot.partials, keys.observer) && (SignedBy(slot.partials, keys.holder) || SignedBy(slot.partials, keys.signer))
                  else SignedBy(slot.partials, keys.holder) && SignedBy(slot.partials, keys.signer))
  {
    CollectedExactly(canon, slot.partials, keys.holder);
    CollectedExactly(canon, slot.partials, keys.signer);
    CollectedExactly(canon, slot.partials, keys.observer);
  }

  /** Every input is given its witness, or none is. */
  method SignedTransaction(canon: Canonical, slots: seq<Slot>, keys: Keys) returns (r: Option<seq<seq<Bytes>>>)
    ensures r.Some? <==> forall i :: 0 <= i < |slots| ==> Signable(canon, keys, Recovery(slots), slots[i])
    ensures slots == [] || slots[0].sequence == MAX_SEQUENCE ==>
              (r.Some? <==> forall i :: 0 <= i < |slots| ==>
                 WellFormedAll(canon, slots[i].partials) && SignedBy(slots[i].partials, keys.holder) && SignedBy(slots[i].partials, keys.signer))
    ensures slots != [] && slots[0].sequence != MAX_SEQUENCE ==>
              (r.Some? <==> forall i :: 0 <= i < |slots| ==>
                 && WellFormedAll(canon, slots[i].partials) && SignedBy(slots[i].partials, keys.observer)
                 && (SignedBy(slots[i].partials, keys.holder) || SignedBy(slots[i].partials, keys.signer)))
    ensures r.Some? ==>
              && |r.value| == |slots|
              && forall i :: 0 <= i < |slots| ==>
                   r.value[i] == Stack(keys, Collected(canon, slots[i].partials).value) + [slots[i].script]
  {
    hide Collected, Element, SignedBy, WellFormedAll;
    forall i | 0 <= i < |slots|
      ensures Signable(canon, keys, Recovery(slots), slots[i]) <==>
                && WellFormedAll(canon, slots[i].partials)
                && (if Recovery(slots) then
                      && SignedBy(slots[i].partials, keys.observer)
                      && (SignedBy(slots[i].partials, keys.holder) || SignedBy(slots[i].partials, keys.signer))
                    else SignedBy(slots[i].partials, keys.holder) && SignedBy(slots[i].partials, keys.signer))
    {
      SignableExactly(canon, keys, Recovery(slots), slots[i]);
    }
    var recovery := Recovery(slots);
    var witnesses := [];
    for n := 0 to |slots|
      invariant |witnesses| == n
      invariant forall i :: 0 <= i < n ==> Signable(canon, keys, recovery, slots[i])
      invariant forall i :: 0 <= i < n ==> witnesses[i] == Stack(keys, Collected(canon, slots[i].partials).value) + [slots[i].script]
    {
      var collected := CollectSignatures(canon, slots[n].partials);
      if collected.None? { return None; }
      var sigs := collected.value;
      if recovery {
        if keys.observer !in sigs { return None; }
        if keys.holder !in sigs && keys.signer !in sigs { return None; }
      } else {
        if keys.holder !in sigs { return None; }
        if keys.signer !in sigs { return None; }
      }
      var items := [];
      items := items + [Element(sigs, keys.observer)];
      items := items + [Element(sigs, keys.signer)];
      items := items + [Element(sigs, keys.holder)];
      items := items + [slots[n].script];
      witnesses := witnesses + [items];
    }
    return Some(witnesses);
  }

  // ---- What is signed is accepted

  function Present(keys: Keys, sigs: map<Bytes, Bytes>): nat
  {
    (if keys.holder in sigs then 1 else 0) + (if keys.signer in sigs then 1 else 0) + (if keys.observer in sigs then 1 else 0)
  }

  /** The signatures that were gathered are right for the input, with all outputs and this input signed; no signature is not one. */
  ghost predicate Checks(canon: Canonical, check: (Bytes, Bytes) -> Check, partials: seq<Partial>)
  {
    && (forall key :: check(key, []) == Bad)
    && forall i :: 0 <= i < |partials| ==>
         canon(partials[i].sig).Some? ==>
           var sig := canon(partials[i].sig).value + [0x81];
           |sig| <= MAX_ELEMENT && check(partials[i].key, sig) == Good
  }

  lemma {:induction false} CollectedChecks(canon: Canonical, check: (Bytes, Bytes) -> Check, partials: seq<Partial>, key: Bytes)
    requires Checks(canon, check, partials)
    ensures var sigs := Collected(canon, partials);
            sigs.Some? ==>
              && |Element(sigs.value, key)| <= MAX_ELEMENT
              && check(key, Element(sigs.value, key)) == if key in sigs.value then Good else Bad
    decreases |partials|
  {
    if partials != [] {
      CollectedChecks(canon, check, partials[..|partials| - 1], key);
    }
  }

  lemma {:induction false} LockOfSequence(env: Env, blocks: nat, backup: bool)
    requires env.version == 2 && 1 <= blocks <= MAX_LOCK && env.sequence == if backup then blocks else MAX_SEQUENCE
    ensures LockMet(env, blocks) <==> backup
  {
  }

  /** What the account script makes of a witness, on the normal route and on the recovery route. */
  lemma {:induction false} WitnessAccepted(canon: Canonical, check: (Bytes, Bytes) -> Check, keys: Keys, blocks: nat, backup: bool, slot: Slot)
    requires keys.Valid() && 1 <= blocks <= MAX_LOCK && Checks(canon, check, slot.partials)
    requires slot.script == AccountScript(keys, blocks) && slot.sequence == if backup then blocks else MAX_SEQUENCE
    requires Signable(canon, keys, backup, slot)
    ensures var sigs := Collected(canon, slot.partials).value;
            Accepts(Env(2, slot.sequence, check), slot.script, Stack(keys, sigs)) <==> Present(keys, sigs) == 2
  {
    var env := Env(2, slot.sequence, check);
    var sigs := Collected(canon, slot.partials).value;
    CollectedChecks(canon, check, slot.partials, keys.holder);
    CollectedChecks(canon, check, slot.partials, keys.signer);
    CollectedChecks(canon, check, slot.partials, keys.observer);
    ScriptMeaning(env, keys, blocks, Stack(keys, sigs));
    LockOfSequence(env, blocks, backup);
  }

  lemma {:induction false} ThreeCollected(canon: Canonical, a: Partial, b: Partial, c: Partial)
    requires canon(a.sig).Some? && canon(b.sig).Some? && canon(c.sig).Some?
    ensures Collected(canon, [a, b, c]) == Some(map[][a.key := canon(a.sig).value][b.key := canon(b.sig).value][c.key := canon(c.sig).value])
  {
    assert [a, b, c][..2] == [a, b] && [a, b][..1] == [a] && [a][..0] == [];
    assert Collected(canon, [a]) == Some(map[][a.key := canon(a.sig).value]);
    assert Collected(canon, [a, b]) == Some(map[][a.key := canon(a.sig).value][b.key := canon(b.sig).value]);
  }

  /** Three signatures, each of them right: signing takes them on either route and the script rejects the witness. */
  lemma {:induction false} ThreeRejected(backup: bool)
    ensures var keys := Keys(seq(33, _ => 1), seq(33, _ => 2), seq(33, _ => 3));
            var canon, check := (sig: Bytes) => Some(sig), (key: Bytes, sig: Bytes) => if sig == [] then Bad else Good;
            var slot := Slot(if backup then 6 else MAX_SEQUENCE, AccountScript(keys, 6),
                             [Partial(keys.holder, [7]), Partial(keys.signer, [8]), Partial(keys.observer, [9])]);
            && Checks(canon, check, slot.partials)
            && Signable(canon, keys, backup, slot)
            && !Accepts(Env(2, slot.sequence, check), slot.script, Stack(keys, Collected(canon, slot.partials).value))
  {
    var keys := Keys(seq(33, _ => 1), seq(33, _ => 2), seq(33, _ => 3));
    var canon, check := (sig: Bytes) => Some(sig), (key: Bytes, sig: Bytes) => if sig == [] then Bad else Good;
    var slot := Slot(if backup then 6 else MAX_SEQUENCE, AccountScript(keys, 6),
                     [Partial(keys.holder, [7]), Partial(keys.signer, [8]), Partial(keys.observer, [9])]);
    assert keys.holder[0] == 1 && keys.signer[0] == 2 && keys.observer[0] == 3;
    ThreeCollected(canon, slot.partials[0], slot.partials[1], slot.partials[2]);
    assert slot.partials == [slot.partials[0], slot.partials[1], slot.partials[2]];
    assert Present(keys, Collected(canon, slot.partials).value) == 3;
    WitnessAccepted(canon, check, keys, 6, backup, slot);
  }

  /** The unsigned inputs of a transaction that spends from one account by one route. */
  ghost predicate Built(net: Net, keys: Keys, lock: nat, chain: nat, backup: bool, inputs: seq<Input>, slots: seq<Slot>)
    requires keys.Valid() && LOCK_MINIMUM <= lock <= LOCK_MAXIMUM
  {
    BlocksRange(lock, chain);
    var blocks := Blocks(lock, chain);
    && |slots| == |inputs| > 0
    && forall i :: 0 <= i < |inputs| ==>
         && inputs[i].script == slots[i].script == AccountScript(keys, blocks)
         && inputs[i].sequence == blocks
         && inputs[i].backup == backup
         && Spending(net, inputs[i]).Some?
         && slots[i].sequence == Spending(net, inputs[i]).value.sequence
  }

  /**
   For a time lock in range and any number of inputs of one account, spent by the normal or by the recovery route:
   the witness that signing gives to an input is accepted if, and only if, exactly two of the keys have signed it.
   */
  lemma {:induction false} SignedIsAccepted(net: Net, canon: Canonical, check: nat -> (Bytes, Bytes) -> Check, keys: Keys,
                                            lock: nat, chain: nat, backup: bool, inputs: seq<Input>, slots: seq<Slot>, i: nat)
    requires keys.Valid() && LOCK_MINIMUM <= lock <= LOCK_MAXIMUM
    requires Built(net, keys, lock, chain, backup, inputs, slots)
    requires i < |slots| && Checks(canon, check(i), slots[i].partials) && Signable(canon, keys, Recovery(slots), slots[i])
    ensures var sigs := Collected(canon, slots[i].partials).value;
            Accepts(Env(2, slots[i].sequence, check(i)), slots[i].script, Stack(keys, sigs)) <==> Present(keys, sigs) == 2
  {
    BlocksRange(lock, chain);
    assert slots[0].script == inputs[0].script;
    assert Recovery(slots) == backup;
    WitnessAccepted(canon, check(i), keys, Blocks(lock, chain), backup, slots[i]);
  }

  /** An input that exactly the two keys of its route have signed is given a witness, and the witness is accepted. */
  lemma {:induction false} TwoAccepted(net: Net, canon: Canonical, check: nat -> (Bytes, Bytes) -> Check, keys: Keys,
                                       lock: nat, chain: nat, backup: bool, inputs: seq<Input>, slots: seq<Slot>, i: nat)
    requires keys.Valid() && LOCK_MINIMUM <= lock <= LOCK_MAXIMUM
    requires Built(net, keys, lock, chain, backup, inputs, slots)
    requires i < |slots| && Checks(canon, check(i), slots[i].partials) && WellFormedAll(canon, slots[i].partials)
    requires var ps := slots[i].partials;
             if backup then SignedBy(ps, keys.observer) && (SignedBy(ps, keys.holder) != SignedBy(ps, keys.signer))
             else SignedBy(ps, keys.holder) && SignedBy(ps, keys.signer) && !SignedBy(ps, keys.observer)
    ensures Signable(canon, keys, Recovery(slots), slots[i])
    ensures Accepts(Env(2, slots[i].sequence, check(i)), slots[i].script, Stack(keys, Collected(canon, slots[i].partials).value))
  {
    hide Accepts, Collected, Stack;
    BlocksRange(lock, chain);
    assert Recovery(slots) == backup by { assert slots[0].script == inputs[0].script; }
    SignableExactly(canon, keys, backup, slots[i]);
    CollectedExactly(canon, slots[i].partials, keys.holder);
    CollectedExactly(canon, slots[i].partials, keys.signer);
    CollectedExactly(canon, slots[i].partials, keys.observer);
    SignedIsAccepted(net, canon, check, keys, lock, chain, backup, inputs, slots, i);
  }
}
