/**
 The script behind every Bitcoin safe, and the witnesses that spend from it.

 Keys and signatures are bytes, a signature check and the canonical form of a signature are abstract.
 */
module WitnessScript {
  import opened Options
  import opened Bits
  import opened Script

  // ---- Time locks

  const SECOND: nat := 1_000_000_000
  const HOUR: nat := 3600 * SECOND
  const LOCK_MINIMUM: nat := HOUR
  const LOCK_MAXIMUM: nat := HOUR * 24 * 365
  const LITECOIN: nat := 5
  const MAX_LOCK: nat := 0xffff
  const MAX_SEQUENCE: nat := 0xffff_ffff

  function BlockTime(chain: nat): (d: nat)
    ensures d > 0
  {
    if chain == LITECOIN then 150 * SECOND else 600 * SECOND
  }

  /** The number of blocks for a time lock: as many whole blocks as fit, up to what 16 bits hold. */
  method ParseSequence(lock: nat, chain: nat) returns (blocks: nat)
    requires LOCK_MINIMUM <= lock <= LOCK_MAXIMUM
    ensures blocks == Blocks(lock, chain)
    ensures 6 <= blocks <= MAX_LOCK
    ensures blocks * BlockTime(chain) <= lock
    ensures blocks < MAX_LOCK ==> lock < (blocks + 1) * BlockTime(chain)
  {
    blocks := lock / BlockTime(chain);
    if blocks >= MAX_LOCK {
      assert MAX_LOCK * BlockTime(chain) <= blocks * BlockTime(chain);
      blocks := MAX_LOCK;
    }
  }

  function Blocks(lock: nat, chain: nat): (blocks: nat)
  {
    var n := lock / BlockTime(chain);
    if n >= MAX_LOCK then MAX_LOCK else n
  }

  lemma {:induction false} BlocksRange(lock: nat, chain: nat)
    requires LOCK_MINIMUM <= lock <= LOCK_MAXIMUM
    ensures 6 <= Blocks(lock, chain) <= MAX_LOCK
  {
    if chain == LITECOIN {
      assert HOUR / (150 * SECOND) == 24;
      assert lock / (150 * SECOND) >= 24;
    } else {
      assert HOUR / (600 * SECOND) == 6;
      assert lock / (600 * SECOND) >= 6;
    }
  }

  /** Whole hours are six blocks each, or twenty-four on Litecoin, up to what 16 bits hold. */
  lemma {:induction false} BlocksOfHours(hours: nat, chain: nat)
    ensures Blocks(hours * 3_600_000_000_000, chain) ==
              var n := hours * (if chain == 5 then 24 else 6);
              if n > 65535 then 65535 else n
  {
    if chain == 5 {
      assert hours * 3_600_000_000_000 == hours * 24 * (150 * SECOND);
      assert hours * 24 * (150 * SECOND) / (150 * SECOND) == hours * 24;
    } else {
      assert hours * 3_600_000_000_000 == hours * 6 * (600 * SECOND);
      assert hours * 6 * (600 * SECOND) / (600 * SECOND) == hours * 6;
    }
  }

  // ---- The script

  predicate KeySize(key: Bytes)
  {
    |key| == 33 || |key| == 65
  }

  datatype Keys = Keys(holder: Bytes, signer: Bytes, observer: Bytes)
  {
    predicate Valid()
    {
      KeySize(holder) && KeySize(signer) && KeySize(observer)
    }
  }

  /** `AddInt64`: small numbers have instructions of their own. */
  function PushNumber(n: nat): (op: Op)
    requires 1 <= n <= MAX_LOCK
    ensures WellFormed(op)
  {
    ValueOfNumber(n);
    if n <= 16 then Code((80 + n) as Byte) else Push(Number(n))
  }

  function Counting(keys: Keys): seq<Op>
  {
    [Push(keys.holder), Code(OP_CHECKSIG), Code(OP_SWAP), Push(keys.signer), Code(OP_CHECKSIG), Code(OP_ADD), Code(OP_SWAP)]
  }

  const ASKING: seq<Op> := [Code(OP_SIZE), Code(OP_0NOTEQUAL), Code(OP_IF)]

  function Waiting(keys: Keys, lock: nat): seq<Op>
    requires 1 <= lock <= MAX_LOCK
  {
    [Push(keys.observer), Code(OP_CHECKSIGVERIFY), PushNumber(lock), Code(OP_CHECKSEQUENCEVERIFY), Code(OP_0NOTEQUAL), Code(OP_ENDIF)]
  }

  const DECIDING: seq<Op> := [Code(OP_ADD), Code(OP_2), Code(OP_EQUAL)]

  function Instructions(keys: Keys, lock: nat): (ops: seq<Op>)
    requires 1 <= lock <= MAX_LOCK
  {
    Counting(keys) + (ASKING + (Waiting(keys, lock) + DECIDING))
  }

  lemma {:induction false} InstructionsWellFormed(keys: Keys, lock: nat)
    requires keys.Valid() && 1 <= lock <= MAX_LOCK
    ensures forall i :: 0 <= i < |Instructions(keys, lock)| ==> WellFormed(Instructions(keys, lock)[i])
  {
    var a, b := Counting(keys), Waiting(keys, lock);
    assert forall i :: 0 <= i < |a| ==> WellFormed(a[i]);
    assert forall i :: 0 <= i < |b| ==> WellFormed(b[i]);
    assert forall i :: 0 <= i < |ASKING| ==> WellFormed(ASKING[i]);
    assert forall i :: 0 <= i < |DECIDING| ==> WellFormed(DECIDING[i]);
  }

  function AccountScript(keys: Keys, lock: nat): (script: Bytes)
    requires keys.Valid() && 1 <= lock <= MAX_LOCK
  {
    InstructionsWellFormed(keys, lock);
    Assemble(Instructions(keys, lock))
  }

  // ---- What the script accepts

  function Hits(c: Check): nat
  {
    if c == Good then 1 else 0
  }

  /** A stack of observer, signer and holder, of which two count; an observer that is there must be right and in time. */
  predicate TwoOf(env: Env, keys: Keys, lock: nat, stack: seq<Bytes>)
  {
    && |stack| == 3
    && var h, s := env.check(keys.holder, stack[2]), env.check(keys.signer, stack[1]);
       && h != Broken && s != Broken
       && (stack[0] != [] ==> env.check(keys.observer, stack[0]) == Good && LockMet(env, lock))
       && Hits(h) + Hits(s) + (if stack[0] != [] then 1 else 0) == 2
  }

  predicate Alive(env: Env, keys: Keys, stack: seq<Bytes>)
  {
    |stack| >= 3 && env.check(keys.holder, Top(stack, 1)) != Broken && env.check(keys.signer, Top(stack, 2)) != Broken
  }

  function Sum(env: Env, keys: Keys, stack: seq<Bytes>): nat
    requires |stack| >= 3
  {
    Hits(env.check(keys.holder, Top(stack, 1))) + Hits(env.check(keys.signer, Top(stack, 2)))
  }

  lemma {:induction false} FirstOf(env: Env, ops: seq<Op>, op: Op, rest: seq<Op>, s: State)
    requires ops == [op] + rest
    ensures Run(env, ops, s) == match Step(env, op, s) case None => None case Some(s1) => Run(env, rest, s1)
  {
    assert ops[1..] == rest;
  }

  lemma {:induction false} Running(env: Env, op: Op, stack: seq<Bytes>, conds: seq<bool>)
    requires Executing(conds) && op != Code(OP_IF) && op != Code(OP_ENDIF)
    ensures Step(env, op, State(stack, conds)) ==
            match op
            case Push(data) => Some(State(stack + [data], conds))
            case Code(code) => (match Plain(env, code, stack) case None => None case Some(t) => Some(State(t, conds)))
  {
  }

  lemma {:induction false} SmallSums(a: bool, b: bool)
    ensures Small(OfBool(a)) == Some(if a then 1 else 0)
    ensures Small(OfInt((if a then 1 else 0) + (if b then 1 else 0))) == Some((if a then 1 else 0) + (if b then 1 else 0))
  {
  }

  /** A key followed by CHECKSIG replaces a signature by what its check says. */
  lemma {:induction false} KeyCheck(env: Env, key: Bytes, stack: seq<Bytes>)
    ensures Run(env, [Push(key), Code(OP_CHECKSIG)], State(stack, [])) ==
            if |stack| < 1 || env.check(key, Top(stack, 1)) == Broken then None
            else Some(State(Replace(stack, 1, [OfBool(env.check(key, Top(stack, 1)) == Good)]), []))
  {
    var ops := [Push(key), Code(OP_CHECKSIG)];
    FirstOf(env, ops, Push(key), [Code(OP_CHECKSIG)], State(stack, []));
    var pushed := stack + [key];
    FirstOf(env, [Code(OP_CHECKSIG)], Code(OP_CHECKSIG), [], State(pushed, []));
    if |stack| >= 1 {
      assert Top(pushed, 2) == Top(stack, 1);
      assert pushed[..|pushed| - 2] == stack[..|stack| - 1];
    }
  }

  lemma {:induction false} SwapOnce(env: Env, stack: seq<Bytes>)
    ensures Run(env, [Code(OP_SWAP)], State(stack, [])) ==
            if |stack| < 2 then None else Some(State(Replace(stack, 2, [Top(stack, 1), Top(stack, 2)]), []))
  {
    FirstOf(env, [Code(OP_SWAP)], Code(OP_SWAP), [], State(stack, []));
  }

  /** Two results become their sum, which then gives way to the element below. */
  lemma {:induction false} AddSwap(env: Env, stack: seq<Bytes>, a: bool, b: bool)
    requires |stack| >= 2 && Top(stack, 2) == OfBool(a) && Top(stack, 1) == OfBool(b)
    ensures Run(env, [Code(OP_ADD), Code(OP_SWAP)], State(stack, [])) ==
            if |stack| < 3 then None
            else Some(State(Replace(stack, 3, [Number((if a then 1 else 0) + (if b then 1 else 0)), Top(stack, 3)]), []))
  {
    FirstOf(env, [Code(OP_ADD), Code(OP_SWAP)], Code(OP_ADD), [Code(OP_SWAP)], State(stack, []));
    SmallSums(a, b);
    SmallSums(b, a);
    var sum := Replace(stack, 2, [Number((if a then 1 else 0) + (if b then 1 else 0))]);
    SwapOnce(env, sum);
    if |stack| >= 3 {
      assert Top(sum, 2) == Top(stack, 3);
      assert sum[..|sum| - 2] == stack[..|stack| - 3];
    }
  }

  lemma {:induction false} SignerRun(env: Env, keys: Keys, rest: seq<Bytes>, h: bool, sig: Bytes)
    ensures Run(env, [Push(keys.signer), Code(OP_CHECKSIG)] + [Code(OP_ADD), Code(OP_SWAP)], State(rest + [OfBool(h), sig], [])) ==
            if env.check(keys.signer, sig) == Broken || |rest| < 1 then None
            else
              var sum := (if h then 1 else 0) + Hits(env.check(keys.signer, sig));
              Some(State(rest[..|rest| - 1] + [Number(sum), rest[|rest| - 1]], []))
  {
    hide Run, Step, Plain;
    var stack := rest + [OfBool(h), sig];
    var last := [Code(OP_ADD), Code(OP_SWAP)];
    RunAppend(env, [Push(keys.signer), Code(OP_CHECKSIG)], last, State(stack, []));
    KeyCheck(env, keys.signer, stack);
    var s := env.check(keys.signer, sig) == Good;
    var next := rest + [OfBool(h), OfBool(s)];
    assert Replace(stack, 1, [OfBool(s)]) == next;
    AddSwap(env, next, h, s);
    if |rest| >= 1 {
      assert next[..|next| - 3] == rest[..|rest| - 1];
    }
  }

  lemma {:induction false} CountingRun(env: Env, keys: Keys, stack: seq<Bytes>)
    ensures Run(env, Counting(keys), State(stack, [])) ==
            if Alive(env, keys, stack) then Some(State(Replace(stack, 3, [Number(Sum(env, keys, stack)), Top(stack, 3)]), []))
            else None
  {
    hide Run, Step, Plain;
    var tail := [Push(keys.signer), Code(OP_CHECKSIG)] + [Code(OP_ADD), Code(OP_SWAP)];
    assert Counting(keys) == [Push(keys.holder), Code(OP_CHECKSIG)] + ([Code(OP_SWAP)] + tail);
    RunAppend(env, [Push(keys.holder), Code(OP_CHECKSIG)], [Code(OP_SWAP)] + tail, State(stack, []));
    KeyCheck(env, keys.holder, stack);
    if |stack| >= 1 && env.check(keys.holder, Top(stack, 1)) != Broken {
      var h := env.check(keys.holder, Top(stack, 1)) == Good;
      var s1 := Replace(stack, 1, [OfBool(h)]);
      RunAppend(env, [Code(OP_SWAP)], tail, State(s1, []));
      SwapOnce(env, s1);
      if |stack| >= 2 {
        var rest := stack[..|stack| - 2];
        assert Replace(s1, 2, [Top(s1, 1), Top(s1, 2)]) == rest + [OfBool(h), Top(stack, 2)];
        SignerRun(env, keys, rest, h, Top(stack, 2));
        if |stack| >= 3 {
          assert rest[..|rest| - 1] == stack[..|stack| - 3];
        }
      }
    }
  }

  /** Asking whether there is an observer signature, and entering the branch if so. */
  lemma {:induction false} AskingRun(env: Env, stack: seq<Bytes>)
    requires |stack| >= 1 && |Top(stack, 1)| <= MAX_ELEMENT
    ensures Run(env, ASKING, State(stack, [])) == Some(State(stack, [Top(stack, 1) != []]))
  {
    var n := |Top(stack, 1)|;
    ValueOfNumber(n);
    FirstOf(env, ASKING, Code(OP_SIZE), [Code(OP_0NOTEQUAL), Code(OP_IF)], State(stack, []));
    var s1 := stack + [Number(n)];
    FirstOf(env, [Code(OP_0NOTEQUAL), Code(OP_IF)], Code(OP_0NOTEQUAL), [Code(OP_IF)], State(s1, []));
    var s2 := Replace(s1, 1, [OfBool(n != 0)]);
    assert s2 == stack + [OfBool(n != 0)];
    FirstOf(env, [Code(OP_IF)], Code(OP_IF), [], State(s2, []));
    assert s2[..|s2| - 1] + [] == stack && [] + [n != 0] == [n != 0];
    BoolTruth(n != 0);
  }

  lemma {:induction false} BoolTruth(b: bool)
    ensures Truth(OfBool(b)) <==> b
  {
    if b { assert OfBool(b)[0] != 0; }
  }

  lemma {:induction false} Skipped(env: Env, ops: seq<Op>, stack: seq<Bytes>)
    requires forall i :: 0 <= i < |ops| ==> ops[i] != Code(OP_IF) && ops[i] != Code(OP_ENDIF)
    ensures Run(env, ops, State(stack, [false])) == Some(State(stack, [false]))
    decreases |ops|
  {
    if ops != [] {
      assert ![false][0];
      FirstOf(env, ops, ops[0], ops[1..], State(stack, [false]));
      Skipped(env, ops[1..], stack);
    }
  }

  /** Without an observer signature the branch does nothing; with one it insists on the signature and the lock. */
  lemma {:induction false} WaitingRun(env: Env, keys: Keys, lock: nat, stack: seq<Bytes>, entered: bool)
    requires 1 <= lock <= MAX_LOCK && |stack| >= 1
    ensures Run(env, Waiting(keys, lock), State(stack, [entered])) ==
            if !entered then Some(State(stack, []))
            else if env.check(keys.observer, Top(stack, 1)) == Good && LockMet(env, lock)
            then Some(State(Replace(stack, 1, [OfBool(true)]), []))
            else None
  {
    var end := [Code(OP_ENDIF)];
    var inner := Waiting(keys, lock)[..5];
    assert Waiting(keys, lock) == inner + end;
    RunAppend(env, inner, end, State(stack, [entered]));
    if entered {
      InnerRun(env, keys, lock, stack, inner);
      var s := Replace(stack, 1, [OfBool(true)]);
      FirstOf(env, end, Code(OP_ENDIF), [], State(s, [true]));
      assert [true][..0] == [];
    } else {
      Skipped(env, inner, stack);
      FirstOf(env, end, Code(OP_ENDIF), [], State(stack, [false]));
      assert [false][..0] == [];
    }
  }

  lemma {:induction false} VerifyRun(env: Env, key: Bytes, stack: seq<Bytes>)
    requires |stack| >= 1
    ensures Run(env, [Push(key), Code(OP_CHECKSIGVERIFY)], State(stack, [true])) ==
            if env.check(key, Top(stack, 1)) == Good then Some(State(stack[..|stack| - 1], [true])) else None
  {
    FirstOf(env, [Push(key), Code(OP_CHECKSIGVERIFY)], Push(key), [Code(OP_CHECKSIGVERIFY)], State(stack, [true]));
    var pushed := stack + [key];
    FirstOf(env, [Code(OP_CHECKSIGVERIFY)], Code(OP_CHECKSIGVERIFY), [], State(pushed, [true]));
    assert Top(pushed, 2) == Top(stack, 1);
    assert pushed[..|pushed| - 2] + [] == stack[..|stack| - 1];
  }

  lemma {:induction false} LockRun(env: Env, lock: nat, stack: seq<Bytes>)
    requires 1 <= lock <= MAX_LOCK
    ensures Run(env, [PushNumber(lock), Code(OP_CHECKSEQUENCEVERIFY), Code(OP_0NOTEQUAL)], State(stack, [true])) ==
            if LockMet(env, lock) then Some(State(stack + [OfBool(true)], [true])) else None
  {
    hide LockMet, Number;
    var o1, o2 := [Code(OP_CHECKSEQUENCEVERIFY), Code(OP_0NOTEQUAL)], [Code(OP_0NOTEQUAL)];
    FirstOf(env, [PushNumber(lock)] + o1, PushNumber(lock), o1, State(stack, [true]));
    NumberPushed(env, lock, stack);
    var pushed := stack + [Number(lock)];
    FirstOf(env, o1, Code(OP_CHECKSEQUENCEVERIFY), o2, State(pushed, [true]));
    ValueOfNumber(lock);
    FirstOf(env, o2, Code(OP_0NOTEQUAL), [], State(pushed, [true]));
    assert pushed[..|pushed| - 1] == stack;
    assert [PushNumber(lock), Code(OP_CHECKSEQUENCEVERIFY), Code(OP_0NOTEQUAL)] == [PushNumber(lock)] + o1;
  }

  lemma {:induction false} InnerRun(env: Env, keys: Keys, lock: nat, stack: seq<Bytes>, ops: seq<Op>)
    requires 1 <= lock <= MAX_LOCK && |stack| >= 1
    requires ops == [Push(keys.observer), Code(OP_CHECKSIGVERIFY), PushNumber(lock), Code(OP_CHECKSEQUENCEVERIFY), Code(OP_0NOTEQUAL)]
    ensures Run(env, ops, State(stack, [true])) ==
            if env.check(keys.observer, Top(stack, 1)) == Good && LockMet(env, lock)
            then Some(State(Replace(stack, 1, [OfBool(true)]), [true]))
            else None
  {
    hide LockMet, Number, Run, Step, Plain;
    var head := [Push(keys.observer), Code(OP_CHECKSIGVERIFY)];
    var tail := [PushNumber(lock), Code(OP_CHECKSEQUENCEVERIFY), Code(OP_0NOTEQUAL)];
    assert ops == head + tail;
    RunAppend(env, head, tail, State(stack, [true]));
    VerifyRun(env, keys.observer, stack);
    LockRun(env, lock, stack[..|stack| - 1]);
  }

  lemma {:induction false} NumberPushed(env: Env, lock: nat, stack: seq<Bytes>)
    requires 1 <= lock <= MAX_LOCK
    ensures Step(env, PushNumber(lock), State(stack, [true])) == Some(State(stack + [Number(lock)], [true]))
  {
    Running(env, PushNumber(lock), stack, [true]);
  }

  /** The last instructions compare the final count with two. */
  lemma {:induction false} DecidingRun(env: Env, stack: seq<Bytes>, sum: nat, last: bool)
    requires |stack| >= 2 && sum <= 2 && Top(stack, 2) == Number(sum) && Top(stack, 1) == OfBool(last)
    ensures Run(env, DECIDING, State(stack, [])) == Some(State(Replace(stack, 2, [OfBool(sum + (if last then 1 else 0) == 2)]), []))
  {
    var total := sum + (if last then 1 else 0);
    ValueOfNumber(sum);
    SmallSums(last, last);
    FirstOf(env, DECIDING, Code(OP_ADD), [Code(OP_2), Code(OP_EQUAL)], State(stack, []));
    var s1 := Replace(stack, 2, [Number(total)]);
    FirstOf(env, [Code(OP_2), Code(OP_EQUAL)], Code(OP_2), [Code(OP_EQUAL)], State(s1, []));
    var s2 := s1 + [Number(2)];
    FirstOf(env, [Code(OP_EQUAL)], Code(OP_EQUAL), [], State(s2, []));
    assert s2[..|s2| - 2] == stack[..|stack| - 2];
    assert Number(total) == Number(2) <==> total == 2 by { ValueOfNumber(total); ValueOfNumber(2); }
  }

  /** The whole script on any stack. */
  lemma {:induction false} ScriptRun(env: Env, keys: Keys, lock: nat, stack: seq<Bytes>)
    requires 1 <= lock <= MAX_LOCK && forall i :: 0 <= i < |stack| ==> |stack[i]| <= MAX_ELEMENT
    ensures Run(env, Instructions(keys, lock), State(stack, [])) ==
            if !Alive(env, keys, stack) then None
            else
              var there := Top(stack, 3) != [];
              if there && !(env.check(keys.observer, Top(stack, 3)) == Good && LockMet(env, lock)) then None
              else Some(State(Replace(stack, 3, [OfBool(Sum(env, keys, stack) + (if there then 1 else 0) == 2)]), []))
  {
    hide Run, Step, Plain, Number, Waiting, Counting, LockMet;
    var wait := Waiting(keys, lock);
    RunAppend(env, Counting(keys), ASKING + (wait + DECIDING), State(stack, []));
    CountingRun(env, keys, stack);
    if Alive(env, keys, stack) {
      var sum, there := Sum(env, keys, stack), Top(stack, 3) != [];
      var base := stack[..|stack| - 3];
      var s1 := base + [Number(sum), Top(stack, 3)];
      RunAppend(env, ASKING, wait + DECIDING, State(s1, []));
      AskingRun(env, s1);
      RunAppend(env, wait, DECIDING, State(s1, [there]));
      WaitingRun(env, keys, lock, s1, there);
      var s2 := base + [Number(sum), OfBool(there)];
      assert there ==> Replace(s1, 1, [OfBool(true)]) == s2;
      DecidingRun(env, s2, sum, there);
      assert s2[..|s2| - 2] == base;
    }
  }

  /** The script accepts a stack exactly when two of holder, signer and observer in time count. */
  lemma {:induction false} ScriptMeaning(env: Env, keys: Keys, lock: nat, stack: seq<Bytes>)
    requires keys.Valid() && 1 <= lock <= MAX_LOCK
    ensures Accepts(env, AccountScript(keys, lock), stack) <==>
              TwoOf(env, keys, lock, stack) && forall i :: 0 <= i < |stack| ==> |stack[i]| <= MAX_ELEMENT
  {
    InstructionsWellFormed(keys, lock);
    ParseAssembled(Instructions(keys, lock));
    if forall i :: 0 <= i < |stack| ==> |stack[i]| <= MAX_ELEMENT {
      ScriptRun(env, keys, lock, stack);
      if Alive(env, keys, stack) {
        BoolTruth(Sum(env, keys, stack) + (if Top(stack, 3) != [] then 1 else 0) == 2);
      }
    }
  }
}
