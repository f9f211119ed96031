/**
 The part of Bitcoin Script that the account scripts use: script numbers, parsing and the stack machine.

 The rules for CHECKSEQUENCEVERIFY are those of BIP 112 and BIP 68, those for witness stacks those of BIP 141.
 */
module Script {
  import opened Options
  import opened Bits

  // ---- Numbers on the stack: little endian, the highest bit is the sign

  function Number(n: nat): (b: Bytes)
  {
    if n == 0 then []
    else if n < 128 then [n as Byte]
    else if n < 256 then [n as Byte, 0]
    else [(n % 256) as Byte] + Number(n / 256)
  }

  function Magnitude(b: Bytes): nat
  {
    if b == [] then 0
    else if |b| == 1 then b[0] as nat % 128
    else b[0] as nat + 256 * Magnitude(b[1..])
  }

  function Value(b: Bytes): int
  {
    if b != [] && b[|b| - 1] >= 128 then -(Magnitude(b) as int) else Magnitude(b)
  }

  lemma {:induction false} ValueOfNumber(n: nat)
    ensures Value(Number(n)) == n && (n > 0 ==> Number(n) != [] && Number(n)[|Number(n)| - 1] < 128)
    ensures n < 65536 ==> |Number(n)| <= 3
    decreases n
  {
    if n >= 256 {
      ValueOfNumber(n / 256);
      assert Number(n)[1..] == Number(n / 256);
      if n < 65536 { SmallNumber(n / 256); }
    } else if n >= 128 {
      assert Number(n)[1..] == [0] && Magnitude([0]) == 0;
    }
  }

  lemma {:induction false} SmallNumber(n: nat)
    requires n < 256
    ensures |Number(n)| <= 2
  {
  }

  function OfBool(b: bool): Bytes
  {
    if b then [1] else []
  }

  predicate Truth(b: Bytes)
  {
    exists i :: 0 <= i < |b| && b[i] != 0 && !(i == |b| - 1 && b[i] == 128)
  }

  // ---- Instructions

  const OP_1: Byte := 0x51
  const OP_2: Byte := 0x52
  const OP_16: Byte := 0x60
  const OP_IF: Byte := 0x63
  const OP_ENDIF: Byte := 0x68
  const OP_SWAP: Byte := 0x7c
  const OP_SIZE: Byte := 0x82
  const OP_EQUAL: Byte := 0x87
  const OP_0NOTEQUAL: Byte := 0x92
  const OP_ADD: Byte := 0x93
  const OP_CHECKSIG: Byte := 0xac
  const OP_CHECKSIGVERIFY: Byte := 0xad
  const OP_CHECKSEQUENCEVERIFY: Byte := 0xb2

  const MAX_DIRECT_PUSH: nat := 75

  datatype Op = Push(data: Bytes) | Code(code: Byte)

  predicate WellFormed(op: Op)
  {
    match op
    case Push(data) => 1 <= |data| <= MAX_DIRECT_PUSH
    case Code(code) => code >= OP_1
  }

  function Encoded(op: Op): Bytes
    requires WellFormed(op)
  {
    match op
    case Push(data) => [|data| as Byte] + data
    case Code(code) => [code]
  }

  function Assemble(ops: seq<Op>): (script: Bytes)
    requires forall i :: 0 <= i < |ops| ==> WellFormed(ops[i])
  {
    if ops == [] then [] else Encoded(ops[0]) + Assemble(ops[1..])
  }

  lemma {:induction false} AssembleAppend(ops: seq<Op>, op: Op)
    requires WellFormed(op) && forall i :: 0 <= i < |ops| ==> WellFormed(ops[i])
    ensures Assemble(ops + [op]) == Assemble(ops) + Encoded(op)
    decreases |ops|
  {
    if ops == [] {
      assert ops + [op] == [op] && [op][1..] == [];
    } else {
      assert (ops + [op])[1..] == ops[1..] + [op];
      AssembleAppend(ops[1..], op);
    }
  }

  /** Pushes of up to 75 bytes and single-byte instructions; nothing else occurs here. */
  function Parse(script: Bytes): (ops: Option<seq<Op>>)
    decreases |script|
  {
    if script == [] then Some([])
    else
      var code := script[0];
      if 1 <= code as nat <= MAX_DIRECT_PUSH then
        var n := code as nat;
        if |script| < 1 + n then None
        else (match Parse(script[1 + n..]) case None => None case Some(rest) => Some([Push(script[1..1 + n])] + rest))
      else if code < OP_1 then None
      else (match Parse(script[1..]) case None => None case Some(rest) => Some([Code(code)] + rest))
  }

  /** Every script means the instructions it was assembled from. */
  lemma {:induction false} ParseAssembled(ops: seq<Op>)
    requires forall i :: 0 <= i < |ops| ==> WellFormed(ops[i])
    ensures Parse(Assemble(ops)) == Some(ops)
    decreases |ops|
  {
    if ops != [] {
      ParseAssembled(ops[1..]);
      assert ops == [ops[0]] + ops[1..];
      var script := Assemble(ops);
      match ops[0]
      case Push(data) =>
        assert script[1..1 + |data|] == data;
        assert script[1 + |data|..] == Assemble(ops[1..]);
      case Code(_) =>
        assert script[1..] == Assemble(ops[1..]);
    }
  }

  // ---- The stack machine

  /** What a signature check comes to; `Broken` ends the script. */
  datatype Check = Good | Bad | Broken

  datatype Env = Env(version: nat, sequence: nat, check: (Bytes, Bytes) -> Check)

  /** The top of the stack is its last element; `conds` are the branches entered. */
  datatype State = State(stack: seq<Bytes>, conds: seq<bool>)

  predicate Executing(conds: seq<bool>)
  {
    forall i :: 0 <= i < |conds| ==> conds[i]
  }

  const DISABLED: nat := 0x8000_0000
  const TYPE_FLAG: nat := 0x40_0000

  predicate Flag(n: nat, bit: nat)
    requires bit > 0
  {
    n / bit % 2 == 1
  }

  /** BIP 112: the relative lock of the input is at least the one asked for, in the same unit. */
  predicate LockMet(env: Env, lock: nat)
  {
    Flag(lock, DISABLED) ||
    (&& env.version >= 2
     && !Flag(env.sequence, DISABLED)
     && (Flag(lock, TYPE_FLAG) <==> Flag(env.sequence, TYPE_FLAG))
     && lock % 65536 <= env.sequence % 65536)
  }

  function Top(stack: seq<Bytes>, k: nat): Bytes
    requires 1 <= k <= |stack|
  {
    stack[|stack| - k]
  }

  function Replace(stack: seq<Bytes>, k: nat, put: seq<Bytes>): seq<Bytes>
    requires k <= |stack|
  {
    stack[..|stack| - k] + put
  }

  function Small(b: Bytes): Option<int>
  {
    if |b| > 4 then None else Some(Value(b))
  }

  function OfInt(n: int): Bytes
  {
    if n >= 0 then Number(n)
    else
      var m := Number(-n);
      ValueOfNumber(-n);
      m[|m| - 1 := m[|m| - 1] + 128]
  }

  function Added(stack: seq<Bytes>): Option<seq<Bytes>>
  {
    if |stack| < 2 then None
    else match (Small(Top(stack, 2)), Small(Top(stack, 1)))
      case (Some(a), Some(b)) => Some(Replace(stack, 2, [OfInt(a + b)]))
      case _ => None
  }

  function Checked(env: Env, stack: seq<Bytes>, verify: bool): Option<seq<Bytes>>
  {
    if |stack| < 2 then None
    else match env.check(Top(stack, 1), Top(stack, 2))
      case Broken => None
      case Good => Some(Replace(stack, 2, if verify then [] else [OfBool(true)]))
      case Bad => if verify then None else Some(Replace(stack, 2, [OfBool(false)]))
  }

  /** One instruction outside of branches. */
  function Plain(env: Env, code: Byte, stack: seq<Bytes>): (r: Option<seq<Bytes>>)
  {
    if OP_1 <= code <= OP_16 then Some(stack + [Number(code as nat - 80)])
    else if code == OP_SWAP then
      if |stack| < 2 then None else Some(Replace(stack, 2, [Top(stack, 1), Top(stack, 2)]))
    else if code == OP_SIZE then
      if |stack| < 1 then None else Some(stack + [Number(|Top(stack, 1)|)])
    else if code == OP_EQUAL then
      if |stack| < 2 then None else Some(Replace(stack, 2, [OfBool(Top(stack, 2) == Top(stack, 1))]))
    else if code == OP_0NOTEQUAL then
      if |stack| < 1 || Small(Top(stack, 1)).None? then None
      else Some(Replace(stack, 1, [OfBool(Value(Top(stack, 1)) != 0)]))
    else if code == OP_ADD then Added(stack)
    else if code == OP_CHECKSIG then Checked(env, stack, false)
    else if code == OP_CHECKSIGVERIFY then Checked(env, stack, true)
    else if code == OP_CHECKSEQUENCEVERIFY then
      if |stack| < 1 || |Top(stack, 1)| > 5 then None
      else
        var lock := Value(Top(stack, 1));
        if lock >= 0 && LockMet(env, lock) then Some(stack) else None
    else None
  }

  function Step(env: Env, op: Op, s: State): (r: Option<State>)
  {
    if op == Code(OP_ENDIF) then
      if s.conds == [] then None else Some(s.(conds := s.conds[..|s.conds| - 1]))
    else if op == Code(OP_IF) then
      if !Executing(s.conds) then Some(s.(conds := s.conds + [false]))
      else if |s.stack| < 1 then None
      else Some(State(Replace(s.stack, 1, []), s.conds + [Truth(Top(s.stack, 1))]))
    else if !Executing(s.conds) then Some(s)
    else match op
      case Push(data) => Some(s.(stack := s.stack + [data]))
      case Code(code) =>
        match Plain(env, code, s.stack)
        case None => None
        case Some(stack) => Some(s.(stack := stack))
  }

  function Run(env: Env, ops: seq<Op>, s: State): (r: Option<State>)
    decreases |ops|
  {
    if ops == [] then Some(s)
    else match Step(env, ops[0], s)
      case None => None
      case Some(s1) => Run(env, ops[1..], s1)
  }

  lemma {:induction false} RunAppend(env: Env, a: seq<Op>, b: seq<Op>, s: State)
    ensures Run(env, a + b, s) == match Run(env, a, s) case None => None case Some(s1) => Run(env, b, s1)
    decreases |a|
  {
    if a == [] {
      assert a + b == b;
    } else {
      assert (a + b)[1..] == a[1..] + b;
      var s1 := Step(env, a[0], s);
      if s1.Some? { RunAppend(env, a[1..], b, s1.value); }
    }
  }

  const MAX_ELEMENT: nat := 520

  /** BIP 141: the witness elements are the initial stack, and one true element must remain. */
  predicate Accepts(env: Env, script: Bytes, stack: seq<Bytes>)
  {
    && (forall i :: 0 <= i < |stack| ==> |stack[i]| <= MAX_ELEMENT)
    && Parse(script).Some?
    && var end := Run(env, Parse(script).value, State(stack, []));
       end.Some? && end.value.conds == [] && |end.value.stack| == 1 && Truth(end.value.stack[0])
  }
}
