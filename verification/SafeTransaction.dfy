/**
 Ethereum safe transactions: made from outputs, marshalled, unmarshalled, and turned back into outputs.

 The contract encoding around the packed calls and the message digest are abstract.
 */
module SafeTransaction {
  import opened Options
  import opened Bits
  import opened BigEndian
  import opened MultiSend

  const DELEGATE_CALL: nat := 1
  const MAX_FIELD: nat := 0xffff
  const SLOTS: nat := 3
  const COMMA: Byte := 44

  datatype Transaction = Transaction(
    hash: Bytes, chain: nat, safe: Bytes, destination: Address, value: nat, data: Bytes,
    operation: nat, nonce: nat, message: Bytes, signatures: seq<Bytes>)
  {
    predicate Valid()
    {
      chain < Pow256(8) && operation < 256 && |signatures| == SLOTS
    }
  }

  /** Encoding of the multi-send call, with its inverse, and what a transaction is hashed to. */
  datatype Chain = Chain(pack: Bytes -> Bytes, unpack: Bytes -> Option<Bytes>, multiSend: Address,
                         digest: Transaction -> Bytes, name: (Bytes, Bytes) -> Bytes)
  {
    ghost predicate Valid()
    {
      && (forall b: Bytes :: 4 <= |pack(b)| <= |b| + 99 && unpack(pack(b)[4..]) == Some(b))
      && (forall t: Transaction :: |digest(t)| <= MAX_FIELD)
      && (forall id: Bytes, m: Bytes :: |name(id, m)| <= MAX_FIELD)
    }
  }

  // ---- Making a transaction

  datatype Kind = Eth | Erc20 | Multi

  /** The type the keeper picks for the outputs. */
  function KindOf(outputs: seq<Output>): Kind
    requires outputs != []
  {
    if |outputs| > 1 then Multi else if outputs[0].token != EMPTY then Erc20 else Eth
  }

  function Sealed(ch: Chain, id: Bytes, t: Transaction): Transaction
  {
    var message := ch.digest(t);
    t.(message := message, hash := ch.name(id, message))
  }

  function Create(ch: Chain, kind: Kind, chain: nat, id: Bytes, safe: Bytes, outputs: seq<Output>, nonce: nat): (r: Option<Transaction>)
  {
    var none := [[], [], []];
    if |outputs| > 1 && kind == Multi then
      Some(Sealed(ch, id, Transaction([], chain, safe, ch.multiSend, 0, ch.pack(Packed(outputs)), DELEGATE_CALL, nonce, [], none)))
    else if |outputs| != 1 || kind == Multi then None
    else
      var o := outputs[0];
      if kind == Eth then
        Some(Sealed(ch, id, Transaction([], chain, safe, o.destination, o.amount, [], 0, nonce, [], none)))
      else if o.token == EMPTY then None
      else Some(Sealed(ch, id, Transaction([], chain, safe, o.token, 0, TransferData(o.destination, o.amount), 0, nonce, [], none)))
  }

  // ---- Back to outputs

  /** A transaction that makes one payment; other data panic. */
  function SingleOutput(t: Transaction): (r: Option<seq<Output>>)
  {
    if t.data == [] then Some([Output(EMPTY, t.destination, t.value)])
    else if |t.data| != TRANSFER_SIZE || t.data[..4] != TRANSFER then None
    else Some([Output(t.destination, t.data[16..36], Value(t.data[36..68]))])
  }

  /** A delegate call that cannot be read as a multi-send is read as a single payment. */
  function ExtractOutputs(ch: Chain, t: Transaction): (r: Option<seq<Output>>)
  {
    if t.operation != DELEGATE_CALL then SingleOutput(t)
    else if |t.data| < 4 then None
    else match ch.unpack(t.data[4..])
      case None => SingleOutput(t)
      case Some(packed) =>
        match Parsed(packed)
        case Read(outputs) => Some(outputs)
        case Malformed => SingleOutput(t)
        case Panic => None
  }

  /** Every list of outputs with amounts in range gives a transaction, from which the list is extracted again. */
  lemma {:induction false} CreateExtract(ch: Chain, chain: nat, id: Bytes, safe: Bytes, outputs: seq<Output>, nonce: nat)
    requires ch.Valid() && outputs != [] && forall i :: 0 <= i < |outputs| ==> InRange(outputs[i].amount)
    ensures var r := Create(ch, KindOf(outputs), chain, id, safe, outputs, nonce);
            r.Some? && ExtractOutputs(ch, r.value) == Some(outputs)
  {
    hide Parsed, Packed, Value, TransferData, InRange;
    if |outputs| > 1 {
      PackedParses(outputs, []);
      assert Packed(outputs) + [] == Packed(outputs) && outputs + [] == outputs;
      NothingParses();
      assert ch.unpack(ch.pack(Packed(outputs))[4..]) == Some(Packed(outputs));
    } else {
      assert outputs == [outputs[0]];
      TransferOf(outputs[0].destination, outputs[0].amount);
    }
  }

  lemma {:induction false} NothingParses()
    ensures Parsed([]) == Read([])
  {
  }

  // ---- Fields with their length before them

  function WriteField(b: Bytes): (r: Option<Bytes>)
  {
    if |b| > MAX_FIELD then None else Some(Fixed(|b|, 2) + b)
  }

  function ReadField(b: Bytes): (r: Option<(Bytes, Bytes)>)
  {
    if |b| < 2 then None
    else
      var n := Value(b[..2]);
      if |b| < 2 + n then None else Some((b[2..2 + n], b[2 + n..]))
  }

  function WriteFields(fs: seq<Bytes>): (r: Option<Bytes>)
    decreases |fs|
  {
    if fs == [] then Some([])
    else
      var first :- WriteField(fs[0]);
      var rest :- WriteFields(fs[1..]);
      Some(first + rest)
  }

  function ReadFields(k: nat, b: Bytes): (r: Option<seq<Bytes>>)
    ensures r.Some? ==> |r.value| == k
  {
    if k == 0 then Some([])
    else
      var (first, rest) :- ReadField(b);
      var fs :- ReadFields(k - 1, rest);
      Some([first] + fs)
  }

  lemma {:induction false} FieldRoundTrip(b: Bytes, rest: Bytes)
    requires |b| <= MAX_FIELD
    ensures ReadField(WriteField(b).value + rest) == Some((b, rest))
  {
    var w := WriteField(b).value + rest;
    assert Pow256(2) == 65536;
    ValueFixed(|b|, 2);
    assert w[..2] == Fixed(|b|, 2);
    assert w[2..2 + |b|] == b && w[2 + |b|..] == rest;
  }

  lemma {:induction false} FieldsRoundTrip(fs: seq<Bytes>)
    requires WriteFields(fs).Some?
    ensures ReadFields(|fs|, WriteFields(fs).value) == Some(fs)
    decreases |fs|
  {
    if fs != [] {
      hide ReadField;
      var rest := WriteFields(fs[1..]).value;
      FieldRoundTrip(fs[0], rest);
      FieldsRoundTrip(fs[1..]);
      assert [fs[0]] + fs[1..] == fs;
    }
  }

  // ---- Signatures as text

  function Digit(n: nat): Byte
    requires n < 16
  {
    if n < 10 then (48 + n) as Byte else (87 + n) as Byte
  }

  function OfDigit(c: Byte): Option<nat>
  {
    if 48 <= c <= 57 then Some(c as nat - 48)
    else if 97 <= c <= 102 then Some(c as nat - 87)
    else if 65 <= c <= 70 then Some(c as nat - 55)
    else None
  }

  function Hex(b: Bytes): (text: Bytes)
    decreases |b|
  {
    if b == [] then [] else [Digit(b[0] as nat / 16), Digit(b[0] as nat % 16)] + Hex(b[1..])
  }

  function OfHex(text: Bytes): (r: Option<Bytes>)
    decreases |text|
  {
    if text == [] then Some([])
    else if |text| == 1 then None
    else
      var high :- OfDigit(text[0]);
      var low :- OfDigit(text[1]);
      assert high < 16 && low < 16;
      var rest :- OfHex(text[2..]);
      Some([(high * 16 + low) as Byte] + rest)
  }

  lemma {:induction false} HexRoundTrip(b: Bytes)
    ensures OfHex(Hex(b)) == Some(b) && COMMA !in Hex(b) && (Hex(b) == [] <==> b == [])
    decreases |b|
  {
    if b != [] {
      HexRoundTrip(b[1..]);
      DigitRoundTrip(b[0] as nat / 16);
      DigitRoundTrip(b[0] as nat % 16);
      assert Hex(b)[2..] == Hex(b[1..]);
      assert [b[0]] + b[1..] == b;
    }
  }

  lemma {:induction false} DigitRoundTrip(n: nat)
    requires n < 16
    ensures OfDigit(Digit(n)) == Some(n) && Digit(n) != COMMA
  {
  }

  function Join(parts: seq<Bytes>): (text: Bytes)
    decreases |parts|
  {
    if parts == [] then []
    else if |parts| == 1 then parts[0]
    else Join(parts[..|parts| - 1]) + [COMMA] + parts[|parts| - 1]
  }

  /** `strings.Split` at commas: never an empty list. */
  function Split(text: Bytes): (parts: seq<Bytes>)
    ensures parts != []
    decreases |text|
  {
    if text == [] then [[]]
    else
      var before, c := Split(text[..|text| - 1]), text[|text| - 1];
      if c == COMMA then before + [[]]
      else before[..|before| - 1] + [before[|before| - 1] + [c]]
  }

  lemma {:induction false} SplitPart(text: Bytes, part: Bytes)
    requires COMMA !in part
    ensures Split(text + [COMMA] + part) == Split(text) + [part]
    decreases |part|
  {
    var whole := text + [COMMA] + part;
    if part == [] {
      assert whole[..|whole| - 1] == text;
    } else {
      var less := part[..|part| - 1];
      SplitPart(text, less);
      assert whole[..|whole| - 1] == text + [COMMA] + less;
      assert less + [part[|part| - 1]] == part;
      assert (Split(text) + [less])[..|Split(text)|] == Split(text);
    }
  }

  lemma {:induction false} SplitOne(part: Bytes)
    requires COMMA !in part
    ensures Split(part) == [part]
    decreases |part|
  {
    if part != [] {
      SplitOne(part[..|part| - 1]);
      assert part[..|part| - 1] + [part[|part| - 1]] == part;
    }
  }

  lemma {:induction false} SplitJoin(parts: seq<Bytes>)
    requires parts != [] && forall i :: 0 <= i < |parts| ==> COMMA !in parts[i]
    ensures Split(Join(parts)) == parts
    decreases |parts|
  {
    hide Split;
    if |parts| == 1 {
      SplitOne(parts[0]);
      assert [parts[0]] == parts;
    } else {
      SplitJoin(parts[..|parts| - 1]);
      SplitPart(Join(parts[..|parts| - 1]), parts[|parts| - 1]);
      assert parts[..|parts| - 1] + [parts[|parts| - 1]] == parts;
    }
  }

  function HexAll(sigs: seq<Bytes>): (parts: seq<Bytes>)
    ensures |parts| == |sigs| && forall i :: 0 <= i < |sigs| ==> parts[i] == Hex(sigs[i])
  {
    seq(|sigs|, i requires 0 <= i < |sigs| => Hex(sigs[i]))
  }

  /** Fills the slots from the text parts; a part beyond the last slot or not in hex is refused. */
  function Slotted(parts: seq<Bytes>): (r: Option<seq<Bytes>>)
    ensures r.Some? ==> |r.value| == SLOTS
    decreases |parts|
  {
    if parts == [] then Some([[], [], []])
    else
      var i := |parts| - 1;
      var slots :- Slotted(parts[..i]);
      if parts[i] == [] then Some(slots)
      else
        var sig :- OfHex(parts[i]);
        if i >= SLOTS then None else Some(slots[i := sig])
  }

  method WriteSignatures(sigs: seq<Bytes>) returns (text: Bytes)
    ensures text == Join(HexAll(sigs))
  {
    var parts := [];
    for n := 0 to |sigs|
      invariant parts == HexAll(sigs)[..n]
    {
      parts := parts + [Hex(sigs[n])];
    }
    assert HexAll(sigs)[..|sigs|] == HexAll(sigs);
    text := Join(parts);
  }

  method ReadSignatures(text: Bytes) returns (r: Option<seq<Bytes>>)
    ensures r == Slotted(Split(text))
  {
    var parts := Split(text);
    var slots: seq<Bytes> := [[], [], []];
    for n := 0 to |parts|
      invariant Slotted(parts[..n]) == Some(slots)
    {
      assert parts[..n + 1][..n] == parts[..n];
      if parts[n] != [] {
        var sig := OfHex(parts[n]);
        if sig.None? || n >= SLOTS {
          SlottedFails(parts, n + 1);
          return None;
        }
        slots := slots[n := sig.value];
      }
    }
    assert parts[..|parts|] == parts;
    return Some(slots);
  }

  lemma {:induction false} SlottedFails(parts: seq<Bytes>, n: nat)
    requires n <= |parts| && Slotted(parts[..n]).None?
    ensures Slotted(parts).None?
    decreases |parts|
  {
    if n == |parts| {
      assert parts[..n] == parts;
    } else {
      assert parts[..|parts| - 1][..n] == parts[..n];
      SlottedFails(parts[..|parts| - 1], n);
    }
  }

  function Filled(sigs: seq<Bytes>, n: nat): (slots: seq<Bytes>)
    requires n <= |sigs| == SLOTS
  {
    seq(SLOTS, i requires 0 <= i < SLOTS => if i < n then sigs[i] else [])
  }

  lemma {:induction false} SlottedPart(parts: seq<Bytes>, sigs: seq<Bytes>, n: nat)
    requires |sigs| == SLOTS && parts == HexAll(sigs) && n <= SLOTS
    ensures Slotted(parts[..n]) == Some(Filled(sigs, n))
    decreases n
  {
    hide OfHex, Hex;
    if n == 0 {
      assert Filled(sigs, 0) == [[], [], []];
    } else {
      SlottedPart(parts, sigs, n - 1);
      HexRoundTrip(sigs[n - 1]);
      assert parts[..n][..n - 1] == parts[..n - 1];
      assert parts[..n][n - 1] == Hex(sigs[n - 1]);
      assert Filled(sigs, n) == Filled(sigs, n - 1)[n - 1 := sigs[n - 1]];
      if sigs[n - 1] == [] { assert Filled(sigs, n) == Filled(sigs, n - 1); }
    }
  }

  lemma {:induction false} SignaturesRoundTrip(sigs: seq<Bytes>)
    requires |sigs| == SLOTS
    ensures Slotted(Split(Join(HexAll(sigs)))) == Some(sigs)
  {
    var parts := HexAll(sigs);
    forall i | 0 <= i < SLOTS ensures COMMA !in parts[i] { HexRoundTrip(sigs[i]); }
    SplitJoin(parts);
    SlottedPart(parts, sigs, SLOTS);
    assert parts[..SLOTS] == parts && Filled(sigs, SLOTS) == sigs;
  }

  // ---- The whole transaction

  function FieldsOf(t: Transaction): seq<Bytes>
  {
    [t.hash, t.safe, t.destination, Shortest(t.value), t.data, Shortest(t.nonce), t.message, Join(HexAll(t.signatures))]
  }

  /** `Marshal`; none where the length of a field does not fit. */
  function Marshal(t: Transaction): (r: Option<Bytes>)
  {
    var fields :- WriteFields(FieldsOf(t));
    Some(Fixed(t.chain, 8) + Fixed(t.operation, 8) + fields)
  }

  /** Where each part is stored: chain and operation in 8 bytes each, then eight fields with their lengths, in this order. */
  lemma {:induction false} MarshalLayout(t: Transaction)
    requires t.Valid() && Marshal(t).Some?
    ensures var b := Marshal(t).value;
            && |b| >= 16 && Value(b[..8]) == t.chain && Value(b[8..16]) == t.operation
            && ReadFields(8, b[16..]) ==
                 Some([t.hash, t.safe, t.destination, Shortest(t.value), t.data, Shortest(t.nonce), t.message, Join(HexAll(t.signatures))])
  {
    hide Value, Fixed, Shortest, Join, ReadFields, WriteFields;
    var b := Marshal(t).value;
    var fields := WriteFields(FieldsOf(t)).value;
    assert 256 <= Pow256(8) by { Byte256(); }
    ValueFixed(t.chain, 8);
    ValueFixed(t.operation, 8);
    FieldsRoundTrip(FieldsOf(t));
    assert b[..8] == Fixed(t.chain, 8) && b[8..16] == Fixed(t.operation, 8) && b[16..] == fields;
  }

  lemma {:induction false} Byte256()
    ensures 256 <= Pow256(8)
  {
    assert Pow256(1) == 256;
    Growing(1, 8);
  }

  /** The last 20 bytes, or zeros in front of fewer. */
  function ToAddress(b: Bytes): Address
  {
    if |b| > 20 then b[|b| - 20..] else LeftPad(b, 20)
  }

  function Unmarshal(b: Bytes): (r: Option<Transaction>)
  {
    if |b| < 16 then None
    else
      var f :- ReadFields(8, b[16..]);
      var sigs :- Slotted(Split(f[7]));
      Some(Transaction(f[0], Value(b[..8]), f[1], ToAddress(f[2]), Value(f[3]), f[4], Value(b[8..16]) % 256, Value(f[5]), f[6], sigs))
  }

  lemma {:induction false} MarshalRoundTrip(t: Transaction)
    requires t.Valid() && Marshal(t).Some?
    ensures Unmarshal(Marshal(t).value) == Some(t)
  {
    hide WriteFields, ReadFields, Slotted, Split, Join, Value, Shortest;
    var fs := FieldsOf(t);
    FieldsRoundTrip(fs);
    var b := Marshal(t).value;
    assert b[..8] == Fixed(t.chain, 8) && b[8..16] == Fixed(t.operation, 8) && b[16..] == WriteFields(fs).value;
    ValueFixed(t.chain, 8);
    assert t.operation < Pow256(8) by { Growing(1, 8); assert Pow256(1) == 256; }
    ValueFixed(t.operation, 8);
    ValueShortest(t.value);
    ValueShortest(t.nonce);
    SignaturesRoundTrip(t.signatures);
  }

  /** What a transaction pays survives being made, stored and read. */
  lemma {:induction false} OutputsSurvive(ch: Chain, chain: nat, id: Bytes, safe: Bytes, outputs: seq<Output>, nonce: nat)
    requires ch.Valid() && chain < Pow256(8) && outputs != [] && forall i :: 0 <= i < |outputs| ==> InRange(outputs[i].amount)
    ensures var t := Create(ch, KindOf(outputs), chain, id, safe, outputs, nonce);
            && t.Some?
            && (Marshal(t.value).Some? ==>
                  && Unmarshal(Marshal(t.value).value) == t
                  && ExtractOutputs(ch, Unmarshal(Marshal(t.value).value).value) == Some(outputs))
  {
    hide Marshal, Unmarshal, ExtractOutputs, InRange;
    CreateExtract(ch, chain, id, safe, outputs, nonce);
    var t := Create(ch, KindOf(outputs), chain, id, safe, outputs, nonce).value;
    if Marshal(t).Some? { MarshalRoundTrip(t); }
  }

  // ---- What fits

  lemma {:induction false} CallSize(o: Output)
    requires InRange(o.amount)
    ensures |Call(o)| <= HEAD + TRANSFER_SIZE
  {
    hide Value, Shortest, Pow256, LeftPad, MetaTx, TransferData;
    CallParses(o, []);
    if o.token == EMPTY {
      HeadOf(o.destination, o.amount, [], []);
    } else {
      TransferOf(o.destination, o.amount);
      assert InRange(0) by { Small256(); }
      HeadOf(o.token, 0, TransferData(o.destination, o.amount), []);
    }
  }

  lemma {:induction false} PackedSize(outputs: seq<Output>)
    requires forall i :: 0 <= i < |outputs| ==> InRange(outputs[i].amount)
    ensures |Packed(outputs)| <= |outputs| * (HEAD + TRANSFER_SIZE)
    decreases |outputs|
  {
    hide InRange, Call;
    if outputs != [] {
      PackedSize(outputs[..|outputs| - 1]);
      CallSize(outputs[|outputs| - 1]);
    }
  }

  lemma {:induction false} FieldsFit(fs: seq<Bytes>)
    requires forall i :: 0 <= i < |fs| ==> |fs[i]| <= MAX_FIELD
    ensures WriteFields(fs).Some?
    decreases |fs|
  {
    if fs != [] { FieldsFit(fs[1..]); }
  }

  /** The number of outputs the keeper allows in a proposal always fits into the stored form. */
  lemma {:induction false} ProposalFits(ch: Chain, chain: nat, id: Bytes, safe: Bytes, outputs: seq<Output>, nonce: nat)
    requires ch.Valid() && 0 < |outputs| <= 256 && |safe| <= MAX_FIELD && nonce < Pow256(8)
    requires forall i :: 0 <= i < |outputs| ==> InRange(outputs[i].amount)
    ensures var t := Create(ch, KindOf(outputs), chain, id, safe, outputs, nonce);
            t.Some? && Marshal(t.value).Some?
  {
    hide Parsed, Packed, Value, TransferData, InRange, Pow256, Shortest, WriteFields, Join, Hex;
    CreateExtract(ch, chain, id, safe, outputs, nonce);
    var t := Create(ch, KindOf(outputs), chain, id, safe, outputs, nonce).value;
    PackedSize(outputs);
    ShortestSize(nonce, 8);
    ZeroInRange();
    AmountSize(t.value);
    TransferSize(outputs[0]);
    NoSignatures();
    FieldsFit(FieldsOf(t));
  }

  lemma {:induction false} ZeroInRange()
    ensures InRange(0)
  {
    Small256();
  }

  lemma {:induction false} AmountSize(v: nat)
    requires InRange(v)
    ensures |Shortest(v)| <= 32
  {
    ShortestSize(v, 32);
  }

  lemma {:induction false} TransferSize(o: Output)
    requires InRange(o.amount)
    ensures |TransferData(o.destination, o.amount)| == TRANSFER_SIZE
  {
    TransferOf(o.destination, o.amount);
  }

  lemma {:induction false} NoSignatures()
    ensures |Join(HexAll([[], [], []]))| == 2
  {
    var none := HexAll([[], [], []]);
    assert none == [[], [], []];
    assert Join(none[..1]) == [];
    assert none[..2][..1] == none[..1];
    assert Join(none[..2]) == [COMMA];
  }
}
