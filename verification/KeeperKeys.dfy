/** The keys table of keeper/store/key.go: spare keys, and the pair that is assigned to a holder. */
module KeeperKeys {
  import opened Options
  import T = KeeperTypes

  datatype Role = Signer | Observer

  /** `custom` is the flag of an observer key that a holder brings along. */
  datatype Key = Key(role: Role, curve: nat, custom: bool, holder: Option<string>, createdAt: int)

  type Keys = map<string, Key>

  datatype Pair = Pair(signer: string, observer: string)

  /** The answer of the store: the pair, no pair, or a panic on a half-assigned holder. */
  datatype Assigned = Assigned(pair: Pair) | Unavailable | Panic

  // ---- Specification

  predicate HeldBy(keys: Keys, k: string, holder: string, role: Role)
  {
    k in keys && keys[k].holder == Some(holder) && keys[k].role == role
  }

  ghost predicate Holds(keys: Keys, holder: string, role: Role)
  {
    exists k :: HeldBy(keys, k, holder, role)
  }

  /** Free and mature, or the one that was asked for. */
  predicate Spare(keys: Keys, k: string, role: Role, curve: nat, before: int, preferred: string)
  {
    k in keys && keys[k].holder.None? && keys[k].role == role && keys[k].curve == curve
    && if preferred != "" then keys[k].custom && k == preferred else !keys[k].custom && keys[k].createdAt < before
  }

  /** Older, or as old and first by the text of the key. */
  predicate Before(keys: Keys, j: string, k: string)
    requires j in keys && k in keys
  {
    keys[j].createdAt < keys[k].createdAt || (keys[j].createdAt == keys[k].createdAt && T.TextBelow(j, k))
  }

  ghost predicate Oldest(keys: Keys, k: string, role: Role, curve: nat, before: int, preferred: string)
  {
    Spare(keys, k, role, curve, before, preferred)
    && forall j :: Spare(keys, j, role, curve, before, preferred) ==> Before(keys, k, j)
  }

  function Give(keys: Keys, p: Pair, holder: string): (keys': Keys)
    requires p.signer in keys && p.observer in keys
  {
    keys[p.signer := keys[p.signer].(holder := Some(holder))][p.observer := keys[p.observer].(holder := Some(holder))]
  }

  /** What one call of `AssignSignerAndObserverToHolder` may do. */
  ghost predicate AssignStep(keys: Keys, keys': Keys, r: Assigned, holder: string, curve: nat, before: int, preferred: string)
  {
    if Holds(keys, holder, Signer) && Holds(keys, holder, Observer) then
      && keys' == keys && r.Assigned? && HeldBy(keys, r.pair.signer, holder, Signer) && HeldBy(keys, r.pair.observer, holder, Observer)
    else if Holds(keys, holder, Signer) || Holds(keys, holder, Observer) then keys' == keys && r == Panic
    else match r
      case Panic => false
      case Unavailable =>
        && keys' == keys
        && ((forall k :: !Spare(keys, k, Signer, curve, before, "")) || (forall k :: !Spare(keys, k, Observer, curve, before, preferred)))
      case Assigned(p) =>
        && Oldest(keys, p.signer, Signer, curve, before, "") && Oldest(keys, p.observer, Observer, curve, before, preferred)
        && keys' == Give(keys, p, holder)
  }

  /** A holder has no keys, or exactly one of each role. */
  ghost predicate Paired(keys: Keys)
  {
    && (forall j, k, h, r :: HeldBy(keys, j, h, r) && HeldBy(keys, k, h, r) ==> j == k)
    && (forall h :: Holds(keys, h, Signer) <==> Holds(keys, h, Observer))
  }

  // ---- The store

  class KeyStore {
    var keys: Keys

    constructor ()
      ensures keys == map[] && Paired(keys)
    {
      keys := map[];
    }

    /** `WriteKeyFromRequest`: a known key is refused. */
    method WriteKey(public: string, role: Role, curve: nat, custom: bool, createdAt: int) returns (ok: bool)
      requires Paired(keys)
      modifies this
      ensures Paired(keys)
      ensures ok <==> public !in old(keys)
      ensures keys == if ok then old(keys)[public := Key(role, curve, custom, None, createdAt)] else old(keys)
    {
      if public in keys { return false; }
      WritePaired(keys, public, Key(role, curve, custom, None, createdAt));
      keys := keys[public := Key(role, curve, custom, None, createdAt)];
      return true;
    }

    /** `readKeyWithRoleAndHolder`. */
    method ReadHeld(holder: string, role: Role) returns (r: Option<string>)
      ensures r.Some? ==> HeldBy(keys, r.value, holder, role)
      ensures r.None? ==> !Holds(keys, holder, role)
    {
      var rest := keys.Keys;
      while rest != {}
        invariant rest <= keys.Keys
        invariant forall k :: HeldBy(keys, k, holder, role) ==> k in rest
        decreases |rest|
      {
        var k :| k in rest;
        if keys[k].holder == Some(holder) && keys[k].role == role { return Some(k); }
        rest := rest - {k};
      }
      return None;
    }

    /** `readKeyWithRoleAndCurve`. */
    method ReadSpare(role: Role, curve: nat, before: int, preferred: string) returns (r: Option<string>)
      ensures r.Some? ==> Oldest(keys, r.value, role, curve, before, preferred)
      ensures r.None? ==> forall k :: !Spare(keys, k, role, curve, before, preferred)
    {
      var rest := keys.Keys;
      r := None;
      while rest != {}
        invariant rest <= keys.Keys
        invariant r.None? ==> forall k :: Spare(keys, k, role, curve, before, preferred) ==> k in rest
        invariant r.Some? ==> Spare(keys, r.value, role, curve, before, preferred)
        invariant r.Some? ==> forall k :: Spare(keys, k, role, curve, before, preferred) && k !in rest ==>
                                Before(keys, r.value, k)
        decreases |rest|
      {
        var k :| k in rest;
        T.TextOrder(k, k, k);
        if Spare(keys, k, role, curve, before, preferred) {
          if r.None? || Before(keys, k, r.value) {
            if r.Some? { StillBefore(keys, k, r.value); }
            r := Some(k);
          } else {
            T.TextOrder(k, r.value, k);
          }
        }
        rest := rest - {k};
      }
    }

    /** `AssignSignerAndObserverToHolder`. The panic cannot happen. */
    method Assign(holder: string, curve: nat, before: int, preferred: string) returns (r: Assigned)
      requires Paired(keys)
      modifies this
      ensures Paired(keys)
      ensures AssignStep(old(keys), keys, r, holder, curve, before, preferred)
      ensures r != Panic
    {
      var signer := ReadHeld(holder, Signer);
      var observer := ReadHeld(holder, Observer);
      if signer.Some? && observer.Some? { return Assigned(Pair(signer.value, observer.value)); }
      if signer.Some? || observer.Some? { return Panic; }
      signer := ReadSpare(Signer, curve, before, "");
      observer := ReadSpare(Observer, curve, before, preferred);
      if signer.None? || observer.None? { return Unavailable; }
      var p := Pair(signer.value, observer.value);
      GivePaired(keys, p, holder);
      keys := Give(keys, p, holder);
      return Assigned(p);
    }
  }

  lemma {:induction false} StillBefore(keys: Keys, k: string, r: string)
    requires k in keys && r in keys && Before(keys, k, r)
    ensures forall j :: j in keys && Before(keys, r, j) ==> Before(keys, k, j)
  {
    forall j | j in keys && Before(keys, r, j) ensures Before(keys, k, j) { T.TextOrder(k, r, j); }
  }

  /** The same table, clock and preference give the same keys. */
  lemma {:induction false} AssignDetermined(keys: Keys, a: Keys, b: Keys, r: Assigned, q: Assigned, holder: string, curve: nat, before: int, preferred: string)
    requires Paired(keys)
    requires AssignStep(keys, a, r, holder, curve, before, preferred) && AssignStep(keys, b, q, holder, curve, before, preferred)
    ensures a == b && r == q
  {
    if r.Assigned? && q.Assigned? {
      T.TextOrder(r.pair.signer, q.pair.signer, r.pair.signer);
      T.TextOrder(r.pair.observer, q.pair.observer, r.pair.observer);
    }
  }

  /** A holder is given keys exactly if it has them, or a spare one of each role is there; those given are the oldest. */
  lemma {:induction false} AssignExactly(keys: Keys, keys': Keys, r: Assigned, holder: string, curve: nat, before: int, preferred: string)
    requires Paired(keys) && AssignStep(keys, keys', r, holder, curve, before, preferred)
    ensures r.Assigned? <==>
              || Holds(keys, holder, Signer)
              || ((exists k :: Spare(keys, k, Signer, curve, before, "")) && (exists k :: Spare(keys, k, Observer, curve, before, preferred)))
    ensures r.Assigned? ==> HeldBy(keys', r.pair.signer, holder, Signer) && HeldBy(keys', r.pair.observer, holder, Observer)
    ensures forall k :: k in keys ==> k in keys' && (keys'[k] == keys[k] || (keys[k].holder.None? && keys'[k] == keys[k].(holder := Some(holder))))
    ensures r.Assigned? && !Holds(keys, holder, Signer) ==>
              && forall j :: Spare(keys, j, Signer, curve, before, "") ==> keys[r.pair.signer].createdAt <= keys[j].createdAt
    ensures r.Assigned? && !Holds(keys, holder, Signer) ==>
              && forall j :: Spare(keys, j, Observer, curve, before, preferred) ==> keys[r.pair.observer].createdAt <= keys[j].createdAt
  {
  }

  /** Once a pair was given, the same call finds it and changes nothing, at any later time. */
  lemma {:induction false} AssignedStays(keys: Keys, a: Keys, b: Keys, r: Assigned, q: Assigned, holder: string, curve: nat, now: int, later: int, preferred: string)
    requires Paired(keys) && r.Assigned?
    requires AssignStep(keys, a, r, holder, curve, now, preferred) && AssignStep(a, b, q, holder, curve, later, preferred)
    ensures b == a && q == r
  {
    var op := Ask(holder, curve, now, preferred, r);
    StepPaired(keys, a, op);
    GivenPair(keys, a, op);
  }

  // ---- What every step keeps

  lemma {:induction false} WritePaired(keys: Keys, public: string, k: Key)
    requires Paired(keys) && public !in keys && k.holder.None?
    ensures Paired(keys[public := k])
  {
    var keys' := keys[public := k];
    forall h, r ensures Holds(keys', h, r) <==> Holds(keys, h, r) {
      forall j | HeldBy(keys', j, h, r) ensures HeldBy(keys, j, h, r) {}
      forall j | HeldBy(keys, j, h, r) ensures HeldBy(keys', j, h, r) {}
    }
    forall i, j, h, r | HeldBy(keys', i, h, r) && HeldBy(keys', j, h, r) ensures i == j {
      assert HeldBy(keys, i, h, r) && HeldBy(keys, j, h, r);
    }
  }

  /** After the assignment the holder has these two keys; everybody else has what they had. */
  lemma {:induction false} GiveExact(keys: Keys, p: Pair, holder: string, k: string, h: string, r: Role)
    requires p.signer in keys && p.observer in keys && keys[p.signer].role == Signer && keys[p.observer].role == Observer
    requires keys[p.signer].holder.None? && keys[p.observer].holder.None?
    ensures HeldBy(Give(keys, p, holder), k, h, r) <==>
              HeldBy(keys, k, h, r) || (h == holder && k == if r == Signer then p.signer else p.observer)
  {
  }

  lemma {:induction false} GivePaired(keys: Keys, p: Pair, holder: string)
    requires Paired(keys) && !Holds(keys, holder, Signer) && !Holds(keys, holder, Observer)
    requires p.signer in keys && p.observer in keys && keys[p.signer].role == Signer && keys[p.observer].role == Observer
    requires keys[p.signer].holder.None? && keys[p.observer].holder.None?
    ensures Paired(Give(keys, p, holder))
  {
    var keys' := Give(keys, p, holder);
    forall k, h, r ensures HeldBy(keys', k, h, r) <==>
                             HeldBy(keys, k, h, r) || (h == holder && k == if r == Signer then p.signer else p.observer) {
      GiveExact(keys, p, holder, k, h, r);
    }
    forall h, r ensures Holds(keys', h, r) <==> Holds(keys, h, r) || h == holder {
      if Holds(keys, h, r) {
        var k :| HeldBy(keys, k, h, r);
        assert HeldBy(keys', k, h, r);
      }
      if h == holder { assert HeldBy(keys', if r == Signer then p.signer else p.observer, h, r); }
    }
  }

  // ---- Runs

  datatype Op =
    | Write(public: string, key: Key)
    | Ask(holder: string, curve: nat, before: int, preferred: string, answer: Assigned)

  ghost predicate Step(keys: Keys, keys': Keys, op: Op)
  {
    match op
    case Write(public, k) => k.holder.None? && keys' == if public in keys then keys else keys[public := k]
    case Ask(h, c, b, p, r) => AssignStep(keys, keys', r, h, c, b, p)
  }

  /** A history of the table: it starts empty and every step is one operation. */
  ghost predicate History(states: seq<Keys>, ops: seq<Op>)
  {
    && |states| == |ops| + 1 && states[0] == map[]
    && (forall n :: 0 <= n < |ops| ==> Step(states[n], states[n + 1], ops[n]))
  }

  lemma {:induction false} StepPaired(keys: Keys, keys': Keys, op: Op)
    requires Paired(keys) && Step(keys, keys', op)
    ensures Paired(keys')
    ensures forall k :: k in keys && keys[k].holder.Some? ==> k in keys' && keys'[k].holder == keys[k].holder
    ensures op.Ask? ==> op.answer != Panic
  {
    match op
    case Write(public, k) => if public !in keys { WritePaired(keys, public, k); }
    case Ask(h, c, b, p, r) =>
      if !Holds(keys, h, Signer) && !Holds(keys, h, Observer) && r.Assigned? { GivePaired(keys, r.pair, h); }
  }

  /** In every reachable state a holder has no keys or one of each role. */
  lemma {:induction false} AlwaysPaired(states: seq<Keys>, ops: seq<Op>, n: nat)
    requires History(states, ops) && n < |states|
    ensures Paired(states[n])
    decreases n
  {
    if n > 0 {
      AlwaysPaired(states, ops, n - 1);
      assert Step(states[n - 1], states[n], ops[n - 1]);
      StepPaired(states[n - 1], states[n], ops[n - 1]);
    }
  }

  /** The panic on a half-assigned holder never happens. */
  lemma {:induction false} NeverPanics(states: seq<Keys>, ops: seq<Op>, n: nat)
    requires History(states, ops) && n < |ops| && ops[n].Ask?
    ensures ops[n].answer != Panic
  {
    AlwaysPaired(states, ops, n);
    assert Step(states[n], states[n + 1], ops[n]);
    StepPaired(states[n], states[n + 1], ops[n]);
  }

  /** No key ever changes its holder. */
  lemma {:induction false} HolderForever(states: seq<Keys>, ops: seq<Op>, m: nat, n: nat, k: string, h: string, r: Role)
    requires History(states, ops) && m <= n < |states| && HeldBy(states[m], k, h, r)
    ensures HeldBy(states[n], k, h, r)
    decreases n - m
  {
    if m < n {
      AlwaysPaired(states, ops, m);
      assert Step(states[m], states[m + 1], ops[m]);
      StepPaired(states[m], states[m + 1], ops[m]);
      RoleKept(states[m], states[m + 1], ops[m], k);
      HolderForever(states, ops, m + 1, n, k, h, r);
    }
  }

  lemma {:induction false} RoleKept(keys: Keys, keys': Keys, op: Op, k: string)
    requires Step(keys, keys', op) && k in keys
    ensures k in keys' && keys'[k].role == keys[k].role
  {
  }

  /** Asking again, at any later time and for whatever preference, gives the pair that was given first. */
  lemma {:induction false} AskAgain(states: seq<Keys>, ops: seq<Op>, m: nat, n: nat)
    requires History(states, ops) && m < n < |ops|
    requires ops[m].Ask? && ops[n].Ask? && ops[m].holder == ops[n].holder && ops[m].answer.Assigned?
    ensures ops[n].answer == ops[m].answer && states[n + 1] == states[n]
  {
    var h, p := ops[m].holder, ops[m].answer.pair;
    assert Step(states[m], states[m + 1], ops[m]) && Step(states[n], states[n + 1], ops[n]);
    AlwaysPaired(states, ops, m);
    AlwaysPaired(states, ops, n);
    GivenPair(states[m], states[m + 1], ops[m]);
    HolderForever(states, ops, m + 1, n, p.signer, h, Signer);
    HolderForever(states, ops, m + 1, n, p.observer, h, Observer);
  }

  lemma {:induction false} GivenPair(keys: Keys, keys': Keys, op: Op)
    requires Paired(keys) && Step(keys, keys', op) && op.Ask? && op.answer.Assigned?
    ensures HeldBy(keys', op.answer.pair.signer, op.holder, Signer) && HeldBy(keys', op.answer.pair.observer, op.holder, Observer)
  {
  }
}
