/** What the tables of the keeper are made of. */
module KeeperTypes {
  type Hash = string
  type Holder = string
  type Address = string
  type Key = string
  type Sig = string

  /** A request is named by what it carries, or derived from a request and a message without collisions. */
  datatype Rid = Rid(id: string) | Derived(parent: Rid, message: string)

  datatype State = Initial | Pending | Done | Failed

  datatype OutPoint = OutPoint(hash: Hash, index: nat)

  /** What the keeper sends out when an output has been handled. */
  datatype Emitted = Bond(holder: Holder, amount: nat) | Storage | Notify | Sign(id: Rid, message: string)

  datatype Reply = Reply(emitted: seq<Emitted>, compaction: bool)

  // ---- The order of request ids, in which the store breaks ties

  predicate TextBelow(a: string, b: string)
  {
    a == [] || (b != [] && (a[0] < b[0] || (a[0] == b[0] && TextBelow(a[1..], b[1..]))))
  }

  predicate Below(a: Rid, b: Rid)
  {
    match (a, b)
    case (Rid(x), Rid(y)) => TextBelow(x, y)
    case (Rid(_), Derived(_, _)) => true
    case (Derived(_, _), Rid(_)) => false
    case (Derived(p, m), Derived(q, n)) => if p == q then TextBelow(m, n) else Below(p, q)
  }

  lemma {:induction false} TextOrder(a: string, b: string, c: string)
    ensures TextBelow(a, b) || TextBelow(b, a)
    ensures TextBelow(a, b) && TextBelow(b, a) ==> a == b
    ensures TextBelow(a, b) && TextBelow(b, c) ==> TextBelow(a, c)
    decreases |a|
  {
    if a != [] && b != [] {
      TextOrder(a[1..], b[1..], if c == [] then [] else c[1..]);
      assert a[0] == b[0] && a[1..] == b[1..] ==> a == b by { assert [a[0]] + a[1..] == a && [b[0]] + b[1..] == b; }
    }
  }

  /** Request ids are totally ordered. */
  lemma {:induction false} RidOrder(a: Rid, b: Rid, c: Rid)
    ensures Below(a, b) || Below(b, a)
    ensures Below(a, b) && Below(b, a) ==> a == b
    ensures Below(a, b) && Below(b, c) ==> Below(a, c)
    decreases a
  {
    match (a, b)
    case (Rid(x), Rid(y)) => TextOrder(x, y, if c.Rid? then c.id else "");
    case (Derived(p, m), Derived(q, n)) =>
      RidOrder(p, q, if c.Derived? then c.parent else p);
      if c.Derived? { RidOrder(p, c.parent, q); }
      TextOrder(m, n, if c.Derived? then c.message else "");
    case _ =>
  }
}
