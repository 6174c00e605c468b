/** How long a pin lasts in a bounded map that evicts its oldest entry. */
module Stickiness {
  import opened Sequences
  import opened InsertionDict
  import opened Identities
  import opened StickySession
  import opened StickyIp

  /** What can happen to a pin map: a client is pinned or released, a backend is deleted. */
  datatype PinStep<K, V> = Assign(key: K, value: V) | Release(key: K) | Forget(value: V)

  function Apply<K(==), V(==)>(d: Dict<K, V>, step: PinStep<K, V>, cap: Positive): (d': Dict<K, V>)
    requires d.Valid()
    ensures d'.Valid()
  {
    match step
    case Assign(k, v) => (if k in d.at then d else d.MakeRoom(cap)).Put(k, v)
    case Release(k) => d.Remove(k)
    case Forget(v) => d.RemoveValue(v)
  }

  function Run<K(==), V(==)>(d: Dict<K, V>, steps: seq<PinStep<K, V>>, cap: Positive): (d': Dict<K, V>)
    requires d.Valid()
    ensures d'.Valid()
    decreases |steps|
  {
    if steps == [] then d else Run(Apply(d, steps[0], cap), steps[1..], cap)
  }

  /** The clients other than k that got a pin while they had none, each once, however often that was. */
  function NewClients<K(==), V(==)>(d: Dict<K, V>, steps: seq<PinStep<K, V>>, k: K, cap: Positive): set<K>
    requires d.Valid()
    decreases |steps|
  {
    if steps == [] then {}
    else
      (if steps[0].Assign? && steps[0].key != k && steps[0].key !in d.at then {steps[0].key} else {})
      + NewClients(Apply(d, steps[0], cap), steps[1..], k, cap)
  }

  /** No step releases k, deletes b, or pins k to something else. */
  ghost predicate LeavesAlone<K, V>(steps: seq<PinStep<K, V>>, k: K, b: V) {
    forall s :: s in steps ==>
      match s
      case Assign(key, value) => key == k ==> value == b
      case Release(key) => key != k
      case Forget(value) => value != b
  }

  /** The keys younger than k. */
  function Younger<K(==)>(order: seq<K>, k: K): set<K> {
    if order == [] then {} else if order[0] == k then Elements(order[1..]) else Younger(order[1..], k)
  }

  lemma {:induction false} YoungerAfterDropping<K>(order: seq<K>, k: K, gone: set<K>)
    requires k in order && k !in gone
    ensures Younger(Dropping(order, gone), k) <= Younger(order, k)
  {
    var rest := Dropping(order[1..], gone);
    assert ([order[0]] + rest)[1..] == rest;
    if order[0] == k {
      DroppingElements(order[1..], gone);
    } else {
      YoungerAfterDropping(order[1..], k, gone);
    }
  }

  lemma {:induction false} YoungerAfterAppend<K>(order: seq<K>, k: K, x: K)
    requires k in order && x != k
    ensures Younger(order + [x], k) == Younger(order, k) + {x}
  {
    assert (order + [x])[1..] == order[1..] + [x];
    if order[0] != k {
      YoungerAfterAppend(order[1..], k, x);
    } else {
      assert Elements(order[1..] + [x]) == Elements(order[1..]) + {x};
    }
  }

  /** When k is the oldest key, all others are younger. */
  lemma OldestHasAllYounger<K>(order: seq<K>, k: K, x: K)
    requires Distinct(order) && order != [] && order[0] == k && x !in order
    ensures |Younger(order, k) + {x}| == |order|
  {
    DistinctSize(order[1..]);
    assert x !in Elements(order[1..]);
  }

  /** k is pinned to b, only clients among `others` are younger, and the map is within its cap. */
  ghost predicate Holds<K, V>(d: Dict<K, V>, k: K, b: V, others: set<K>, cap: Positive) {
    d.Valid() && |d.order| <= cap && d.Get(k) == Some(b) && Younger(d.order, k) <= others
  }

  /** A new client evicts the oldest at the cap, which is not k while the others are too few. */
  lemma AssigningHolds<K, V>(d: Dict<K, V>, key: K, v: V, k: K, b: V, others: set<K>, cap: Positive)
    requires Holds(d, k, b, others, cap) && key !in d.at && key in others && |others| < cap
    ensures Holds(d.MakeRoom(cap).Put(key, v), k, b, others, cap)
  {
    assert k in Elements(d.order) && key !in Elements(d.order);
    var room := d.MakeRoom(cap);
    if |d.order| == cap {
      if d.order[0] == k {
        OldestHasAllYounger(d.order, k, key);
        SubsetSize(Younger(d.order, k) + {key}, others);
      }
      YoungerAfterDropping(d.order, k, {d.order[0]});
    }
    assert k in room.at && k in Elements(room.order);
    YoungerAfterAppend(room.order, k, key);
  }

  lemma ShrinkingHolds<K, V>(d: Dict<K, V>, gone: set<K>, k: K, b: V, others: set<K>, cap: Positive)
    requires Holds(d, k, b, others, cap) && k !in gone
    ensures Holds(d.Without(gone), k, b, others, cap)
  {
    assert k in Elements(d.order);
    YoungerAfterDropping(d.order, k, gone);
    DroppingElements(d.order, gone);
  }

  /** One step makes nobody younger than k but a client that just got its pin. */
  lemma StepKeepsPin<K, V>(d: Dict<K, V>, step: PinStep<K, V>, k: K, b: V, others: set<K>, cap: Positive)
    requires Holds(d, k, b, others, cap) && LeavesAlone([step], k, b)
    requires NewClients(d, [step], k, cap) <= others && |others| < cap
    ensures Holds(Apply(d, step, cap), k, b, others, cap)
  {
    assert step in [step];
    match step {
      case Assign(key, v) =>
        if key !in d.at {
          assert NewClients(d, [step], k, cap) == {key};
          AssigningHolds(d, key, v, k, b, others, cap);
        }
      case Release(key) => ShrinkingHolds(d, {key}, k, b, others, cap);
      case Forget(v) => ShrinkingHolds(d, d.KeysOf(v), k, b, others, cap);
    }
  }

  lemma {:induction false} StepsKeepPin<K, V>(d: Dict<K, V>, steps: seq<PinStep<K, V>>, k: K, b: V,
                                              others: set<K>, cap: Positive)
    requires Holds(d, k, b, others, cap) && LeavesAlone(steps, k, b)
    requires NewClients(d, steps, k, cap) <= others && |others| < cap
    ensures Holds(Run(d, steps, cap), k, b, others, cap)
    decreases |steps|
  {
    if steps != [] {
      hide Holds;
      assert steps[0] in steps && forall s :: s in steps[1..] ==> s in steps;
      StepKeepsPin(d, steps[0], k, b, others, cap);
      StepsKeepPin(Apply(d, steps[0], cap), steps[1..], k, b, others, cap);
    }
  }

  /**
   * A pin lasts: unless its client is released or re-pinned, or its backend deleted, it
   * survives every run in which the clients younger than it and the clients that get a pin
   * are, taken together, fewer than the cap. A client counts once, however often it loses its
   * pin and gets a new one. Right after the pin was made nobody is younger, so it takes
   * cap-many other clients to push it out.
   */
  lemma PinLasts<K, V>(d: Dict<K, V>, steps: seq<PinStep<K, V>>, k: K, b: V, cap: Positive)
    requires d.Valid() && |d.order| <= cap && d.Get(k) == Some(b)
    requires LeavesAlone(steps, k, b)
    requires |Younger(d.order, k) + NewClients(d, steps, k, cap)| < cap
    ensures Run(d, steps, cap).Get(k) == Some(b)
  {
    StepsKeepPin(d, steps, k, b, Younger(d.order, k) + NewClients(d, steps, k, cap), cap);
  }

  /** In particular, in a map with room for every client there is, a pin is never evicted. */
  lemma RoomForAll<K, V>(d: Dict<K, V>, steps: seq<PinStep<K, V>>, k: K, b: V, clients: set<K>, cap: Positive)
    requires d.Valid() && d.Get(k) == Some(b) && LeavesAlone(steps, k, b)
    requires d.at.Keys <= clients && |clients| <= cap
    requires forall s :: s in steps && s.Assign? ==> s.key in clients
    ensures Run(d, steps, cap).Get(k) == Some(b)
  {
    DistinctSize(d.order);
    SubsetSize(d.at.Keys, clients);
    YoungerAreOthers(d.order, k);
    NewClientsAssigned(d, steps, k, clients, cap);
    var others := Younger(d.order, k) + NewClients(d, steps, k, cap);
    SubsetSize(others, clients - {k});
    PinLasts(d, steps, k, b, cap);
  }

  lemma {:induction false} YoungerAreOthers<K>(order: seq<K>, k: K)
    requires Distinct(order)
    ensures Younger(order, k) <= Elements(order) - {k}
  {
    if order != [] && order[0] != k {
      YoungerAreOthers(order[1..], k);
    }
  }

  lemma {:induction false} NewClientsAssigned<K, V>(d: Dict<K, V>, steps: seq<PinStep<K, V>>, k: K,
                                                    clients: set<K>, cap: Positive)
    requires d.Valid()
    requires forall s :: s in steps && s.Assign? ==> s.key in clients
    ensures NewClients(d, steps, k, cap) <= clients - {k}
    decreases |steps|
  {
    if steps != [] {
      assert steps[0] in steps && forall s :: s in steps[1..] ==> s in steps;
      NewClientsAssigned(Apply(d, steps[0], cap), steps[1..], k, clients, cap);
    }
  }

  /** These are the operations of the address map, and releasing and deleting are those of both maps. */
  lemma StepsAreOperations(pins: Pins, ip: Ip, b: Server, cap: Positive)
    requires pins.Valid()
    ensures Apply(pins, Assign(ip, b), cap) == PinTo(pins, ip, b, cap)
    ensures ip !in pins.at ==> GainsPin(pins, ip, b, Apply(pins, Assign(ip, b), cap), cap)
    ensures ip in pins.at ==>
              Apply(pins, Assign(ip, b), cap).order == pins.order && Apply(pins, Assign(ip, b), cap).Get(ip) == Some(b)
    ensures var released := Apply(pins, Release(ip), cap);
            ip !in released.at && forall k :: k != ip ==> released.Get(k) == pins.Get(k)
    ensures var forgot := Apply(pins, Forget(b), cap);
            forall k :: forgot.Get(k) == if pins.Get(k) == Some(b) then None else pins.Get(k)
  {
    if ip !in pins.at {
      PutGainsPin(pins, ip, b, cap);
    }
  }

  /** The maps never outgrow their cap. */
  lemma {:induction false} NeverOverCap<K, V>(d: Dict<K, V>, steps: seq<PinStep<K, V>>, cap: Positive)
    requires d.Valid() && |d.order| <= cap
    ensures |Run(d, steps, cap).order| <= cap
    decreases |steps|
  {
    if steps != [] {
      match steps[0] {
        case Assign(k, v) =>
        case Release(k) => DroppingElements(d.order, {k});
        case Forget(v) => DroppingElements(d.order, d.KeysOf(v));
      }
      NeverOverCap(Apply(d, steps[0], cap), steps[1..], cap);
    }
  }

  /** Re-pinning a client that has a pin moves no key and evicts nobody. */
  lemma RepinEvictsNobody<K, V>(d: Dict<K, V>, k: K, v: V, cap: Positive)
    requires d.Valid() && k in d.at
    ensures Apply(d, Assign(k, v), cap).order == d.order
    ensures forall j :: j in d.at && j != k ==> Apply(d, Assign(k, v), cap).Get(j) == Some(d.at[j])
  {
  }

  /** A fresh pin is younger than every other. */
  lemma FreshPinIsYoungest<K, V>(d: Dict<K, V>, k: K, v: V, cap: Positive)
    requires d.Valid() && k !in d.at
    ensures Younger(Apply(d, Assign(k, v), cap).order, k) == {}
    ensures Apply(d, Assign(k, v), cap).Get(k) == Some(v)
  {
    var room := d.MakeRoom(cap);
    assert k !in Elements(room.order);
    LastIsYoungest(room.order, k);
  }

  lemma {:induction false} LastIsYoungest<K>(order: seq<K>, k: K)
    requires k !in order
    ensures Younger(order + [k], k) == {}
  {
    if order != [] {
      assert (order + [k])[1..] == order[1..] + [k];
      LastIsYoungest(order[1..], k);
    }
  }

  /** The keys that got into the map. */
  function Gained<K(==), V(==)>(before: Dict<K, V>, after: Dict<K, V>): set<K> {
    after.at.Keys - before.at.Keys
  }
}
