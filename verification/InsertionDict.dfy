/** Python's dict as the pin maps use it: keys are remembered in the order they were first inserted. */
module InsertionDict {
  import opened Sequences

  type Positive = n: int | n >= 1 witness 1

  datatype Dict<K(==), V(==)> = Dict(order: seq<K>, at: map<K, V>) {

    ghost predicate Valid() {
      Distinct(order) && Elements(order) == at.Keys
    }

    function Get(k: K): Option<V> {
      if k in at then Some(at[k]) else None
    }

    /** Assignment: an existing key keeps its place, a new one goes last. */
    function Put(k: K, v: V): (d: Dict<K, V>)
      requires Valid()
      ensures d.Valid()
    {
      if k in at then Dict(order, at[k := v])
      else
        assert k !in Elements(order);
        DistinctAppend(order, k);
        Dict(order + [k], at[k := v])
    }

    function Without(gone: set<K>): (d: Dict<K, V>)
      requires Valid()
      ensures d.Valid()
    {
      DroppingDistinct(order, gone);
      DroppingElements(order, gone);
      Dict(Dropping(order, gone), at - gone)
    }

    function Remove(k: K): (d: Dict<K, V>)
      requires Valid()
      ensures d.Valid()
    {
      Without({k})
    }

    function KeysOf(v: V): set<K> {
      set k | k in at && at[k] == v
    }

    /** Removes every key that maps to v. */
    function RemoveValue(v: V): (d: Dict<K, V>)
      requires Valid()
      ensures d.Valid() && v !in d.at.Values
    {
      Without(KeysOf(v))
    }

    /** Drops the oldest key once `cap` keys are stored. */
    function MakeRoom(cap: Positive): (d: Dict<K, V>)
      requires Valid()
      ensures d.Valid()
      ensures |order| <= cap ==> |d.order| < cap
    {
      if |order| < cap then this
      else
        DropFirst(order);
        Remove(order[0])
    }
  }

  /** k is pinned to v behind all others; once `cap` keys were stored the oldest is gone, and nothing else changed. */
  ghost predicate GainsPin<K, V>(d: Dict<K, V>, k: K, v: V, d': Dict<K, V>, cap: Positive) {
    && d'.order == (if |d.order| < cap then d.order else d.order[1..]) + [k]
    && d'.Get(k) == Some(v)
    && forall j :: j in d'.order && j != k ==> d'.Get(j) == d.Get(j)
  }

  lemma PutGainsPin<K, V>(d: Dict<K, V>, k: K, v: V, cap: Positive)
    requires d.Valid() && k !in d.at
    ensures GainsPin(d, k, v, d.MakeRoom(cap).Put(k, v), cap)
  {
    var room := d.MakeRoom(cap);
    if |d.order| >= cap {
      DropFirst(d.order);
    }
    assert k !in room.at;
    forall j | j in room.order ensures room.Get(j) == d.Get(j) {
      assert j in Elements(room.order);
    }
  }

  lemma WithoutTwice<K, V>(d: Dict<K, V>, a: set<K>, b: set<K>)
    requires d.Valid()
    ensures d.Without({}) == d
    ensures d.Without(a).Without(b) == d.Without(a + b)
  {
    DroppingNothing(d.order, {});
    assert d.at - {} == d.at;
    DroppingTwice(d.order, a, b);
    assert d.at - a - b == d.at - (a + b);
  }

  /** The loop both pin maps run when a backend goes: collect its keys, then delete them one by one. */
  method ClearValue<K(==), V(==)>(d: Dict<K, V>, v: V) returns (d': Dict<K, V>, stale: set<K>)
    requires d.Valid()
    ensures d' == d.RemoveValue(v) && stale == d.KeysOf(v)
  {
    stale := d.KeysOf(v);
    d' := d;
    var todo := stale;
    ghost var done := {};
    WithoutTwice(d, {}, {});
    while todo != {}
      invariant d' == d.Without(done) && done + todo == stale
      decreases todo
    {
      var k :| k in todo;
      WithoutTwice(d, done, {k});
      d' := d'.Remove(k);
      todo, done := todo - {k}, done + {k};
    }
  }

  function Empty<K(==), V(==)>(): (d: Dict<K, V>)
    ensures d.Valid()
  {
    Dict([], map[])
  }

  /** Dropping the first element of a duplicate-free sequence leaves its tail. */
  lemma DropFirst<K>(s: seq<K>)
    requires Distinct(s) && s != []
    ensures Dropping(s, {s[0]}) == s[1..]
  {
    assert s[0] !in Elements(s[1..]);
    DroppingNothing(s[1..], {s[0]});
  }
}
