/** The rotating pool of classes/round_robin.py. */
module RoundRobin {
  import opened Sequences

  /**
   * A rotation split at the cursor: the items still to be served in this lap,
   * and those already served. Rot lists the items in the order in which the
   * next calls will serve them.
   */
  datatype Wheel<T(==)> = Wheel(ahead: seq<T>, served: seq<T>) {

    predicate Valid() {
      ahead == [] ==> served == []
    }

    function Items(): seq<T> {
      served + ahead
    }

    function Rot(): seq<T> {
      ahead + served
    }

    function Next(): Wheel<T>
      requires ahead != []
    {
      if |ahead| == 1 then Wheel(served + ahead, [])
      else Wheel(ahead[1..], served + [ahead[0]])
    }

    function Delete(x: T): Wheel<T> {
      if x in served then Wheel(ahead, RemoveFirst(served, x))
      else
        var rest := RemoveFirst(ahead, x);
        if rest == [] then Wheel(served, []) else Wheel(rest, served)
    }

    function Add(x: T): Wheel<T> {
      if x in Items() then this else Wheel(ahead + [x], served)
    }

    function AddAll(xs: seq<T>): Wheel<T>
      decreases |xs|
    {
      if xs == [] then this else Add(xs[0]).AddAll(xs[1..])
    }
  }

  /** The pool object: a list and a cursor into it. */
  class AsyncRoundRobin<T(==)> {
    var items: seq<T>
    var index: nat

    predicate Valid()
      reads this
    {
      index < |items| || index == 0 == |items|
    }

    function State(): (w: Wheel<T>)
      requires Valid()
      reads this
      ensures w.Valid() && w.Items() == items && |w.served| == index
    {
      Wheel(items[index..], items[..index])
    }

    constructor (items: seq<T>)
      ensures Valid() && State() == Wheel(items, [])
    {
      this.items := items;
      this.index := 0;
    }

    method Add(item: T)
      requires Valid()
      modifies this
      ensures Valid() && State() == old(State()).Add(item)
    {
      if item !in items {
        items := items + [item];
      }
    }

    method AddAll(list: seq<T>)
      requires Valid()
      modifies this
      ensures Valid() && State() == old(State()).AddAll(list)
    {
      for k := 0 to |list|
        invariant Valid() && State().AddAll(list[k..]) == old(State()).AddAll(list)
      {
        ghost var w := State();
        assert list[k..][1..] == list[k + 1..];
        if list[k] !in items {
          items := items + [list[k]];
        }
        assert State() == w.Add(list[k]);
      }
    }

    method GetAll() returns (all: seq<T>)
      requires Valid()
      ensures all == State().Items()
    {
      all := items;
    }

    method GetNext() returns (item: Option<T>)
      requires Valid()
      modifies this
      ensures Valid()
      ensures old(items) == [] ==> item == None && State() == old(State())
      ensures old(items) != [] ==> item == Some(old(State()).Rot()[0]) && State() == old(State()).Next()
    {
      if items == [] {
        return None;
      }
      item := Some(items[index]);
      ghost var w := State();
      WrapAround(index, |items|);
      index := (index + 1) % |items|;
      if |w.ahead| == 1 {
        assert items[index..] == w.served + w.ahead;
      } else {
        assert items[..index] == w.served + [w.ahead[0]];
      }
    }

    method GetCurrent() returns (item: Option<T>)
      requires Valid()
      ensures items == [] ==> item == None
      ensures items != [] ==> item == Some(State().Rot()[0])
    {
      if items == [] {
        return None;
      }
      item := Some(items[index]);
    }

    method Delete(item: T)
      requires Valid()
      modifies this
      ensures Valid() && State() == old(State()).Delete(item)
    {
      if item in items {
        var at := IndexOf(items, item);
        DeleteAt(items, index, at);
        items := items[..at] + items[at + 1..];
        if at < index {
          index := index - 1;
        } else if index == |items| {
          index := 0;
        }
      } else {
        RemoveFirstAbsent(items[index..], item);
      }
    }
  }

  /** Deleting at list position `at` is deleting from one side of the wheel. */
  lemma DeleteAt<T>(items: seq<T>, index: nat, at: nat)
    requires index < |items| && at < |items| && items[at] !in items[..at]
    ensures var w := Wheel(items[index..], items[..index]).Delete(items[at]);
            var rest := items[..at] + items[at + 1..];
            if at < index then w == Wheel(rest[index - 1..], rest[..index - 1])
            else if index == |rest| then w == Wheel(rest, [])
            else w == Wheel(rest[index..], rest[..index])
  {
    var x := items[at];
    var ahead, served := items[index..], items[..index];
    var rest := items[..at] + items[at + 1..];
    if at < index {
      assert served[at] == x && served[..at] == items[..at];
      RemoveFirstAt(served, x, at);
      assert rest[..index - 1] == served[..at] + served[at + 1..];
      assert rest[index - 1..] == ahead;
    } else {
      assert x !in served by {
        assert items[..at][..index] == served;
      }
      assert ahead[at - index] == x && ahead[..at - index] == items[..at][index..];
      RemoveFirstAt(ahead, x, at - index);
      assert rest[index..] == ahead[..at - index] + ahead[at - index + 1..];
      assert rest[..index] == served;
    }
  }

  lemma WrapAround(i: nat, n: nat)
    requires i < n
    ensures (i + 1) % n == if i + 1 == n then 0 else i + 1
  {
  }

  method IndexOf<T(==)>(s: seq<T>, x: T) returns (k: nat)
    requires x in s
    ensures k < |s| && s[k] == x && x !in s[..k]
  {
    k := 0;
    while s[k] != x
      invariant k < |s| && x !in s[..k] && x in s[k..]
      decreases |s| - k
    {
      k := k + 1;
    }
  }

  // ---- What the three mutators do to the order of service ----

  lemma NextRotates<T>(w: Wheel<T>)
    requires w.ahead != []
    ensures w.Next().Valid() && w.Next().ahead != [] && w.Next().Items() == w.Items()
    ensures w.Next().Rot() == w.Rot()[1..] + [w.Rot()[0]]
  {
  }

  /** Removing x from the half of the wheel it is in is dropping it from both. */
  lemma DeleteDrops<T>(w: Wheel<T>, x: T)
    requires w.Valid() && Distinct(w.Items())
    ensures var ahead, served := Dropping(w.ahead, {x}), Dropping(w.served, {x});
            w.Delete(x) == if ahead == [] then Wheel(served, []) else Wheel(ahead, served)
  {
    DistinctHalves(w.served, w.ahead);
    RemoveFirstIsDropping(w.served, x);
    RemoveFirstIsDropping(w.ahead, x);
    if x in w.served {
      assert x in Elements(w.served) && Elements(w.ahead) !! {x};
      DroppingNothing(w.ahead, {x});
    } else {
      assert Elements(w.served) !! {x};
      DroppingNothing(w.served, {x});
    }
  }

  /** Deleting takes x out of the order of service and moves nobody else. */
  lemma DeleteKeepsOrder<T>(w: Wheel<T>, x: T)
    requires w.Valid() && Distinct(w.Items())
    ensures w.Delete(x).Valid() && Distinct(w.Delete(x).Items())
    ensures w.Delete(x).Rot() == Dropping(w.Rot(), {x})
    ensures w.Delete(x).Items() == Dropping(w.Items(), {x})
    ensures Elements(w.Delete(x).Items()) == Elements(w.Items()) - {x}
  {
    DeleteDrops(w, x);
    var ahead, served := Dropping(w.ahead, {x}), Dropping(w.served, {x});
    assert served + [] == served == [] + served;
    assert w.Delete(x).Rot() == ahead + served && w.Delete(x).Items() == served + ahead;
    DroppingConcat(w.ahead, w.served, {x});
    DroppingConcat(w.served, w.ahead, {x});
    DroppingElements(w.Items(), {x});
    DroppingDistinct(w.Items(), {x});
  }

  /** A new item joins the list at the end and leaves the others' order of service alone. */
  lemma AddNewItem<T>(w: Wheel<T>, x: T)
    requires w.Valid() && Distinct(w.Items()) && x !in w.Items()
    ensures w.Add(x).Items() == w.Items() + [x] && Distinct(w.Add(x).Items())
    ensures Dropping(w.Add(x).Rot(), {x}) == w.Rot()
  {
    assert w.Add(x).Items() == w.Items() + [x];
    DistinctAppend(w.Items(), x);
    DroppingConcat(w.ahead + [x], w.served, {x});
    DroppingConcat(w.ahead, [x], {x});
    assert Elements(w.ahead) !! {x} && Elements(w.served) !! {x};
    DroppingNothing(w.ahead, {x});
    DroppingNothing(w.served, {x});
    assert Dropping([x], {x}) == [];
    assert w.ahead + [] == w.ahead;
  }

  lemma AddKeepsOrder<T>(w: Wheel<T>, x: T)
    requires w.Valid() && Distinct(w.Items())
    ensures w.Add(x).Valid() && Distinct(w.Add(x).Items())
    ensures x !in w.Items() ==> w.Add(x).Items() == w.Items() + [x]
    ensures x !in w.Items() ==> Dropping(w.Add(x).Rot(), {x}) == w.Rot()
    ensures Elements(w.Add(x).Items()) == Elements(w.Items()) + {x}
  {
    if x !in w.Items() {
      AddNewItem(w, x);
      DistinctAppend(w.Items(), x);
    } else {
      assert x in Elements(w.Items());
    }
  }
}
