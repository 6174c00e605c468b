/** Facts about finite sequences that the pool, pin-map and limiter modules share. */
module Sequences {

  datatype Option<+T> = None | Some(value: T)

  ghost predicate Distinct<T>(s: seq<T>) {
    s == [] || (s[0] !in s[1..] && Distinct(s[1..]))
  }

  function Elements<T(==)>(s: seq<T>): set<T> {
    set x | x in s
  }

  /** s without its first occurrence of x: what Python's list.remove leaves behind. */
  function RemoveFirst<T(==)>(s: seq<T>, x: T): seq<T> {
    if s == [] then []
    else if s[0] == x then s[1..]
    else [s[0]] + RemoveFirst(s[1..], x)
  }

  /** The elements of s outside `gone`, in their old order. */
  function Dropping<T(==)>(s: seq<T>, gone: set<T>): seq<T> {
    if s == [] then []
    else if s[0] in gone then Dropping(s[1..], gone)
    else [s[0]] + Dropping(s[1..], gone)
  }

  lemma {:induction false} DroppingElements<T>(s: seq<T>, gone: set<T>)
    ensures Elements(Dropping(s, gone)) == Elements(s) - gone
    ensures |Dropping(s, gone)| <= |s|
  {
    if s != [] {
      DroppingElements(s[1..], gone);
      assert s == [s[0]] + s[1..];
      assert Elements(s) == {s[0]} + Elements(s[1..]);
      if s[0] !in gone {
        var rest := Dropping(s[1..], gone);
        assert Elements([s[0]] + rest) == {s[0]} + Elements(rest);
      }
    }
  }

  lemma {:induction false} DroppingDistinct<T>(s: seq<T>, gone: set<T>)
    requires Distinct(s)
    ensures Distinct(Dropping(s, gone))
  {
    if s != [] {
      DroppingDistinct(s[1..], gone);
      DroppingElements(s[1..], gone);
      assert s[0] !in Elements(s[1..]);
      var rest := Dropping(s[1..], gone);
      assert s[0] !in Elements(rest);
      assert ([s[0]] + rest)[1..] == rest;
    }
  }

  lemma {:induction false} DroppingConcat<T>(a: seq<T>, b: seq<T>, gone: set<T>)
    ensures Dropping(a + b, gone) == Dropping(a, gone) + Dropping(b, gone)
  {
    if a == [] {
      assert a + b == b;
    } else {
      assert (a + b)[1..] == a[1..] + b;
      DroppingConcat(a[1..], b, gone);
    }
  }

  lemma {:induction false} DroppingTwice<T>(s: seq<T>, first: set<T>, then_: set<T>)
    ensures Dropping(Dropping(s, first), then_) == Dropping(s, first + then_)
  {
    if s != [] {
      DroppingTwice(s[1..], first, then_);
      if s[0] !in first {
        var rest := Dropping(s[1..], first);
        assert ([s[0]] + rest)[1..] == rest;
      }
    }
  }

  lemma {:induction false} DroppingNothing<T>(s: seq<T>, gone: set<T>)
    requires Elements(s) !! gone
    ensures Dropping(s, gone) == s
  {
    if s != [] {
      assert s[0] in Elements(s);
      assert Elements(s[1..]) <= Elements(s);
      DroppingNothing(s[1..], gone);
    }
  }

  lemma {:induction false} RemoveFirstIsDropping<T>(s: seq<T>, x: T)
    requires Distinct(s)
    ensures RemoveFirst(s, x) == Dropping(s, {x})
  {
    if s != [] {
      if s[0] == x {
        assert s[0] !in Elements(s[1..]);
        DroppingNothing(s[1..], {x});
      } else {
        RemoveFirstIsDropping(s[1..], x);
      }
    }
  }

  lemma {:induction false} RemoveFirstAt<T>(s: seq<T>, x: T, k: nat)
    requires k < |s| && s[k] == x && x !in s[..k]
    ensures RemoveFirst(s, x) == s[..k] + s[k + 1..]
  {
    if k == 0 {
    } else {
      assert s[0] in s[..k];
      assert s[1..][..k - 1] == s[..k][1..];
      RemoveFirstAt(s[1..], x, k - 1);
      assert [s[0]] + (s[1..][..k - 1] + s[1..][k..]) == s[..k] + s[k + 1..];
    }
  }

  lemma {:induction false} RemoveFirstAbsent<T>(s: seq<T>, x: T)
    requires x !in s
    ensures RemoveFirst(s, x) == s
  {
    if s != [] {
      RemoveFirstAbsent(s[1..], x);
    }
  }

  /** A duplicate-free sequence is as long as its element set is large. */
  lemma {:induction false} DistinctSize<T>(s: seq<T>)
    requires Distinct(s)
    ensures |Elements(s)| == |s|
  {
    if s != [] {
      DistinctSize(s[1..]);
      assert s == [s[0]] + s[1..];
      assert Elements(s) == {s[0]} + Elements(s[1..]);
    }
  }

  lemma {:induction false} SubsetSize<T>(a: set<T>, b: set<T>)
    requires a <= b
    ensures |a| <= |b|
    ensures |a| == |b| ==> a == b
  {
    assert b == a + (b - a);
    assert |b| == |a| + |b - a|;
  }

  lemma {:induction false} DistinctHalves<T>(a: seq<T>, b: seq<T>)
    requires Distinct(a + b)
    ensures Distinct(a) && Distinct(b) && Elements(a) !! Elements(b)
  {
    if a == [] {
      assert a + b == b;
    } else {
      assert (a + b)[1..] == a[1..] + b;
      DistinctHalves(a[1..], b);
      assert a == [a[0]] + a[1..];
      assert Elements(a) == {a[0]} + Elements(a[1..]);
    }
  }

  lemma {:induction false} DistinctAppend<T>(xs: seq<T>, x: T)
    requires Distinct(xs) && x !in xs
    ensures Distinct(xs + [x]) && Elements(xs + [x]) == Elements(xs) + {x}
  {
    assert (xs + [x])[|xs|] == x;
    if xs != [] {
      assert (xs + [x])[1..] == xs[1..] + [x];
      DistinctAppend(xs[1..], x);
    } else {
      assert xs + [x] == [x];
    }
  }
}
