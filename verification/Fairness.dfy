/** How evenly, and how soon, a rotation serves its members. */
module Fairness {
  import opened Sequences
  import opened RoundRobin

  // ---- A fixed pool: counts differ by at most one ----

  function After<T(==)>(w: Wheel<T>, calls: nat): (w': Wheel<T>)
    requires w.Valid() && w.ahead != []
    ensures w'.Valid() && w'.ahead != []
    decreases calls
  {
    if calls == 0 then w else After(w.Next(), calls - 1)
  }

  /** What `calls` consecutive get_next calls return. */
  function Calls<T(==)>(w: Wheel<T>, calls: nat): seq<T>
    requires w.Valid() && w.ahead != []
    decreases calls
  {
    if calls == 0 then [] else [w.Rot()[0]] + Calls(w.Next(), calls - 1)
  }

  lemma RotationSlices<T>(rot: seq<T>, rot': seq<T>, calls: nat)
    requires 0 < calls <= |rot| && rot' == rot[1..] + [rot[0]]
    ensures [rot[0]] + rot'[..calls - 1] == rot[..calls]
    ensures rot'[calls - 1..] + rot'[..calls - 1] == rot[calls..] + rot[..calls]
  {
    assert rot'[..calls - 1] == rot[1..calls];
    assert rot'[calls - 1..] == rot[calls..] + [rot[0]];
    assert rot[..calls] == [rot[0]] + rot[1..calls];
  }

  /** Within one lap, the calls return Rot from the front and leave it rotated. */
  lemma {:induction false} OneLap<T>(w: Wheel<T>, calls: nat)
    requires w.Valid() && w.ahead != [] && calls <= |w.Rot()|
    ensures Calls(w, calls) == w.Rot()[..calls]
    ensures After(w, calls).Rot() == w.Rot()[calls..] + w.Rot()[..calls]
    decreases calls
  {
    if calls > 0 {
      NextRotates(w);
      hide Wheel.Next, Wheel.Rot, Wheel.Items;
      var rot, rot' := w.Rot(), w.Next().Rot();
      OneLap(w.Next(), calls - 1);
      RotationSlices(rot, rot', calls);
    }
  }

  /** The service order is all that later calls depend on. */
  lemma {:induction false} CallsFollowRot<T>(w: Wheel<T>, v: Wheel<T>, calls: nat)
    requires w.Valid() && v.Valid() && w.ahead != [] && w.Rot() == v.Rot()
    ensures v.ahead != [] && Calls(w, calls) == Calls(v, calls)
    decreases calls
  {
    assert w.Rot() != [];
    if calls > 0 {
      NextRotates(w);
      NextRotates(v);
      CallsFollowRot(w.Next(), v.Next(), calls - 1);
    }
  }

  lemma {:induction false} CallsSplit<T>(w: Wheel<T>, a: nat, b: nat)
    requires w.Valid() && w.ahead != []
    ensures Calls(w, a + b) == Calls(w, a) + Calls(After(w, a), b)
    decreases a
  {
    if a > 0 {
      NextRotates(w);
      CallsSplit(w.Next(), a - 1, b);
    }
  }

  lemma {:induction false} DistinctCount<T>(s: seq<T>, x: T)
    requires Distinct(s)
    ensures multiset(s)[x] == if x in s then 1 else 0
  {
    if s != [] {
      assert s == [s[0]] + s[1..];
      DistinctCount(s[1..], x);
      assert x == s[0] ==> x !in s[1..];
    }
  }

  /** A full lap returns every member once and starts over. */
  lemma FullLap<T>(w: Wheel<T>, calls: nat)
    requires w.Valid() && w.ahead != []
    ensures Calls(w, |w.Rot()| + calls) == w.Rot() + Calls(w, calls)
  {
    var n := |w.Rot()|;
    OneLap(w, n);
    CallsSplit(w, n, calls);
    assert w.Rot()[..n] == w.Rot() && w.Rot()[n..] + w.Rot()[..n] == w.Rot();
    CallsFollowRot(w, After(w, n), calls);
  }

  /** How often the first `calls` calls return x. */
  ghost function Served<T>(w: Wheel<T>, calls: nat, x: T): nat
    requires w.Valid() && w.ahead != []
  {
    multiset(Calls(w, calls))[x]
  }

  lemma LapCounts<T>(w: Wheel<T>, calls: nat, x: T)
    requires w.Valid() && Distinct(w.Rot()) && x in w.Rot() && calls >= |w.Rot()|
    ensures Served(w, calls, x) == 1 + Served(w, calls - |w.Rot()|, x)
  {
    assert w.ahead != [];
    FullLap(w, calls - |w.Rot()|);
    DistinctCount(w.Rot(), x);
  }

  /** Before the first lap is over nobody has been served twice. */
  lemma PartLapCounts<T>(w: Wheel<T>, calls: nat, x: T)
    requires w.Valid() && Distinct(w.Rot()) && x in w.Rot() && calls <= |w.Rot()|
    ensures Served(w, calls, x) <= 1
  {
    OneLap(w, calls);
    assert w.Rot() == w.Rot()[..calls] + w.Rot()[calls..];
    DistinctHalves(w.Rot()[..calls], w.Rot()[calls..]);
    DistinctCount(w.Rot()[..calls], x);
  }

  /** After any number of consecutive calls no member is more than one call ahead of another. */
  lemma {:induction false} Fair<T>(w: Wheel<T>, calls: nat, x: T, y: T)
    requires w.Valid() && Distinct(w.Rot())
    requires x in w.Rot() && y in w.Rot()
    ensures Served(w, calls, x) <= Served(w, calls, y) + 1
    decreases calls
  {
    var n := |w.Rot()|;
    if calls < n {
      PartLapCounts(w, calls, x);
    } else {
      LapCounts(w, calls, x);
      LapCounts(w, calls, y);
      Fair(w, calls - n, x, y);
    }
  }

  // ---- A changing pool: bounded waiting ----

  datatype Operation<T> = Call | Remove(item: T) | Insert(item: T)

  /** What the get_next calls among `ops` return, in order; a call on an empty pool returns nothing. */
  function Outputs<T(==)>(w: Wheel<T>, ops: seq<Operation<T>>): seq<T>
    requires w.Valid()
    decreases |ops|
  {
    if ops == [] then []
    else match ops[0]
      case Call =>
        if w.ahead == [] then Outputs(w, ops[1..])
        else NextRotates(w); [w.Rot()[0]] + Outputs(w.Next(), ops[1..])
      case Remove(x) => Outputs(w.Delete(x), ops[1..])
      case Insert(x) => Outputs(w.Add(x), ops[1..])
  }

  /** The wheel after those operations. */
  function AfterAll<T(==)>(w: Wheel<T>, ops: seq<Operation<T>>): (w': Wheel<T>)
    requires w.Valid()
    ensures w'.Valid()
    decreases |ops|
  {
    if ops == [] then w
    else match ops[0]
      case Call => if w.ahead == [] then AfterAll(w, ops[1..]) else NextRotates(w); AfterAll(w.Next(), ops[1..])
      case Remove(x) => AfterAll(w.Delete(x), ops[1..])
      case Insert(x) => AfterAll(w.Add(x), ops[1..])
  }

  lemma {:induction false} OutputsInTwo<T>(w: Wheel<T>, a: seq<Operation<T>>, b: seq<Operation<T>>)
    requires w.Valid()
    ensures AfterAll(w, a + b) == AfterAll(AfterAll(w, a), b)
    ensures Outputs(w, a + b) == Outputs(w, a) + Outputs(AfterAll(w, a), b)
    decreases |a|
  {
    if a == [] {
      assert a + b == b;
    } else {
      assert (a + b)[0] == a[0] && (a + b)[1..] == a[1..] + b;
      hide Wheel.Next, Wheel.Delete, Wheel.Add;
      match a[0] {
        case Call =>
          if w.ahead == [] {
            OutputsInTwo(w, a[1..], b);
          } else {
            NextRotates(w);
            OutputsInTwo(w.Next(), a[1..], b);
          }
        case Remove(x) => OutputsInTwo(w.Delete(x), a[1..], b);
        case Insert(x) => OutputsInTwo(w.Add(x), a[1..], b);
      }
    }
  }

  /** Deleting what is not there leaves the calls as they are. */
  lemma {:induction false} OnlyCalls<T>(w: Wheel<T>, ops: seq<Operation<T>>)
    requires w.Valid() && w.ahead != []
    requires forall op :: op in ops ==> op.Call? || (op.Remove? && op.item !in w.Items())
    ensures Outputs(w, ops) == Calls(w, Count(ops).0)
    decreases |ops|
  {
    if ops != [] {
      assert ops[0] in ops && forall op :: op in ops[1..] ==> op in ops;
      if ops[0].Call? {
        NextRotates(w);
        OnlyCalls(w.Next(), ops[1..]);
      } else {
        RemoveFirstAbsent(w.ahead, ops[0].item);
        OnlyCalls(w, ops[1..]);
      }
    }
  }

  function Count<T>(ops: seq<Operation<T>>): (n: (nat, nat))
    // calls and inserts
  {
    if ops == [] then (0, 0)
    else
      var (calls, inserts) := Count(ops[1..]);
      (calls + (if ops[0].Call? then 1 else 0), inserts + (if ops[0].Insert? then 1 else 0))
  }

  /** Dropping others can only move an item forward. */
  lemma DropMovesForward<T>(rot: seq<T>, k: nat, x: T, gone: set<T>) returns (k': nat)
    requires k < |rot| && rot[k] == x && x !in gone
    ensures k' <= k && k' < |Dropping(rot, gone)| && Dropping(rot, gone)[k'] == x
  {
    assert rot == rot[..k] + ([x] + rot[k + 1..]);
    DroppingConcat(rot[..k], [x] + rot[k + 1..], gone);
    DroppingConcat([x], rot[k + 1..], gone);
    assert Dropping([x], gone) == [x];
    DroppingElements(rot[..k], gone);
    k' := |Dropping(rot[..k], gone)|;
  }

  /** While an item stays in the pool, every call returns something. */
  lemma {:induction false} EveryCallServes<T>(w: Wheel<T>, ops: seq<Operation<T>>, x: T)
    requires w.Valid() && Distinct(w.Items()) && x in w.Items() && Remove(x) !in ops
    ensures |Outputs(w, ops)| == Count(ops).0
    decreases |ops|
  {
    if ops != [] {
      match ops[0] {
        case Call =>
          NextRotates(w);
          EveryCallServes(w.Next(), ops[1..], x);
        case Remove(y) =>
          assert y != x by { assert Remove(y) in ops; }
          DeleteKeepsOrder(w, y);
          assert x in Elements(w.Delete(y).Items());
          EveryCallServes(w.Delete(y), ops[1..], x);
        case Insert(y) =>
          AddKeepsOrder(w, y);
          assert x in Elements(w.Add(y).Items());
          EveryCallServes(w.Add(y), ops[1..], x);
      }
    }
  }

  lemma PrefixGrows<T>(out: seq<T>, i: nat, j: nat, x: T)
    requires i <= j <= |out| && x in out[..i]
    ensures x in out[..j]
  {
  }

  lemma PrefixShifts<T>(first: T, more: seq<T>, i: nat, x: T)
    requires i <= |more| && x in more[..i]
    ensures x in ([first] + more)[..i + 1]
  {
    assert ([first] + more)[..i + 1] == [first] + more[..i];
  }

  /** x is at place k of the order of service, or nearer. */
  ghost predicate Due<T>(w: Wheel<T>, x: T, k: nat) {
    exists i :: 0 <= i <= k && i < |w.Rot()| && w.Rot()[i] == x
  }

  lemma DueAfterCall<T>(w: Wheel<T>, x: T, k: nat)
    requires w.ahead != [] && Due(w, x, k) && w.Rot()[0] != x
    ensures k >= 1 && Due(w.Next(), x, k - 1)
  {
    NextRotates(w);
    var i :| 0 <= i <= k && i < |w.Rot()| && w.Rot()[i] == x;
    assert w.Next().Rot()[i - 1] == x;
  }

  lemma DueAfterRemove<T>(w: Wheel<T>, x: T, k: nat, y: T)
    requires w.Valid() && Distinct(w.Items()) && Due(w, x, k) && y != x
    ensures Due(w.Delete(y), x, k)
  {
    DeleteKeepsOrder(w, y);
    var i :| 0 <= i <= k && i < |w.Rot()| && w.Rot()[i] == x;
    var i' := DropMovesForward(w.Rot(), i, x, {y});
  }

  lemma DueAfterInsert<T>(w: Wheel<T>, x: T, k: nat, y: T)
    requires Due(w, x, k)
    ensures Due(w.Add(y), x, k + 1)
  {
    var i :| 0 <= i <= k && i < |w.Rot()| && w.Rot()[i] == x;
    if y !in w.Items() {
      var i' := if i < |w.ahead| then i else i + 1;
      assert w.Add(y).Rot()[i'] == x;
    }
  }

  /**
   * An item at place k of the service order that nobody deletes is served within
   * k + 1 calls, plus one for every insertion that jumps in, whatever else is
   * deleted or inserted meanwhile.
   */
  lemma {:induction false} BoundedWaiting<T>(w: Wheel<T>, ops: seq<Operation<T>>, x: T, k: nat)
    requires w.Valid() && Distinct(w.Items()) && Due(w, x, k)
    requires Remove(x) !in ops
    requires Count(ops).0 >= k + 1 + Count(ops).1
    ensures |Outputs(w, ops)| == Count(ops).0
    ensures x in Outputs(w, ops)[..k + 1 + Count(ops).1]
    decreases |ops|
  {
    hide Due, Distinct, Wheel.Add, Wheel.Delete;
    var rest, extra := ops[1..], Count(ops[1..]).1;
    var out := Outputs(w, ops);
    DueIsMember(w, x, k);
    EveryCallServes(w, ops, x);
    assert forall op :: op in rest ==> op in ops;
    match ops[0] {
      case Call =>
        NextRotates(w);
        if w.Rot()[0] == x {
          assert out[0] == x && out[..1] == [x];
          PrefixGrows(out, 1, k + 1 + extra, x);
        } else {
          DueAfterCall(w, x, k);
          BoundedWaiting(w.Next(), rest, x, k - 1);
          PrefixShifts(w.Rot()[0], Outputs(w.Next(), rest), k + extra, x);
        }
      case Remove(y) =>
        assert y != x by { assert Remove(y) in ops; }
        DeleteKeepsOrder(w, y);
        DueAfterRemove(w, x, k, y);
        BoundedWaiting(w.Delete(y), rest, x, k);
      case Insert(y) =>
        AddKeepsOrder(w, y);
        DueAfterInsert(w, x, k, y);
        BoundedWaiting(w.Add(y), rest, x, k + 1);
    }
  }

  lemma DueIsMember<T>(w: Wheel<T>, x: T, k: nat)
    requires Due(w, x, k)
    ensures x in w.Items() && w.Rot() != []
  {
  }
}
