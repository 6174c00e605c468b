/** The pool with session pins of classes/sticky_session.py. */
module StickySession {
  import opened Sequences
  import opened RoundRobin
  import opened InsertionDict
  import opened Identities

  /** The value of a StickyRoundRobin: its rotation and its session pins, oldest first. */
  datatype Pool = Pool(wheel: Wheel<Server>, pins: Dict<Session, Server>) {

    function Members(): set<Server> {
      Elements(wheel.Items())
    }

    ghost predicate WellFormed() {
      wheel.Valid() && pins.Valid()
    }

    /** No duplicates, and every pinned session points into the pool. */
    ghost predicate Sound() {
      WellFormed() && Distinct(wheel.Items()) && pins.at.Values <= Members()
    }

    function Advance(): (Option<Server>, Pool) {
      if wheel.ahead == [] then (None, this)
      else (Some(wheel.Rot()[0]), this.(wheel := wheel.Next()))
    }

    function ValidPin(session: Session): Option<Server> {
      if session in pins.at && pins.at[session] in wheel.Items() then Some(pins.at[session]) else None
    }

    function Choose(session: Option<Session>, cap: Positive): (Option<Server>, Pool)
      requires pins.Valid()
    {
      if session == None then Advance()
      else if ValidPin(session.value).Some? then (ValidPin(session.value), this)
      else
        var (item, next) := Advance();
        if item == None then (None, next)
        else (item, next.(pins := pins.MakeRoom(cap).Put(session.value, item.value)))
    }

    function Drop(item: Server): Pool
      requires pins.Valid()
    {
      Pool(wheel.Delete(item), pins.RemoveValue(item))
    }

    function DropAll(gone: seq<Server>): (p: Pool)
      requires pins.Valid()
      ensures p.pins.Valid()
      decreases |gone|
    {
      if gone == [] then this else Drop(gone[0]).DropAll(gone[1..])
    }

    function Swap(gone: seq<Server>, added: seq<Server>): Pool
      requires pins.Valid()
    {
      var kept := DropAll(gone);
      kept.(wheel := kept.wheel.AddAll(added))
    }
  }

  /** `order` lists the members of `s`, each once: one way of iterating over the set. */
  ghost predicate Enumerates<T>(order: seq<T>, s: set<T>) {
    Distinct(order) && Elements(order) == s
  }

  class StickyRoundRobin {
    const rr: AsyncRoundRobin<Server>
    var sessionMap: Dict<Session, Server>
    const maxSessions: Positive

    ghost predicate Valid()
      reads this, rr
    {
      rr.Valid() && sessionMap.Valid()
    }

    ghost function State(): (p: Pool)
      requires Valid()
      reads this, rr
      ensures p.WellFormed()
    {
      Pool(rr.State(), sessionMap)
    }

    /** Nothing in it, and no session pinned. */
    ghost predicate Unused()
      reads this, rr
    {
      rr.items == [] && rr.index == 0 && sessionMap == Empty()
    }

    constructor (items: seq<Server>, maxSessions: Positive)
      ensures Valid() && fresh(rr)
      ensures State() == Pool(Wheel(items, []), Empty()) && this.maxSessions == maxSessions
      ensures items == [] ==> Unused()
    {
      rr := new AsyncRoundRobin(items);
      this.sessionMap := Empty();
      this.maxSessions := maxSessions;
    }

    method Add(item: Server)
      requires Valid()
      modifies rr
      ensures Valid() && State() == old(State()).(wheel := old(State()).wheel.Add(item))
    {
      rr.Add(item);
    }

    method GetAll() returns (all: seq<Server>)
      requires Valid()
      ensures all == State().wheel.Items()
    {
      all := rr.GetAll();
    }

    method GetNext(session: Option<Session>) returns (item: Option<Server>)
      requires Valid()
      modifies this, rr
      ensures Valid() && (item, State()) == old(State()).Choose(session, maxSessions)
    {
      if session == None {
        item := rr.GetNext();
        return;
      }
      var id := session.value;
      var all := rr.GetAll();
      if id in sessionMap.at && sessionMap.at[id] in all {
        return Some(sessionMap.at[id]);
      }
      item := rr.GetNext();
      if item != None {
        if |sessionMap.order| >= maxSessions {
          DropFirst(sessionMap.order);
          sessionMap := sessionMap.Remove(sessionMap.order[0]);
        }
        sessionMap := sessionMap.Put(id, item.value);
      }
    }

    /** With a pinned session, returns the pin without looking whether it is still in the pool. */
    method GetCurrent(session: Option<Session>) returns (item: Option<Server>)
      requires Valid()
      ensures session.Some? && session.value in State().pins.at ==> item == Some(State().pins.at[session.value])
      ensures session.None? || session.value !in State().pins.at ==> item == State().Advance().0
    {
      if session.Some? && session.value in sessionMap.at {
        return Some(sessionMap.at[session.value]);
      }
      item := rr.GetCurrent();
    }

    method Delete(item: Server)
      requires Valid()
      modifies this, rr
      ensures Valid() && State() == old(State()).Drop(item)
    {
      rr.Delete(item);
      var left, _ := ClearValue(sessionMap, item);
      sessionMap := left;
    }

    /** The first loop of Replace; `gone` is the order in which the set was walked. */
    method DeleteEach(stale: set<Server>) returns (ghost gone: seq<Server>)
      requires Valid()
      modifies this, rr
      ensures Valid() && Enumerates(gone, stale) && State() == old(State()).DropAll(gone)
    {
      var todo := stale;
      gone := [];
      while todo != {}
        invariant Valid() && todo <= stale && Enumerates(gone, stale - todo)
        invariant State() == old(State()).DropAll(gone)
        decreases todo
      {
        var item :| item in todo;
        assert item !in Elements(gone);
        Delete(item);
        DropOneMore(old(State()), gone, item);
        DistinctAppend(gone, item);
        assert stale - todo + {item} == stale - (todo - {item});
        gone, todo := gone + [item], todo - {item};
      }
    }

    /** The second loop of Replace. */
    method AddEach(new_: set<Server>) returns (ghost added: seq<Server>)
      requires Valid()
      modifies rr
      ensures Valid() && Enumerates(added, new_)
      ensures State() == old(State()).(wheel := old(State()).wheel.AddAll(added))
    {
      var todo := new_;
      added := [];
      while todo != {}
        invariant Valid() && todo <= new_ && Enumerates(added, new_ - todo)
        invariant State() == old(State()).(wheel := old(State()).wheel.AddAll(added))
        decreases todo
      {
        var item :| item in todo;
        assert item !in Elements(added);
        Add(item);
        AddOneMore(old(State()).wheel, added, item);
        DistinctAppend(added, item);
        assert new_ - todo + {item} == new_ - (todo - {item});
        added, todo := added + [item], todo - {item};
      }
    }

    method Replace(items: seq<Server>) returns (ghost gone: seq<Server>, ghost added: seq<Server>)
      requires Valid()
      modifies this, rr
      ensures Valid()
      ensures Enumerates(gone, old(State()).Members() - Elements(items))
      ensures Enumerates(added, Elements(items) - old(State()).Members())
      ensures State() == old(State()).Swap(gone, added)
    {
      var current := rr.GetAll();
      var newSet, currentSet := Elements(items), Elements(current);
      gone := DeleteEach(currentSet - newSet);
      added := AddEach(newSet - currentSet);
    }

    method ReleaseSession(session: Session)
      requires Valid()
      modifies this
      ensures Valid() && rr.State() == old(rr.State())
      ensures sessionMap == if session in old(sessionMap).at then old(sessionMap).Remove(session) else old(sessionMap)
    {
      if session in sessionMap.at {
        sessionMap := sessionMap.Remove(session);
      }
    }
  }

  lemma {:induction false} DropOneMore(p: Pool, gone: seq<Server>, x: Server)
    requires p.pins.Valid()
    ensures p.DropAll(gone + [x]) == p.DropAll(gone).Drop(x)
    decreases |gone|
  {
    if gone == [] {
      assert [x][1..] == [];
    } else {
      assert (gone + [x])[1..] == gone[1..] + [x];
      DropOneMore(p.Drop(gone[0]), gone[1..], x);
    }
  }

  lemma {:induction false} AddOneMore<T>(w: Wheel<T>, xs: seq<T>, x: T)
    ensures w.AddAll(xs + [x]) == w.AddAll(xs).Add(x)
    decreases |xs|
  {
    if xs == [] {
      assert [x][1..] == [];
    } else {
      assert (xs + [x])[1..] == xs[1..] + [x];
      AddOneMore(w.Add(xs[0]), xs[1..], x);
    }
  }

  // ---- What one operation keeps, adds and takes away ----

  /**
   * A choice stays inside the pool, changes no membership and keeps the pins sound and
   * bounded. The unguarded eviction never runs for a session that already has a pin.
   */
  lemma ChooseIsSound(p: Pool, session: Option<Session>, cap: Positive)
    requires p.Sound()
    ensures var (item, next) := p.Choose(session, cap);
            && next.Sound() && next.wheel.Items() == p.wheel.Items()
            && (item == None <==> p.wheel.Items() == [])
            && (item.Some? ==> item.value in p.Members())
            && (item.Some? && session.Some? ==> next.pins.Get(session.value) == item)
            && (session.Some? && next.pins != p.pins ==> session.value !in p.pins.at)
            && (|p.pins.order| <= cap ==> |next.pins.order| <= cap)
  {
    if p.wheel.ahead != [] {
      NextRotates(p.wheel);
      assert p.wheel.Rot()[0] in p.wheel.Items();
    }
    if session.Some? && session.value in p.pins.at {
      assert p.pins.at[session.value] in p.pins.at.Values;
    }
    var (item, next) := p.Choose(session, cap);
    if next.pins != p.pins {
      var made := p.pins.MakeRoom(cap);
      forall k | k in next.pins.at ensures next.pins.at[k] in p.Members() {
        if k != session.value {
          assert k in made.at && k in p.pins.at && p.pins.at[k] in p.pins.at.Values;
        }
      }
    }
  }

  /** For a session with a pin, peeking and choosing give the same member of the pool. */
  /**
   * Who gets what: a pinned session its pin, and nothing moves; anybody else the item due next,
   * which goes to the end of the order of service. Only a session that had no pin gets one.
   */
  lemma ChooseTurns(p: Pool, session: Option<Session>, cap: Positive)
    requires p.Sound()
    ensures var (item, next) := p.Choose(session, cap);
            var rot := p.wheel.Rot();
            if session.Some? && session.value in p.pins.at then item == Some(p.pins.at[session.value]) && next == p
            else if rot == [] then item == None && next == p
            else
              && item == Some(rot[0]) && next.wheel.Rot() == rot[1..] + [rot[0]]
              && next.wheel.Items() == p.wheel.Items()
              && match session
                 case None => next.pins == p.pins
                 case Some(id) => GainsPin(p.pins, id, rot[0], next.pins, cap)
  {
    if session.Some? && session.value in p.pins.at {
      assert p.pins.at[session.value] in p.pins.at.Values;
    } else if p.wheel.ahead != [] {
      NextRotates(p.wheel);
      if session.Some? {
        PutGainsPin(p.pins, session.value, p.wheel.Rot()[0], cap);
      }
    }
  }

  lemma PeekAgreesWithChoose(p: Pool, session: Session, cap: Positive)
    requires p.Sound() && session in p.pins.at
    ensures p.Choose(Some(session), cap) == (Some(p.pins.at[session]), p)
    ensures p.pins.at[session] in p.Members()
  {
  }

  lemma DropIsSound(p: Pool, item: Server)
    requires p.Sound()
    ensures p.Drop(item).Sound() && p.Drop(item).Members() == p.Members() - {item}
    ensures |p.Drop(item).pins.order| <= |p.pins.order|
  {
    DeleteKeepsOrder(p.wheel, item);
    DroppingElements(p.pins.order, p.pins.KeysOf(item));
    var next := p.Drop(item);
    forall k | k in next.pins.at ensures next.pins.at[k] in next.Members() {
      assert k in p.pins.at && p.pins.at[k] in p.pins.at.Values;
      assert k !in p.pins.KeysOf(item);
    }
  }

  ghost function PinnedTo(p: Pool, servers: set<Server>): set<Session> {
    set k | k in p.pins.at && p.pins.at[k] in servers
  }

  lemma {:induction false} DropAllEffect(p: Pool, gone: seq<Server>)
    requires p.Sound()
    ensures p.DropAll(gone).Sound()
    ensures p.DropAll(gone).Members() == p.Members() - Elements(gone)
    ensures p.DropAll(gone).wheel.Rot() == Dropping(p.wheel.Rot(), Elements(gone))
    decreases |gone|
  {
    if gone == [] {
      DroppingNothing(p.wheel.Rot(), {});
      assert Elements(gone) == {};
    } else {
      var x, rest := gone[0], gone[1..];
      assert gone == [x] + rest;
      assert Elements(gone) == {x} + Elements(rest);
      DeleteKeepsOrder(p.wheel, x);
      DropIsSound(p, x);
      DropAllEffect(p.Drop(x), rest);
      DroppingTwice(p.wheel.Rot(), {x}, Elements(rest));
    }
  }

  lemma PinnedToOneMore(p: Pool, x: Server, rest: set<Server>)
    requires p.pins.Valid()
    ensures p.pins.KeysOf(x) + PinnedTo(p.Drop(x), rest) == PinnedTo(p, {x} + rest)
  {
    hide Wheel.Delete, Dropping, Dict.Valid;
  }

  lemma {:induction false} DropAllPins(p: Pool, gone: seq<Server>)
    requires p.pins.Valid()
    ensures p.DropAll(gone).pins == p.pins.Without(PinnedTo(p, Elements(gone)))
    decreases |gone|
  {
    hide Dict.Without, Dict.KeysOf, Dict.Valid, Wheel.Delete;
    if gone == [] {
      WithoutTwice(p.pins, {}, {});
      assert PinnedTo(p, Elements(gone)) == {};
    } else {
      var x, rest := gone[0], gone[1..];
      hide PinnedTo;
      assert gone == [x] + rest;
      assert Elements(gone) == {x} + Elements(rest);
      DropAllPins(p.Drop(x), rest);
      WithoutTwice(p.pins, p.pins.KeysOf(x), PinnedTo(p.Drop(x), Elements(rest)));
      PinnedToOneMore(p, x, Elements(rest));
    }
  }

  lemma {:induction false} AddAllEffect<T>(w: Wheel<T>, added: seq<T>)
    requires w.Valid() && Distinct(w.Items()) && Distinct(added) && Elements(added) !! Elements(w.Items())
    ensures w.AddAll(added).Valid() && Distinct(w.AddAll(added).Items())
    ensures Elements(w.AddAll(added).Items()) == Elements(w.Items()) + Elements(added)
    ensures Dropping(w.AddAll(added).Rot(), Elements(added)) == w.Rot()
    decreases |added|
  {
    if added == [] {
      DroppingNothing(w.Rot(), {});
      assert Elements(added) == {};
    } else {
      var x, rest := added[0], added[1..];
      assert added == [x] + rest && Elements(added) == {x} + Elements(rest);
      assert x in Elements(added) && x !in Elements(rest);
      AddKeepsOrder(w, x);
      AddAllEffect(w.Add(x), rest);
      var rot := w.AddAll(added).Rot();
      DroppingTwice(rot, Elements(rest), {x});
      assert Elements(rest) + {x} == Elements(added);
    }
  }

  /**
   * Whatever order Python walks the two set differences in, replace leaves a duplicate-free
   * pool with exactly the new members, serves the survivors in the order they were due
   * anyway, and keeps exactly the survivors' session pins.
   */
  lemma SwapEffect(p: Pool, items: seq<Server>, gone: seq<Server>, added: seq<Server>)
    requires p.Sound()
    requires Enumerates(gone, p.Members() - Elements(items))
    requires Enumerates(added, Elements(items) - p.Members())
    ensures var q := p.Swap(gone, added);
            && q.Sound() && q.Members() == Elements(items)
            && Dropping(q.wheel.Rot(), Elements(items) - p.Members())
               == Dropping(p.wheel.Rot(), p.Members() - Elements(items))
            && q.pins == p.pins.Without(PinnedTo(p, p.Members() - Elements(items)))
            && (forall k :: k in q.pins.at <==> k in p.pins.at && p.pins.at[k] in Elements(items))
            && |q.pins.order| <= |p.pins.order|
  {
    DropAllEffect(p, gone);
    DropAllPins(p, gone);
    var kept := p.DropAll(gone);
    AddAllEffect(kept.wheel, added);
    var q := p.Swap(gone, added);
    assert q.Members() == Elements(items);
    forall k ensures k in q.pins.at <==> k in p.pins.at && p.pins.at[k] in Elements(items) {
      if k in p.pins.at {
        assert p.pins.at[k] in p.pins.at.Values;
      }
    }
    DroppingElements(p.pins.order, PinnedTo(p, Elements(gone)));
  }
}
