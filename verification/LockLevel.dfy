/**
 * StickyRoundRobin one lock acquisition at a time. `get_next` holds the map lock
 * while it takes the rotation's lock twice; `delete` takes the rotation's lock, lets
 * go, and takes the map lock only afterwards. Any other task may run in between.
 */
module LockLevel {
  import opened Sequences
  import opened RoundRobin
  import opened InsertionDict
  import opened Identities
  import opened StickySession

  /** Who holds the map lock: nobody, or a get_next that has got this far. */
  datatype Holder = Free | Looking(session: Session) | Missed(session: Session) | Chosen(session: Session, item: Server)

  /** `deleting` counts the deletes that have left the rotation's lock and not yet taken the map lock. */
  datatype State = State(pool: Pool, deleting: multiset<Server>, holder: Holder)

  datatype Step =
    | AddItem(item: Server)
    | PlainNext
    | DeleteFromRotation(item: Server)
    | ClearPins(item: Server)
    | EnterGetNext(session: Session)
    | LookUpPin
    | AskRotation
    | StorePin
    | ReleaseSession(session: Session)

  predicate Enabled(s: State, step: Step) {
    match step
    case AddItem(_) => true
    case PlainNext => true
    case DeleteFromRotation(_) => true
    case ClearPins(item) => s.holder.Free? && item in s.deleting
    case EnterGetNext(_) => s.holder.Free?
    case LookUpPin => s.holder.Looking?
    case AskRotation => s.holder.Missed?
    case StorePin => s.holder.Chosen?
    case ReleaseSession(_) => s.holder.Free?
  }

  function Do(s: State, step: Step, cap: Positive): (s': State)
    requires Enabled(s, step) && s.pool.pins.Valid()
    ensures s'.pool.pins.Valid()
  {
    match step
    case AddItem(x) => s.(pool := s.pool.(wheel := s.pool.wheel.Add(x)))
    case PlainNext => s.(pool := s.pool.Advance().1)
    case DeleteFromRotation(x) =>
      s.(pool := s.pool.(wheel := s.pool.wheel.Delete(x)), deleting := s.deleting + multiset{x})
    case ClearPins(x) =>
      s.(pool := s.pool.(pins := s.pool.pins.RemoveValue(x)), deleting := s.deleting - multiset{x})
    case EnterGetNext(session) => s.(holder := Looking(session))
    case LookUpPin =>
      s.(holder := if s.pool.ValidPin(s.holder.session).Some? then Free else Missed(s.holder.session))
    case AskRotation =>
      var (item, pool) := s.pool.Advance();
      s.(pool := pool, holder := if item == None then Free else Chosen(s.holder.session, item.value))
    case StorePin =>
      s.(pool := s.pool.(pins := s.pool.pins.MakeRoom(cap).Put(s.holder.session, s.holder.item)), holder := Free)
    case ReleaseSession(session) => s.(pool := s.pool.(pins := s.pool.pins.Remove(session)))
  }

  ghost predicate Backed(s: State, item: Server) {
    item in s.pool.Members() || item in s.deleting
  }

  /** Every pin points into the pool or at an item whose delete is still on its way. */
  ghost predicate Inv(s: State, cap: Positive) {
    && s.pool.WellFormed() && Distinct(s.pool.wheel.Items()) && |s.pool.pins.order| <= cap
    && (forall k :: k in s.pool.pins.at ==> Backed(s, s.pool.pins.at[k]))
    && (s.holder.Chosen? ==> Backed(s, s.holder.item))
    && ((s.holder.Missed? || s.holder.Chosen?) && s.holder.session in s.pool.pins.at
        ==> s.pool.pins.at[s.holder.session] in s.deleting)
  }

  /** Clearing the pins of a deleted item leaves every other pin backed. */
  lemma ClearKeepsInv(s: State, x: Server, cap: Positive)
    requires Inv(s, cap) && Enabled(s, ClearPins(x))
    ensures Inv(Do(s, ClearPins(x), cap), cap)
  {
    var s' := Do(s, ClearPins(x), cap);
    DroppingElements(s.pool.pins.order, s.pool.pins.KeysOf(x));
    forall k | k in s'.pool.pins.at ensures Backed(s', s'.pool.pins.at[k]) {
      assert k !in s.pool.pins.KeysOf(x) && Backed(s, s.pool.pins.at[k]);
    }
  }

  /** Storing adds one pin, to the chosen item, and may take away the oldest. */
  lemma StoreKeepsInv(s: State, cap: Positive)
    requires Inv(s, cap) && Enabled(s, StorePin)
    ensures Inv(Do(s, StorePin, cap), cap)
  {
  }

  /** Steps on the rotation alone: pins, deletes and lock stay, and what leaves the pool is being deleted. */
  lemma TurningKeepsInv(s: State, w: Wheel<Server>, deleting: multiset<Server>, cap: Positive)
    requires Inv(s, cap) && w.Valid() && Distinct(w.Items()) && s.deleting <= deleting
    requires forall x :: x in Elements(s.pool.wheel.Items()) ==> x in Elements(w.Items()) || x in deleting
    ensures Inv(s.(pool := s.pool.(wheel := w), deleting := deleting), cap)
  {
    hide Wheel.Valid, Wheel.Items, Dict.Valid;
    var s' := s.(pool := s.pool.(wheel := w), deleting := deleting);
    forall x | Backed(s, x) ensures Backed(s', x) {
      assert x in Elements(s.pool.wheel.Items()) || x in s.deleting;
    }
  }

  lemma AskKeepsInv(s: State, cap: Positive)
    requires Inv(s, cap) && Enabled(s, AskRotation)
    ensures Inv(Do(s, AskRotation, cap), cap)
  {
    var w := s.pool.wheel;
    if w.ahead != [] {
      NextRotates(w);
      assert w.Rot()[0] in Elements(w.Rot());
      assert w.Rot()[0] in w.Next().Items();
      hide Wheel.Valid, Wheel.Items, Wheel.Next, Wheel.Rot, Dict.Valid;
      TurningKeepsInv(s, w.Next(), s.deleting, cap);
    }
  }

  lemma ReleaseKeepsInv(s: State, session: Session, cap: Positive)
    requires Inv(s, cap) && Enabled(s, ReleaseSession(session))
    ensures Inv(Do(s, ReleaseSession(session), cap), cap)
  {
    DroppingElements(s.pool.pins.order, {session});
    hide Wheel.Valid, Wheel.Items;
  }

  /** Taking the lock and looking a pin up change the holder only. */
  lemma LookingKeepsInv(s: State, step: Step, cap: Positive)
    requires Inv(s, cap) && Enabled(s, step) && (step.EnterGetNext? || step.LookUpPin?)
    ensures Inv(Do(s, step, cap), cap)
  {
    hide Wheel.Valid, Dict.Valid;
    if step.LookUpPin? && s.holder.session in s.pool.pins.at {
      assert Backed(s, s.pool.pins.at[s.holder.session]);
    }
  }

  lemma RotationKeepsInv(s: State, step: Step, cap: Positive)
    requires Inv(s, cap) && Enabled(s, step) && (step.AddItem? || step.PlainNext? || step.DeleteFromRotation?)
    ensures Inv(Do(s, step, cap), cap)
  {
    var w := s.pool.wheel;
    match step {
      case AddItem(x) =>
        AddKeepsOrder(w, x);
        TurningKeepsInv(s, w.Add(x), s.deleting, cap);
      case PlainNext =>
        if w.ahead != [] {
          NextRotates(w);
          TurningKeepsInv(s, w.Next(), s.deleting, cap);
        }
      case DeleteFromRotation(x) =>
        DeleteKeepsOrder(w, x);
        TurningKeepsInv(s, w.Delete(x), s.deleting + multiset{x}, cap);
    }
  }

  lemma StepKeepsInv(s: State, step: Step, cap: Positive)
    requires Inv(s, cap) && Enabled(s, step)
    ensures Inv(Do(s, step, cap), cap)
  {
    hide Inv;
    match step {
      case ClearPins(x) => ClearKeepsInv(s, x, cap);
      case AskRotation => AskKeepsInv(s, cap);
      case StorePin => StoreKeepsInv(s, cap);
      case ReleaseSession(session) => ReleaseKeepsInv(s, session, cap);
      case EnterGetNext(_) => LookingKeepsInv(s, step, cap);
      case LookUpPin => LookingKeepsInv(s, step, cap);
      case _ => RotationKeepsInv(s, step, cap);
    }
  }

  ghost predicate Run(states: seq<State>, steps: seq<Step>, cap: Positive) {
    && |states| == |steps| + 1
    && states[0] == State(Pool(Wheel([], []), Empty()), multiset{}, Free)
    && forall i {:trigger steps[i]} :: 0 <= i < |steps| ==>
         && states[i].pool.pins.Valid() && Enabled(states[i], steps[i])
         && states[i + 1] == Do(states[i], steps[i], cap)
  }

  /**
   * Lookup by lookup: a get_next that finds its session's pin goes on to the eviction exactly
   * when the pin is no member of the pool, and then the pinned item is being deleted.
   */
  lemma MissesPinnedIff(s: State, cap: Positive)
    requires Inv(s, cap) && Enabled(s, LookUpPin) && s.holder.session in s.pool.pins.at
    ensures var pin := s.pool.pins.at[s.holder.session];
            && (Do(s, LookUpPin, cap).holder.Missed? <==> pin !in s.pool.Members())
            && (Do(s, LookUpPin, cap).holder.Missed? ==> pin in s.deleting)
  {
    assert Backed(s, s.pool.pins.at[s.holder.session]);
  }

  lemma QuietMeansSound(s: State, cap: Positive)
    requires Inv(s, cap)
    ensures s.deleting == multiset{} ==>
              && s.pool.Sound()
              && (s.holder.Missed? || s.holder.Chosen? ==> s.holder.session !in s.pool.pins.at)
  {
  }

  /**
   * In every interleaving, a pin points into the pool or at an item being deleted. When no
   * delete is under way all pins are valid, and a get_next that is about to store (and may
   * evict without looking) holds the lock for a session that has no pin.
   */
  lemma {:induction false} PinsAreBacked(states: seq<State>, steps: seq<Step>, n: nat, cap: Positive)
    requires Run(states, steps, cap) && n <= |steps|
    ensures Inv(states[n], cap)
    ensures var s := states[n];
            s.deleting == multiset{} ==>
              && s.pool.Sound()
              && (s.holder.Missed? || s.holder.Chosen? ==> s.holder.session !in s.pool.pins.at)
    decreases n
  {
    if n > 0 {
      PinsAreBacked(states, steps, n - 1, cap);
      StepKeepsInv(states[n - 1], steps[n - 1], cap);
    }
    QuietMeansSound(states[n], cap);
  }

  lemma Extend(states: seq<State>, steps: seq<Step>, step: Step, next: State, cap: Positive)
      returns (states': seq<State>, steps': seq<Step>)
    requires Run(states, steps, cap)
    requires states[|steps|].pool.pins.Valid() && Enabled(states[|steps|], step)
    requires next == Do(states[|steps|], step, cap)
    ensures Run(states', steps', cap) && states'[|steps'|] == next && next.pool.pins.Valid()
  {
    states', steps' := states + [next], steps + [step];
    hide Do, Enabled, Dict.Valid;
    forall i | 0 <= i < |steps'|
      ensures states'[i].pool.pins.Valid() && Enabled(states'[i], steps'[i])
      ensures states'[i + 1] == Do(states'[i], steps'[i], cap)
    {
      assert states'[i] == states[i];
      if i < |steps| {
        assert steps'[i] == steps[i] && states'[i + 1] == states[i + 1];
      } else {
        assert steps'[i] == step && states'[i + 1] == next;
      }
    }
  }

  /** Two items are added and a session asks for one. */
  lemma FirstAsk(a: Server, b: Server, s: Session) returns (states: seq<State>, steps: seq<Step>)
    requires a != b
    ensures Run(states, steps, 1)
    ensures states[|steps|] == State(Pool(Wheel([a, b], []), Dict([], map[])), multiset{}, Missed(s))
    ensures states[|steps|].pool.pins.Valid()
  {
    hide Run, Dict.Valid;
    var pool := Pool(Wheel([], []), Empty());
    states, steps := Start();
    states, steps := Extend(states, steps, AddItem(a), State(pool.(wheel := Wheel([a], [])), multiset{}, Free), 1);
    pool := pool.(wheel := Wheel([a, b], []));
    states, steps := Extend(states, steps, AddItem(b), State(pool, multiset{}, Free), 1);
    states, steps := Extend(states, steps, EnterGetNext(s), State(pool, multiset{}, Looking(s)), 1);
    states, steps := Extend(states, steps, LookUpPin, State(pool, multiset{}, Missed(s)), 1);
  }

  lemma Start() returns (states: seq<State>, steps: seq<Step>)
    ensures Run(states, steps, 1) && |steps| == 0
  {
    states, steps := [State(Pool(Wheel([], []), Empty()), multiset{}, Free)], [];
  }

  /** A session gets its first pin, to a. */
  lemma FirstPin(a: Server, b: Server, s: Session) returns (states: seq<State>, steps: seq<Step>)
    requires a != b
    ensures Run(states, steps, 1)
    ensures states[|steps|] == State(Pool(Wheel([b], [a]), Dict([s], map[s := a])), multiset{}, Free)
    ensures states[|steps|].pool.pins.Valid()
  {
    hide Run;
    states, steps := FirstAsk(a, b, s);
    assert [a, b][1..] == [b];
    var pool := Pool(Wheel([b], [a]), Dict([], map[]));
    states, steps := Extend(states, steps, AskRotation, State(pool, multiset{}, Chosen(s, a)), 1);
    pool := pool.(pins := Dict([s], map[s := a]));
    states, steps := Extend(states, steps, StorePin, State(pool, multiset{}, Free), 1);
  }

  /**
   * Without that condition it is false of these steps: while a delete is half done, a get_next can reach
   * the unguarded eviction of a full map for a session that already has a pin.
   */
  lemma EvictionMidDelete() returns (states: seq<State>, steps: seq<Step>)
    ensures Run(states, steps, 1)
    ensures var s := states[|steps|];
            s.holder.Chosen? && s.holder.session in s.pool.pins.at && |s.pool.pins.order| >= 1
  {
    var a, b, s := Server("a"), Server("b"), Session("s");
    states, steps := FirstPin(a, b, s);
    var pool := Pool(Wheel([b], []), Dict([s], map[s := a]));
    assert RemoveFirst([a], a) == [];
    states, steps := Extend(states, steps, DeleteFromRotation(a), State(pool, multiset{a}, Free), 1);
    states, steps := Extend(states, steps, EnterGetNext(s), State(pool, multiset{a}, Looking(s)), 1);
    states, steps := Extend(states, steps, LookUpPin, State(pool, multiset{a}, Missed(s)), 1);
    states, steps := Extend(states, steps, AskRotation, State(pool, multiset{a}, Chosen(s, b)), 1);
  }

  // ---- The atomic operations are these steps, uninterrupted ----

  lemma UninterruptedGetNext(s: State, session: Session, cap: Positive)
    requires s.pool.pins.Valid() && s.holder == Free
    ensures var s1 := Do(s, EnterGetNext(session), cap);
            var s2 := Do(s1, LookUpPin, cap);
            var s3 := if s2.holder.Missed? then Do(s2, AskRotation, cap) else s2;
            var s4 := if s3.holder.Chosen? then Do(s3, StorePin, cap) else s3;
            s4 == s.(pool := s.pool.Choose(Some(session), cap).1)
  {
  }

  /** Steps that take one lock, and each of a half-done operation's, are what their names say. */
  lemma SingleSteps(s: State, session: Session, item: Server, cap: Positive)
    requires s.pool.WellFormed() && s.holder == Free
    ensures Do(s, PlainNext, cap) == s.(pool := s.pool.Choose(None, cap).1)
    ensures Do(s, AddItem(item), cap).pool.Members() == s.pool.Members() + {item}
    ensures Do(s, AddItem(item), cap) == s.(pool := s.pool.(wheel := Do(s, AddItem(item), cap).pool.wheel))
    ensures var pins := Do(s, ReleaseSession(session), cap).pool.pins;
            && Do(s, ReleaseSession(session), cap) == s.(pool := s.pool.(pins := pins))
            && session !in pins.at && (forall k :: k != session ==> pins.Get(k) == s.pool.pins.Get(k))
  {
    var w := s.pool.wheel;
    assert Elements(w.Items() + [item]) == Elements(w.Items()) + {item};
    assert w.served + (w.ahead + [item]) == w.Items() + [item];
    if item in w.Items() {
      assert Elements(w.Items()) + {item} == Elements(w.Items());
    }
  }

  lemma UninterruptedDelete(s: State, item: Server, cap: Positive)
    requires s.pool.pins.Valid() && s.holder == Free
    ensures Do(Do(s, DeleteFromRotation(item), cap), ClearPins(item), cap) == s.(pool := s.pool.Drop(item))
  {
  }
}
