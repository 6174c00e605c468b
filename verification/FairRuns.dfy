/** How evenly, and how soon, requests are spread over a pool while other tasks interleave. */
module FairRuns {
  import opened Sequences
  import opened RoundRobin
  import opened Fairness
  import opened InsertionDict
  import opened Identities
  import opened StickySession
  import opened BackendManagement
  import opened Requests
  import opened Tickets
  import opened Protocol
  import opened StickyRuns

  /** A request asks pool p and has no pin that settles its selection. */
  ghost predicate AsksForNext(s: System, step: Step, p: nat) {
    step.Pick? && InFlight(s, step.id) && s.flights[step.id].pool == p
    && Pinned(s.flights[step.id].ticket, View(s, step.id)) == None
  }

  /** The server such a request is sent to. */
  ghost function HandedOut(s: System, s': System, step: Step, p: nat): seq<Server> {
    if AsksForNext(s, step, p) && step.id in s'.flights && s'.flights[step.id].ticket.phase.Waiting?
    then [s'.flights[step.id].ticket.phase.server] else []
  }

  /** What requests without a pin were given from pool p in the first n steps, in order. */
  ghost function Given(states: seq<System>, steps: seq<Step>, p: nat, n: nat): seq<Server>
    requires n <= |steps| < |states|
  {
    if n == 0 then [] else Given(states, steps, p, n - 1) + HandedOut(states[n - 1], states[n], steps[n - 1], p)
  }

  // ---- Steps as operations on the rotation ----

  function Removals(gone: seq<Server>): seq<Operation<Server>> {
    seq(|gone|, i requires 0 <= i < |gone| => Remove(gone[i]))
  }

  function Insertions(added: seq<Server>): seq<Operation<Server>> {
    seq(|added|, i requires 0 <= i < |added| => Insert(added[i]))
  }

  /** What a step does to the rotation of pool p. */
  ghost function PoolOps(s: System, step: Step, p: nat): seq<Operation<Server>> {
    match step
    case Pick(id) => if AsksForNext(s, step, p) then [Call] else []
    case Conclude(id, o, _) =>
      if id in s.flights && s.flights[id].pool == p && Failure(o) && s.flights[id].ticket.phase.Waiting?
      then [Remove(s.flights[id].ticket.phase.server)] else []
    case Probe(name, _, gone, added) =>
      if name in s.backends && s.backends[name] == p then Removals(gone) + Insertions(added) else []
    case _ => []
  }

  ghost function RunOps(states: seq<System>, steps: seq<Step>, p: nat, n: nat): seq<Operation<Server>>
    requires n <= |steps| < |states|
  {
    if n == 0 then [] else RunOps(states, steps, p, n - 1) + PoolOps(states[n - 1], steps[n - 1], p)
  }

  lemma {:induction false} RemovalsDropAll(p: Pool, gone: seq<Server>)
    requires p.WellFormed()
    ensures AfterAll(p.wheel, Removals(gone)) == p.DropAll(gone).wheel && Outputs(p.wheel, Removals(gone)) == []
    ensures p.DropAll(gone).wheel.Valid()
    decreases |gone|
  {
    if gone != [] {
      assert Removals(gone)[0] == Remove(gone[0]) && Removals(gone)[1..] == Removals(gone[1..]);
      RemovalsDropAll(p.Drop(gone[0]), gone[1..]);
    }
  }

  lemma {:induction false} InsertionsAddAll(w: Wheel<Server>, added: seq<Server>)
    requires w.Valid()
    ensures AfterAll(w, Insertions(added)) == w.AddAll(added) && Outputs(w, Insertions(added)) == []
    decreases |added|
  {
    if added != [] {
      assert Insertions(added)[0] == Insert(added[0]) && Insertions(added)[1..] == Insertions(added[1..]);
      InsertionsAddAll(w.Add(added[0]), added[1..]);
    }
  }

  /** A rotation went through `ops`, and `out` is what their calls return. */
  ghost predicate Turns(w: Wheel<Server>, w': Wheel<Server>, ops: seq<Operation<Server>>, out: seq<Server>) {
    w.Valid() && w' == AfterAll(w, ops) && out == Outputs(w, ops)
  }

  lemma SwapIsOps(p: Pool, gone: seq<Server>, added: seq<Server>)
    requires p.WellFormed()
    ensures Turns(p.wheel, p.Swap(gone, added).wheel, Removals(gone) + Insertions(added), [])
  {
    RemovalsDropAll(p, gone);
    InsertionsAddAll(p.DropAll(gone).wheel, added);
    OutputsInTwo(p.wheel, Removals(gone), Insertions(added));
  }

  lemma InOps(gone: seq<Server>, added: seq<Server>, x: Server)
    ensures Remove(x) in Removals(gone) + Insertions(added) ==> x in gone
    ensures Insert(x) in Removals(gone) + Insertions(added) ==> x in added
  {
  }

  ghost predicate Moves(s: System, s': System, step: Step, p: nat) {
    && p in s.pools && p in s'.pools
    && Turns(s.pools[p].wheel, s'.pools[p].wheel, PoolOps(s, step, p), HandedOut(s, s', step, p))
  }

  lemma NothingTurns(w: Wheel<Server>)
    requires w.Valid()
    ensures Turns(w, w, [], [])
  {
  }

  /** With a pin the rotation stays, otherwise it turns. */
  lemma SelectionTurns(t: Ticket, s: Shared, l: Limits)
    requires SoundShared(s, l) && t.phase.Choosing?
    ensures var (t', s') := PickStep(t, s, l);
            var next := Pinned(t, s) == None;
            Turns(s.pool.wheel, s'.pool.wheel, if next then [Call] else [],
                  if next && t'.phase.Waiting? then [t'.phase.server] else [])
  {
    SelectionIs(t, s, l);
    OneCall(s.pool.wheel);
    NothingTurns(s.pool.wheel);
    SelectionMoves(t, s, l);
    hide PickStep, Pinned, Outputs, AfterAll, Wheel.Next, Wheel.Rot, Wheel.Items, GainsPin;
  }

  lemma SelectionMoves(t: Ticket, s: Shared, l: Limits)
    requires SoundShared(s, l)
    ensures PickStep(t, s, l).1.pool.wheel
            == if Pinned(t, s).Some? || s.pool.wheel.ahead == [] then s.pool.wheel else s.pool.wheel.Next()
  {
    match t.policy {
      case BySession => PinnedIsValid(s.pool, t.session);
      case _ =>
    }
  }

  lemma OneCall(w: Wheel<Server>)
    requires w.Valid()
    ensures w.ahead == [] <==> w.Rot() == []
    ensures Turns(w, if w.ahead == [] then w else w.Next(), [Call], if w.ahead == [] then [] else [w.Rot()[0]])
  {
    var one: seq<Operation<Server>> := [Call];
    assert one[1..] == [];
    if w.ahead != [] {
      NextRotates(w);
    }
  }

  lemma OneRemoval(w: Wheel<Server>, x: Server)
    requires w.Valid()
    ensures Turns(w, w.Delete(x), [Remove(x)], [])
  {
    assert [Remove(x)][1..] == [];
  }

  lemma PickMoves(s: System, id: nat, p: nat, l: Limits)
    requires Inv(s, l) && Enabled(s, Pick(id)) && p in s.pools
    ensures Moves(s, Do(s, Pick(id), l), Pick(id), p)
  {
    hide AfterConclude, AfterProbe, AfterPoll, CanProbe, CanPoll, Removals, Insertions, Failure;
    PickFrame(s, id, l);
    assert SoundPool(s.pools[p], l) && SoundPool(View(s, id).pool, l);
    assert SoundShared(View(s, id), l);
    SelectionTurns(s.flights[id].ticket, View(s, id), l);
    NothingTurns(s.pools[p].wheel);
    hide Do, Inv, SoundPool, SoundShared, PickStep, CanProbe, CanPoll, Pinned, Turns;
  }

  lemma ConcludeMoves(s: System, id: nat, o: Outcome, limited: bool, p: nat, l: Limits)
    requires Inv(s, l) && Enabled(s, Conclude(id, o, limited)) && p in s.pools
    ensures Moves(s, Do(s, Conclude(id, o, limited), l), Conclude(id, o, limited), p)
  {
    ConcludeChanges(s, id, o, limited, l);
    assert SoundPool(s.pools[p], l) && SoundPool(View(s, id).pool, l);
    OneRemoval(s.pools[p].wheel, s.flights[id].ticket.phase.server);
    NothingTurns(s.pools[p].wheel);
    hide Do, Inv, SoundPool, CanProbe, CanPoll, Turns, Wheel.Delete;
  }

  lemma ProbedRotation(s: System, step: Step, p: nat, l: Limits)
    requires Inv(s, l) && Enabled(s, step) && step.Probe? && p in s.pools
    ensures p in Do(s, step, l).pools
    ensures var judged := step.name in s.backends && s.backends[step.name] == p;
            Turns(s.pools[p].wheel, Do(s, step, l).pools[p].wheel,
                  if judged then Removals(step.gone) + Insertions(step.added) else [], [])
  {
    ProbeChanges(s, step, l);
    assert SoundPool(s.pools[p], l) && s.pools[p].WellFormed();
    hide Do, Inv, SoundPool, CanPoll, Turns, Pool.Swap, Removals, Insertions;
    if step.name in s.backends && s.backends[step.name] == p {
      SwapIsOps(s.pools[p], step.gone, step.added);
    } else {
      NothingTurns(s.pools[p].wheel);
    }
  }

  lemma ProbeMoves(s: System, step: Step, p: nat, l: Limits)
    requires Inv(s, l) && Enabled(s, step) && step.Probe? && p in s.pools
    ensures Moves(s, Do(s, step, l), step, p)
  {
    ProbedRotation(s, step, p, l);
    hide Do, Enabled, Inv, Turns, Removals, Insertions;
  }

  lemma OthersMoveNothing(s: System, step: Step, p: nat, l: Limits)
    requires Inv(s, l) && Enabled(s, step) && !step.Pick? && !step.Conclude? && !step.Probe? && p in s.pools
    ensures Moves(s, Do(s, step, l), step, p)
  {
    assert SoundPool(s.pools[p], l) && s.pools[p].WellFormed();
    NothingTurns(s.pools[p].wheel);
    hide Inv, SoundPool, AfterPick, AfterConclude, AfterProbe, CanProbe, Registry, Turns;
  }

  lemma StepMoves(s: System, step: Step, p: nat, l: Limits)
    requires Inv(s, l) && Enabled(s, step) && p in s.pools
    ensures Moves(s, Do(s, step, l), step, p)
  {
    hide Inv, Do, Moves, AfterPick, AfterConclude, AfterProbe, CanProbe, CanPoll;
    match step {
      case Pick(id) => PickMoves(s, id, p, l);
      case Conclude(id, o, limited) => ConcludeMoves(s, id, o, limited, p, l);
      case Probe(_, _, _, _) => ProbeMoves(s, step, p, l);
      case _ => OthersMoveNothing(s, step, p, l);
    }
  }

  /** Since the pool stood at w it went through `ops`, and the requests without a pin got what they return. */
  ghost predicate Followed(w: Wheel<Server>, s: System, p: nat, ops: seq<Operation<Server>>, given: seq<Server>) {
    p in s.pools && Turns(w, s.pools[p].wheel, ops, given)
  }

  lemma MovesOn(w: Wheel<Server>, ops: seq<Operation<Server>>, given: seq<Server>,
                s: System, s': System, step: Step, p: nat)
    requires Followed(w, s, p, ops, given) && Moves(s, s', step, p)
    ensures Followed(w, s', p, ops + PoolOps(s, step, p), given + HandedOut(s, s', step, p))
  {
    OutputsInTwo(w, ops, PoolOps(s, step, p));
    hide PoolOps, HandedOut, Outputs, AfterAll, Wheel.Valid;
  }

  lemma {:induction false} RunMoves(states: seq<System>, steps: seq<Step>, p: nat, n: nat, l: Limits)
    requires Trace(states, steps, l) && Inv(states[0], l) && l.maxAttempts >= 1 && n <= |steps| && p in states[0].pools
    ensures Followed(states[0].pools[p].wheel, states[n], p, RunOps(states, steps, p, n), Given(states, steps, p, n))
    decreases n
  {
    hide Inv, Do, Enabled, PoolOps, HandedOut, Turns, Moves;
    var w := states[0].pools[p].wheel;
    if n == 0 {
      SoundWheel(states[0], p, l);
      NothingTurns(w);
    } else {
      RunMoves(states, steps, p, n - 1, l);
      assert p in states[n - 1].pools;
      TraceKeepsInv(states, steps, n - 1, l);
      StepMoves(states[n - 1], steps[n - 1], p, l);
      hide Followed;
      var ops, given := RunOps(states, steps, p, n - 1), Given(states, steps, p, n - 1);
      MovesOn(w, ops, given, states[n - 1], states[n], steps[n - 1], p);
    }
  }

  lemma SoundWheel(s: System, p: nat, l: Limits)
    requires Inv(s, l) && p in s.pools
    ensures s.pools[p].wheel.Valid() && Distinct(s.pools[p].wheel.Items())
  {
    assert SoundPool(s.pools[p], l);
  }

  // ---- Bounded waiting ----

  lemma RemovedByFailure(s: System, id: nat, o: Outcome, limited: bool, p: nat, x: Server, l: Limits)
    requires Inv(s, l) && Enabled(s, Conclude(id, o, limited)) && p in s.pools
    requires Remove(x) in PoolOps(s, Conclude(id, o, limited), p)
    ensures var s' := Do(s, Conclude(id, o, limited), l); p in s'.pools && x !in s'.pools[p].Members()
  {
    hide AsksForNext, Removals, Insertions, AfterPick, AfterProbe, AfterPoll, CanProbe, CanPoll;
    ConcludeChanges(s, id, o, limited, l);
    assert SoundPool(s.pools[p], l);
    DropIsSound(s.pools[p], x);
    hide Do, Inv, SoundPool, Pool.Drop, Pool.Members, CanProbe, CanPoll;
  }

  lemma ProbedPool(s: System, step: Step, p: nat, l: Limits)
    requires Inv(s, l) && Enabled(s, step) && step.Probe? && p in s.pools
    requires step.name in s.backends && s.backends[step.name] == p
    ensures var s' := Do(s, step, l);
            && p in s'.pools && s'.pools[p].Members() == Elements(step.healthy)
            && Elements(step.gone) == s.pools[p].Members() - Elements(step.healthy)
            && Elements(step.added) == Elements(step.healthy) - s.pools[p].Members()
  {
    hide AfterPick, AfterConclude, AfterPoll, CanPoll;
    ProbeChanges(s, step, l);
    assert SoundPool(s.pools[p], l);
    SwapEffect(s.pools[p], step.healthy, step.gone, step.added);
    hide Do, Inv, SoundPool, Pool.Swap, Pool.Members, CanPoll;
  }

  lemma RemovedIsNoMember(s: System, step: Step, p: nat, x: Server, l: Limits)
    requires Inv(s, l) && Enabled(s, step) && p in s.pools && Remove(x) in PoolOps(s, step, p)
    ensures p in Do(s, step, l).pools && x !in Do(s, step, l).pools[p].Members()
  {
    if step.Conclude? {
      RemovedByFailure(s, step.id, step.outcome, step.limited, p, x, l);
    } else {
      assert step.Probe?;
      ProbedPool(s, step, p, l);
      InOps(step.gone, step.added, x);
      hide Do, Inv, Enabled, Pool.Members;
      assert x in Elements(step.gone);
    }
  }

  lemma {:induction false} StayerIsNotRemoved(states: seq<System>, steps: seq<Step>, p: nat, n: nat,
                                              x: Server, l: Limits)
    requires Trace(states, steps, l) && Inv(states[0], l) && l.maxAttempts >= 1 && n <= |steps| && p in states[0].pools
    requires StaysMember(states, p, x, n)
    ensures Remove(x) !in RunOps(states, steps, p, n)
    decreases n
  {
    hide Inv, Do, Enabled, PoolOps, Pool.Members, Given, Turns;
    if n > 0 {
      StayerIsNotRemoved(states, steps, p, n - 1, x, l);
      TraceKeepsInv(states, steps, n - 1, l);
      RunMoves(states, steps, p, n - 1, l);
      RunMoves(states, steps, p, n, l);
      assert x in states[n].pools[p].Members();
      if Remove(x) in PoolOps(states[n - 1], steps[n - 1], p) {
        RemovedIsNoMember(states[n - 1], steps[n - 1], p, x, l);
        assert false;
      }
    }
  }

  /**
   * A server that stays in a pool, at place k of its order of service, is given to one of the
   * next k + 1 requests without a pin, plus one for every server that comes in meanwhile, whatever
   * requests, failures, health passes and polls interleave.
   */
  lemma WaitIsBounded(states: seq<System>, steps: seq<Step>, p: nat, n: nat, x: Server, k: nat, l: Limits)
    requires Trace(states, steps, l) && Inv(states[0], l) && l.maxAttempts >= 1 && n <= |steps| && p in states[0].pools
    requires Due(states[0].pools[p].wheel, x, k) && StaysMember(states, p, x, n)
    requires var (calls, inserts) := Count(RunOps(states, steps, p, n)); calls >= k + 1 + inserts
    ensures var (calls, inserts) := Count(RunOps(states, steps, p, n));
            |Given(states, steps, p, n)| == calls && x in Given(states, steps, p, n)[..k + 1 + inserts]
  {
    SoundWheel(states[0], p, l);
    RunMoves(states, steps, p, n, l);
    StayerIsNotRemoved(states, steps, p, n, x, l);
    BoundedWaiting(states[0].pools[p].wheel, RunOps(states, steps, p, n), x, k);
  }

  // ---- Fairness ----

  /** The pool has the same members in each of the first n + 1 states. */
  ghost predicate SameMembers(states: seq<System>, p: nat, n: nat) {
    forall i {:trigger states[i].pools[p].Members()} ::
      0 <= i <= n && i < |states| && p in states[i].pools && p in states[0].pools ==>
        states[i].pools[p].Members() == states[0].pools[p].Members()
  }

  lemma StepOnlyCalls(s: System, step: Step, p: nat, l: Limits)
    requires Inv(s, l) && Enabled(s, step) && p in s.pools
    requires p in Do(s, step, l).pools ==> Do(s, step, l).pools[p].Members() == s.pools[p].Members()
    ensures forall op :: op in PoolOps(s, step, p) ==> op.Call? || (op.Remove? && op.item !in s.pools[p].Members())
  {
    forall op | op in PoolOps(s, step, p) ensures op.Call? || (op.Remove? && op.item !in s.pools[p].Members()) {
      if op.Remove? {
        RemovedIsNoMember(s, step, p, op.item, l);
      } else if op.Insert? {
        InsertedIsNew(s, step, p, op.item, l);
        assert false;
      }
    }
  }

  lemma InsertedIsNew(s: System, step: Step, p: nat, x: Server, l: Limits)
    requires Inv(s, l) && Enabled(s, step) && p in s.pools && Insert(x) in PoolOps(s, step, p)
    ensures p in Do(s, step, l).pools && x in Do(s, step, l).pools[p].Members() && x !in s.pools[p].Members()
  {
    assert step.Probe?;
    ProbedPool(s, step, p, l);
    InOps(step.gone, step.added, x);
    hide Do, Inv, Enabled, Pool.Members;
    assert x in Elements(step.added);
  }

  lemma {:induction false} RunOnlyCalls(states: seq<System>, steps: seq<Step>, p: nat, n: nat, l: Limits)
    requires Trace(states, steps, l) && Inv(states[0], l) && l.maxAttempts >= 1 && n <= |steps| && p in states[0].pools
    requires SameMembers(states, p, n)
    ensures forall op :: op in RunOps(states, steps, p, n) ==>
              op.Call? || (op.Remove? && op.item !in states[0].pools[p].Members())
    decreases n
  {
    hide Inv, Do, Enabled, PoolOps, Pool.Members, Given, Turns;
    if n > 0 {
      RunOnlyCalls(states, steps, p, n - 1, l);
      TraceKeepsInv(states, steps, n - 1, l);
      RunMoves(states, steps, p, n - 1, l);
      RunMoves(states, steps, p, n, l);
      assert states[n].pools[p].Members() == states[0].pools[p].Members();
      assert states[n - 1].pools[p].Members() == states[0].pools[p].Members();
      StepOnlyCalls(states[n - 1], steps[n - 1], p, l);
    }
  }

  /**
   * While a pool keeps its members, the requests without a pin go round it in turn, whatever else
   * interleaves: no member is given to more than one of them more than any other member.
   */
  lemma RequestsAreSpreadEvenly(states: seq<System>, steps: seq<Step>, p: nat, n: nat, x: Server, y: Server, l: Limits)
    requires Trace(states, steps, l) && Inv(states[0], l) && l.maxAttempts >= 1 && n <= |steps| && p in states[0].pools
    requires SameMembers(states, p, n)
    requires x in states[0].pools[p].Members() && y in states[0].pools[p].Members()
    ensures multiset(Given(states, steps, p, n))[x] <= multiset(Given(states, steps, p, n))[y] + 1
    ensures forall b :: b in Given(states, steps, p, n) ==> b in states[0].pools[p].Members()
  {
    var w, ops := states[0].pools[p].wheel, RunOps(states, steps, p, n);
    SoundWheel(states[0], p, l);
    RunMoves(states, steps, p, n, l);
    RunOnlyCalls(states, steps, p, n, l);
    RotIsDistinct(w);
    assert forall b :: b in w.Items() <==> b in states[0].pools[p].Members();
    hide Trace, Inv, Given, RunOps, SameMembers, Pool.Members;
    OnlyCalls(w, ops);
    Fair(w, Count(ops).0, x, y);
    CallsAreMembers(w, Count(ops).0);
  }

  lemma RotIsDistinct<T>(w: Wheel<T>)
    requires w.Valid() && Distinct(w.Items())
    ensures Distinct(w.Rot()) && forall x :: x in w.Items() <==> x in w.Rot()
  {
    DistinctHalves(w.served, w.ahead);
    DistinctJoin(w.ahead, w.served);
  }

  lemma {:induction false} DistinctJoin<T>(a: seq<T>, b: seq<T>)
    requires Distinct(a) && Distinct(b) && Elements(a) !! Elements(b)
    ensures Distinct(a + b)
  {
    if a == [] {
      assert a + b == b;
    } else {
      assert (a + b)[1..] == a[1..] + b;
      assert a[0] in Elements(a);
      assert Elements(a[1..]) <= Elements(a);
      DistinctJoin(a[1..], b);
    }
  }

  lemma {:induction false} CallsAreMembers<T>(w: Wheel<T>, calls: nat)
    requires w.Valid() && w.ahead != []
    ensures forall x :: x in Calls(w, calls) ==> x in w.Items()
    decreases calls
  {
    if calls > 0 {
      NextRotates(w);
      CallsAreMembers(w.Next(), calls - 1);
    }
  }
}
