/** How long clients keep their backend while requests, health passes and polls interleave. */
module StickyRuns {
  import opened Sequences
  import opened RoundRobin
  import opened InsertionDict
  import opened Identities
  import opened StickySession
  import opened StickyIp
  import opened Stickiness
  import opened BackendManagement
  import opened Requests
  import opened Tickets
  import opened Protocol

  // ---- Sessions ----

  function SessionPins(s: System, p: nat): Dict<Session, Server> {
    if p in s.pools then s.pools[p].pins else Dict([], map[])
  }

  /** The sessions that got a pin of pool p while they had none, over the first n steps. */
  function NewSessions(states: seq<System>, p: nat, n: nat): set<Session>
    requires n < |states|
  {
    if n == 0 then {}
    else NewSessions(states, p, n - 1) + Gained(SessionPins(states[n - 1], p), SessionPins(states[n], p))
  }

  /** Selecting for anybody makes at most that client younger than the session. */
  lemma SelectHoldsSession(t: Ticket, v: Shared, who: Session, b: Server, others: set<Session>, l: Limits)
    requires SoundShared(v, l) && Holds(v.pool.pins, who, b, others, l.maxSessions)
    requires Gained(v.pool.pins, SelectFor(t, v, l).1.pool.pins) <= others && |others| < l.maxSessions
    ensures Holds(SelectFor(t, v, l).1.pool.pins, who, b, others, l.maxSessions)
  {
    hide Holds, Gained, Dict.Valid, Dict.MakeRoom, Dict.Put, Wheel.Valid, Wheel.Next;
    var after := SelectFor(t, v, l).1.pool.pins;
    if after != v.pool.pins {
      assert t.policy == BySession;
      var item := v.pool.Advance().0.value;
      assert after == v.pool.pins.MakeRoom(l.maxSessions).Put(t.session, item);
      assert t.session !in v.pool.pins.at by {
        assert v.pool.ValidPin(t.session) == None;
        PinnedIsValid(v.pool, t.session);
      }
      AssignmentGains(v.pool.pins, t.session, item, l.maxSessions);
      AssigningHolds(v.pool.pins, t.session, item, who, b, others, l.maxSessions);
    }
  }

  lemma PinnedIsValid(p: Pool, who: Session)
    requires p.Sound()
    ensures p.ValidPin(who) == p.pins.Get(who)
  {
    if who in p.pins.at {
      assert p.pins.at[who] in p.pins.at.Values;
    }
  }

  lemma AssignmentGains<K, V>(d: Dict<K, V>, key: K, v: V, cap: Positive)
    requires d.Valid() && key !in d.at
    ensures Gained(d, d.MakeRoom(cap).Put(key, v)) == {key}
  {
  }

  lemma DropHoldsSession(p: Pool, x: Server, who: Session, b: Server, others: set<Session>, cap: Positive)
    requires p.Sound() && Holds(p.pins, who, b, others, cap) && b in p.Drop(x).Members()
    ensures Holds(p.Drop(x).pins, who, b, others, cap)
  {
    DropIsSound(p, x);
    ShrinkingHolds(p.pins, p.pins.KeysOf(x), who, b, others, cap);
  }

  lemma SwapHoldsSession(p: Pool, items: seq<Server>, gone: seq<Server>, added: seq<Server>,
                         who: Session, b: Server, others: set<Session>, cap: Positive)
    requires p.Sound() && Holds(p.pins, who, b, others, cap) && b in p.Swap(gone, added).Members()
    requires Enumerates(gone, p.Members() - Elements(items))
    requires Enumerates(added, Elements(items) - p.Members())
    ensures Holds(p.Swap(gone, added).pins, who, b, others, cap)
  {
    SwapEffect(p, items, gone, added);
    ShrinkingHolds(p.pins, PinnedTo(p, p.Members() - Elements(items)), who, b, others, cap);
  }

  lemma PickChanges(s: System, id: nat, l: Limits)
    requires Enabled(s, Pick(id))
    ensures var s', f := Do(s, Pick(id), l), s.flights[id];
            && s'.pools == s.pools[f.pool := SelectFor(f.ticket, View(s, id), l).1.pool]
            && s'.pins == SelectFor(f.ticket, View(s, id), l).1.pins
            && id in s'.flights && s'.flights[id].ticket == PickStep(f.ticket, View(s, id), l).0
  {
    PickFrame(s, id, l);
    hide SelectFor, Pool.WellFormed, Do, CanProbe, CanPoll;
  }

  lemma ConcludeChanges(s: System, id: nat, o: Outcome, limited: bool, l: Limits)
    requires Enabled(s, Conclude(id, o, limited))
    ensures var s', f, v := Do(s, Conclude(id, o, limited), l), s.flights[id], View(s, id);
            var v' := if Failure(o) then Trip(v, f.ticket.phase.server) else v;
            s'.pools == s.pools[f.pool := v'.pool] && s'.pins == v'.pins
  {
    ConcludeFrame(s, id, o, limited, l);
    hide Trip, SafeToRetry, Pool.WellFormed, Do, CanProbe, CanPoll;
  }

  lemma ProbeChanges(s: System, step: Step, l: Limits)
    requires Enabled(s, step) && step.Probe?
    ensures Do(s, step, l).pools
            == if step.name !in s.backends then s.pools
               else s.pools[s.backends[step.name] := s.pools[s.backends[step.name]].Swap(step.gone, step.added)]
  {
    hide Pool.Swap, ForgetEach, Enumerates, Dict.Valid, Pool.Members, AfterPick, AfterConclude, AfterPoll, CanPoll;
  }

  /** Pool p keeps b, and only `others` get a pin of p. */
  ghost predicate Spared(s: System, s': System, p: nat, b: Server, others: set<Session>) {
    p in s.pools && p in s'.pools ==>
      b in s'.pools[p].Members() && Gained(s.pools[p].pins, s'.pools[p].pins) <= others
  }

  ghost predicate SessionHeld(s: System, p: nat, who: Session, b: Server, others: set<Session>, l: Limits) {
    p in s.pools && Holds(s.pools[p].pins, who, b, others, l.maxSessions)
  }

  lemma PickHoldsSession(s: System, id: nat, p: nat, who: Session, b: Server, others: set<Session>, l: Limits)
    requires Inv(s, l) && Enabled(s, Pick(id)) && SessionHeld(s, p, who, b, others, l)
    requires Spared(s, Do(s, Pick(id), l), p, b, others) && |others| < l.maxSessions
    ensures SessionHeld(Do(s, Pick(id), l), p, who, b, others, l)
  {
    PickChanges(s, id, l);
    assert SoundPool(s.pools[p], l);
    assert s.pins.Valid() && |s.pins.order| <= l.maxAddresses;
    hide Do, Inv, Holds, Gained, SelectFor, Pool.Members, CanProbe, CanPoll;
    if s.flights[id].pool == p {
      assert SoundShared(View(s, id), l);
      SelectHoldsSession(s.flights[id].ticket, View(s, id), who, b, others, l);
    }
  }

  lemma ConcludeHoldsSession(s: System, id: nat, o: Outcome, limited: bool, p: nat,
                             who: Session, b: Server, others: set<Session>, l: Limits)
    requires Inv(s, l) && Enabled(s, Conclude(id, o, limited)) && SessionHeld(s, p, who, b, others, l)
    requires Spared(s, Do(s, Conclude(id, o, limited), l), p, b, others)
    ensures SessionHeld(Do(s, Conclude(id, o, limited), l), p, who, b, others, l)
  {
    ConcludeChanges(s, id, o, limited, l);
    assert SoundPool(s.pools[p], l);
    hide Do, Inv, Holds, Gained, Pool.Drop, Pool.Members, CanProbe, CanPoll;
    if s.flights[id].pool == p && Failure(o) {
      DropHoldsSession(s.pools[p], s.flights[id].ticket.phase.server, who, b, others, l.maxSessions);
    }
  }

  lemma ProbeHoldsSession(s: System, step: Step, p: nat, who: Session, b: Server, others: set<Session>, l: Limits)
    requires Inv(s, l) && Enabled(s, step) && step.Probe? && SessionHeld(s, p, who, b, others, l)
    requires Spared(s, Do(s, step, l), p, b, others)
    ensures SessionHeld(Do(s, step, l), p, who, b, others, l)
  {
    ProbeChanges(s, step, l);
    assert SoundPool(s.pools[p], l);
    hide Do, Inv, Holds, Gained, Pool.Swap, Pool.Members, CanPoll;
    if step.name in s.backends && s.backends[step.name] == p {
      SwapHoldsSession(s.pools[p], step.healthy, step.gone, step.added, who, b, others, l.maxSessions);
    }
  }

  lemma StepHoldsSession(s: System, step: Step, p: nat, who: Session, b: Server, others: set<Session>, l: Limits)
    requires Inv(s, l) && Enabled(s, step) && SessionHeld(s, p, who, b, others, l)
    requires Spared(s, Do(s, step, l), p, b, others) && |others| < l.maxSessions
    ensures SessionHeld(Do(s, step, l), p, who, b, others, l)
  {
    hide Inv, Holds, Spared, AfterPick, AfterConclude, AfterProbe, CanProbe, Registry;
    match step {
      case Pick(id) => PickHoldsSession(s, id, p, who, b, others, l);
      case Conclude(id, o, limited) => ConcludeHoldsSession(s, id, o, limited, p, who, b, others, l);
      case Probe(_, _, _, _) => ProbeHoldsSession(s, step, p, who, b, others, l);
      case _ =>
    }
  }

  /** b is in pool p in each of the first n + 1 states. */
  ghost predicate StaysMember(states: seq<System>, p: nat, b: Server, n: nat) {
    forall i {:trigger states[i].pools[p].Members()} ::
      0 <= i <= n && i < |states| && p in states[i].pools ==> b in states[i].pools[p].Members()
  }

  lemma SessionHeldNow(s: System, p: nat, who: Session, b: Server, others: set<Session>, l: Limits)
    requires Inv(s, l) && p in s.pools && s.pools[p].pins.Get(who) == Some(b)
    requires Younger(s.pools[p].pins.order, who) <= others
    ensures SessionHeld(s, p, who, b, others, l)
  {
    assert SoundPool(s.pools[p], l);
  }

  lemma {:induction false} SessionHolds(states: seq<System>, steps: seq<Step>, n: nat, p: nat,
                                        who: Session, b: Server, others: set<Session>, l: Limits)
    requires Trace(states, steps, l) && Inv(states[0], l) && l.maxAttempts >= 1 && n <= |steps|
    requires SessionHeld(states[0], p, who, b, others, l) && StaysMember(states, p, b, n)
    requires NewSessions(states, p, n) <= others && |others| < l.maxSessions
    ensures SessionHeld(states[n], p, who, b, others, l)
    decreases n
  {
    hide Inv, Do, Enabled, Pool.Members, Gained, Holds;
    if n > 0 {
      TraceKeepsInv(states, steps, n - 1, l);
      SessionHolds(states, steps, n - 1, p, who, b, others, l);
      assert Spared(states[n - 1], states[n], p, b, others);
      StepHoldsSession(states[n - 1], steps[n - 1], p, who, b, others, l);
    }
  }

  /**
   * A session keeps its backend. Whatever requests, health passes and polls do, as long as its
   * backend b stays in the pool and the sessions younger than it and those that get a pin are,
   * taken together, fewer than the cap, every request of the session that asks the pool is sent
   * to b. A session counts once, however often it is pinned anew.
   */
  lemma SessionSticks(states: seq<System>, steps: seq<Step>, n: nat, p: nat,
                      who: Session, b: Server, id: nat, l: Limits)
    requires Trace(states, steps, l) && Inv(states[0], l) && l.maxAttempts >= 1 && n <= |steps|
    requires p in states[0].pools && states[0].pools[p].pins.Get(who) == Some(b)
    requires StaysMember(states, p, b, n)
    requires |Younger(states[0].pools[p].pins.order, who) + NewSessions(states, p, n)| < l.maxSessions
    requires Enabled(states[n], Pick(id)) && states[n].flights[id].pool == p
    requires states[n].flights[id].ticket.policy == BySession && states[n].flights[id].ticket.session == who
    ensures var s' := Do(states[n], Pick(id), l);
            s'.flights[id].ticket.phase == Waiting(b) && s'.pools == states[n].pools
  {
    hide Inv, Younger, Do, Gained, Pool.Members, NewSessions, SoundPool;
    var others := Younger(states[0].pools[p].pins.order, who) + NewSessions(states, p, n);
    SessionHeldNow(states[0], p, who, b, others, l);
    SessionHolds(states, steps, n, p, who, b, others, l);
    TraceKeepsInv(states, steps, n, l);
    PinIsChosen(states[n], id, who, b, l);
  }

  lemma PinIsChosen(s: System, id: nat, who: Session, b: Server, l: Limits)
    requires Inv(s, l) && Enabled(s, Pick(id)) && View(s, id).pool.pins.Get(who) == Some(b)
    requires s.flights[id].ticket.policy == BySession && s.flights[id].ticket.session == who
    ensures Do(s, Pick(id), l).flights[id].ticket.phase == Waiting(b) && Do(s, Pick(id), l).pools == s.pools
  {
    var pool := View(s, id).pool;
    assert SoundPool(pool, l);
    PeekAgreesWithChoose(pool, who, l.maxSessions);
    PickChanges(s, id, l);
    assert s.pools[s.flights[id].pool := pool] == s.pools;
  }

  // ---- Addresses ----

  /** The addresses that got a pin while they had none, over the first n steps. */
  function NewAddresses(states: seq<System>, n: nat): set<Ip>
    requires n < |states|
  {
    if n == 0 then {} else NewAddresses(states, n - 1) + Gained(states[n - 1].pins, states[n].pins)
  }

  /** The step neither fails on b nor finds b down in a pool that has it. */
  ghost predicate Spares(s: System, step: Step, b: Server) {
    match step
    case Conclude(id, o, _) => Failure(o) && id in s.flights ==> s.flights[id].ticket.phase != Waiting(b)
    case Probe(name, healthy, _, _) =>
      name in s.backends && s.backends[name] in s.pools && b in s.pools[s.backends[name]].Members() ==> b in healthy
    case _ => true
  }

  lemma SelectHoldsAddress(t: Ticket, v: Shared, ip: Ip, b: Server, others: set<Ip>, l: Limits)
    requires SoundShared(v, l) && Holds(v.pins, ip, b, others, l.maxAddresses)
    requires Gained(v.pins, SelectFor(t, v, l).1.pins) <= others && |others| < l.maxAddresses
    ensures Holds(SelectFor(t, v, l).1.pins, ip, b, others, l.maxAddresses)
  {
    hide Holds, Gained, Dict.MakeRoom, Dict.Put;
    if SelectFor(t, v, l).1.pins != v.pins {
      var item := v.pool.Advance().0.value;
      AssignmentGains(v.pins, t.ip, item, l.maxAddresses);
      AssigningHolds(v.pins, t.ip, item, ip, b, others, l.maxAddresses);
    }
  }

  lemma {:induction false} ForgettingHolds(pins: Pins, dead: seq<Server>, ip: Ip, b: Server,
                                           others: set<Ip>, cap: Positive)
    requires Holds(pins, ip, b, others, cap) && b !in dead
    ensures Holds(ForgetEach(pins, dead), ip, b, others, cap)
    decreases |dead|
  {
    if dead != [] {
      var n := |dead| - 1;
      var before := ForgetEach(pins, dead[..n]);
      ForgettingHolds(pins, dead[..n], ip, b, others, cap);
      ShrinkingHolds(before, before.KeysOf(dead[n]), ip, b, others, cap);
    }
  }

  lemma PickHoldsAddress(s: System, id: nat, ip: Ip, b: Server, others: set<Ip>, l: Limits)
    requires Inv(s, l) && Enabled(s, Pick(id)) && Holds(s.pins, ip, b, others, l.maxAddresses)
    requires Gained(s.pins, Do(s, Pick(id), l).pins) <= others && |others| < l.maxAddresses
    ensures Holds(Do(s, Pick(id), l).pins, ip, b, others, l.maxAddresses)
  {
    PickChanges(s, id, l);
    assert SoundPool(View(s, id).pool, l);
    hide Do, Holds, Gained, CanProbe, CanPoll;
    SelectHoldsAddress(s.flights[id].ticket, View(s, id), ip, b, others, l);
  }

  lemma ConcludeHoldsAddress(s: System, id: nat, o: Outcome, limited: bool,
                             ip: Ip, b: Server, others: set<Ip>, l: Limits)
    requires Enabled(s, Conclude(id, o, limited)) && Spares(s, Conclude(id, o, limited), b)
    requires Holds(s.pins, ip, b, others, l.maxAddresses)
    ensures Holds(Do(s, Conclude(id, o, limited), l).pins, ip, b, others, l.maxAddresses)
  {
    ConcludeChanges(s, id, o, limited, l);
    hide Do, CanProbe, CanPoll;
    if Failure(o) {
      ShrinkingHolds(s.pins, s.pins.KeysOf(s.flights[id].ticket.phase.server), ip, b, others, l.maxAddresses);
    }
  }

  lemma ProbeHoldsAddress(s: System, step: Step, ip: Ip, b: Server, others: set<Ip>, l: Limits)
    requires Enabled(s, step) && Spares(s, step, b) && step.Probe?
    requires Holds(s.pins, ip, b, others, l.maxAddresses)
    ensures Holds(Do(s, step, l).pins, ip, b, others, l.maxAddresses)
  {
    hide Holds, Pool.Swap, AfterPick, AfterConclude, AfterPoll, CanPoll;
    if step.name in s.backends {
      var items := s.pools[s.backends[step.name]].wheel.Items();
      var dead := Dropping(items, Elements(step.healthy));
      DroppingElements(items, Elements(step.healthy));
      assert b !in Elements(dead);
      ForgettingHolds(s.pins, dead, ip, b, others, l.maxAddresses);
    }
  }

  lemma StepHoldsAddress(s: System, step: Step, ip: Ip, b: Server, others: set<Ip>, l: Limits)
    requires Inv(s, l) && Enabled(s, step) && Spares(s, step, b)
    requires Holds(s.pins, ip, b, others, l.maxAddresses)
    requires Gained(s.pins, Do(s, step, l).pins) <= others && |others| < l.maxAddresses
    ensures Holds(Do(s, step, l).pins, ip, b, others, l.maxAddresses)
  {
    hide Inv, Holds, Gained, Spares, AfterPick, AfterConclude, AfterProbe, CanProbe, CanPoll, Registry, Pools;
    match step {
      case Pick(id) => PickHoldsAddress(s, id, ip, b, others, l);
      case Conclude(id, o, limited) => ConcludeHoldsAddress(s, id, o, limited, ip, b, others, l);
      case Probe(_, _, _, _) => ProbeHoldsAddress(s, step, ip, b, others, l);
      case _ =>
    }
  }

  lemma {:induction false} AddressHolds(states: seq<System>, steps: seq<Step>, n: nat,
                                        ip: Ip, b: Server, others: set<Ip>, l: Limits)
    requires Trace(states, steps, l) && Inv(states[0], l) && l.maxAttempts >= 1 && n <= |steps|
    requires Holds(states[0].pins, ip, b, others, l.maxAddresses)
    requires forall i {:trigger steps[i]} :: 0 <= i < n ==> Spares(states[i], steps[i], b)
    requires NewAddresses(states, n) <= others && |others| < l.maxAddresses
    ensures Holds(states[n].pins, ip, b, others, l.maxAddresses)
    decreases n
  {
    hide Inv, Do, Enabled, Spares, Gained, Holds;
    if n > 0 {
      TraceKeepsInv(states, steps, n - 1, l);
      AddressHolds(states, steps, n - 1, ip, b, others, l);
      StepHoldsAddress(states[n - 1], steps[n - 1], ip, b, others, l);
    }
  }

  /**
   * An address keeps its backend. As long as no request fails on b, no health pass finds b down,
   * and the addresses younger than it and those that get a pin are, taken together, fewer than
   * the cap, every address-routed request from it is sent to b, whatever pool it asks. An address
   * counts once, however often it is pinned anew.
   */
  lemma AddressSticks(states: seq<System>, steps: seq<Step>, n: nat, ip: Ip, b: Server, id: nat, l: Limits)
    requires Trace(states, steps, l) && Inv(states[0], l) && l.maxAttempts >= 1 && n <= |steps|
    requires states[0].pins.Get(ip) == Some(b)
    requires forall i {:trigger steps[i]} :: 0 <= i < n ==> Spares(states[i], steps[i], b)
    requires |Younger(states[0].pins.order, ip) + NewAddresses(states, n)| < l.maxAddresses
    requires Enabled(states[n], Pick(id))
    requires states[n].flights[id].ticket.policy == ByAddress && states[n].flights[id].ticket.ip == ip
    ensures var s' := Do(states[n], Pick(id), l);
            s'.flights[id].ticket.phase == Waiting(b) && s'.pins == states[n].pins
  {
    hide Younger, Do, Gained, NewAddresses;
    AddressHolds(states, steps, n, ip, b, Younger(states[0].pins.order, ip) + NewAddresses(states, n), l);
    PickChanges(states[n], id, l);
  }
}
