/** The shared address map: sound for one sticky_ip pool that stays configured, unsound for two. */
module AddressRouting {
  import opened Sequences
  import opened RoundRobin
  import opened InsertionDict
  import opened Identities
  import opened StickySession
  import opened StickyIp
  import opened ConfigTable
  import opened BackendManagement
  import opened Requests
  import opened Tickets
  import opened Protocol
  import opened Routing

  /** Only `home` is routed by address, and no poll drops it once it is configured. */
  ghost predicate OnePool(s: System, step: Step, home: Name) {
    && (step.Arrive? && step.policy == ByAddress ==> step.name == home)
    && (step.Poll? && home in s.backends ==> home in Winners(step.listing))
  }

  function HomeMembers(s: System, home: Name): set<Server> {
    if home in s.backends && s.backends[home] in s.pools then s.pools[s.backends[home]].Members() else {}
  }

  /** Every address pin points into the home pool, and every address request holds that pool. */
  ghost predicate AtHome(s: System, home: Name) {
    && s.pins.at.Values <= HomeMembers(s, home)
    && forall id :: id in s.flights && s.flights[id].ticket.policy == ByAddress ==>
         home in s.backends && s.flights[id].pool == s.backends[home]
  }

  ghost predicate HoldsHome(s: System, id: nat, home: Name)
    requires id in s.flights
  {
    home in s.backends && s.flights[id].pool == s.backends[home]
  }

  lemma UpdateStaysHome(s: System, id: nat, t: Ticket, v: Shared, home: Name, l: Limits)
    requires Inv(s, l) && AtHome(s, home) && id in s.flights && t.policy == s.flights[id].ticket.policy
    requires v.pins.at.Values <= if HoldsHome(s, id, home) then v.pool.Members() else s.pins.at.Values
    ensures AtHome(Update(s, id, t, v), home)
  {
    hide SoundPool, Consistent, Pool.Members;
  }

  lemma CountersStayHome(s: System, s': System, home: Name)
    requires AtHome(s, home) && s' == s.(selections := s'.selections, retries := s'.retries)
    ensures AtHome(s', home)
  {
  }

  lemma PickStaysHome(s: System, id: nat, home: Name, l: Limits)
    requires Inv(s, l) && AtHome(s, home) && Enabled(s, Pick(id))
    ensures AtHome(Do(s, Pick(id), l), home)
  {
    var t, v := s.flights[id].ticket, View(s, id);
    assert SoundPool(v.pool, l);
    SelectEffect(t, v, l);
    PickFrame(s, id, l);
    hide Do, Consistent, Pool.Members, SelectFor, CanProbe, CanPoll, SoundPool;
    var (t', v') := PickStep(t, v, l);
    UpdateStaysHome(s, id, t', v', home, l);
    CountersStayHome(Update(s, id, t', v'), Do(s, Pick(id), l), home);
  }

  lemma ConcludeStaysHome(s: System, id: nat, o: Outcome, limited: bool, home: Name, l: Limits)
    requires Inv(s, l) && AtHome(s, home) && Enabled(s, Conclude(id, o, limited))
    ensures AtHome(Do(s, Conclude(id, o, limited), l), home)
  {
    var t, v := s.flights[id].ticket, View(s, id);
    assert SoundPool(v.pool, l);
    OutcomeEffect(t, o, limited, v, l);
    ConcludeFrame(s, id, o, limited, l);
    hide Do, Consistent, Pool.Members, Trip, SafeToRetry, CanProbe, CanPoll, SoundPool;
    var (t', v') := OutcomeStep(t, o, limited, v, l);
    UpdateStaysHome(s, id, t', v', home, l);
    CountersStayHome(Update(s, id, t', v'), Do(s, Conclude(id, o, limited), l), home);
  }

  /** A verdict on a name drops exactly the pins its pool loses. */
  lemma VerdictStaysHome(s: System, s': System, home: Name, name: Name)
    requires Registered(s) && AtHome(s, home) && name in s.backends
    requires s'.backends == s.backends && s'.flights == s.flights
    requires s'.pools.Keys == s.pools.Keys
    requires forall p :: p in s.pools && p != s.backends[name] ==> s'.pools[p] == s.pools[p]
    requires var before, after := s.pools[s.backends[name]].Members(), s'.pools[s.backends[name]].Members();
             s'.pins.at.Values == s.pins.at.Values - (before - after)
    ensures AtHome(s', home)
  {
  }

  lemma ProbeStaysHome(s: System, step: Step, home: Name, l: Limits)
    requires Inv(s, l) && AtHome(s, home) && Enabled(s, step) && step.Probe?
    ensures AtHome(Do(s, step, l), home)
  {
    ProbeFrame(s, step, l);
    hide SoundPool, Consistent, Pool.Members, Pool.Swap, ForgetEach, AfterPick, AfterConclude, AfterPoll, CanPoll;
    if step.name in s.backends {
      ProbeEffect(s, step.name, step.healthy, step.gone, step.added, l);
      VerdictStaysHome(s, Do(s, step, l), home, step.name);
    }
  }

  lemma PollStaysHome(s: System, step: Step, home: Name, l: Limits)
    requires Inv(s, l) && AtHome(s, home) && Enabled(s, step) && step.Poll? && OnePool(s, step, home)
    ensures AtHome(Do(s, step, l), home)
  {
    PollEffect(s, step.listing, step.made, l);
  }

  lemma StepStaysHome(s: System, step: Step, home: Name, l: Limits)
    requires Inv(s, l) && AtHome(s, home) && Enabled(s, step) && OnePool(s, step, home)
    ensures AtHome(Do(s, step, l), home)
  {
    hide Inv, AfterPick, AfterConclude, AfterProbe, AfterPoll, CanProbe, CanPoll;
    match step {
      case Arrive(_, _, _, _, _, _) =>
      case Pick(id) => PickStaysHome(s, id, home, l);
      case Conclude(id, o, limited) => ConcludeStaysHome(s, id, o, limited, home, l);
      case BeginPass =>
      case Probe(_, _, _, _) => ProbeStaysHome(s, step, home, l);
      case ProbeFails(_) =>
      case Poll(_, _) => PollStaysHome(s, step, home, l);
    }
  }

  ghost predicate OnePoolRun(states: seq<System>, steps: seq<Step>, home: Name, l: Limits) {
    Run(states, steps, l) && forall i {:trigger steps[i]} :: 0 <= i < |steps| ==> OnePool(states[i], steps[i], home)
  }

  lemma {:induction false} RunStaysHome(states: seq<System>, steps: seq<Step>, n: nat, home: Name, l: Limits)
    requires OnePoolRun(states, steps, home, l) && l.maxAttempts >= 1 && n <= |steps|
    ensures Inv(states[n], l) && AtHome(states[n], home)
    decreases n
  {
    hide Do, Enabled, Inv;
    EveryStateIsSafe(states, steps, n, l);
    if n == 0 {
      assert START.pins.at.Values == {};
    } else {
      hide AtHome;
      RunStaysHome(states, steps, n - 1, home, l);
      StepStaysHome(states[n - 1], steps[n - 1], home, l);
    }
  }

  /**
   * With a single sticky_ip pool that stays configured, the lookup that never checks
   * membership agrees with one that does, in every interleaving: each address request is
   * given a current member of its pool, which the latest completed check found healthy.
   */
  lemma UncheckedLookupIsSafe(states: seq<System>, steps: seq<Step>, n: nat, home: Name, id: nat, l: Limits)
    requires OnePoolRun(states, steps, home, l) && l.maxAttempts >= 1 && n <= |steps|
    requires Enabled(states[n], Pick(id)) && states[n].flights[id].ticket.policy == ByAddress
    ensures var s := states[n];
            var t, v := s.flights[id].ticket, View(s, id);
            && home in s.backends && s.flights[id].pool == s.backends[home]
            && SelectFor(t, v, l).0 == CheckedRoute(v.pins, t.ip, v.pool)
            && (SelectFor(t, v, l).0.Some? ==> SelectFor(t, v, l).0.value in v.pool.Members() * LastHealthy(s, home))
  {
    var s := states[n];
    RunStaysHome(states, steps, n, home, l);
    var t, v := s.flights[id].ticket, View(s, id);
    assert SoundPool(v.pool, l);
    if t.ip in v.pins.at {
      assert v.pins.at[t.ip] in v.pins.at.Values;
    }
    RouteAgreesWithCheckedRoute(v.pins, t.ip, v.pool, l.maxAddresses);
    SelectEffect(t, v, l);
  }

  /** So in such runs the condition on pins under which attempts are distinct comes for free. */
  lemma AddressTriesAreDistinct(states: seq<System>, steps: seq<Step>, home: Name, first: nat, id: nat, l: Limits)
    requires OnePoolRun(states, steps, home, l) && l.maxAttempts >= 1
    requires first <= |steps| && JustArrived(states[first], id)
    requires states[first].flights[id].ticket.policy == ByAddress
    requires NoAdditions(states[first..], states[first].flights[id].pool)
    ensures id in states[|steps|].flights
    ensures var t := states[|steps|].flights[id].ticket;
            && Distinct(t.tried) && |t.tried| <= l.maxAttempts
            && states[first].flights[id].pool in states[first].pools
            && |t.tried| <= |states[first].pools[states[first].flights[id].pool].Members()|
  {
    hide Do, Enabled, Inv;
    var tail, todo := states[first..], steps[first..];
    var p := states[first].flights[id].pool;
    TailIsTrace(states, steps, first, l);
    RunStaysHome(states, steps, first, home, l);
    forall i: nat | i < |tail| ensures p in tail[i].pools && tail[i].pins.at.Values <= tail[i].pools[p].Members() {
      HomeStaysPinned(states, steps, home, first, first + i, l);
      assert tail[i] == states[first + i];
    }
    TriesAreDistinct(tail, todo, id, l);
    assert tail[|todo|] == states[|steps|];
  }

  lemma TailIsTrace(states: seq<System>, steps: seq<Step>, first: nat, l: Limits)
    requires Trace(states, steps, l) && first <= |steps|
    ensures Trace(states[first..], steps[first..], l)
  {
  }

  /** The home pool stays the same object, and the pins stay inside it. */
  lemma HomeStaysPinned(states: seq<System>, steps: seq<Step>, home: Name, first: nat, n: nat, l: Limits)
    requires OnePoolRun(states, steps, home, l) && l.maxAttempts >= 1
    requires first <= n <= |steps| && home in states[first].backends
    ensures var p := states[first].backends[home];
            p in states[n].pools && states[n].pins.at.Values <= states[n].pools[p].Members()
  {
    RunStaysHome(states, steps, n, home, l);
    HomeIsKept(states, steps, home, first, n, l);
  }

  /** Only a poll touches the registry. */
  lemma OnlyPollRegisters(s: System, step: Step, l: Limits)
    requires Enabled(s, step) && !step.Poll?
    ensures Do(s, step, l).backends == s.backends
  {
    hide PickStep, OutcomeStep, AfterPick, AfterConclude, AfterProbe, AfterPoll, CanProbe, CanPoll;
    match step {
      case Pick(id) => PickFrame(s, id, l);
      case Conclude(id, o, limited) => ConcludeFrame(s, id, o, limited, l);
      case Probe(_, _, _, _) => ProbeFrame(s, step, l);
      case _ =>
    }
  }

  lemma HomeStep(s: System, step: Step, home: Name, l: Limits)
    requires Enabled(s, step) && OnePool(s, step, home) && home in s.backends
    ensures home in Do(s, step, l).backends && Do(s, step, l).backends[home] == s.backends[home]
  {
    if step.Poll? {
      assert Do(s, step, l).backends == Registry(s.backends, Winners(step.listing).Keys, step.made);
    } else {
      OnlyPollRegisters(s, step, l);
    }
  }

  lemma {:induction false} HomeIsKept(states: seq<System>, steps: seq<Step>, home: Name, first: nat, n: nat, l: Limits)
    requires OnePoolRun(states, steps, home, l)
    requires first <= n <= |steps| && home in states[first].backends
    ensures home in states[n].backends && states[n].backends[home] == states[first].backends[home]
    decreases n
  {
    hide Do, Enabled, OnePool;
    if first < n {
      HomeIsKept(states, steps, home, first, n - 1, l);
      HomeStep(states[n - 1], steps[n - 1], home, l);
    }
  }
}
