/**
 * Requests, health passes and config polls interleaving on the same pools. A step is what
 * one task does between two points where it really suspends (a DNS lookup, the upstream
 * call, a database read, a broadcast), so nothing else runs inside a step.
 */
module Protocol {
  import opened Sequences
  import opened RoundRobin
  import opened InsertionDict
  import opened Identities
  import opened StickySession
  import opened StickyIp
  import opened ConfigTable
  import opened BackendManagement
  import opened Requests
  import opened Tickets

  /** A request holds on to the pool object it fetched, even if that pool is dropped later. */
  datatype Flight = Flight(name: Name, pool: nat, ticket: Ticket)

  datatype System = System(
    pools: map<nat, Pool>,       // every pool object ever made, by identity
    backends: map<Name, nat>,
    configs: map<Name, Config>,
    lastHealthy: Healthy,
    probing: set<Name>,          // names the health pass under way has yet to visit
    pins: Pins,
    flights: map<nat, Flight>,   // every request so far
    selections: map<Name, int>,  // LB_BACKEND_SELECTIONS_TOTAL
    retries: map<Name, int>)     // LB_RETRIES_TOTAL

  datatype Step =
    | Arrive(id: nat, name: Name, policy: Policy, verb: string, ip: Ip, session: Session)
    | Pick(id: nat)
    | Conclude(id: nat, outcome: Outcome, limited: bool)
    | BeginPass
    | Probe(name: Name, healthy: seq<Server>, gone: seq<Server>, added: seq<Server>)
    | ProbeFails(name: Name)
    | Poll(listing: seq<Entry>, made: map<Name, nat>)

  const EMPTY_POOL := Pool(Wheel([], []), Dict([], map[]))

  const START := System(map[], map[], map[], map[], {}, Dict([], map[]), map[], map[], map[])

  function Counter(m: map<Name, int>, name: Name): int {
    if name in m then m[name] else 0
  }

  function View(s: System, id: nat): Shared
    requires id in s.flights && s.flights[id].pool in s.pools
  {
    Shared(s.pools[s.flights[id].pool], s.pins)
  }

  ghost predicate InFlight(s: System, id: nat) {
    id in s.flights && s.flights[id].pool in s.pools && View(s, id).Valid()
  }

  ghost predicate CanProbe(s: System, name: Name, healthy: seq<Server>, gone: seq<Server>, added: seq<Server>) {
    && name in s.probing && s.pins.Valid()
    && (name in s.backends ==>
          && s.backends[name] in s.pools
          && var pool := s.pools[s.backends[name]];
          && pool.pins.Valid()
          && Enumerates(gone, pool.Members() - Elements(healthy))
          && Enumerates(added, Elements(healthy) - pool.Members()))
  }

  /** `made` gives each name the poll adds a pool object of its own that did not exist before. */
  ghost predicate CanPoll(s: System, listing: seq<Entry>, made: map<Name, nat>) {
    && (forall n :: n in made <==> n in Winners(listing) && n !in s.backends)
    && (forall n :: n in made ==> made[n] !in s.pools)
    && (forall m, n :: m in made && n in made && made[m] == made[n] ==> m == n)
  }

  ghost predicate Enabled(s: System, step: Step) {
    match step
    case Arrive(id, name, _, _, _, _) => id !in s.flights && name in s.backends
    case Pick(id) => InFlight(s, id) && s.flights[id].ticket.phase.Choosing?
    case Conclude(id, _, _) => InFlight(s, id) && s.flights[id].ticket.phase.Waiting?
    case BeginPass => s.probing == {}
    case Probe(name, healthy, gone, added) => CanProbe(s, name, healthy, gone, added)
    case ProbeFails(name) => name in s.probing
    case Poll(listing, made) => CanPoll(s, listing, made)
  }

  /** Writes back a request and what it shares. */
  function Update(s: System, id: nat, ticket: Ticket, shared: Shared): System
    requires id in s.flights
  {
    s.(pools := s.pools[s.flights[id].pool := shared.pool],
       pins := shared.pins,
       flights := s.flights[id := s.flights[id].(ticket := ticket)])
  }

  function Registry(backends: map<Name, nat>, names: set<Name>, made: map<Name, nat>): map<Name, nat> {
    map n | n in names && (n in backends || n in made) :: if n in backends then backends[n] else made[n]
  }

  function Pools(pools: map<nat, Pool>, made: map<Name, nat>): map<nat, Pool> {
    pools + map id | id in made.Values :: EMPTY_POOL
  }

  function AfterPick(s: System, id: nat, l: Limits): System
    requires Enabled(s, Pick(id))
  {
    var f := s.flights[id];
    var (t, shared) := PickStep(f.ticket, View(s, id), l);
    var s' := Update(s, id, t, shared);
    if t.phase.Waiting? then s'.(selections := s.selections[f.name := Counter(s.selections, f.name) + 1]) else s'
  }

  function AfterConclude(s: System, id: nat, outcome: Outcome, limited: bool, l: Limits): System
    requires Enabled(s, Conclude(id, outcome, limited))
  {
    var f := s.flights[id];
    var (t, shared) := OutcomeStep(f.ticket, outcome, limited, View(s, id), l);
    var s' := Update(s, id, t, shared);
    if Failure(outcome) then s'.(retries := s.retries[f.name := Counter(s.retries, f.name) + 1]) else s'
  }

  function AfterProbe(s: System, name: Name, healthy: seq<Server>, gone: seq<Server>, added: seq<Server>): System
    requires CanProbe(s, name, healthy, gone, added)
  {
    var s' := s.(lastHealthy := s.lastHealthy[name := Elements(healthy)], probing := s.probing - {name});
    if name !in s.backends then s'
    else
      var pool := s.pools[s.backends[name]];
      s'.(pools := s.pools[s.backends[name] := pool.Swap(gone, added)],
          pins := ForgetEach(s.pins, Dropping(pool.wheel.Items(), Elements(healthy))))
  }

  function AfterPoll(s: System, listing: seq<Entry>, made: map<Name, nat>): System {
    s.(configs := Winners(listing),
       backends := Registry(s.backends, Winners(listing).Keys, made),
       pools := Pools(s.pools, made))
  }

  function Do(s: System, step: Step, l: Limits): System
    requires Enabled(s, step)
  {
    match step
    case Arrive(id, name, policy, verb, ip, session) =>
      s.(flights := s.flights[id := Flight(name, s.backends[name], Arrived(policy, verb, ip, session))])
    case Pick(id) => AfterPick(s, id, l)
    case Conclude(id, outcome, limited) => AfterConclude(s, id, outcome, limited, l)
    case BeginPass => s.(probing := s.configs.Keys)
    case Probe(name, healthy, gone, added) => AfterProbe(s, name, healthy, gone, added)
    case ProbeFails(name) => s.(probing := s.probing - {name})
    case Poll(listing, made) => AfterPoll(s, listing, made)
  }

  /** A selection writes back the request, its pool and the pins, and counts if it found a server. */
  lemma PickFrame(s: System, id: nat, l: Limits)
    requires Enabled(s, Pick(id))
    ensures var s', f, v := Do(s, Pick(id), l), s.flights[id], PickStep(s.flights[id].ticket, View(s, id), l);
            s' == s.(pools := s.pools[f.pool := v.1.pool], pins := v.1.pins,
                     flights := s.flights[id := f.(ticket := v.0)], selections := s'.selections)
  {
    hide PickStep, Pool.WellFormed, AfterConclude, AfterProbe, AfterPoll, CanProbe, CanPoll;
  }

  /** So does an outcome, which counts if it is a failure. */
  lemma ConcludeFrame(s: System, id: nat, o: Outcome, limited: bool, l: Limits)
    requires Enabled(s, Conclude(id, o, limited))
    ensures var s', f := Do(s, Conclude(id, o, limited), l), s.flights[id];
            var v := OutcomeStep(f.ticket, o, limited, View(s, id), l);
            s' == s.(pools := s.pools[f.pool := v.1.pool], pins := v.1.pins,
                     flights := s.flights[id := f.(ticket := v.0)], retries := s'.retries)
  {
    hide OutcomeStep, Pool.WellFormed, AfterPick, AfterProbe, AfterPoll, CanProbe, CanPoll;
  }

  /** A probe touches the verdict, one pool and the pins. */
  lemma ProbeFrame(s: System, step: Step, l: Limits)
    requires Enabled(s, step) && step.Probe?
    ensures var s' := Do(s, step, l);
            s' == s.(pools := s'.pools, pins := s'.pins,
                     lastHealthy := s.lastHealthy[step.name := Elements(step.healthy)],
                     probing := s.probing - {step.name})
    ensures Do(s, step, l).pools.Keys == s.pools.Keys
    ensures forall p :: p in s.pools && !(step.name in s.backends && s.backends[step.name] == p) ==>
              Do(s, step, l).pools[p] == s.pools[p]
  {
    hide Pool.Swap, ForgetEach, Enumerates, Dict.Valid, Pool.Members, AfterPick, AfterConclude, AfterPoll, CanPoll;
  }

  /** A stretch of execution from any state. */
  ghost predicate Trace(states: seq<System>, steps: seq<Step>, l: Limits) {
    && |states| == |steps| + 1
    && forall i {:trigger steps[i]} :: 0 <= i < |steps| ==>
         Enabled(states[i], steps[i]) && states[i + 1] == Do(states[i], steps[i], l)
  }

  /** A stretch of execution from the start of the process. */
  ghost predicate Run(states: seq<System>, steps: seq<Step>, l: Limits) {
    Trace(states, steps, l) && states[0] == START
  }

  // ---- The invariant ----

  function LastHealthy(s: System, name: Name): set<Server> {
    if name in s.lastHealthy then s.lastHealthy[name] else {}
  }

  ghost predicate SoundPool(p: Pool, l: Limits) {
    p.Sound() && |p.pins.order| <= l.maxSessions
  }

  ghost predicate Registered(s: System) {
    && (forall n :: n in s.configs <==> n in s.backends)
    && (forall n :: n in s.backends ==> s.backends[n] in s.pools)
    && (forall m, n :: m in s.backends && n in s.backends && s.backends[m] == s.backends[n] ==> m == n)
  }

  ghost predicate Inv(s: System, l: Limits) {
    && Registered(s)
    && (forall p :: p in s.pools ==> SoundPool(s.pools[p], l))
    && (forall n :: n in s.backends ==> s.pools[s.backends[n]].Members() <= LastHealthy(s, n))
    && s.pins.Valid() && |s.pins.order| <= l.maxAddresses
    && (forall id :: id in s.flights ==> s.flights[id].pool in s.pools && Consistent(s.flights[id].ticket, l))
  }

  /** A request's step may shrink its pool; nothing else about pools changes. */
  lemma UpdateKeepsInv(s: System, id: nat, ticket: Ticket, shared: Shared, l: Limits)
    requires Inv(s, l) && id in s.flights
    requires Consistent(ticket, l) && SoundShared(shared, l)
    requires shared.pool.Members() <= s.pools[s.flights[id].pool].Members()
    ensures Inv(Update(s, id, ticket, shared), l)
  {
    hide Consistent, Pool.Sound, Pool.Members;
    var s' := Update(s, id, ticket, shared);
    forall n | n in s'.backends ensures s'.pools[s'.backends[n]].Members() <= LastHealthy(s', n) {
      assert s.pools[s.backends[n]].Members() <= LastHealthy(s, n);
    }
  }

  lemma PickKeepsInv(s: System, id: nat, l: Limits)
    requires Inv(s, l) && Enabled(s, Pick(id))
    ensures Inv(Do(s, Pick(id), l), l)
  {
    hide Consistent, Pool.Sound;
    var t, v := s.flights[id].ticket, View(s, id);
    assert SoundPool(v.pool, l);
    PickIsConsistent(t, v, l);
    SelectEffect(t, v, l);
    PickFrame(s, id, l);
    hide Do, SelectFor, CanProbe, CanPoll;
    var (t', v') := PickStep(t, v, l);
    UpdateKeepsInv(s, id, t', v', l);
    CountersDoNotMatter(Update(s, id, t', v'), Do(s, Pick(id), l), l);
  }

  lemma ConcludeKeepsInv(s: System, id: nat, o: Outcome, limited: bool, l: Limits)
    requires Inv(s, l) && Enabled(s, Conclude(id, o, limited))
    ensures Inv(Do(s, Conclude(id, o, limited), l), l)
  {
    var t, v := s.flights[id].ticket, View(s, id);
    assert SoundPool(v.pool, l);
    OutcomeIsConsistent(t, o, limited, v, l);
    OutcomeEffect(t, o, limited, v, l);
    ConcludeFrame(s, id, o, limited, l);
    hide Do, Consistent, Trip, SafeToRetry, CanProbe, CanPoll;
    var (t', v') := OutcomeStep(t, o, limited, v, l);
    UpdateKeepsInv(s, id, t', v', l);
    CountersDoNotMatter(Update(s, id, t', v'), Do(s, Conclude(id, o, limited), l), l);
  }

  lemma CountersDoNotMatter(s: System, s': System, l: Limits)
    requires Inv(s, l) && s' == s.(selections := s'.selections, retries := s'.retries)
    ensures Inv(s', l)
  {
    hide SoundPool;
  }

  lemma {:induction false} ForgetEachEffect(pins: Pins, dead: seq<Server>)
    requires pins.Valid()
    ensures |ForgetEach(pins, dead).order| <= |pins.order|
    ensures ForgetEach(pins, dead).at.Values == pins.at.Values - Elements(dead)
    decreases |dead|
  {
    if dead != [] {
      var n := |dead| - 1;
      ForgetEachEffect(pins, dead[..n]);
      RemovedValues(ForgetEach(pins, dead[..n]), dead[n]);
      assert dead == dead[..n] + [dead[n]];
      assert Elements(dead) == Elements(dead[..n]) + {dead[n]};
    } else {
      assert Elements(dead) == {};
    }
  }

  /** Storing a verdict and a pool inside it keeps the invariant. */
  lemma VerdictKeepsInv(s: System, name: Name, pool: Pool, pins: Pins, healthy: set<Server>, l: Limits)
    requires Inv(s, l) && name in s.backends
    requires SoundPool(pool, l) && pool.Members() <= healthy
    requires pins.Valid() && |pins.order| <= l.maxAddresses
    ensures Inv(s.(pools := s.pools[s.backends[name] := pool], pins := pins,
                   lastHealthy := s.lastHealthy[name := healthy], probing := s.probing - {name}), l)
  {
    hide SoundPool, Consistent;
    var s' := s.(pools := s.pools[s.backends[name] := pool], pins := pins,
                 lastHealthy := s.lastHealthy[name := healthy], probing := s.probing - {name});
    forall n | n in s'.backends ensures s'.pools[s'.backends[n]].Members() <= LastHealthy(s', n) {
      if n != name {
        assert s'.pools[s'.backends[n]] == s.pools[s.backends[n]];
        assert s.pools[s.backends[n]].Members() <= LastHealthy(s, n);
      }
    }
  }

  /** After a completed probe the pool is exactly the healthy set. */
  lemma ProbeEffect(s: System, name: Name, healthy: seq<Server>, gone: seq<Server>, added: seq<Server>, l: Limits)
    requires Inv(s, l) && Enabled(s, Probe(name, healthy, gone, added)) && name in s.backends
    ensures var s' := Do(s, Probe(name, healthy, gone, added), l);
            && SoundPool(s'.pools[s.backends[name]], l)
            && s'.pools[s.backends[name]].Members() == Elements(healthy) == LastHealthy(s', name)
            && s'.pins.Valid() && |s'.pins.order| <= l.maxAddresses
            && s'.pins.at.Values == s.pins.at.Values - (s.pools[s.backends[name]].Members() - Elements(healthy))
  {
    var pool := s.pools[s.backends[name]];
    assert SoundPool(pool, l);
    SwapEffect(pool, healthy, gone, added);
    var dead := Dropping(pool.wheel.Items(), Elements(healthy));
    ForgetEachEffect(s.pins, dead);
    DroppingElements(pool.wheel.Items(), Elements(healthy));
  }

  lemma ProbeKeepsInv(s: System, name: Name, healthy: seq<Server>, gone: seq<Server>, added: seq<Server>, l: Limits)
    requires Inv(s, l) && Enabled(s, Probe(name, healthy, gone, added))
    ensures Inv(Do(s, Probe(name, healthy, gone, added), l), l)
  {
    hide SoundPool, Consistent, Pool.Members, Pool.Swap, ForgetEach, Enumerates;
    hide AfterPick, AfterConclude, AfterPoll, CanPoll;
    if name in s.backends {
      ProbeEffect(s, name, healthy, gone, added, l);
      var s' := Do(s, Probe(name, healthy, gone, added), l);
      VerdictKeepsInv(s, name, s'.pools[s.backends[name]], s'.pins, Elements(healthy), l);
    }
  }

  lemma EmptyPoolIsSound(l: Limits)
    ensures SoundPool(EMPTY_POOL, l) && EMPTY_POOL.Members() == {}
  {
  }

  lemma RegistryEffect(backends: map<Name, nat>, names: set<Name>, made: map<Name, nat>, pools: map<nat, Pool>)
    requires forall n :: n in made <==> n in names && n !in backends
    requires forall n :: n in backends ==> backends[n] in pools
    requires forall n :: n in made ==> made[n] !in pools
    ensures var after, pools' := Registry(backends, names, made), Pools(pools, made);
            && (forall n :: n in after <==> n in names)
            && (forall n :: n in after ==>
                  after[n] in pools' && after[n] == if n in backends then backends[n] else made[n])
            && (forall p :: p in pools ==> p in pools' && pools'[p] == pools[p])
            && (forall p :: p in pools' && p !in pools ==> pools'[p] == EMPTY_POOL)
  {
    var after, pools' := Registry(backends, names, made), Pools(pools, made);
    forall n | n in after ensures after[n] in pools' {
      if n !in backends {
        assert made[n] in made.Values;
      }
    }
    assert forall p :: p in pools ==> p !in made.Values;
  }

  /** The names keep pools of their own, old or new. */
  lemma RegisteredAfter(s: System, s': System, names: set<Name>, made: map<Name, nat>)
    requires Registered(s) && s'.configs.Keys == names
    requires forall n :: n in made <==> n in names && n !in s.backends
    requires forall n :: n in made ==> made[n] !in s.pools
    requires forall m, n :: m in made && n in made && made[m] == made[n] ==> m == n
    requires forall n :: n in s'.backends <==> n in names
    requires forall n :: n in s'.backends ==>
              s'.backends[n] in s'.pools && s'.backends[n] == if n in s.backends then s.backends[n] else made[n]
    ensures Registered(s')
  {
  }

  /** Poll leaves every old pool alone, and a name it adds gets a new, empty one. */
  lemma PollEffect(s: System, listing: seq<Entry>, made: map<Name, nat>, l: Limits)
    requires Registered(s) && Enabled(s, Poll(listing, made))
    ensures var s' := Do(s, Poll(listing, made), l);
            && Registered(s')
            && (forall p :: p in s.pools ==> p in s'.pools && s'.pools[p] == s.pools[p])
            && (forall p :: p in s'.pools && p !in s.pools ==> s'.pools[p] == EMPTY_POOL)
            && (forall n :: n in s'.backends && n in s.backends ==> s'.backends[n] == s.backends[n])
            && (forall n :: n in s'.backends && n !in s.backends ==> s'.backends[n] !in s.pools)
  {
    hide Winners, Registry, Pools, AfterPick, AfterConclude, AfterProbe, CanProbe, InFlight;
    RegistryEffect(s.backends, Winners(listing).Keys, made, s.pools);
    var s' := AfterPoll(s, listing, made);
    assert Do(s, Poll(listing, made), l) == s';
    assert s'.pools == Pools(s.pools, made) && s'.backends == Registry(s.backends, Winners(listing).Keys, made);
    hide Do, AfterPoll, Enabled, CanPoll;
    RegisteredAfter(s, s', Winners(listing).Keys, made);
  }

  lemma NothingToRegister(backends: map<Name, nat>, names: set<Name>, made: map<Name, nat>, pools: map<nat, Pool>)
    ensures Registry(Registry(backends, names, made), names, map[]) == Registry(backends, names, made)
    ensures Pools(pools, map[]) == pools
  {
    var none: map<Name, nat> := map[];
    assert none.Values == {};
    assert Pools(pools, none).Keys == pools.Keys;
  }

  /** A second poll over the same rows finds nothing to do. */
  lemma SecondPollChangesNothing(s: System, listing: seq<Entry>, made: map<Name, nat>, l: Limits)
    requires Enabled(s, Poll(listing, made))
    ensures var s' := Do(s, Poll(listing, made), l);
            Enabled(s', Poll(listing, map[])) && Do(s', Poll(listing, map[]), l) == s'
  {
    NothingToRegister(s.backends, Winners(listing).Keys, made, Pools(s.pools, made));
    hide Winners, Pools, CanProbe, InFlight, AfterPick, AfterConclude, AfterProbe;
    assert CanPoll(AfterPoll(s, listing, made), listing, map[]);
  }

  lemma PollKeepsInv(s: System, listing: seq<Entry>, made: map<Name, nat>, l: Limits)
    requires Inv(s, l) && Enabled(s, Poll(listing, made))
    ensures Inv(Do(s, Poll(listing, made), l), l)
  {
    hide SoundPool, Consistent, Winners, Registry, Pools;
    var s' := Do(s, Poll(listing, made), l);
    PollEffect(s, listing, made, l);
    EmptyPoolIsSound(l);
    forall n | n in s'.backends ensures s'.pools[s'.backends[n]].Members() <= LastHealthy(s', n) {
      if n in s.backends {
        assert s.pools[s.backends[n]].Members() <= LastHealthy(s, n);
      }
    }
  }

  lemma ArriveKeepsInv(s: System, step: Step, l: Limits)
    requires Inv(s, l) && Enabled(s, step) && step.Arrive? && l.maxAttempts >= 1
    ensures Inv(Do(s, step, l), l)
  {
    hide SoundPool;
  }

  lemma PassKeepsInv(s: System, s': System, l: Limits)
    requires Inv(s, l) && s' == s.(probing := s'.probing)
    ensures Inv(s', l)
  {
    hide SoundPool, Consistent;
  }

  lemma StepKeepsInv(s: System, step: Step, l: Limits)
    requires Inv(s, l) && Enabled(s, step) && l.maxAttempts >= 1
    ensures Inv(Do(s, step, l), l)
  {
    hide Inv, AfterPick, AfterConclude, AfterProbe, AfterPoll, CanProbe, CanPoll;
    match step {
      case Arrive(_, _, _, _, _, _) => ArriveKeepsInv(s, step, l);
      case Pick(id) => PickKeepsInv(s, id, l);
      case Conclude(id, o, limited) => ConcludeKeepsInv(s, id, o, limited, l);
      case BeginPass => PassKeepsInv(s, Do(s, step, l), l);
      case Probe(name, healthy, gone, added) => ProbeKeepsInv(s, name, healthy, gone, added, l);
      case ProbeFails(_) => PassKeepsInv(s, Do(s, step, l), l);
      case Poll(listing, made) => PollKeepsInv(s, listing, made, l);
    }
  }

  lemma {:induction false} TraceKeepsInv(states: seq<System>, steps: seq<Step>, n: nat, l: Limits)
    requires Trace(states, steps, l) && Inv(states[0], l) && l.maxAttempts >= 1 && n <= |steps|
    ensures Inv(states[n], l)
    decreases n
  {
    hide Inv, Do, Enabled;
    if n > 0 {
      TraceKeepsInv(states, steps, n - 1, l);
      StepKeepsInv(states[n - 1], steps[n - 1], l);
    }
  }

  /**
   * In every interleaving each registered pool is duplicate-free, holds only servers that
   * passed the latest completed check of its name, and pins sessions only to its members;
   * no two names share a pool, and both pin maps stay within their caps.
   */
  lemma EveryStateIsSafe(states: seq<System>, steps: seq<Step>, n: nat, l: Limits)
    requires Run(states, steps, l) && l.maxAttempts >= 1 && n <= |steps|
    ensures Inv(states[n], l)
  {
    assert Inv(START, l) by {
      assert forall n: Name :: n !in START.backends;
    }
    TraceKeepsInv(states, steps, n, l);
  }
}
