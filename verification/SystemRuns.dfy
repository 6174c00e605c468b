/** The request counters over whole runs, how to build runs step by step, and one that crosses pools. */
module SystemRuns {
  import opened Sequences
  import opened RoundRobin
  import opened InsertionDict
  import opened Identities
  import opened StickySession
  import opened StickyIp
  import opened ConfigTable
  import opened BackendManagement
  import opened Requests
  import opened Tickets
  import opened Protocol

  // ---- Conservation of the request counters ----

  /** The requests of that name whose last attempt is under way, or was ended by a reply or a surprise. */
  function OpenFlights(flights: map<nat, Flight>, name: Name): set<nat> {
    set id | id in flights && flights[id].name == name && Open(flights[id].ticket)
  }

  ghost predicate Balanced(s: System, name: Name) {
    Counter(s.selections, name) - Counter(s.retries, name) == |OpenFlights(s.flights, name)|
  }

  /** Opening or closing one request changes the count by one. */
  lemma OneMoreOrLess(flights: map<nat, Flight>, id: nat, t: Ticket, name: Name)
    requires id in flights
    ensures var before, after := Open(flights[id].ticket), Open(t);
            var change := if flights[id].name != name || before == after then 0 else if after then 1 else -1;
            |OpenFlights(flights[id := flights[id].(ticket := t)], name)| == |OpenFlights(flights, name)| + change
  {
    var flights' := flights[id := flights[id].(ticket := t)];
    if flights[id].name != name || Open(flights[id].ticket) == Open(t) {
      assert OpenFlights(flights', name) == OpenFlights(flights, name);
    } else if Open(t) {
      assert OpenFlights(flights', name) == OpenFlights(flights, name) + {id};
    } else {
      assert OpenFlights(flights', name) == OpenFlights(flights, name) - {id};
      assert id in OpenFlights(flights, name);
    }
  }

  lemma PickIsBalanced(s: System, id: nat, name: Name, l: Limits)
    requires Enabled(s, Pick(id)) && Balanced(s, name)
    ensures Balanced(Do(s, Pick(id), l), name)
  {
    hide SelectFor, Pool.WellFormed, AfterConclude, AfterProbe, AfterPoll, CanProbe, CanPoll;
    var t := PickStep(s.flights[id].ticket, View(s, id), l).0;
    OneMoreOrLess(s.flights, id, t, name);
  }

  lemma ConcludeIsBalanced(s: System, id: nat, o: Outcome, limited: bool, name: Name, l: Limits)
    requires Enabled(s, Conclude(id, o, limited)) && Balanced(s, name)
    ensures Balanced(Do(s, Conclude(id, o, limited), l), name)
  {
    hide Trip, SafeToRetry, Pool.WellFormed, AfterPick, AfterProbe, AfterPoll, CanProbe, CanPoll;
    var t := OutcomeStep(s.flights[id].ticket, o, limited, View(s, id), l).0;
    OneMoreOrLess(s.flights, id, t, name);
  }

  /** The steps of the other tasks, and arrivals, move no counter. */
  lemma OthersAreBalanced(s: System, step: Step, name: Name, l: Limits)
    requires Enabled(s, step) && Balanced(s, name) && !step.Pick? && !step.Conclude?
    ensures Balanced(Do(s, step, l), name)
  {
    hide AfterPick, AfterConclude, CanProbe, CanPoll, AfterProbe;
    var s' := Do(s, step, l);
    if step.Probe? {
      ProbeFrame(s, step, l);
    }
    assert OpenFlights(s'.flights, name) == OpenFlights(s.flights, name);
  }

  lemma StepIsBalanced(s: System, step: Step, name: Name, l: Limits)
    requires Enabled(s, step) && Balanced(s, name)
    ensures Balanced(Do(s, step, l), name)
  {
    hide Do, Balanced;
    match step {
      case Pick(id) => PickIsBalanced(s, id, name, l);
      case Conclude(id, o, limited) => ConcludeIsBalanced(s, id, o, limited, name, l);
      case _ => OthersAreBalanced(s, step, name, l);
    }
  }

  /**
   * In every interleaving and for every name, backend selections less retries counts the
   * requests that are waiting for a backend or were ended by an upstream reply or an
   * unexpected error. Requests ended by 502, 503 or 504 leave no difference behind.
   */
  lemma {:induction false} CountersBalance(states: seq<System>, steps: seq<Step>, n: nat, name: Name, l: Limits)
    requires Run(states, steps, l) && n <= |steps|
    ensures Balanced(states[n], name)
    decreases n
  {
    if n == 0 {
      assert OpenFlights(START.flights, name) == {};
    } else {
      hide Do, Enabled, Balanced;
      CountersBalance(states, steps, n - 1, name, l);
      StepIsBalanced(states[n - 1], steps[n - 1], name, l);
    }
  }

  /** A request of that name was given a server by the step. */
  ghost predicate GivesServer(s: System, s': System, step: Step, name: Name) {
    && step.Pick? && step.id in s.flights && s.flights[step.id].name == name
    && step.id in s'.flights && s'.flights[step.id].ticket.phase.Waiting?
  }

  /** An attempt for that name failed in the step. */
  ghost predicate Fails(s: System, step: Step, name: Name) {
    && step.Conclude? && step.id in s.flights && s.flights[step.id].name == name
    && !step.outcome.Reply? && step.outcome != Unexpected
  }

  lemma PickCounter(s: System, id: nat, l: Limits)
    requires Enabled(s, Pick(id))
    ensures var f, t := s.flights[id], PickStep(s.flights[id].ticket, View(s, id), l).0;
            Do(s, Pick(id), l).selections
            == if t.phase.Waiting? then s.selections[f.name := Counter(s.selections, f.name) + 1] else s.selections
  {
    hide PickStep, Pool.WellFormed, Counter, AfterConclude, AfterProbe, AfterPoll, CanProbe, CanPoll;
  }

  lemma PickCounts(s: System, id: nat, name: Name, l: Limits)
    requires Enabled(s, Pick(id))
    ensures var s' := Do(s, Pick(id), l);
            var given := if GivesServer(s, s', Pick(id), name) then 1 else 0;
            Counter(s'.selections, name) == Counter(s.selections, name) + given && s'.retries == s.retries
  {
    PickCounter(s, id, l);
    PickFrame(s, id, l);
    hide Do, PickStep, CanProbe, CanPoll;
  }

  lemma ConcludeCounts(s: System, id: nat, o: Outcome, limited: bool, name: Name, l: Limits)
    requires Enabled(s, Conclude(id, o, limited))
    ensures var s', step := Do(s, Conclude(id, o, limited), l), Conclude(id, o, limited);
            && Counter(s'.retries, name) == Counter(s.retries, name) + (if Fails(s, step, name) then 1 else 0)
            && s'.selections == s.selections
  {
    hide OutcomeStep, Pool.WellFormed, AfterPick, AfterProbe, AfterPoll, CanProbe, CanPoll;
  }

  lemma StepCounts(s: System, step: Step, name: Name, l: Limits)
    requires Enabled(s, step)
    ensures var s' := Do(s, step, l);
            var given, failed := if GivesServer(s, s', step, name) then 1 else 0, if Fails(s, step, name) then 1 else 0;
            && Counter(s'.selections, name) == Counter(s.selections, name) + given
            && Counter(s'.retries, name) == Counter(s.retries, name) + failed
  {
    hide AfterPick, AfterConclude, AfterProbe, AfterPoll, CanProbe, CanPoll, GivesServer, Fails;
    match step {
      case Pick(id) =>
        PickCounts(s, id, name, l);
        OnlyItsOwn(s, Do(s, step, l), step, name);
      case Conclude(id, o, limited) =>
        ConcludeCounts(s, id, o, limited, name, l);
        OnlyItsOwn(s, Do(s, step, l), step, name);
      case Probe(_, _, _, _) =>
        ProbeFrame(s, step, l);
        OnlyItsOwn(s, Do(s, step, l), step, name);
      case Poll(listing, made) =>
        PollCountsNothing(s, listing, made, l);
        OnlyItsOwn(s, Do(s, step, l), step, name);
      case _ => OnlyItsOwn(s, Do(s, step, l), step, name);
    }
  }

  lemma OnlyItsOwn(s: System, s': System, step: Step, name: Name)
    ensures !step.Pick? ==> !GivesServer(s, s', step, name)
    ensures !step.Conclude? ==> !Fails(s, step, name)
  {
  }

  lemma PollCountsNothing(s: System, listing: seq<Entry>, made: map<Name, nat>, l: Limits)
    requires Enabled(s, Poll(listing, made))
    ensures var s' := Do(s, Poll(listing, made), l); s'.selections == s.selections && s'.retries == s.retries
  {
    hide Winners, Registry, Pools, AfterPick, AfterConclude, AfterProbe, CanProbe, CanPoll;
  }

  /** How often, in the first n steps, a request of that name was given a server. */
  ghost function Selections(states: seq<System>, steps: seq<Step>, n: nat, name: Name): nat
    requires n <= |steps| < |states|
  {
    if n == 0 then 0
    else
      Selections(states, steps, n - 1, name)
      + if GivesServer(states[n - 1], states[n], steps[n - 1], name) then 1 else 0
  }

  /** How often an attempt for that name failed. */
  ghost function Failures(states: seq<System>, steps: seq<Step>, n: nat, name: Name): nat
    requires n <= |steps| < |states|
  {
    if n == 0 then 0
    else Failures(states, steps, n - 1, name) + if Fails(states[n - 1], steps[n - 1], name) then 1 else 0
  }

  /**
   * The selection counter of a name is the number of times a request of that name was given a
   * server, its retry counter the number of its attempts that failed.
   */
  lemma {:induction false} CountersCountSteps(states: seq<System>, steps: seq<Step>, n: nat, name: Name, l: Limits)
    requires Run(states, steps, l) && n <= |steps|
    ensures Counter(states[n].selections, name) == Selections(states, steps, n, name)
    ensures Counter(states[n].retries, name) == Failures(states, steps, n, name)
    decreases n
  {
    hide Do, Enabled, GivesServer, Fails;
    if n > 0 {
      hide Counter;
      CountersCountSteps(states, steps, n - 1, name, l);
      StepCounts(states[n - 1], steps[n - 1], name, l);
    }
  }

  // ---- Requests keep what they arrived with ----

  /** The same request, further on. */
  ghost predicate SameRequest(f: Flight, f': Flight) {
    && f'.name == f.name && f'.pool == f.pool
    && f'.ticket.policy == f.ticket.policy && f'.ticket.verb == f.ticket.verb
    && f'.ticket.ip == f.ticket.ip && f'.ticket.session == f.ticket.session
  }

  /** A step keeps every request, and only an arrival adds one, with nothing tried and its name's pool. */
  lemma StepKeepsRequests(s: System, step: Step, l: Limits)
    requires Enabled(s, step)
    ensures var s' := Do(s, step, l);
            && s'.flights.Keys == s.flights.Keys + (if step.Arrive? then {step.id} else {})
            && (forall id :: id in s.flights ==> SameRequest(s.flights[id], s'.flights[id]))
            && (step.Arrive? ==>
                  && step.name in s.backends
                  && s'.flights[step.id]
                     == Flight(step.name, s.backends[step.name],
                               Ticket(step.policy, step.verb, step.ip, step.session, 0, Choosing, [], [])))
  {
    hide AfterPick, AfterConclude, AfterProbe, CanProbe, CanPoll, Registry, Pools;
    hide SelectFor, Trip, SafeToRetry, Pool.WellFormed;
    match step {
      case Pick(id) => PickFrame(s, id, l);
      case Conclude(id, o, limited) => ConcludeFrame(s, id, o, limited, l);
      case Probe(_, _, _, _) => ProbeFrame(s, step, l);
      case _ =>
    }
  }

  /**
   * Every request in flight arrived once, and holds for good the pool object that its name had at
   * that moment, whatever polls have done to the name since.
   */
  lemma {:induction false} PoolIsFetchedOnce(states: seq<System>, steps: seq<Step>, n: nat, id: nat, l: Limits)
      returns (i: nat)
    requires Run(states, steps, l) && n <= |steps| && id in states[n].flights
    ensures i < n && steps[i].Arrive? && steps[i].id == id && steps[i].name in states[i].backends
    ensures var f, step := states[n].flights[id], steps[i];
            && f.name == step.name && f.pool == states[i].backends[step.name]
            && f.ticket.policy == step.policy && f.ticket.verb == step.verb
            && f.ticket.ip == step.ip && f.ticket.session == step.session
    decreases n
  {
    hide Do, Enabled;
    var m := n - 1;
    StepKeepsRequests(states[m], steps[m], l);
    if id in states[m].flights {
      i := PoolIsFetchedOnce(states, steps, m, id, l);
    } else {
      i := m;
    }
  }

  // ---- A health pass visits everybody ----

  /** The step ends the visit of that name by the health pass under way. */
  predicate Visits(step: Step, name: Name) {
    (step.Probe? || step.ProbeFails?) && step.name == name
  }

  lemma VisitStep(s: System, step: Step, name: Name, l: Limits)
    requires Enabled(s, step)
    ensures Visits(step, name) ==> name in s.probing
    ensures name in Do(s, step, l).probing
            <==> if step.BeginPass? then name in s.configs else name in s.probing && !Visits(step, name)
    ensures step.BeginPass? ==> s.probing == {}
  {
    hide PickStep, OutcomeStep, AfterPick, AfterConclude, AfterProbe, CanPoll, Registry, Pools, Winners;
    match step {
      case Pick(id) => PickFrame(s, id, l);
      case Conclude(id, o, limited) => ConcludeFrame(s, id, o, limited, l);
      case Probe(_, _, _, _) => ProbeFrame(s, step, l);
      case _ =>
    }
  }

  lemma {:induction false} StillToVisit(states: seq<System>, steps: seq<Step>, i: nat, m: nat, name: Name, l: Limits)
    requires Trace(states, steps, l) && i < m <= |steps| && steps[i].BeginPass?
    requires forall k {:trigger steps[k]} :: i < k < m ==> !steps[k].BeginPass?
    ensures name in states[m].probing
            <==> name in states[i].configs && forall k {:trigger steps[k]} :: i < k < m ==> !Visits(steps[k], name)
    decreases m
  {
    hide Do, Enabled, Visits;
    VisitStep(states[m - 1], steps[m - 1], name, l);
    if i < m - 1 {
      StillToVisit(states, steps, i, m - 1, name, l);
    }
  }

  /** Between the beginnings of two passes each name configured at the first is visited exactly once, and no other. */
  lemma PassVisitsEachOnce(states: seq<System>, steps: seq<Step>, i: nat, j: nat, name: Name, l: Limits)
    requires Trace(states, steps, l) && i < j < |steps| && steps[i].BeginPass? && steps[j].BeginPass?
    requires forall k {:trigger steps[k]} :: i < k < j ==> !steps[k].BeginPass?
    ensures name in states[i].configs <==> exists k {:trigger steps[k]} :: i < k < j && Visits(steps[k], name)
    ensures forall k, k' {:trigger steps[k], steps[k']} :: i < k < k' < j ==>
              !(Visits(steps[k], name) && Visits(steps[k'], name))
  {
    hide Do, Enabled, Visits;
    StillToVisit(states, steps, i, j, name, l);
    VisitStep(states[j], steps[j], name, l);
    forall k: nat {:trigger steps[k]} | i < k < j && Visits(steps[k], name)
      ensures name in states[i].configs
      ensures forall k' {:trigger steps[k']} :: i < k' < k ==> !Visits(steps[k'], name)
    {
      VisitStep(states[k], steps[k], name, l);
      StillToVisit(states, steps, i, k, name, l);
    }
  }

  // ---- Building runs ----

  lemma Extend(states: seq<System>, steps: seq<Step>, step: Step, next: System, l: Limits)
      returns (states': seq<System>, steps': seq<Step>)
    requires Run(states, steps, l)
    requires Enabled(states[|steps|], step) && next == Do(states[|steps|], step, l)
    ensures Run(states', steps', l) && |states'| == |steps'| + 1 && states'[|steps'|] == next
    ensures states' == states + [next] && steps' == steps + [step]
  {
    hide Do, Enabled;
    states', steps' := states + [next], steps + [step];
  }

  function RowOf(name: Name, data: Config): Row {
    Row(name, data, 0.0)
  }

  lemma Start(l: Limits) returns (states: seq<System>, steps: seq<Step>)
    ensures Run(states, steps, l) && |steps| == 0 && states == [START]
  {
    states, steps := [START], [];
  }

  /** Polling names that are all new registers just them. */
  lemma NewRegistry(backends: map<Name, nat>, made: map<Name, nat>, pools: map<nat, Pool>)
    requires made.Keys !! backends.Keys
    ensures Registry(backends, made.Keys, made) == made
    ensures Pools(pools, made) == pools + map id | id in made.Values :: EMPTY_POOL
  {
  }

  /** A poll that finds only names not configured before starts the registry afresh. */
  lemma PollNew(s: System, listing: seq<Entry>, made: map<Name, nat>, l: Limits)
    requires made.Keys == Winners(listing).Keys && made.Keys !! s.backends.Keys
    requires forall n :: n in made ==> made[n] !in s.pools
    requires forall m, n :: m in made && n in made && made[m] == made[n] ==> m == n
    ensures Enabled(s, Poll(listing, made))
    ensures Do(s, Poll(listing, made), l) == s.(
              configs := Winners(listing), backends := made,
              pools := s.pools + map id | id in made.Values :: EMPTY_POOL)
  {
    hide Winners, AfterPick, AfterConclude, AfterProbe, CanProbe, InFlight;
    NewRegistry(s.backends, made, s.pools);
    hide Registry, Pools;
  }

  lemma OneWinner(id: nat, name: Name, data: Config)
    ensures Winners([Entry(id, RowOf(name, data))]) == map[name := data]
  {
  }

  /** A poll that finds one row, of a name not configured before, makes it the only config. */
  lemma PollOne(s: System, id: nat, name: Name, data: Config, p: nat, l: Limits) returns (poll: Step)
    requires name !in s.backends && p !in s.pools
    ensures poll.Poll? && Enabled(s, poll)
    ensures Do(s, poll, l)
            == s.(configs := map[name := data], backends := map[name := p], pools := s.pools[p := EMPTY_POOL])
  {
    hide Do, Enabled, Winners;
    var listing, made: map<Name, nat> := [Entry(id, RowOf(name, data))], map[name := p];
    poll := Poll(listing, made);
    OneWinner(id, name, data);
    PollNew(s, listing, made, l);
    assert made[name] in made.Values && made.Values == {p};
    assert s.pools + (map id | id in made.Values :: EMPTY_POOL) == s.pools[p := EMPTY_POOL];
  }

  lemma ProbeFirst(s: System, name: Name, p: nat, a: Server, l: Limits) returns (probe: Step)
    requires name in s.probing && name in s.backends && s.backends[name] == p
    requires p in s.pools && s.pools[p] == EMPTY_POOL && s.pins == Dict([], map[])
    ensures probe.Probe? && Enabled(s, probe)
    ensures Do(s, probe, l) == s.(lastHealthy := s.lastHealthy[name := {a}], probing := s.probing - {name},
                                  pools := s.pools[p := Pool(Wheel([a], []), Dict([], map[]))])
  {
    probe := Probe(name, [a], [], [a]);
    assert Elements([a]) == {a} && EMPTY_POOL.Members() == {};
    assert [a][0] == a && Enumerates([], EMPTY_POOL.Members() - {a}) && Enumerates([a], {a} - EMPTY_POOL.Members());
    assert [a][1..] == [] && [] + [a] == [a];
    assert EMPTY_POOL.wheel.Add(a) == Wheel([a], []);
    assert EMPTY_POOL.wheel.AddAll([a]) == Wheel([a], []).AddAll([]) == Wheel([a], []);
    assert EMPTY_POOL.DropAll([]) == EMPTY_POOL;
    assert EMPTY_POOL.Swap([], [a]) == Pool(Wheel([a], []), Dict([], map[]));
  }

  /** One name configured and verified. */
  lemma OneVerified(name: Name, data: Config, a: Server, l: Limits) returns (states: seq<System>, steps: seq<Step>)
    ensures Run(states, steps, l) && |states| == |steps| + 1
    ensures |steps| == 3 && steps[1] == BeginPass && steps[2].Probe?
    ensures states[|steps|] == START.(
              configs := map[name := data], backends := map[name := 0], lastHealthy := map[name := {a}],
              pools := map[0 := Pool(Wheel([a], []), Dict([], map[]))])
  {
    hide Run;
    states, steps := Start(l);
    var poll := PollOne(START, 1, name, data, 0, l);
    var s := Do(START, poll, l);
    states, steps := Extend(states, steps, poll, s, l);
    states, steps := Extend(states, steps, BeginPass, s.(probing := {name}), l);
    s := s.(probing := {name});
    var probe := ProbeFirst(s, name, 0, a, l);
    states, steps := Extend(states, steps, probe, Do(s, probe, l), l);
  }

  lemma TwoWinners(x: Name, y: Name, data: Config)
    requires x != y
    ensures Winners([Entry(1, RowOf(x, data)), Entry(2, RowOf(y, data))]) == map[x := data, y := data]
  {
    var listing := [Entry(1, RowOf(x, data)), Entry(2, RowOf(y, data))];
    assert listing[..1] == [Entry(1, RowOf(x, data))];
    OneWinner(1, x, data);
  }

  lemma PollTwo(x: Name, y: Name, data: Config, l: Limits) returns (poll: Step)
    requires x != y
    ensures Enabled(START, poll)
    ensures Do(START, poll, l) == START.(
              pools := map[0 := EMPTY_POOL, 1 := EMPTY_POOL], backends := map[x := 0, y := 1],
              configs := map[x := data, y := data])
  {
    hide Do, Enabled, Winners;
    var listing := [Entry(1, RowOf(x, data)), Entry(2, RowOf(y, data))];
    var made: map<Name, nat> := map[x := 0, y := 1];
    poll := Poll(listing, made);
    TwoWinners(x, y, data);
    PollNew(START, listing, made, l);
    assert made[x] in made.Values && made[y] in made.Values && made.Values == {0, 1};
    assert (map id: nat | id in made.Values :: EMPTY_POOL) == map[0 := EMPTY_POOL, 1 := EMPTY_POOL];
  }

  /** Two names configured, their pools still empty, and a health pass begun. */
  lemma TwoConfigured(x: Name, y: Name, data: Config, l: Limits) returns (states: seq<System>, steps: seq<Step>)
    requires x != y
    ensures Run(states, steps, l) && |states| == |steps| + 1
    ensures states[|steps|] == START.(
              pools := map[0 := EMPTY_POOL, 1 := EMPTY_POOL], backends := map[x := 0, y := 1],
              configs := map[x := data, y := data], probing := {x, y})
  {
    hide Run, AfterPick, AfterConclude, AfterProbe, AfterPoll, CanProbe, CanPoll;
    states, steps := Start(l);
    var poll := PollTwo(x, y, data, l);
    var s := Do(START, poll, l);
    states, steps := Extend(states, steps, poll, s, l);
    states, steps := Extend(states, steps, BeginPass, s.(probing := {x, y}), l);
  }

  /** Two names, each with its own pool of one verified server. */
  lemma TwoVerified(x: Name, y: Name, data: Config, a: Server, b: Server, l: Limits)
      returns (states: seq<System>, steps: seq<Step>)
    requires x != y
    ensures Run(states, steps, l) && |states| == |steps| + 1
    ensures states[|steps|] == System(
              map[0 := Pool(Wheel([a], []), Dict([], map[])), 1 := Pool(Wheel([b], []), Dict([], map[]))],
              map[x := 0, y := 1], map[x := data, y := data], map[x := {a}, y := {b}], {},
              Dict([], map[]), map[], map[], map[])
  {
    hide Run, Do, Enabled;
    states, steps := TwoConfigured(x, y, data, l);
    var s := states[|steps|];
    var probe := ProbeFirst(s, x, 0, a, l);
    var s' := Do(s, probe, l);
    states, steps := Extend(states, steps, probe, s', l);
    probe := ProbeFirst(s', y, 1, b, l);
    states, steps := Extend(states, steps, probe, Do(s', probe, l), l);
    assert {x, y} - {x} - {y} == {};
  }

  /** An address asks for x and is pinned to the server of x. */
  lemma PinnedAtX(x: Name, y: Name, a: Server, b: Server, ip: Ip, who: Session, l: Limits)
      returns (states: seq<System>, steps: seq<Step>)
    requires x != y
    ensures Run(states, steps, l) && |states| == |steps| + 1
    ensures var s := states[|steps|];
            && s.pins.Valid() && s.pins.Get(ip) == Some(a) && s.flights.Keys == {1}
            && y in s.backends && s.backends[y] == 1
            && 1 in s.pools && s.pools[1] == Pool(Wheel([b], []), Dict([], map[]))
  {
    hide Run;
    states, steps := TwoVerified(x, y, Config("https", "example.com", "", "/"), a, b, l);
    var s := states[|steps|];
    var arrive := Arrive(1, x, ByAddress, "GET", ip, who);
    var s1 := s.(flights := map[1 := Flight(x, 0, Arrived(ByAddress, "GET", ip, who))]);
    states, steps := Extend(states, steps, arrive, s1, l);
    assert View(s1, 1).Valid();
    PickFrame(s1, 1, l);
    var s2 := Do(s1, Pick(1), l);
    states, steps := Extend(states, steps, Pick(1), s2, l);
    assert SelectFor(s1.flights[1].ticket, View(s1, 1), l).0 == Some(a);
  }

  /**
   * With two pools routed by address the unchecked lookup is wrong: an address pinned by its
   * request to one pool is sent to that pool's server when it asks for the other.
   */
  lemma AddressPinsCrossPools(l: Limits) returns (states: seq<System>, steps: seq<Step>)
    ensures Run(states, steps, l)
    ensures var s := states[|steps|];
            && Enabled(s, Pick(2)) && s.flights[2].ticket.policy == ByAddress
            && var backend := SelectFor(s.flights[2].ticket, View(s, 2), l).0;
            backend.Some? && backend.value !in View(s, 2).pool.Members()
  {
    hide Run;
    var x, y, a, b := Name("x"), Name("y"), Server("https://192.0.2.1"), Server("https://192.0.2.2");
    var ip, who := Ip("198.51.100.7"), Session("none");
    states, steps := PinnedAtX(x, y, a, b, ip, who, l);
    var s := states[|steps|];
    var arrive := Arrive(2, y, ByAddress, "GET", ip, who);
    var s' := s.(flights := s.flights[2 := Flight(y, 1, Arrived(ByAddress, "GET", ip, who))]);
    states, steps := Extend(states, steps, arrive, s', l);
    assert View(s', 2) == Shared(Pool(Wheel([b], []), Dict([], map[])), s.pins) && View(s', 2).Valid();
    assert View(s', 2).pool.wheel.Items() == [b];
  }
}
