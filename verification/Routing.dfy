/** What requests can rely on while health passes, polls and other requests interleave with them. */
module Routing {
  import opened Sequences
  import opened RoundRobin
  import opened InsertionDict
  import opened Identities
  import opened StickySession
  import opened StickyIp
  import opened ConfigTable
  import opened BackendManagement
  import opened Requests
  import opened Tickets
  import opened Protocol

  // ---- Health ----

  /**
   * A round-robin or session request whose pool is still registered is only ever given a
   * server that passed the latest completed check of that name.
   */
  lemma ChoicesAreHealthy(states: seq<System>, steps: seq<Step>, n: nat, id: nat, name: Name, l: Limits)
    requires Run(states, steps, l) && l.maxAttempts >= 1 && n <= |steps|
    requires Enabled(states[n], Pick(id))
    requires var s := states[n];
             && s.flights[id].ticket.policy != ByAddress
             && name in s.backends && s.backends[name] == s.flights[id].pool
    ensures var s := states[n];
            var t := Do(s, Pick(id), l).flights[id].ticket;
            if s.pools[s.backends[name]].Members() == {} then t.phase == Answered(NoHealthyBackend)
            else t.phase.Waiting? && t.phase.server in LastHealthy(s, name)
  {
    var s := states[n];
    EveryStateIsSafe(states, steps, n, l);
    var t, v := s.flights[id].ticket, View(s, id);
    assert SoundPool(v.pool, l);
    PickFrame(s, id, l);
    SelectEffect(t, v, l);
    hide AfterPick, AfterConclude, AfterProbe, AfterPoll, CanProbe, CanPoll, Consistent;
    if t.policy == BySession {
      ChooseIsSound(v.pool, Some(t.session), l.maxSessions);
    } else {
      ChooseIsSound(v.pool, None, l.maxSessions);
    }
    assert v.pool.Members() == {} <==> v.pool.wheel.Items() == [] by {
      if v.pool.wheel.Items() != [] {
        assert v.pool.wheel.Items()[0] in v.pool.Members();
      }
    }
  }

  /** Right after a probe the registered pool is exactly the verified set. */
  lemma ProbeMakesPoolHealthy(states: seq<System>, steps: seq<Step>, n: nat, l: Limits)
    requires Run(states, steps, l) && l.maxAttempts >= 1 && n < |steps| && steps[n].Probe?
    ensures var s, name := states[n + 1], steps[n].name;
            name in s.backends ==>
              s.pools[s.backends[name]].Members() == LastHealthy(s, name) == Elements(steps[n].healthy)
  {
    EveryStateIsSafe(states, steps, n, l);
    var step := steps[n];
    if step.name in states[n].backends {
      ProbeEffect(states[n], step.name, step.healthy, step.gone, step.added, l);
    }
  }

  // ---- One request among many ----

  /** Nothing is added to pool p along the trace. */
  ghost predicate NoAdditions(states: seq<System>, p: nat) {
    forall i, j :: 0 <= i < j < |states| && j == i + 1 && p in states[i].pools && p in states[j].pools ==>
      states[j].pools[p].Members() <= states[i].pools[p].Members()
  }

  /** All address pins point into pool p along the trace. */
  ghost predicate PinsInside(states: seq<System>, p: nat) {
    forall i :: 0 <= i < |states| ==> p in states[i].pools && states[i].pins.at.Values <= states[i].pools[p].Members()
  }

  ghost predicate JustArrived(s: System, id: nat) {
    && id in s.flights
    && var t := s.flights[id].ticket;
       t == Arrived(t.policy, t.verb, t.ip, t.session)
  }

  /** The servers the request has written off. */
  function Failed(t: Ticket): set<Server>
    requires t.attempt <= |t.tried|
  {
    Elements(t.tried[..t.attempt])
  }

  ghost predicate NeverTwice(first: System, s: System, id: nat, l: Limits)
    requires id in first.flights
  {
    && id in s.flights && s.flights[id].pool == first.flights[id].pool
    && s.flights[id].ticket.policy == first.flights[id].ticket.policy
    && var p := first.flights[id].pool;
    && p in first.pools && p in s.pools
    && var t := s.flights[id].ticket;
    Consistent(t, l) && Fresh(t, s.pools[p], first.pools[p].Members())
  }

  /** The attempts so far are distinct members of `initial`, and the failed ones have left the pool. */
  ghost predicate Fresh(t: Ticket, pool: Pool, initial: set<Server>)
    requires t.attempt <= |t.tried|
  {
    pool.Members() <= initial && Distinct(t.tried) && Elements(t.tried) <= initial && Failed(t) !! pool.Members()
  }

  lemma PickStaysFresh(t: Ticket, v: Shared, initial: set<Server>, l: Limits)
    requires SoundShared(v, l) && t.phase.Choosing? && Consistent(t, l) && Fresh(t, v.pool, initial)
    requires t.policy == ByAddress ==> v.pins.at.Values <= v.pool.Members()
    ensures var (t', v') := PickStep(t, v, l); Consistent(t', l) && Fresh(t', v'.pool, initial)
  {
    SelectEffect(t, v, l);
    PickIsConsistent(t, v, l);
    var (t', v') := PickStep(t, v, l);
    assert t.tried[..t.attempt] == t.tried;
    if t'.phase.Waiting? {
      assert t'.phase.server in v.pool.Members();
      DistinctAppend(t.tried, t'.phase.server);
      assert t'.tried[..t'.attempt] == t.tried;
    }
  }

  lemma OwnPick(first: System, s: System, id: nat, l: Limits)
    requires Inv(s, l) && Enabled(s, Pick(id)) && id in first.flights && NeverTwice(first, s, id, l)
    requires s.flights[id].ticket.policy == ByAddress ==> s.pins.at.Values <= View(s, id).pool.Members()
    ensures NeverTwice(first, Do(s, Pick(id), l), id, l)
  {
    assert SoundPool(View(s, id).pool, l);
    PickFrame(s, id, l);
    hide Do, PickStep, Fresh, Consistent, CanProbe, CanPoll, Inv;
    PickStaysFresh(s.flights[id].ticket, View(s, id), first.pools[first.flights[id].pool].Members(), l);
  }

  lemma OutcomeStaysFresh(t: Ticket, o: Outcome, limited: bool, v: Shared, initial: set<Server>, l: Limits)
    requires SoundShared(v, l) && t.phase.Waiting? && Consistent(t, l) && Fresh(t, v.pool, initial)
    ensures var (t', v') := OutcomeStep(t, o, limited, v, l); Consistent(t', l) && Fresh(t', v'.pool, initial)
  {
    hide Befits;
    OutcomeEffect(t, o, limited, v, l);
    OutcomeIsConsistent(t, o, limited, v, l);
    var t' := OutcomeStep(t, o, limited, v, l).0;
    if Failure(o) {
      assert t'.tried[..t'.attempt] == t.tried[..t.attempt] + [t.phase.server];
      assert Failed(t') == Failed(t) + {t.phase.server};
    }
  }

  lemma OwnConclude(first: System, s: System, id: nat, o: Outcome, limited: bool, l: Limits)
    requires Inv(s, l) && Enabled(s, Conclude(id, o, limited)) && id in first.flights && NeverTwice(first, s, id, l)
    ensures NeverTwice(first, Do(s, Conclude(id, o, limited), l), id, l)
  {
    assert SoundPool(View(s, id).pool, l);
    ConcludeFrame(s, id, o, limited, l);
    hide Do, OutcomeStep, Fresh, Consistent, CanProbe, CanPoll, Inv;
    OutcomeStaysFresh(s.flights[id].ticket, o, limited, View(s, id), first.pools[first.flights[id].pool].Members(), l);
  }

  predicate IsOwn(step: Step, id: nat) {
    (step.Pick? || step.Conclude?) && step.id == id
  }

  /** The request is as it was, and the pool object still exists. */
  ghost predicate LeftAlone(s: System, s': System, id: nat, p: nat) {
    id in s.flights && id in s'.flights && s'.flights[id] == s.flights[id] && p in s'.pools
  }

  lemma UpdateLeavesAlone(s: System, other: nat, t: Ticket, v: Shared, id: nat, p: nat)
    requires other in s.flights && id in s.flights && id != other && p in s.pools
    ensures LeftAlone(s, Update(s, other, t, v), id, p)
  {
  }

  lemma PickLeavesAlone(s: System, other: nat, id: nat, p: nat, l: Limits)
    requires Enabled(s, Pick(other)) && id in s.flights && id != other && p in s.pools
    ensures LeftAlone(s, AfterPick(s, other, l), id, p)
  {
    hide PickStep;
    var (t, v) := PickStep(s.flights[other].ticket, View(s, other), l);
    UpdateLeavesAlone(s, other, t, v, id, p);
  }

  lemma ConcludeLeavesAlone(s: System, other: nat, o: Outcome, limited: bool, id: nat, p: nat, l: Limits)
    requires Enabled(s, Conclude(other, o, limited)) && id in s.flights && id != other && p in s.pools
    ensures LeftAlone(s, AfterConclude(s, other, o, limited, l), id, p)
  {
    hide OutcomeStep;
    var (t, v) := OutcomeStep(s.flights[other].ticket, o, limited, View(s, other), l);
    UpdateLeavesAlone(s, other, t, v, id, p);
  }

  lemma ProbeLeavesAlone(s: System, step: Step, id: nat, p: nat, l: Limits)
    requires Enabled(s, step) && step.Probe? && id in s.flights && p in s.pools
    ensures LeftAlone(s, Do(s, step, l), id, p)
  {
    hide Pool.Swap, ForgetEach, Enumerates;
  }

  /** Steps of others leave the request alone and keep every pool in existence. */
  lemma OthersStep(s: System, step: Step, id: nat, p: nat, l: Limits)
    requires Enabled(s, step) && !IsOwn(step, id)
    requires id in s.flights && p in s.pools
    ensures LeftAlone(s, Do(s, step, l), id, p)
  {
    hide AfterPick, AfterConclude, AfterProbe, CanProbe, CanPoll, Winners, Registry;
    match step {
      case Pick(other) => PickLeavesAlone(s, other, id, p, l);
      case Conclude(other, o, limited) => ConcludeLeavesAlone(s, other, o, limited, id, p, l);
      case Probe(_, _, _, _) => ProbeLeavesAlone(s, step, id, p, l);
      case Poll(_, made) => assert p in Pools(s.pools, made);
      case _ =>
    }
  }

  lemma StepNeverTwice(first: System, s: System, step: Step, id: nat, l: Limits)
    requires Inv(s, l) && Enabled(s, step) && id in first.flights && NeverTwice(first, s, id, l)
    requires first.flights[id].ticket.policy == ByAddress ==>
               s.pins.at.Values <= s.pools[first.flights[id].pool].Members()
    requires var p, s' := first.flights[id].pool, Do(s, step, l);
             p in s'.pools ==> s'.pools[p].Members() <= s.pools[p].Members()
    ensures NeverTwice(first, Do(s, step, l), id, l)
  {
    hide SoundPool, Pool.Members;
    if step == Pick(id) {
      OwnPick(first, s, id, l);
    } else if step.Conclude? && step.id == id {
      OwnConclude(first, s, id, step.outcome, step.limited, l);
    } else {
      hide Do, Enabled, Inv, Consistent;
      OthersStep(s, step, id, first.flights[id].pool, l);
    }
  }

  lemma ArrivalNeverTwice(s: System, id: nat, l: Limits)
    requires Inv(s, l) && l.maxAttempts >= 1 && JustArrived(s, id)
    ensures NeverTwice(s, s, id, l)
  {
  }

  lemma {:induction false} TriesAreDistinctUpTo(states: seq<System>, steps: seq<Step>, n: nat, id: nat, l: Limits)
    requires Trace(states, steps, l) && Inv(states[0], l) && l.maxAttempts >= 1 && n <= |steps|
    requires JustArrived(states[0], id)
    requires NoAdditions(states, states[0].flights[id].pool)
    requires states[0].flights[id].ticket.policy == ByAddress ==> PinsInside(states, states[0].flights[id].pool)
    ensures NeverTwice(states[0], states[n], id, l)
    decreases n
  {
    hide Do, Enabled, Inv, Fresh, Consistent, Pool.Members;
    if n == 0 {
      ArrivalNeverTwice(states[0], id, l);
    } else {
      TriesAreDistinctUpTo(states, steps, n - 1, id, l);
      TraceKeepsInv(states, steps, n - 1, l);
      StepNeverTwice(states[0], states[n - 1], steps[n - 1], id, l);
    }
  }

  /**
   * While nothing is added to its pool (and, under sticky_ip, while the pins point into that
   * pool), a request never tries a server twice: its attempts are pairwise distinct members
   * of the pool it found, at most LB_MAX_ATTEMPTS and at most as many as that pool had, and
   * no server it wrote off is in the pool any more.
   */
  lemma TriesAreDistinct(states: seq<System>, steps: seq<Step>, id: nat, l: Limits)
    requires Trace(states, steps, l) && Inv(states[0], l) && l.maxAttempts >= 1
    requires JustArrived(states[0], id)
    requires NoAdditions(states, states[0].flights[id].pool)
    requires states[0].flights[id].ticket.policy == ByAddress ==> PinsInside(states, states[0].flights[id].pool)
    ensures id in states[|steps|].flights
    ensures var t, p := states[|steps|].flights[id].ticket, states[0].flights[id].pool;
            && p in states[0].pools && p in states[|steps|].pools && t.attempt <= |t.tried|
            && Distinct(t.tried) && Elements(t.tried) <= states[0].pools[p].Members()
            && |t.tried| <= |states[0].pools[p].Members()| && |t.tried| <= l.maxAttempts
            && Failed(t) !! states[|steps|].pools[p].Members()
            && (states[0].flights[id].ticket.policy == ByAddress ==> Failed(t) !! states[|steps|].pins.at.Values)
  {
    TriesAreDistinctUpTo(states, steps, |steps|, id, l);
    var t, p := states[|steps|].flights[id].ticket, states[0].flights[id].pool;
    DistinctSize(t.tried);
    SubsetSize(Elements(t.tried), states[0].pools[p].Members());
    if states[0].flights[id].ticket.policy == ByAddress {
      assert states[|steps|].pins.at.Values <= states[|steps|].pools[p].Members();
    }
  }

  /** The moment an attempt fails, its server leaves the pool, the session pins and the address pins. */
  lemma FailureTripsBreaker(s: System, id: nat, o: Outcome, limited: bool, l: Limits)
    requires Inv(s, l) && Enabled(s, Conclude(id, o, limited)) && Failure(o)
    ensures var s', f := Do(s, Conclude(id, o, limited), l), s.flights[id];
            && f.ticket.phase.server !in s'.pools[f.pool].Members()
            && f.ticket.phase.server !in s'.pools[f.pool].pins.at.Values
            && f.ticket.phase.server !in s'.pins.at.Values
  {
    assert SoundPool(View(s, id).pool, l);
    TripEffect(View(s, id), s.flights[id].ticket.phase.server, l);
  }

  // ---- Termination ----

  /** How many of the first n steps are the request's own. */
  function OwnSteps(steps: seq<Step>, n: nat, id: nat): nat
    requires n <= |steps|
  {
    if n == 0 then 0 else OwnSteps(steps, n - 1, id) + if IsOwn(steps[n - 1], id) then 1 else 0
  }

  lemma StepRank(s: System, step: Step, id: nat, l: Limits)
    requires Inv(s, l) && Enabled(s, step) && id in s.flights
    ensures var s' := Do(s, step, l);
            && id in s'.flights
            && Rank(s'.flights[id].ticket, l) + (if IsOwn(step, id) then 1 else 0) <= Rank(s.flights[id].ticket, l)
  {
    hide PickStep, OutcomeStep, CanProbe, CanPoll, AfterProbe, AfterPoll, Registered, SoundPool, Consistent;
    if IsOwn(step, id) {
      var t := s.flights[id].ticket;
      if step.Pick? {
        OwnStepsCountDown(t, Unexpected, false, View(s, id), l);
      } else {
        OwnStepsCountDown(t, step.outcome, step.limited, View(s, id), l);
      }
    } else {
      OthersStep(s, step, id, s.flights[id].pool, l);
    }
  }

  lemma {:induction false} StepsCountDown(states: seq<System>, steps: seq<Step>, n: nat, id: nat, l: Limits)
    requires Trace(states, steps, l) && Inv(states[0], l) && l.maxAttempts >= 1 && n <= |steps|
    requires JustArrived(states[0], id)
    ensures id in states[n].flights
    ensures OwnSteps(steps, n, id) + Rank(states[n].flights[id].ticket, l) <= 2 * l.maxAttempts
    decreases n
  {
    hide Do, Enabled, Inv;
    if n > 0 {
      StepsCountDown(states, steps, n - 1, id, l);
      TraceKeepsInv(states, steps, n - 1, l);
      StepRank(states[n - 1], steps[n - 1], id, l);
    }
  }

  /**
   * A request is answered after at most two steps of its own per allowed attempt, whatever
   * the others do; until then one of its steps is always possible.
   */
  lemma Terminates(states: seq<System>, steps: seq<Step>, n: nat, id: nat, l: Limits)
    requires Trace(states, steps, l) && Inv(states[0], l) && l.maxAttempts >= 1 && n <= |steps|
    requires JustArrived(states[0], id)
    ensures id in states[n].flights
    ensures var t := states[n].flights[id].ticket;
            && (OwnSteps(steps, n, id) >= 2 * l.maxAttempts ==> t.phase.Answered?)
            && (!t.phase.Answered? ==>
                  Enabled(states[n], Pick(id)) || Enabled(states[n], Conclude(id, Unexpected, false)))
  {
    hide AfterPick, AfterConclude, AfterProbe, AfterPoll, CanProbe, CanPoll, OwnSteps;
    StepsCountDown(states, steps, n, id, l);
    TraceKeepsInv(states, steps, n, l);
    assert SoundPool(states[n].pools[states[n].flights[id].pool], l);
  }

  // ---- Answers and retries ----

  /** In every state of every run an answered request was told what its last attempt came to. */
  lemma AnswersFollowOutcomes(states: seq<System>, steps: seq<Step>, n: nat, id: nat, l: Limits)
    requires Run(states, steps, l) && l.maxAttempts >= 1 && n <= |steps| && id in states[n].flights
    requires states[n].flights[id].ticket.phase.Answered?
    ensures var t := states[n].flights[id].ticket;
            && (t.phase.answer != NoHealthyBackend ==>
                  t.outcomes != [] && Befits(t.phase.answer, t.outcomes[|t.outcomes| - 1]))
            && (forall i, status :: 0 <= i < |t.outcomes| && t.outcomes[i] == Reply(status) ==>
                  t.phase.answer == Upstream(status) || (t.phase.answer == TooManyErrors && status == 404))
  {
    EveryStateIsSafe(states, steps, n, l);
    AnswersBefit(states[n].flights[id].ticket, l);
  }

  /** After a failure the request turns to another server exactly when it may and attempts are left. */
  lemma FailureIsRetriedIff(s: System, id: nat, o: Outcome, limited: bool, l: Limits)
    requires Inv(s, l) && Enabled(s, Conclude(id, o, limited)) && !o.Reply? && o != Unexpected
    ensures var t, s' := s.flights[id].ticket, Do(s, Conclude(id, o, limited), l);
            && id in s'.flights && s'.flights[id].ticket.outcomes == t.outcomes + [o]
            && (s'.flights[id].ticket.phase.Choosing?
                <==> t.attempt + 1 < l.maxAttempts && (Repeatable(t.verb) || o == ConnectError || o == ConnectTimeout))
  {
    ConcludeFrame(s, id, o, limited, l);
    RetriesIff(s.flights[id].ticket, o, limited, View(s, id), l);
    OutcomeIsConsistent(s.flights[id].ticket, o, limited, View(s, id), l);
    hide Do, Inv, OutcomeStep, Repeatable, CanProbe, CanPoll;
  }

  /**
   * In every state of every run, at most the last attempt of a request whose method may not be
   * repeated can have reached a backend, also while that attempt is under way: all earlier ones
   * failed to connect.
   */
  lemma NonIdempotentReachesOnce(states: seq<System>, steps: seq<Step>, n: nat, id: nat, i: nat, l: Limits)
    requires Run(states, steps, l) && l.maxAttempts >= 1 && n <= |steps| && id in states[n].flights
    requires var t := states[n].flights[id].ticket; !Repeatable(t.verb) && i + 1 < |t.tried|
    ensures var t := states[n].flights[id].ticket;
            i < |t.outcomes| && (t.outcomes[i] == ConnectError || t.outcomes[i] == ConnectTimeout)
  {
    EveryStateIsSafe(states, steps, n, l);
    AtMostOnce(states[n].flights[id].ticket, l, i);
  }
}
