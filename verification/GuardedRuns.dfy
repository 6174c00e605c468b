/** The interleaved system together with the 404 tracker that guards its front. */
module GuardedRuns {
  import opened Sequences
  import opened Identities
  import opened StickySession
  import opened Requests
  import opened Tickets
  import opened Protocol
  import opened SystemRuns
  import I = IpTracking
  import P = PenaltyGuarantees

  /** `entered` holds the requests so far, those turned away included. */
  datatype Gate = Gate(system: System, tracker: I.Tracker, entered: set<nat>)

  datatype Move =
    | Enter(id: nat, name: Name, policy: Policy, verb: string, ip: Ip, session: Session)
    | Finish(id: nat, outcome: Outcome)
    | Other(step: Step)

  datatype Timed = At(time: real, move: Move)

  ghost predicate Allowed(g: Gate, m: Move) {
    match m
    case Enter(id, _, _, _, _, _) => id !in g.entered && id !in g.system.flights
    case Finish(id, o) => Enabled(g.system, Conclude(id, o, false))
    case Other(step) => !step.Arrive? && !step.Conclude? && Enabled(g.system, step)
  }

  /** What the tracker is asked by a move. */
  function Asked(g: Gate, e: Timed): seq<I.Event>
    requires Allowed(g, e.move)
  {
    match e.move
    case Enter(_, _, _, _, ip, _) => [I.At(e.time, I.Check(ip))]
    case Finish(id, o) => if o == Reply(404) then [I.At(e.time, I.Record(g.system.flights[id].ticket.ip))] else []
    case Other(_) => []
  }

  /** The tracker's answer, if it is asked, and its new state. */
  function Consult(c: I.Settings, g: Gate, e: Timed): (bool, I.Tracker)
    requires Allowed(g, e.move)
  {
    if Asked(g, e) == [] then (false, g.tracker) else I.Step(c, g.tracker, Asked(g, e)[0])
  }

  /** The step of the system that a move comes to; none for a request that is turned away. */
  function StepOf(c: I.Settings, g: Gate, e: Timed): Option<Step>
    requires Allowed(g, e.move)
  {
    match e.move
    case Enter(id, name, policy, verb, ip, session) =>
      if Consult(c, g, e).0 || name !in g.system.backends then None
      else Some(Arrive(id, name, policy, verb, ip, session))
    case Finish(id, o) => Some(Conclude(id, o, Consult(c, g, e).0))
    case Other(step) => Some(step)
  }

  /** A request is first checked, then given its pool; a 404 is recorded before it is passed on. */
  function Turned(c: I.Settings, g: Gate, e: Timed, l: Limits): Gate
    requires Allowed(g, e.move)
  {
    var step := StepOf(c, g, e);
    Gate(if step == None then g.system else Do(g.system, step.value, l),
         Consult(c, g, e).1,
         if e.move.Enter? then g.entered + {e.move.id} else g.entered)
  }

  ghost predicate GuardedRun(c: I.Settings, gates: seq<Gate>, moves: seq<Timed>, l: Limits) {
    && |gates| == |moves| + 1
    && gates[0] == Gate(START, I.Tracker(map[], map[], map[], 0), {})
    && (forall i, j :: 0 <= i <= j < |moves| ==> moves[i].time <= moves[j].time)
    && forall i {:trigger moves[i]} :: 0 <= i < |moves| ==>
         Allowed(gates[i], moves[i].move) && gates[i + 1] == Turned(c, gates[i], moves[i], l)
  }

  /** Everything the tracker was asked in the first n moves. */
  function History(c: I.Settings, gates: seq<Gate>, moves: seq<Timed>, n: nat, l: Limits): seq<I.Event>
    requires GuardedRun(c, gates, moves, l) && n <= |moves|
  {
    if n == 0 then [] else History(c, gates, moves, n - 1, l) + Asked(gates[n - 1], moves[n - 1])
  }

  // ---- The system side ----

  /** Without the tracker, a guarded run is a run of the system, so what holds of those holds here. */
  lemma {:induction false} SystemRunsOn(c: I.Settings, gates: seq<Gate>, moves: seq<Timed>, n: nat, l: Limits)
      returns (states: seq<System>, steps: seq<Step>)
    requires GuardedRun(c, gates, moves, l) && n <= |moves|
    ensures Run(states, steps, l) && |states| == |steps| + 1 && states[|steps|] == gates[n].system
    decreases n
  {
    hide Do, Enabled, Run, Consult;
    if n == 0 {
      states, steps := Start(l);
    } else {
      states, steps := SystemRunsOn(c, gates, moves, n - 1, l);
      StepIsEnabled(c, gates[n - 1], moves[n - 1]);
      var step := StepOf(c, gates[n - 1], moves[n - 1]);
      if step.Some? {
        states, steps := Extend(states, steps, step.value, gates[n].system, l);
      }
    }
  }

  lemma StepIsEnabled(c: I.Settings, g: Gate, e: Timed)
    requires Allowed(g, e.move)
    ensures StepOf(c, g, e).Some? ==> Enabled(g.system, StepOf(c, g, e).value)
  {
    hide CanProbe, CanPoll, InFlight;
  }

  lemma SafeBehindTheGate(c: I.Settings, gates: seq<Gate>, moves: seq<Timed>, n: nat, l: Limits)
    requires GuardedRun(c, gates, moves, l) && l.maxAttempts >= 1 && n <= |moves|
    ensures Inv(gates[n].system, l)
  {
    hide Do, Enabled, Inv, GuardedRun, Run;
    var states, steps := SystemRunsOn(c, gates, moves, n, l);
    EveryStateIsSafe(states, steps, |steps|, l);
  }

  // ---- The tracker side ----

  /** The tracker is where its own run over the history takes it, and no event of that is later than `now`. */
  ghost predicate Follows(c: I.Settings, tracker: I.Tracker, history: seq<I.Event>, now: real) {
    && tracker == I.After(c, history) && I.Chronological(history)
    && forall i :: 0 <= i < |history| ==> history[i].time <= now
  }

  lemma FollowsOn(c: I.Settings, tracker: I.Tracker, history: seq<I.Event>, ask: I.Event)
    requires Follows(c, tracker, history, ask.time)
    ensures Follows(c, I.Step(c, tracker, ask).1, history + [ask], ask.time)
  {
    var longer := history + [ask];
    assert longer[..|history|] == history;
    hide I.Step;
  }

  lemma {:induction false} TrackerFollows(c: I.Settings, gates: seq<Gate>, moves: seq<Timed>,
                                          n: nat, now: real, l: Limits)
    requires GuardedRun(c, gates, moves, l) && n <= |moves| && (n > 0 ==> moves[n - 1].time <= now)
    ensures Follows(c, gates[n].tracker, History(c, gates, moves, n, l), now)
    decreases n
  {
    hide Do, Enabled, I.Step, I.After;
    if n > 0 {
      var g, e := gates[n - 1], moves[n - 1];
      TrackerFollows(c, gates, moves, n - 1, e.time, l);
      var before, asked := History(c, gates, moves, n - 1, l), Asked(g, e);
      FollowsLater(c, g.tracker, before, e.time, now);
      if asked == [] {
        assert before + asked == before;
      } else {
        assert asked == [asked[0]];
        hide Follows;
        FollowsOn(c, g.tracker, before, asked[0]);
        FollowsLater(c, I.Step(c, g.tracker, asked[0]).1, before + asked, e.time, now);
      }
    } else {
      StartFollows(c);
    }
  }

  lemma StartFollows(c: I.Settings)
    ensures I.After(c, []) == I.Tracker(map[], map[], map[], 0)
  {
  }

  lemma FollowsLater(c: I.Settings, tracker: I.Tracker, history: seq<I.Event>, earlier: real, now: real)
    requires Follows(c, tracker, history, earlier) && earlier <= now
    ensures Follows(c, tracker, history, now)
  {
    hide I.After;
  }

  /** What the tracker answers a move is the answer to the event it appends to the history. */
  lemma AnswerInHistory(c: I.Settings, gates: seq<Gate>, moves: seq<Timed>, n: nat, l: Limits)
    requires GuardedRun(c, gates, moves, l) && n < |moves| && Asked(gates[n], moves[n]) != []
    ensures var before, history := History(c, gates, moves, n, l), History(c, gates, moves, n + 1, l);
            && |history| == |before| + 1 && history[..|before|] == before
            && [history[|before|]] == Asked(gates[n], moves[n])
            && I.Chronological(history)
            && I.Answer(c, history, |before|) == Consult(c, gates[n], moves[n]).0
  {
    hide Do, Enabled, I.Step, I.After;
    TrackerFollows(c, gates, moves, n, moves[n].time, l);
    TrackerFollows(c, gates, moves, n + 1, moves[n].time, l);
    var before, history := History(c, gates, moves, n, l), History(c, gates, moves, n + 1, l);
    assert history[..|before|] == before;
  }

  /** Only a check on entering and a 404 reach the tracker; all else is a step of the system. */
  lemma OthersLeaveTracker(c: I.Settings, g: Gate, e: Timed, l: Limits)
    requires Allowed(g, e.move) && !e.move.Enter? && !(e.move.Finish? && e.move.outcome == Reply(404))
    ensures var after := Turned(c, g, e, l);
            && after.tracker == g.tracker && after.entered == g.entered
            && (e.move.Finish? ==> after.system == Do(g.system, Conclude(e.move.id, e.move.outcome, false), l))
            && (e.move.Other? ==> after.system == Do(g.system, e.move.step, l))
  {
    hide Do, I.Step, CanProbe, CanPoll, InFlight;
  }

  // ---- Requests turned away ----

  /** A request that entered without getting a flight never gets one. */
  lemma {:induction false} NeverFlies(c: I.Settings, gates: seq<Gate>, moves: seq<Timed>,
                                      i: nat, n: nat, id: nat, l: Limits)
    requires GuardedRun(c, gates, moves, l) && i <= n <= |moves|
    requires id in gates[i].entered && id !in gates[i].system.flights
    ensures id in gates[n].entered && id !in gates[n].system.flights
    decreases n
  {
    hide Do, Enabled, Consult;
    if i < n {
      NeverFlies(c, gates, moves, i, n - 1, id, l);
      StepIsEnabled(c, gates[n - 1], moves[n - 1]);
      var step := StepOf(c, gates[n - 1], moves[n - 1]);
      if step.Some? {
        StepKeepsRequests(gates[n - 1].system, step.value, l);
      }
    }
  }

  /**
   * A request gets through exactly when no penalty of its address covers the moment of its check
   * and its backend name has a pool. One that falls inside a penalty contacts no backend: the
   * system stays as it was, and at no later time is there a selection or an attempt for it.
   */
  lemma PenalisedContactNobody(c: I.Settings, gates: seq<Gate>, moves: seq<Timed>, i: nat, n: nat, l: Limits)
    requires GuardedRun(c, gates, moves, l) && i < n <= |moves| && moves[i].move.Enter?
    ensures var m, history := moves[i].move, History(c, gates, moves, i + 1, l);
            var blocked := I.Blocked(c, history, |history| - 1, m.ip, moves[i].time);
            && |history| >= 1 && history[|history| - 1] == I.At(moves[i].time, I.Check(m.ip))
            && (m.id in gates[i + 1].system.flights <==> !blocked && m.name in gates[i].system.backends)
            && (m.id in gates[i + 1].system.flights ==> EnteredAs(gates[i].system, gates[i + 1].system, m, l))
            && (blocked ==> gates[i + 1].system == gates[i].system && m.id !in gates[n].system.flights)
  {
    var m, history := moves[i].move, History(c, gates, moves, i + 1, l);
    AnswerInHistory(c, gates, moves, i, l);
    assert [history[|history| - 1]] == [I.At(moves[i].time, I.Check(m.ip))];
    P.CheckTellsBlocked(c, history, |history| - 1);
    GotThrough(c, gates[i], moves[i], l);
    hide Do, Enabled, I.Blocked, I.Answer, History, EnteredAs;
    if m.id !in gates[i + 1].system.flights {
      NeverFlies(c, gates, moves, i + 1, n, m.id, l);
    }
  }

  /** The request arrives in the system as it came. */
  ghost predicate EnteredAs(s: System, s': System, m: Move, l: Limits)
    requires m.Enter?
  {
    var step := Arrive(m.id, m.name, m.policy, m.verb, m.ip, m.session);
    Enabled(s, step) && s' == Do(s, step, l)
  }

  lemma GotThrough(c: I.Settings, g: Gate, e: Timed, l: Limits)
    requires Allowed(g, e.move) && e.move.Enter?
    ensures var after := Turned(c, g, e, l);
            && e.move.id in after.entered
            && (e.move.id in after.system.flights <==> !Consult(c, g, e).0 && e.move.name in g.system.backends)
            && (Consult(c, g, e).0 ==> after.system == g.system)
            && (e.move.id in after.system.flights ==> EnteredAs(g.system, after.system, e.move, l))
  {
    hide Consult, AfterPick, AfterConclude, AfterProbe, AfterPoll, CanProbe, CanPoll;
  }

  // ---- 404s of requests that got through ----

  /** Earlier answers do not depend on what is asked later. */
  lemma AnswersStay(c: I.Settings, history: seq<I.Event>, longer: seq<I.Event>, k: nat)
    requires k < |history| <= |longer| && longer[..|history|] == history
    ensures I.Answer(c, longer, k) == I.Answer(c, history, k)
  {
    assert longer[k] == longer[..|history|][k];
    assert longer[..k] == longer[..|history|][..k];
  }

  /** Every request in flight was checked, under its address, and let through. */
  lemma {:induction false} CheckOf(c: I.Settings, gates: seq<Gate>, moves: seq<Timed>, n: nat, id: nat, l: Limits)
      returns (k: nat)
    requires GuardedRun(c, gates, moves, l) && n <= |moves| && id in gates[n].system.flights
    ensures var history := History(c, gates, moves, n, l);
            && k < |history| && history[k].call == I.Check(gates[n].system.flights[id].ticket.ip)
            && !I.Answer(c, history, k)
    decreases n
  {
    hide Do, Enabled, Consult, I.Answer;
    var m := n - 1;
    StepIsEnabled(c, gates[m], moves[m]);
    var step := StepOf(c, gates[m], moves[m]);
    if step.Some? {
      StepKeepsRequests(gates[m].system, step.value, l);
    }
    var before, history := History(c, gates, moves, m, l), History(c, gates, moves, n, l);
    assert history[..|before|] == before;
    if id in gates[m].system.flights {
      k := CheckOf(c, gates, moves, m, id, l);
      AnswersStay(c, before, history, k);
    } else {
      k := |before|;
      AnswerInHistory(c, gates, moves, m, l);
    }
  }

  /** A recorded 404 belongs to a request whose own check let it through. */
  lemma RecordIsAdmitted(c: I.Settings, gates: seq<Gate>, moves: seq<Timed>, n: nat, id: nat, l: Limits)
      returns (k: nat)
    requires GuardedRun(c, gates, moves, l) && n < |moves| && moves[n].move == Finish(id, Reply(404))
    ensures var before, history := History(c, gates, moves, n, l), History(c, gates, moves, n + 1, l);
            && |history| == |before| + 1 && I.Chronological(history) && history[|before|].time == moves[n].time
            && P.Admitted(c, history, k, |before|, gates[n].system.flights[id].ticket.ip)
            && I.Answer(c, history, |before|) == Consult(c, gates[n], moves[n]).0
  {
    assert id in gates[n].system.flights;
    hide Do, Enabled, I.Answer, Consult;
    var before, history := History(c, gates, moves, n, l), History(c, gates, moves, n + 1, l);
    k := CheckOf(c, gates, moves, n, id, l);
    AnswerInHistory(c, gates, moves, n, l);
    assert [history[|before|]] == [I.At(moves[n].time, I.Record(gates[n].system.flights[id].ticket.ip))];
    AnswersStay(c, before, history, k);
    assert history[k] == history[..|before|][k];
  }

  /**
   * So the order in which the wrapper asks the tracker is the order of every run, and a request's
   * 404 is answered 429 exactly when the full log is over the threshold and the address is not
   * blocked, unless the request outlived a whole penalty issued after its own check.
   */
  lemma NotFoundIsPunishedIff(c: I.Settings, gates: seq<Gate>, moves: seq<Timed>, n: nat, id: nat, l: Limits)
      returns (k: nat)
    requires GuardedRun(c, gates, moves, l) && c.window > 0.0 && n < |moves| && moves[n].move == Finish(id, Reply(404))
    ensures var m, history := |History(c, gates, moves, n, l)|, History(c, gates, moves, n + 1, l);
            var ip, t := gates[n].system.flights[id].ticket.ip, moves[n].time;
            && m < |history| && P.Admitted(c, history, k, m, ip) && id in gates[n + 1].system.flights
            && var punished := gates[n + 1].system.flights[id].ticket.phase == Answered(TooManyErrors);
            var over := I.RecentCount(c, history, m) >= c.threshold;
            (punished <==> over && !I.Blocked(c, history, m, ip, t))
            <==> !(over && exists j: nat :: P.Outlived(c, history, k, m, ip, j))
  {
    var m, history := |History(c, gates, moves, n, l)|, History(c, gates, moves, n + 1, l);
    k := RecordIsAdmitted(c, gates, moves, n, id, l);
    Punished(c, gates[n], moves[n], l);
    hide Do, Enabled, Consult, History, I.Answer, I.Blocked, I.RecentCount, P.Outlived;
    P.WrapperOrderMeetsIntentIff(c, history, k, m, gates[n].system.flights[id].ticket.ip);
  }

  lemma Punished(c: I.Settings, g: Gate, e: Timed, l: Limits)
    requires Allowed(g, e.move) && e.move.Finish? && e.move.outcome == Reply(404)
    ensures e.move.id in Turned(c, g, e, l).system.flights
    ensures Turned(c, g, e, l).system.flights[e.move.id].ticket.phase == Answered(TooManyErrors)
            <==> Consult(c, g, e).0
  {
    ConcludeFrame(g.system, e.move.id, e.move.outcome, Consult(c, g, e).0, l);
    hide Do, Consult, Trip, CanProbe, CanPoll;
  }
}
