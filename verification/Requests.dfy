/** One proxied request: the retry loop and circuit breaker of decorators/apython_lb.py. */
module Requests {
  import opened Sequences
  import opened InsertionDict
  import opened Identities
  import opened StickySession
  import opened StickyIp
  import opened IpTracking

  datatype Policy = ByRoundRobin | BySession | ByAddress

  /** How one forwarding attempt ended; every httpx failure falls into one of the last five. */
  datatype Outcome = Reply(status: int) | ConnectError | ConnectTimeout | OtherTimeout | OtherRequestError | Unexpected

  datatype Answer =
    | Upstream(status: int)   // the backend's own reply, whatever its status
    | TooManyErrors           // 429
    | NoPool                  // 503
    | NoHealthyBackend        // 503
    | AllFailed(status: int)  // 502 or 504
    | InternalError           // 500
    | NoAnswer                // the loop ran zero times

  // ---- Retry safety ----

  function Upper(c: char): char {
    if 'a' <= c <= 'z' then ((c as int) - 32) as char else c
  }

  function UpperCase(s: string): string {
    seq(|s|, i requires 0 <= i < |s| => Upper(s[i]))
  }

  /** The idempotent methods of section 9.2.2 of RFC 9110. */
  predicate Idempotent(verb: string) {
    UpperCase(verb) in {"GET", "HEAD", "OPTIONS", "PUT", "DELETE", "TRACE"}
  }

  /** The backend cannot have seen the request. */
  predicate NeverSent(o: Outcome) {
    o.ConnectError? || o.ConnectTimeout?
  }

  predicate SafeToRetry(verb: string, o: Outcome) {
    Idempotent(verb) || NeverSent(o)
  }

  // ---- The request's own state, and its steps between two suspensions ----

  datatype Phase = Choosing | Waiting(server: Server) | Answered(answer: Answer)

  datatype Ticket = Ticket(
    policy: Policy, verb: string, ip: Ip, session: Session,
    attempt: nat, phase: Phase,
    tried: seq<Server>, outcomes: seq<Outcome>)

  /** What requests share: the pool a request fetched, and the address pins. */
  datatype Shared = Shared(pool: Pool, pins: Pins) {
    ghost predicate Valid() {
      pool.WellFormed() && pins.Valid()
    }
  }

  datatype Limits = Limits(maxAttempts: int, maxSessions: Positive, maxAddresses: Positive)

  function SelectFor(t: Ticket, s: Shared, l: Limits): (Option<Server>, Shared)
    requires s.Valid()
  {
    match t.policy
    case ByAddress =>
      var (backend, pool, pins) := Route(s.pins, t.ip, s.pool, l.maxAddresses);
      (backend, Shared(pool, pins))
    case BySession =>
      var (backend, pool) := s.pool.Choose(Some(t.session), l.maxSessions);
      (backend, s.(pool := pool))
    case ByRoundRobin =>
      var (backend, pool) := s.pool.Choose(None, l.maxSessions);
      (backend, s.(pool := pool))
  }

  function PickStep(t: Ticket, s: Shared, l: Limits): (Ticket, Shared)
    requires s.Valid()
  {
    var (backend, s') := SelectFor(t, s, l);
    match backend
    case None => (t.(phase := Answered(NoHealthyBackend)), s')
    case Some(b) => (t.(phase := Waiting(b), tried := t.tried + [b]), s')
  }

  /** A failed backend leaves the pool and the address map. */
  function Trip(s: Shared, server: Server): Shared
    requires s.Valid()
  {
    Shared(s.pool.Drop(server), s.pins.RemoveValue(server))
  }

  function FailureStatus(o: Outcome): int {
    if o.OtherRequestError? then 502 else 504
  }

  /** `limited` is the tracker's answer when the reply is a 404. */
  function OutcomeStep(t: Ticket, o: Outcome, limited: bool, s: Shared, l: Limits): (Ticket, Shared)
    requires s.Valid() && t.phase.Waiting?
  {
    var heard := t.(outcomes := t.outcomes + [o]);
    match o
    case Reply(status) =>
      (heard.(phase := Answered(if status == 404 && limited then TooManyErrors else Upstream(status))), s)
    case Unexpected => (heard.(phase := Answered(InternalError)), s)
    case _ =>
      var failed := heard.(attempt := t.attempt + 1);
      var over := failed.attempt >= l.maxAttempts || !SafeToRetry(t.verb, o);
      (failed.(phase := if over then Answered(AllFailed(FailureStatus(o))) else Choosing), Trip(s, t.phase.server))
  }

  // ---- The whole wrapper, undisturbed ----

  /** What the network does to the i-th attempt, and when the reply arrives. */
  datatype Attempt = Attempt(outcome: Outcome, time: real)

  /** The wrapper's own counters, for its backend name and policy. */
  datatype Counts = Counts(
    selections: nat,       // LB_BACKEND_SELECTIONS_TOTAL
    retries: nat,          // LB_RETRIES_TOTAL
    exhausted: nat,        // LB_NO_HEALTHY_BACKENDS_TOTAL
    timeouts: nat,         // LB_BACKEND_ERRORS_TOTAL by type
    requestErrors: nat,
    unexpected: nat)

  class Metrics {
    var selections: nat
    var retries: nat
    var exhausted: nat
    var timeouts: nat
    var requestErrors: nat
    var unexpected: nat

    function State(): Counts
      reads this
    {
      Counts(selections, retries, exhausted, timeouts, requestErrors, unexpected)
    }

    constructor ()
      ensures State() == Counts(0, 0, 0, 0, 0, 0)
    {
      selections, retries, exhausted, timeouts, requestErrors, unexpected := 0, 0, 0, 0, 0, 0;
    }
  }

  function CountPick(k: Counts, picked: Ticket): Counts {
    if picked.phase.Waiting? then k.(selections := k.selections + 1) else k.(exhausted := k.exhausted + 1)
  }

  /** Every failure counts as a retry, also the one that ends the request, which is an error too. */
  function CountFailure(k: Counts, o: Outcome, over: bool): Counts {
    var retried := k.(retries := k.retries + 1);
    if !over then retried
    else if o.OtherRequestError? then retried.(requestErrors := k.requestErrors + 1)
    else retried.(timeouts := k.timeouts + 1)
  }

  function CountOutcome(k: Counts, o: Outcome, next: Ticket): Counts {
    match o
    case Reply(_) => k
    case Unexpected => k.(unexpected := k.unexpected + 1)
    case _ => CountFailure(k, o, next.phase.Answered?)
  }

  datatype World = World(shared: Shared, tracker: Tracker, counts: Counts)

  function Heard(t: Ticket, a: Attempt, w: World, c: Settings): (bool, Tracker) {
    if a.outcome == Reply(404) then w.tracker.Record(c, t.ip, a.time) else (false, w.tracker)
  }

  /** One turn of the retry loop: select, forward, and act on the outcome. */
  function Turn(t: Ticket, w: World, a: Attempt, l: Limits, c: Settings): (r: (Ticket, World))
    requires w.shared.Valid() && t.phase.Choosing?
    ensures r.1.shared.Valid()
  {
    PickKeepsValid(t, w.shared, l);
    var (picked, s) := PickStep(t, w.shared, l);
    var counts := CountPick(w.counts, picked);
    if picked.phase.Answered? then (picked, w.(shared := s, counts := counts))
    else
      var (limited, tracker) := Heard(t, a, w, c);
      TripKeepsValid(s, picked.phase.server);
      var (next, s') := OutcomeStep(picked, a.outcome, limited, s, l);
      (next, World(s', tracker, CountOutcome(counts, a.outcome, next)))
  }

  /** Runs the retry loop to its end. */
  function Finish(t: Ticket, w: World, script: seq<Attempt>, l: Limits, c: Settings): (Ticket, World)
    requires w.shared.Valid() && t.phase.Choosing? && t.attempt < l.maxAttempts <= |script|
    decreases l.maxAttempts - t.attempt
  {
    var (next, w') := Turn(t, w, script[t.attempt], l, c);
    if next.phase.Answered? then (next, w') else Finish(next, w', script, l, c)
  }

  lemma PickKeepsValid(t: Ticket, s: Shared, l: Limits)
    requires s.Valid()
    ensures SelectFor(t, s, l).1.Valid()
  {
  }

  lemma TripKeepsValid(s: Shared, server: Server)
    requires s.Valid()
    ensures Trip(s, server).Valid()
  {
  }

  function Arrived(policy: Policy, verb: string, ip: Ip, session: Session): Ticket {
    Ticket(policy, verb, ip, session, 0, Choosing, [], [])
  }

  /**
   * The wrapper: penalty check, pool lookup, retry loop. A request that the check blocks
   * is answered 429 and touches neither pool nor pins.
   */
  method Wrapper(policy: Policy, verb: string, ip: Ip, session: Session,
                 rr: StickyRoundRobin?, stickyIp: StickyIP, tracker: IPTracker, metrics: Metrics,
                 now: real, script: seq<Attempt>, maxAttempts: int)
      returns (answer: Answer, tried: seq<Server>)
    requires rr != null ==> rr.Valid()
    requires stickyIp.Valid()
    requires maxAttempts <= |script|
    modifies tracker, stickyIp, metrics
    modifies if rr == null then {} else {rr as object, rr.rr}
    ensures stickyIp.Valid() && (rr != null ==> rr.Valid())
    ensures var (blocked, checked) := old(tracker.State()).Check(ip, now);
            if blocked || rr == null || maxAttempts <= 0 then
              && answer == (if blocked then TooManyErrors else if rr == null then NoPool else NoAnswer)
              && tried == [] && stickyIp.ipMap == old(stickyIp.ipMap) && tracker.State() == checked
              && metrics.State() == old(metrics.State())
              && (rr != null ==> rr.State() == old(rr.State()))
            else
              var l := Limits(maxAttempts, rr.maxSessions, stickyIp.maxEntries);
              var w := World(Shared(old(rr.State()), old(stickyIp.ipMap)), checked, old(metrics.State()));
              var (t, w') := Finish(Arrived(policy, verb, ip, session), w, script, l, tracker.Config());
              && t.phase == Answered(answer) && t.tried == tried
              && w' == World(Shared(rr.State(), stickyIp.ipMap), tracker.State(), metrics.State())
  {
    tried := [];
    var blocked := tracker.IsPenalised(ip, now);
    if blocked {
      return TooManyErrors, [];
    }
    if rr == null {
      return NoPool, [];
    }
    var attempt := 0;
    ghost var l := Limits(maxAttempts, rr.maxSessions, stickyIp.maxEntries);
    ghost var c := tracker.Config();
    ghost var t := Arrived(policy, verb, ip, session);
    ghost var w := World(Shared(rr.State(), stickyIp.ipMap), tracker.State(), metrics.State());
    ghost var end := if maxAttempts <= 0 then (t, w) else Finish(t, w, script, l, c);
    while attempt < maxAttempts
      invariant stickyIp.Valid() && rr.Valid()
      invariant w == World(Shared(rr.State(), stickyIp.ipMap), tracker.State(), metrics.State())
      invariant t.policy == policy && t.verb == verb && t.ip == ip && t.session == session
      invariant t.attempt == attempt && t.phase == Choosing && t.tried == tried
      invariant maxAttempts <= 0 ==> attempt == 0 && tried == [] && (t, w) == end
      invariant maxAttempts > 0 ==> attempt < maxAttempts && Finish(t, w, script, l, c) == end
      decreases maxAttempts - attempt
    {
      var done, backend :=
        TryOnce(policy, verb, ip, session, attempt, rr, stickyIp, tracker, metrics, script[attempt], maxAttempts, t);
      t, w := Turn(t, w, script[attempt], l, c).0, Turn(t, w, script[attempt], l, c).1;
      if backend.Some? {
        tried := tried + [backend.value];
      }
      if done.Some? {
        return done.value, tried;
      }
      attempt := attempt + 1;
    }
    answer := NoAnswer;
  }

  method SelectBackend(policy: Policy, ip: Ip, session: Session, rr: StickyRoundRobin, stickyIp: StickyIP,
                       ghost t: Ticket, ghost l: Limits)
      returns (backend: Option<Server>)
    requires rr.Valid() && stickyIp.Valid()
    requires t.policy == policy && t.ip == ip && t.session == session
    requires l.maxSessions == rr.maxSessions && l.maxAddresses == stickyIp.maxEntries
    modifies stickyIp, rr, rr.rr
    ensures rr.Valid() && stickyIp.Valid()
    ensures (backend, Shared(rr.State(), stickyIp.ipMap))
            == SelectFor(t, Shared(old(rr.State()), old(stickyIp.ipMap)), l)
  {
    if policy == ByAddress {
      backend := stickyIp.GetNext(ip, rr);
    } else {
      backend := rr.GetNext(if policy == BySession then Some(session) else None);
    }
  }

  method TripBackend(server: Server, rr: StickyRoundRobin, stickyIp: StickyIP)
    requires rr.Valid() && stickyIp.Valid()
    modifies stickyIp, rr, rr.rr
    ensures rr.Valid() && stickyIp.Valid()
    ensures Shared(rr.State(), stickyIp.ipMap) == Trip(Shared(old(rr.State()), old(stickyIp.ipMap)), server)
  {
    rr.Delete(server);
    var _ := stickyIp.DeleteBackend(server);
  }

  /** The two failure branches: trip the breaker, count, and answer if this was the last attempt. */
  method WriteOff(verb: string, o: Outcome, server: Server, last: bool,
                  rr: StickyRoundRobin, stickyIp: StickyIP, metrics: Metrics)
      returns (done: Option<Answer>)
    requires rr.Valid() && stickyIp.Valid() && !o.Reply? && !o.Unexpected?
    modifies metrics, stickyIp, rr, rr.rr
    ensures rr.Valid() && stickyIp.Valid()
    ensures Shared(rr.State(), stickyIp.ipMap) == Trip(Shared(old(rr.State()), old(stickyIp.ipMap)), server)
    ensures done == if last || !SafeToRetry(verb, o) then Some(AllFailed(FailureStatus(o))) else None
    ensures metrics.State() == CountFailure(old(metrics.State()), o, done.Some?)
  {
    hide Trip;
    TripBackend(server, rr, stickyIp);
    metrics.retries := metrics.retries + 1;
    if o.OtherRequestError? {
      if last || !SafeToRetry(verb, o) {
        metrics.requestErrors := metrics.requestErrors + 1;
        return Some(AllFailed(502));
      }
    } else if last || !SafeToRetry(verb, o) {
      metrics.timeouts := metrics.timeouts + 1;
      return Some(AllFailed(504));
    }
    done := None;
  }

  /** The body of the loop. */
  method TryOnce(policy: Policy, verb: string, ip: Ip, session: Session, attempt: nat,
                 rr: StickyRoundRobin, stickyIp: StickyIP, tracker: IPTracker, metrics: Metrics,
                 a: Attempt, maxAttempts: int, ghost t: Ticket)
      returns (done: Option<Answer>, backend: Option<Server>)
    requires rr.Valid() && stickyIp.Valid()
    requires t == Ticket(policy, verb, ip, session, attempt, Choosing, t.tried, t.outcomes)
    modifies tracker, stickyIp, metrics, rr, rr.rr
    ensures rr.Valid() && stickyIp.Valid()
    ensures var l := Limits(maxAttempts, rr.maxSessions, stickyIp.maxEntries);
            var w := World(Shared(old(rr.State()), old(stickyIp.ipMap)), old(tracker.State()), old(metrics.State()));
            var (t', w') := Turn(t, w, a, l, tracker.Config());
            && w' == World(Shared(rr.State(), stickyIp.ipMap), tracker.State(), metrics.State())
            && t'.tried == (if backend == None then t.tried else t.tried + [backend.value])
            && (if done == None then t'.phase == Choosing && t'.attempt == t.attempt + 1 && t'.attempt < maxAttempts
                else t'.phase == Answered(done.value))
            && t' == t.(phase := t'.phase, tried := t'.tried, attempt := t'.attempt, outcomes := t'.outcomes)
  {
    hide Pool.Drop, Pool.Choose, Tracker.Record, SelectFor, Trip, CountFailure;
    backend := SelectBackend(policy, ip, session, rr, stickyIp,
                             t, Limits(maxAttempts, rr.maxSessions, stickyIp.maxEntries));
    if backend == None {
      metrics.exhausted := metrics.exhausted + 1;
      return Some(NoHealthyBackend), None;
    }
    metrics.selections := metrics.selections + 1;
    match a.outcome {
      case Reply(status) =>
        if status == 404 {
          var penalty := tracker.Record404(ip, a.time);
          if penalty {
            return Some(TooManyErrors), backend;
          }
        }
        done := Some(Upstream(status));
      case Unexpected =>
        metrics.unexpected := metrics.unexpected + 1;
        done := Some(InternalError);
      case _ =>
        done := WriteOff(verb, a.outcome, backend.value, attempt + 1 >= maxAttempts, rr, stickyIp, metrics);
    }
  }
}
