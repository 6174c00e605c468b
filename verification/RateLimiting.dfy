/** The sliding-window limiter of classes/rate_limiter.py and its Retry-After header. */
module RateLimiting {
  import opened Sequences
  import opened Identities
  import opened SlidingWindow

  datatype Settings = Settings(limit: int, window: real, sweepEvery: int)

  /** The timestamps kept for each address. */
  type Hits = map<Ip, seq<real>>

  function IdleAddresses(hits: Hits, now: real, window: real): set<Ip> {
    set ip | ip in hits && Idle(hits[ip], now, window)
  }

  /** What a hit is told, before rounding. A limit below 1 makes the code index an empty list. */
  datatype Decision = Admit | Reject(wait: real) | IndexError

  function Decide(c: Settings, live: seq<real>, now: real): Decision {
    if |live| < c.limit then Admit
    else if live == [] then IndexError
    else Reject(c.window - (now - live[0]))
  }

  // ---- The code: pruned lists, swept now and then ----

  datatype Limiter = Limiter(hits: Hits, sinceSweep: int)

  /** Prunes one address's list and decides on it. */
  function Record(c: Settings, hits: Hits, ip: Ip, now: real): (Decision, Hits) {
    var live := InWindow(Stamps(hits, ip), now, c.window);
    var decision := Decide(c, live, now);
    (decision, hits[ip := if decision == Admit then live + [now] else live])
  }

  function HitStep(c: Settings, s: Limiter, ip: Ip, now: real): (Decision, Limiter) {
    var due := s.sinceSweep + 1 >= c.sweepEvery;
    var kept := if due then s.hits - IdleAddresses(s.hits, now, c.window) else s.hits;
    var (decision, hits) := Record(c, kept, ip, now);
    (decision, Limiter(hits, if due then 0 else s.sinceSweep + 1))
  }

  ghost predicate IsTenth(x: real) {
    (x * 10.0).Floor as real == x * 10.0
  }

  /** round(x, 1): a tenth no further than a twentieth from x. */
  ghost predicate IsRounded(r: real, x: real) {
    IsTenth(r) && x - 0.05 <= r <= x + 0.05
  }

  method Round(x: real) returns (r: real)
    ensures IsRounded(r, x)
  {
    var k := (x * 10.0 + 0.5).Floor;
    r := k as real / 10.0;
  }

  /** The addresses with live timestamps, and how many each has. */
  function UsageOf(hits: Hits, now: real, window: real): map<Ip, nat> {
    map ip | ip in hits && InWindow(hits[ip], now, window) != [] :: |InWindow(hits[ip], now, window)|
  }

  datatype Outcome = Allowed | Refused(retryAfter: real) | Raised

  class RateLimiter {
    const limit: int
    const window: real
    const sweepEvery: int
    var hits: Hits
    var hitsSinceSweep: int

    function State(): Limiter
      reads this
    {
      Limiter(hits, hitsSinceSweep)
    }

    function Config(): Settings {
      Settings(limit, window, sweepEvery)
    }

    constructor (limit: int, window: real, sweepEvery: int)
      ensures Config() == Settings(limit, window, sweepEvery) && State() == Limiter(map[], 0)
    {
      this.limit, this.window, this.sweepEvery := limit, window, sweepEvery;
      hits, hitsSinceSweep := map[], 0;
    }

    method SweepStale(now: real)
      modifies this`hits
      ensures hits == old(hits) - IdleAddresses(old(hits), now, window)
    {
      var stale := IdleAddresses(hits, now, window);
      ghost var done := {};
      while stale != {}
        invariant done + stale == IdleAddresses(old(hits), now, window)
        invariant hits == old(hits) - done
        decreases stale
      {
        var ip :| ip in stale;
        hits := hits - {ip};
        stale, done := stale - {ip}, done + {ip};
      }
    }

    method Hit(ip: Ip, now: real) returns (outcome: Outcome)
      modifies this
      ensures var (decision, next) := HitStep(Config(), old(State()), ip, now);
              && State() == next
              && match decision
                 case Admit => outcome == Allowed
                 case Reject(wait) => outcome.Refused? && IsRounded(outcome.retryAfter, wait)
                 case IndexError => outcome == Raised
    {
      hitsSinceSweep := hitsSinceSweep + 1;
      if hitsSinceSweep >= sweepEvery {
        hitsSinceSweep := 0;
        SweepStale(now);
      }
      var timestamps := InWindow(if ip in hits then hits[ip] else [], now, window);
      if |timestamps| >= limit {
        hits := hits[ip := timestamps];
        if timestamps == [] {
          return Raised;
        }
        var retryAfter := Round(window - (now - timestamps[0]));
        return Refused(retryAfter);
      }
      hits := hits[ip := timestamps + [now]];
      outcome := Allowed;
    }

    method GetUsage(ip: Ip, now: real) returns (count: nat, remaining: int)
      ensures count == |InWindow(Stamps(hits, ip), now, window)|
      ensures remaining == if limit > count then limit - count else 0
    {
      count := |InWindow(if ip in hits then hits[ip] else [], now, window)|;
      remaining := if limit - count > 0 then limit - count else 0;
    }

    method GetAll(now: real) returns (usage: map<Ip, nat>)
      ensures usage == UsageOf(hits, now, window)
    {
      usage := map[];
      var todo := hits.Keys;
      while todo != {}
        invariant todo <= hits.Keys
        invariant usage == UsageOf(map ip | ip in hits && ip !in todo :: hits[ip], now, window)
        decreases todo
      {
        var ip :| ip in todo;
        var windowCount := |InWindow(hits[ip], now, window)|;
        if windowCount > 0 {
          usage := usage[ip := windowCount];
        }
        todo := todo - {ip};
      }
      assert (map ip | ip in hits && ip !in todo :: hits[ip]) == hits;
    }

    method Reset(ip: Ip)
      modifies this`hits
      ensures hits == old(hits) - {ip}
    {
      hits := hits - {ip};
    }

    method ClearAll()
      modifies this`hits
      ensures hits == map[]
    {
      hits := map[];
    }
  }

  // ---- The reference: every admitted timestamp is kept for ever ----

  /** Decides on the full log of admitted requests, which only an admin reset shortens. */
  function NaiveHit(c: Settings, log: Hits, ip: Ip, now: real): (Decision, Hits) {
    var decision := Decide(c, InWindow(Stamps(log, ip), now, c.window), now);
    (decision, if decision == Admit then log[ip := Stamps(log, ip) + [now]] else log)
  }

  datatype Call = Request(ip: Ip) | Usage(ip: Ip) | Snapshot | Reset(ip: Ip) | ClearAll

  datatype Event = At(time: real, call: Call)

  datatype Answer = Decided(decision: Decision) | Count(n: nat) | Counts(usage: map<Ip, nat>) | Done

  function Step(c: Settings, s: Limiter, e: Event): (Answer, Limiter) {
    match e.call
    case Request(ip) => var (d, s') := HitStep(c, s, ip, e.time); (Decided(d), s')
    case Usage(ip) => (Count(|InWindow(Stamps(s.hits, ip), e.time, c.window)|), s)
    case Snapshot => (Counts(UsageOf(s.hits, e.time, c.window)), s)
    case Reset(ip) => (Done, s.(hits := s.hits - {ip}))
    case ClearAll => (Done, s.(hits := map[]))
  }

  function NaiveStep(c: Settings, log: Hits, e: Event): (Answer, Hits) {
    match e.call
    case Request(ip) => var (d, log') := NaiveHit(c, log, ip, e.time); (Decided(d), log')
    case Usage(ip) => (Count(|InWindow(Stamps(log, ip), e.time, c.window)|), log)
    case Snapshot => (Counts(UsageOf(log, e.time, c.window)), log)
    case Reset(ip) => (Done, log - {ip})
    case ClearAll => (Done, map[])
  }

  /** The limiter after a run that began with an empty one. */
  function After(c: Settings, events: seq<Event>): Limiter {
    if events == [] then Limiter(map[], 0)
    else Step(c, After(c, events[..|events| - 1]), events[|events| - 1]).1
  }

  function LastAnswer(c: Settings, events: seq<Event>): Answer
    requires events != []
  {
    Step(c, After(c, events[..|events| - 1]), events[|events| - 1]).0
  }

  function NaiveAfter(c: Settings, events: seq<Event>): Hits {
    if events == [] then map[]
    else NaiveStep(c, NaiveAfter(c, events[..|events| - 1]), events[|events| - 1]).1
  }

  function NaiveLastAnswer(c: Settings, events: seq<Event>): Answer
    requires events != []
  {
    NaiveStep(c, NaiveAfter(c, events[..|events| - 1]), events[|events| - 1]).0
  }

  ghost predicate Chronological(events: seq<Event>) {
    forall i, j :: 0 <= i <= j < |events| ==> events[i].time <= events[j].time
  }

  // ---- Refinement ----

  /** For every address the kept list stands for the logged one. */
  ghost predicate Agree(c: Settings, hits: Hits, log: Hits, now: real) {
    forall ip: Ip :: AgreeOn(c, hits, log, ip, now)
  }

  ghost predicate AgreeOn(c: Settings, hits: Hits, log: Hits, ip: Ip, now: real) {
    Tracks(Stamps(hits, ip), Stamps(log, ip), now, c.window)
  }

  lemma AgreeLater(c: Settings, hits: Hits, log: Hits, earlier: real, now: real)
    requires Agree(c, hits, log, earlier) && earlier <= now
    ensures Agree(c, hits, log, now)
  {
    forall ip: Ip ensures AgreeOn(c, hits, log, ip, now) {
      assert AgreeOn(c, hits, log, ip, earlier);
      TracksLater(Stamps(hits, ip), Stamps(log, ip), earlier, now, c.window);
    }
  }

  /** Sweeping forgets nothing that any later window could contain. */
  lemma SweepKeepsAgreement(c: Settings, hits: Hits, log: Hits, now: real)
    requires Agree(c, hits, log, now)
    ensures Agree(c, hits - IdleAddresses(hits, now, c.window), log, now)
  {
    var kept := hits - IdleAddresses(hits, now, c.window);
    forall ip: Ip ensures AgreeOn(c, kept, log, ip, now) {
      assert AgreeOn(c, hits, log, ip, now);
      if ip in hits && ip !in kept {
        ForgetTracks(hits[ip], Stamps(log, ip), now, c.window);
      }
    }
  }

  lemma RecordKeepsAgreement(c: Settings, hits: Hits, log: Hits, ip: Ip, now: real)
    requires Agree(c, hits, log, now)
    ensures Record(c, hits, ip, now).0 == NaiveHit(c, log, ip, now).0
    ensures Agree(c, Record(c, hits, ip, now).1, NaiveHit(c, log, ip, now).1, now)
  {
    var hits', log' := Record(c, hits, ip, now).1, NaiveHit(c, log, ip, now).1;
    forall other: Ip ensures AgreeOn(c, hits', log', other, now) {
      assert AgreeOn(c, hits, log, other, now);
      if other == ip {
        PruneTracks(Stamps(hits, ip), Stamps(log, ip), now, c.window);
        AppendTracks(InWindow(Stamps(hits, ip), now, c.window), Stamps(log, ip), now, c.window);
      }
    }
    assert AgreeOn(c, hits, log, ip, now);
  }

  lemma StepKeepsAgreement(c: Settings, s: Limiter, log: Hits, e: Event)
    requires Agree(c, s.hits, log, e.time)
    ensures Step(c, s, e).0 == NaiveStep(c, log, e).0
    ensures Agree(c, Step(c, s, e).1.hits, NaiveStep(c, log, e).1, e.time)
  {
    match e.call {
      case Request(ip) =>
        SweepKeepsAgreement(c, s.hits, log, e.time);
        var due := s.sinceSweep + 1 >= c.sweepEvery;
        var kept := if due then s.hits - IdleAddresses(s.hits, e.time, c.window) else s.hits;
        RecordKeepsAgreement(c, kept, log, ip, e.time);
      case Usage(ip) =>
        assert AgreeOn(c, s.hits, log, ip, e.time);
      case Snapshot =>
        forall ip: Ip ensures ip in UsageOf(s.hits, e.time, c.window) <==> ip in UsageOf(log, e.time, c.window)
                      ensures ip in UsageOf(s.hits, e.time, c.window) ==>
                                UsageOf(s.hits, e.time, c.window)[ip] == UsageOf(log, e.time, c.window)[ip]
        {
          assert AgreeOn(c, s.hits, log, ip, e.time);
        }
      case Reset(gone) =>
        forall ip: Ip ensures AgreeOn(c, s.hits - {gone}, log - {gone}, ip, e.time) {
          assert AgreeOn(c, s.hits, log, ip, e.time);
        }
      case ClearAll =>
    }
  }

  lemma {:induction false} RunsAgree(c: Settings, events: seq<Event>, now: real)
    requires Chronological(events) && (events != [] ==> events[|events| - 1].time <= now)
    ensures Agree(c, After(c, events).hits, NaiveAfter(c, events), now)
    decreases |events|
  {
    if events != [] {
      var n := |events| - 1;
      RunsAgree(c, events[..n], events[n].time);
      StepKeepsAgreement(c, After(c, events[..n]), NaiveAfter(c, events[..n]), events[n]);
      AgreeLater(c, After(c, events).hits, NaiveAfter(c, events), events[n].time, now);
    }
  }

  /**
   * Pruning and sweeping are unobservable: after any run every answer (decision with its
   * exact wait, usage count, snapshot) is that of the log that forgets nothing.
   */
  lemma Refines(c: Settings, events: seq<Event>)
    requires Chronological(events) && events != []
    ensures LastAnswer(c, events) == NaiveLastAnswer(c, events)
  {
    var n := |events| - 1;
    RunsAgree(c, events[..n], events[n].time);
    StepKeepsAgreement(c, After(c, events[..n]), NaiveAfter(c, events[..n]), events[n]);
  }

  /** How often the limiter sweeps cannot be told from its answers. */
  lemma SweepPeriodIsUnobservable(c: Settings, c': Settings, events: seq<Event>)
    requires Chronological(events) && events != []
    requires c' == c.(sweepEvery := c'.sweepEvery)
    ensures LastAnswer(c, events) == LastAnswer(c', events)
  {
    Refines(c, events);
    Refines(c', events);
    SameNaive(c, c', events);
  }

  lemma {:induction false} SameNaive(c: Settings, c': Settings, events: seq<Event>)
    requires c' == c.(sweepEvery := c'.sweepEvery)
    ensures NaiveAfter(c, events) == NaiveAfter(c', events)
    ensures events != [] ==> NaiveLastAnswer(c, events) == NaiveLastAnswer(c', events)
    decreases |events|
  {
    if events != [] {
      SameNaive(c, c', events[..|events| - 1]);
    }
  }
}
