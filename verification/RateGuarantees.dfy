/** What a client of the rate limiter can rely on over whole runs. */
module RateGuarantees {
  import opened Sequences
  import opened Identities
  import opened SlidingWindow
  import opened RateLimiting

  /** The times at which the limiter admitted ip since its history was last wiped, read off its answers. */
  function Admissions(c: Settings, events: seq<Event>, ip: Ip): seq<real> {
    if events == [] then []
    else
      var n := |events| - 1;
      var before := Admissions(c, events[..n], ip);
      match events[n].call
      case Request(who) =>
        if who == ip && LastAnswer(c, events) == Decided(Admit) then before + [events[n].time] else before
      case Reset(who) => if who == ip then [] else before
      case ClearAll => []
      case _ => before
  }

  /** The naive log is exactly that list: reset and clear empty it, and nothing else shortens it. */
  lemma {:induction false} LogIsAdmissions(c: Settings, events: seq<Event>, ip: Ip)
    requires Chronological(events)
    ensures Stamps(NaiveAfter(c, events), ip) == Admissions(c, events, ip)
    decreases |events|
  {
    if events != [] {
      LogIsAdmissions(c, events[..|events| - 1], ip);
      Refines(c, events);
    }
  }

  /** The (i + limit)-th admission of an address comes at least a window after its i-th. */
  lemma {:induction false} AdmissionsAreSpaced(c: Settings, events: seq<Event>, ip: Ip, now: real)
    requires Chronological(events) && c.limit >= 1
    requires events != [] ==> events[|events| - 1].time <= now
    ensures Sorted(Admissions(c, events, ip)) && UpTo(Admissions(c, events, ip), now)
    ensures Spaced(Admissions(c, events, ip), c.limit, c.window)
    decreases |events|
  {
    if events != [] {
      var n := |events| - 1;
      var t := events[n].time;
      AdmissionsAreSpaced(c, events[..n], ip, t);
      var before := Admissions(c, events[..n], ip);
      if events[n].call == Request(ip) && LastAnswer(c, events) == Decided(Admit) {
        LogIsAdmissions(c, events[..n], ip);
        Refines(c, events);
        AppendKeepsSpacing(before, c.limit, t, c.window);
      }
    }
  }

  /** So no half-open interval as long as the window holds more than `limit` admissions. */
  lemma NeverOverLimit(c: Settings, events: seq<Event>, ip: Ip, start: real)
    requires Chronological(events) && c.limit >= 1
    ensures |Within(Admissions(c, events, ip), start, c.window)| <= c.limit
  {
    if events != [] {
      AdmissionsAreSpaced(c, events, ip, events[|events| - 1].time);
    }
    AtMostLimitPerInterval(Admissions(c, events, ip), start, c.window, c.limit);
  }

  /** The stored lists stay sorted and never grow past the limit. */
  lemma {:induction false} StoredListsAreShort(c: Settings, events: seq<Event>, ip: Ip)
    requires Chronological(events) && c.limit >= 1
    ensures Sorted(Stamps(After(c, events).hits, ip)) && |Stamps(After(c, events).hits, ip)| <= c.limit
    decreases |events|
  {
    if events != [] {
      var n := |events| - 1;
      var s := After(c, events[..n]);
      StoredListsAreShort(c, events[..n], ip);
      RunsAgree(c, events, events[n].time);
      assert AgreeOn(c, After(c, events).hits, NaiveAfter(c, events), ip, events[n].time);
      if events[n].call == Request(ip) {
        var k := WindowIsTail(Stamps(s.hits, ip), events[n].time, c.window);
      }
    }
  }

  /** A hit fails with an IndexError exactly when the limit is below 1, and then every hit does. */
  lemma {:induction false} RaisesIffLimitBelowOne(c: Settings, events: seq<Event>)
    requires Chronological(events) && events != [] && events[|events| - 1].call.Request?
    ensures LastAnswer(c, events) == Decided(IndexError) <==> c.limit < 1
  {
    var n := |events| - 1;
    Refines(c, events);
    if c.limit < 1 {
      NothingAdmitted(c, events[..n], events[n].call.ip);
    }
  }

  lemma {:induction false} NothingAdmitted(c: Settings, events: seq<Event>, ip: Ip)
    requires c.limit < 1
    ensures Stamps(NaiveAfter(c, events), ip) == []
    decreases |events|
  {
    if events != [] {
      NothingAdmitted(c, events[..|events| - 1], ip);
    }
  }

  // ---- The answers, told from the admissions alone ----

  /**
   * A request is admitted exactly when fewer than `limit` of the earlier admissions of its address
   * are younger than the window. Otherwise it is told to wait until the oldest of those is as old.
   */
  lemma AdmissionsDecide(c: Settings, events: seq<Event>, ip: Ip) returns (oldest: nat)
    requires Chronological(events) && c.limit >= 1
    requires events != [] && events[|events| - 1].call == Request(ip)
    ensures var before, now := Admissions(c, events[..|events| - 1], ip), events[|events| - 1].time;
            var live := Live(before, now, c.window);
            if |live| < c.limit then LastAnswer(c, events) == Decided(Admit)
            else
              && oldest in live && (forall i :: i in live ==> before[oldest] <= before[i])
              && LastAnswer(c, events) == Decided(Reject(c.window - (now - before[oldest])))
  {
    var n := |events| - 1;
    var before, now := Admissions(c, events[..n], ip), events[n].time;
    Refines(c, events);
    LogIsAdmissions(c, events[..n], ip);
    AdmissionsAreSpaced(c, events[..n], ip, now);
    WindowCounts(before, now, c.window);
    oldest := 0;
    if |Live(before, now, c.window)| >= c.limit {
      oldest := OldestLive(before, now, c.window);
    }
  }

  /** A usage query is told the number of admissions younger than the window. */
  lemma UsageCountsAdmissions(c: Settings, events: seq<Event>, ip: Ip)
    requires Chronological(events) && events != [] && events[|events| - 1].call == Usage(ip)
    ensures var before, now := Admissions(c, events[..|events| - 1], ip), events[|events| - 1].time;
            LastAnswer(c, events) == Count(|Live(before, now, c.window)|)
  {
    var n := |events| - 1;
    Refines(c, events);
    LogIsAdmissions(c, events[..n], ip);
    WindowCounts(Admissions(c, events[..n], ip), events[n].time, c.window);
  }

  /** A snapshot lists exactly the addresses with such admissions, and their numbers. */
  lemma SnapshotCountsAdmissions(c: Settings, events: seq<Event>, ip: Ip)
    requires Chronological(events) && events != [] && events[|events| - 1].call == Snapshot
    ensures var before, now := Admissions(c, events[..|events| - 1], ip), events[|events| - 1].time;
            var live, answer := Live(before, now, c.window), LastAnswer(c, events);
            && answer.Counts? && (ip in answer.usage <==> live != {})
            && (ip in answer.usage ==> answer.usage[ip] == |live|)
  {
    var n := |events| - 1;
    Refines(c, events);
    LogIsAdmissions(c, events[..n], ip);
    WindowCounts(Admissions(c, events[..n], ip), events[n].time, c.window);
  }

  // ---- Memory stays bounded ----

  /** The number of requests, of whatever address, among the first n events. */
  function Requests(events: seq<Event>, n: nat): nat
    requires n <= |events|
  {
    if n == 0 then 0 else Requests(events, n - 1) + if events[n - 1].call.Request? then 1 else 0
  }

  lemma StepCounts(c: Settings, s: Limiter, e: Event)
    ensures Step(c, s, e).1.sinceSweep
            == if !e.call.Request? then s.sinceSweep
               else if s.sinceSweep + 1 >= c.sweepEvery then 0 else s.sinceSweep + 1
  {
    hide Record, UsageOf, InWindow;
  }

  lemma {:induction false} SweepsInTurn(c: Settings, events: seq<Event>, n: nat)
    requires n <= |events|
    ensures After(c, events[..n]).sinceSweep == Turn(c.sweepEvery, Requests(events, n))
    decreases n
  {
    if n > 0 {
      SweepsInTurn(c, events, n - 1);
      assert events[..n][..n - 1] == events[..n - 1];
      StepCounts(c, After(c, events[..n - 1]), events[n - 1]);
      NextTurn(c.sweepEvery, Requests(events, n - 1));
      hide Turn, Step;
    }
  }

  /**
   * Right after every sweepEvery-th request the limiter remembers only addresses with an admission
   * in the window, and the one that sent the request: its memory is bounded by recent clients.
   */
  lemma OnlyRecentAreKept(c: Settings, events: seq<Event>, ip: Ip, other: Ip)
    requires Chronological(events) && events != [] && events[|events| - 1].call == Request(ip)
    requires c.sweepEvery <= 1 || Requests(events, |events|) % c.sweepEvery == 0
    requires other in After(c, events).hits && other != ip
    ensures var n := |events| - 1;
            Live(Admissions(c, events[..n], other), events[n].time, c.window) != {}
  {
    var n := |events| - 1;
    var s, now := After(c, events[..n]), events[n].time;
    SweepsInTurn(c, events, n);
    TurnIsOver(c.sweepEvery, Requests(events, n));
    assert other in s.hits && !Idle(s.hits[other], now, c.window);
    RunsAgree(c, events[..n], now);
    assert AgreeOn(c, s.hits, NaiveAfter(c, events[..n]), other, now);
    IdleIffEmpty(s.hits[other], now, c.window);
    LogIsAdmissions(c, events[..n], other);
    WindowCounts(Admissions(c, events[..n], other), now, c.window);
  }

  // ---- The wait is exact ----

  /** The n-th event of the run is a request of ip that is rejected. */
  ghost predicate RejectedAt(c: Settings, run: seq<Event>, n: nat, ip: Ip) {
    && n < |run| && run[n].call == Request(ip)
    && LastAnswer(c, run[..n + 1]).Decided? && LastAnswer(c, run[..n + 1]).decision.Reject?
  }

  /** The instant at which that rejection says capacity frees up. */
  function FreeAt(c: Settings, run: seq<Event>, n: nat): real
    requires n < |run| && LastAnswer(c, run[..n + 1]).Decided? && LastAnswer(c, run[..n + 1]).decision.Reject?
  {
    run[n].time + LastAnswer(c, run[..n + 1]).decision.wait
  }

  /**
   * Between events n and m nobody wipes the address's history and the address itself sends no
   * request at `free` or later. Other addresses, and queries of any kind, may come at any time.
   */
  ghost predicate Undisturbed(run: seq<Event>, n: nat, m: nat, ip: Ip, free: real) {
    forall i :: n < i < m && i < |run| ==>
      && (run[i].call == Request(ip) ==> run[i].time < free)
      && run[i].call != Reset(ip) && run[i].call != ClearAll
  }

  /** A full log stays full until its oldest live entry leaves the window, and not an instant longer. */
  lemma FullUntilOldestLeaves(c: Settings, log: seq<real>, now: real, t: real)
    requires c.limit >= 1 && Sorted(log) && UpTo(log, now) && Spaced(log, c.limit, c.window) && now <= t
    requires Decide(c, InWindow(log, now, c.window), now).Reject?
    ensures var wait := Decide(c, InWindow(log, now, c.window), now).wait;
            if t < now + wait then Decide(c, InWindow(log, t, c.window), t).Reject?
            else Decide(c, InWindow(log, t, c.window), t) == Admit
  {
    var k := WindowIsTail(log, now, c.window);
    var k' := WindowIsTail(log, t, c.window);
    WindowHoldsAtMostLimit(log, c.limit, now, c.window);
    assert InWindow(log, now, c.window)[0] == log[k];
    assert now - log[k] < c.window;
    if t < now + (c.window - (now - log[k])) {
      assert t - log[k] < c.window;
    } else {
      assert t - log[k] >= c.window;
    }
  }

  /** On an unchanged log, a request before FreeAt is rejected and one from then on is admitted. */
  lemma RejectionRecurs(c: Settings, run: seq<Event>, n: nat, log: Hits, ip: Ip, t: real)
    requires c.limit >= 1 && Chronological(run) && RejectedAt(c, run, n, ip) && run[n].time <= t
    requires Stamps(log, ip) == Stamps(NaiveAfter(c, run[..n]), ip)
    ensures var decision := NaiveHit(c, log, ip, t).0;
            if t < FreeAt(c, run, n) then decision.Reject? else decision == Admit
  {
    assert run[..n + 1][..n] == run[..n];
    Refines(c, run[..n + 1]);
    LogIsAdmissions(c, run[..n], ip);
    AdmissionsAreSpaced(c, run[..n], ip, run[n].time);
    FullUntilOldestLeaves(c, Stamps(NaiveAfter(c, run[..n]), ip), run[n].time, t);
  }

  /** An event that wipes nothing and is no request of the address from FreeAt on leaves its log alone. */
  lemma FrozenStep(c: Settings, run: seq<Event>, n: nat, log: Hits, e: Event, ip: Ip, free: real)
    requires c.limit >= 1 && Chronological(run) && RejectedAt(c, run, n, ip) && free == FreeAt(c, run, n)
    requires Stamps(log, ip) == Stamps(NaiveAfter(c, run[..n]), ip)
    requires run[n].time <= e.time && (e.call == Request(ip) ==> e.time < free)
    requires e.call != Reset(ip) && e.call != ClearAll
    ensures Stamps(NaiveStep(c, log, e).1, ip) == Stamps(log, ip)
  {
    if e.call == Request(ip) {
      RejectionRecurs(c, run, n, log, ip, e.time);
    }
  }

  /** The rejected request itself leaves no trace in the log. */
  lemma RejectionLeavesLog(c: Settings, run: seq<Event>, n: nat, ip: Ip)
    requires Chronological(run) && RejectedAt(c, run, n, ip)
    ensures NaiveAfter(c, run[..n + 1]) == NaiveAfter(c, run[..n])
  {
    hide HitStep;
    assert run[..n + 1][..n] == run[..n];
    Refines(c, run[..n + 1]);
  }

  lemma NaiveNext(c: Settings, run: seq<Event>, m: nat)
    requires m < |run|
    ensures NaiveAfter(c, run[..m + 1]) == NaiveStep(c, NaiveAfter(c, run[..m]), run[m]).1
  {
    assert run[..m + 1][..m] == run[..m];
  }

  lemma {:induction false} LogFrozen(c: Settings, run: seq<Event>, n: nat, m: nat, ip: Ip, free: real)
    requires c.limit >= 1 && Chronological(run) && RejectedAt(c, run, n, ip) && free == FreeAt(c, run, n)
    requires n < m <= |run| && Undisturbed(run, n, m, ip, free)
    ensures Stamps(NaiveAfter(c, run[..m]), ip) == Stamps(NaiveAfter(c, run[..n]), ip)
    decreases m
  {
    hide Step, After, NaiveStep, NaiveAfter, LastAnswer;
    if m == n + 1 {
      RejectionLeavesLog(c, run, n, ip);
    } else {
      assert run[n].time <= run[m - 1].time;
      NaiveNext(c, run, m - 1);
      LogFrozen(c, run, n, m - 1, ip, free);
      FrozenStep(c, run, n, NaiveAfter(c, run[..m - 1]), run[m - 1], ip, free);
    }
  }

  /**
   * The unrounded wait is exact. After a rejection, and until a reset, every request of the
   * address before the announced instant is rejected, and the first one at or after it is
   * admitted, whatever other addresses do meanwhile and however long it waits.
   */
  lemma WaitIsExact(c: Settings, run: seq<Event>, n: nat, m: nat, ip: Ip)
    requires c.limit >= 1 && Chronological(run) && RejectedAt(c, run, n, ip)
    requires n < m < |run| && run[m].call == Request(ip)
    requires Undisturbed(run, n, m, ip, FreeAt(c, run, n))
    ensures var answer := LastAnswer(c, run[..m + 1]);
            && answer.Decided?
            && (if run[m].time < FreeAt(c, run, n) then answer.decision.Reject? else answer.decision == Admit)
  {
    hide Step, After, NaiveAfter, HitStep;
    assert run[..m + 1][..m] == run[..m];
    LogFrozen(c, run, n, m, ip, FreeAt(c, run, n));
    Refines(c, run[..m + 1]);
    RejectionRecurs(c, run, n, NaiveAfter(c, run[..m]), ip, run[m].time);
  }

  // ---- The Retry-After header ----

  /** math.ceil */
  function Ceiling(x: real): int {
    -((-x).Floor)
  }

  /** Rounding to a tenth before taking the ceiling costs at most a twentieth of a second. */
  lemma HeaderIsClose(wait: real, retryAfter: real)
    requires IsRounded(retryAfter, wait)
    ensures wait - 0.05 <= Ceiling(retryAfter) as real < wait + 1.05
  {
  }

  /** A tenth is a whole number of seconds and some tenths; the ceiling is the next whole number. */
  lemma CeilingOfTenth(x: real, k: int)
    requires x * 10.0 == k as real
    ensures x == (k / 10) as real + (k % 10) as real / 10.0
    ensures Ceiling(x) == k / 10 + if k % 10 == 0 then 0 else 1
  {
    assert x == (k / 10) as real + (k % 10) as real / 10.0;
    if k % 10 == 0 {
      assert (-x).Floor == -(k / 10);
    } else {
      assert (-x).Floor == -(k / 10) - 1;
    }
  }

  /**
   * The header is too short exactly for a wait less than a twentieth of a second above a whole
   * number of seconds, or just a twentieth above it when that tie is rounded down.
   */
  lemma HeaderSufficesIff(wait: real, retryAfter: real)
    requires IsRounded(retryAfter, wait)
    ensures var over := wait - wait.Floor as real;
            Ceiling(retryAfter) as real < wait <==> 0.0 < over < 0.05 || (over == 0.05 && retryAfter < wait)
  {
    var k := (retryAfter * 10.0).Floor;
    var q, m := k / 10, (k % 10) as real / 10.0;
    CeilingOfTenth(retryAfter, k);
    if wait < q as real {
      assert m == 0.0 && wait.Floor == q - 1;
    } else {
      assert wait.Floor == q;
    }
  }

  /**
   * It does happen: with one request allowed in ten seconds, a second one 1.96 seconds after the
   * first is told to wait 8.04 seconds, and whatever rounding does the header says less.
   */
  lemma HeaderCanBeShort(c: Settings, run: seq<Event>, ip: Ip)
    requires c == Settings(1, 10.0, 1024)
    requires run == [At(0.0, Request(ip)), At(1.96, Request(ip))]
    ensures Chronological(run) && LastAnswer(c, run) == Decided(Reject(8.04))
    ensures forall retryAfter :: IsRounded(retryAfter, 8.04) ==> Ceiling(retryAfter) as real < 8.04
  {
    var first := [At(0.0, Request(ip))];
    assert first[..0] == [] && run[..1] == first;
    assert InWindow([], 0.0, 10.0) == [] && [] + [0.0] == [0.0];
    assert After(c, first).hits[ip] == [0.0] && After(c, first).sinceSweep == 1;
    assert InWindow([0.0], 1.96, 10.0) == [0.0];
    forall retryAfter | IsRounded(retryAfter, 8.04) ensures Ceiling(retryAfter) as real < 8.04 {
      assert (8.04).Floor == 8;
      HeaderSufficesIff(8.04, retryAfter);
    }
  }
}
