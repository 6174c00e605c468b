/** The 404 penalties of classes/ip_tracker.py. */
module IpTracking {
  import opened Sequences
  import opened Identities
  import opened SlidingWindow

  datatype Settings = Settings(threshold: int, window: real, duration: real, sweepEvery: int)

  datatype Tracker = Tracker(
    log: map<Ip, seq<real>>,
    penalties: map<Ip, real>,
    totals: map<Ip, nat>,   // lifetime counts, for reporting
    sinceSweep: int) {

    function Total(ip: Ip): nat {
      if ip in totals then totals[ip] else 0
    }

    function Expired(now: real): set<Ip> {
      set ip | ip in penalties && penalties[ip] <= now
    }

    /** Addresses with nothing in the window and no penalty. */
    function Forgettable(now: real, window: real): set<Ip> {
      set ip | ip in log && Idle(log[ip], now, window) && ip !in penalties
    }

    function Sweep(now: real, window: real): Tracker {
      var s := this.(penalties := penalties - Expired(now));
      var stale := s.Forgettable(now, window);
      s.(log := s.log - stale, totals := s.totals - stale)
    }

    function Tick(c: Settings, now: real): Tracker {
      if sinceSweep + 1 >= c.sweepEvery then Sweep(now, c.window).(sinceSweep := 0)
      else this.(sinceSweep := sinceSweep + 1)
    }

    function Record(c: Settings, ip: Ip, now: real): (bool, Tracker) {
      var s := Tick(c, now);
      var recent := InWindow(Stamps(s.log, ip), now, c.window) + [now];
      var penalise := |recent| >= c.threshold && ip !in s.penalties;
      (penalise, Tracker(s.log[ip := recent],
                         if penalise then s.penalties[ip := now + c.duration] else s.penalties,
                         s.totals[ip := s.Total(ip) + 1],
                         s.sinceSweep))
    }

    function Check(ip: Ip, now: real): (bool, Tracker) {
      if ip !in penalties then (false, this)
      else if now < penalties[ip] then (true, this)
      else (false, this.(penalties := penalties - {ip}))
    }
  }

  class IPTracker {
    const threshold: int
    const window: real
    const duration: real
    const sweepEvery: int
    var log404: map<Ip, seq<real>>
    var penalties: map<Ip, real>
    var totals404: map<Ip, nat>
    var since: int
    var recorded: nat    // IP_TRACKER_404S_TOTAL
    var punished: nat    // IP_TRACKER_PENALTIES_TOTAL

    function State(): Tracker
      reads this
    {
      Tracker(log404, penalties, totals404, since)
    }

    function Config(): Settings {
      Settings(threshold, window, duration, sweepEvery)
    }

    constructor (threshold: int, window: real, duration: real, sweepEvery: int)
      ensures Config() == Settings(threshold, window, duration, sweepEvery)
      ensures State() == Tracker(map[], map[], map[], 0) && recorded == punished == 0
    {
      this.threshold, this.window, this.duration, this.sweepEvery := threshold, window, duration, sweepEvery;
      log404, penalties, totals404, since, recorded, punished := map[], map[], map[], 0, 0, 0;
    }

    method SweepStale(now: real)
      modifies this`log404, this`penalties, this`totals404
      ensures State() == old(State()).Sweep(now, window)
    {
      var expired := State().Expired(now);
      ghost var done := {};
      while expired != {}
        invariant done + expired == old(State()).Expired(now)
        invariant penalties == old(penalties) - done && log404 == old(log404) && totals404 == old(totals404)
        decreases expired
      {
        var ip :| ip in expired;
        penalties := penalties - {ip};
        expired, done := expired - {ip}, done + {ip};
      }
      var stale := State().Forgettable(now, window);
      ghost var stale0 := stale;
      done := {};
      while stale != {}
        invariant done + stale == stale0
        invariant penalties == old(penalties) - old(State()).Expired(now)
        invariant log404 == old(log404) - done && totals404 == old(totals404) - done
        decreases stale
      {
        var ip :| ip in stale;
        log404, totals404 := log404 - {ip}, totals404 - {ip};
        stale, done := stale - {ip}, done + {ip};
      }
    }

    method CountTowardsSweep(now: real)
      modifies this`log404, this`penalties, this`totals404, this`since
      ensures State() == old(State()).Tick(Config(), now)
    {
      since := since + 1;
      if since >= sweepEvery {
        since := 0;
        SweepStale(now);
      }
    }

    method Record404(ip: Ip, now: real) returns (penalised: bool)
      modifies this
      ensures (penalised, State()) == old(State()).Record(Config(), ip, now)
      ensures recorded == old(recorded) + 1 && punished == old(punished) + if penalised then 1 else 0
    {
      hide Tracker.Tick;
      CountTowardsSweep(now);
      recorded := recorded + 1;
      totals404 := totals404[ip := (if ip in totals404 then totals404[ip] else 0) + 1];
      var timestamps := InWindow(if ip in log404 then log404[ip] else [], now, window);
      timestamps := timestamps + [now];
      log404 := log404[ip := timestamps];
      if |timestamps| >= threshold && ip !in penalties {
        penalties := penalties[ip := now + duration];
        punished := punished + 1;
        return true;
      }
      penalised := false;
    }

    method IsPenalised(ip: Ip, now: real) returns (penalised: bool)
      modifies this`penalties
      ensures (penalised, State()) == old(State()).Check(ip, now)
    {
      if ip !in penalties {
        return false;
      }
      if now < penalties[ip] {
        return true;
      }
      penalties := penalties - {ip};
      penalised := false;
    }

    method Get404Count(ip: Ip, now: real) returns (windowCount: nat, lifetimeCount: nat)
      ensures windowCount == |InWindow(Stamps(log404, ip), now, window)| && lifetimeCount == State().Total(ip)
    {
      windowCount := |InWindow(if ip in log404 then log404[ip] else [], now, window)|;
      lifetimeCount := if ip in totals404 then totals404[ip] else 0;
    }
  }

  // ---- Runs, and what an observer sees of them ----

  datatype Call = Check(ip: Ip) | Record(ip: Ip) | Count(ip: Ip)

  datatype Event = At(time: real, call: Call)

  function Step(c: Settings, s: Tracker, e: Event): (bool, Tracker) {
    match e.call
    case Check(ip) => s.Check(ip, e.time)
    case Record(ip) => s.Record(c, ip, e.time)
    case Count(_) => (false, s)
  }

  function After(c: Settings, run: seq<Event>): Tracker {
    if run == [] then Tracker(map[], map[], map[], 0)
    else Step(c, After(c, run[..|run| - 1]), run[|run| - 1]).1
  }

  /** What event n of the run is told. */
  function Answer(c: Settings, run: seq<Event>, n: nat): bool
    requires n < |run|
  {
    Step(c, After(c, run[..n]), run[n]).0
  }

  ghost predicate Chronological(run: seq<Event>) {
    forall i, j :: 0 <= i <= j < |run| ==> run[i].time <= run[j].time
  }

  /** Every 404 of ip in the run: the log that forgets nothing. */
  function FullLog(run: seq<Event>, ip: Ip): seq<real> {
    if run == [] then []
    else
      var n := |run| - 1;
      if run[n].call == Record(ip) then FullLog(run[..n], ip) + [run[n].time] else FullLog(run[..n], ip)
  }

  /** Some 404 of ip before event n was answered with a penalty that covers `now`. */
  ghost predicate Blocked(c: Settings, run: seq<Event>, n: nat, ip: Ip, now: real)
    requires n <= |run|
  {
    exists i :: 0 <= i < n && Penalises(c, run, i, ip) && now < run[i].time + c.duration
  }

  ghost predicate Penalises(c: Settings, run: seq<Event>, i: nat, ip: Ip) {
    i < |run| && run[i].call == Record(ip) && Answer(c, run, i)
  }

  // ---- The log ----

  lemma TickTracks(c: Settings, s: Tracker, full: seq<real>, ip: Ip, now: real)
    requires Tracks(Stamps(s.log, ip), full, now, c.window)
    ensures Tracks(Stamps(s.Tick(c, now).log, ip), full, now, c.window)
  {
    if ip in s.log && ip !in s.Tick(c, now).log {
      ForgetTracks(s.log[ip], full, now, c.window);
    }
  }

  /** Pruning and sweeping lose no 404 that a window could still contain. */
  lemma {:induction false} LogTracks(c: Settings, run: seq<Event>, ip: Ip, now: real)
    requires Chronological(run) && (run != [] ==> run[|run| - 1].time <= now)
    ensures Tracks(Stamps(After(c, run).log, ip), FullLog(run, ip), now, c.window)
    decreases |run|
  {
    if run != [] {
      var n := |run| - 1;
      var s, t := After(c, run[..n]), run[n].time;
      LogTracks(c, run[..n], ip, t);
      TickTracks(c, s, FullLog(run[..n], ip), ip, t);
      if run[n].call == Record(ip) {
        var kept := Stamps(s.Tick(c, t).log, ip);
        PruneTracks(kept, FullLog(run[..n], ip), t, c.window);
        AppendTracks(InWindow(kept, t, c.window), FullLog(run[..n], ip), t, c.window);
      }
      assert Tracks(Stamps(After(c, run).log, ip), FullLog(run, ip), t, c.window);
      TracksLater(Stamps(After(c, run).log, ip), FullLog(run, ip), t, now, c.window);
    }
  }

  /** Totals and log name the same addresses. */
  lemma {:induction false} TotalsNameLogged(c: Settings, run: seq<Event>, ip: Ip)
    ensures ip in After(c, run).totals <==> ip in After(c, run).log
    decreases |run|
  {
    if run != [] {
      TotalsNameLogged(c, run[..|run| - 1], ip);
    }
  }

  /** The 404s of ip among the first n events that are younger than `window` at `now`. */
  function Recent(run: seq<Event>, n: nat, ip: Ip, now: real, window: real): set<nat>
    requires n <= |run|
  {
    set k: nat | k < n && run[k].call == Record(ip) && now - run[k].time < window
  }

  lemma {:induction false} WindowIsRecent(run: seq<Event>, n: nat, ip: Ip, now: real, window: real)
    requires n <= |run|
    ensures |InWindow(FullLog(run[..n], ip), now, window)| == |Recent(run, n, ip, now, window)|
    decreases n
  {
    if n == 0 {
      assert Recent(run, n, ip, now, window) == {};
    } else {
      var m := n - 1;
      WindowIsRecent(run, m, ip, now, window);
      assert run[..n][..m] == run[..m];
      WindowAppend(FullLog(run[..m], ip), run[m].time, now, window);
      var added := if run[m].call == Record(ip) && now - run[m].time < window then {m} else {};
      assert Recent(run, n, ip, now, window) == Recent(run, m, ip, now, window) + added;
    }
  }

  /** The window count the tracker reports is the number of those 404s. */
  lemma WindowCountIsRecent(c: Settings, run: seq<Event>, ip: Ip, now: real)
    requires Chronological(run) && (run != [] ==> run[|run| - 1].time <= now)
    ensures |InWindow(Stamps(After(c, run).log, ip), now, c.window)| == |Recent(run, |run|, ip, now, c.window)|
  {
    LogTracks(c, run, ip, now);
    assert run[..|run|] == run;
    WindowIsRecent(run, |run|, ip, now, c.window);
  }

  /** The number of 404s of ip in the window, the n-th event included. */
  function RecentCount(c: Settings, run: seq<Event>, n: nat): nat
    requires n < |run|
  {
    |Recent(run, n + 1, run[n].call.ip, run[n].time, c.window)|
  }

  lemma RecordCounts(c: Settings, run: seq<Event>, n: nat)
    requires Chronological(run) && n < |run| && run[n].call.Record? && c.window > 0.0
    ensures var ip, s := run[n].call.ip, After(c, run[..n]);
            Answer(c, run, n) <==> RecentCount(c, run, n) >= c.threshold && ip !in s.Tick(c, run[n].time).penalties
  {
    var ip, t, s := run[n].call.ip, run[n].time, After(c, run[..n]);
    assert run[..n + 1][..n] == run[..n];
    LogTracks(c, run[..n], ip, t);
    TickTracks(c, s, FullLog(run[..n], ip), ip, t);
    WindowAppend(FullLog(run[..n], ip), t, t, c.window);
    WindowIsRecent(run, n + 1, ip, t, c.window);
  }
}
