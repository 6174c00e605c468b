/** When an address is blocked, told from the tracker's answers alone. */
module PenaltyGuarantees {
  import opened Sequences
  import opened Identities
  import opened SlidingWindow
  import opened IpTracking

  lemma AfterNext(c: Settings, run: seq<Event>, n: nat)
    requires n < |run|
    ensures After(c, run[..n + 1]) == Step(c, After(c, run[..n]), run[n]).1
  {
    assert run[..n + 1][..n] == run[..n];
  }

  /** Event j would remove a penalty entry of ip that has run out: a check of ip, or a 404 that sweeps. */
  predicate Cleans(c: Settings, run: seq<Event>, j: nat, ip: Ip)
    requires j < |run|
  {
    run[j].call == Check(ip) || (run[j].call.Record? && After(c, run[..j]).sinceSweep + 1 >= c.sweepEvery)
  }

  /** The 404 at k was penalised, and nothing from then until before n removed the entry. */
  ghost predicate Leftover(c: Settings, run: seq<Event>, k: nat, n: nat, ip: Ip) {
    && k < n <= |run| && Penalises(c, run, k, ip)
    && forall j :: k < j < n && run[j].time >= run[k].time + c.duration ==> !Cleans(c, run, j, ip)
  }

  /** Event n stores a new entry, removes one that has run out, or leaves the address's entry alone. */
  lemma EntryStep(c: Settings, run: seq<Event>, n: nat, ip: Ip)
    requires n < |run|
    ensures var before, after := After(c, run[..n]).penalties, After(c, run[..n + 1]).penalties;
            if Penalises(c, run, n, ip) then ip in after && after[ip] == run[n].time + c.duration
            else if ip in before && run[n].time >= before[ip] && Cleans(c, run, n, ip) then ip !in after
            else (ip in after <==> ip in before) && (ip in after ==> after[ip] == before[ip])
  {
    AfterNext(c, run, n);
  }

  /** What is left over a step later is what was, less what the step cleans up, or the new penalty. */
  lemma LeftoverStep(c: Settings, run: seq<Event>, k: nat, n: nat, ip: Ip)
    requires n < |run|
    ensures Leftover(c, run, k, n + 1, ip)
            == if k == n then Penalises(c, run, n, ip)
               else Leftover(c, run, k, n, ip) && !(run[n].time >= run[k].time + c.duration && Cleans(c, run, n, ip))
  {
    hide Cleans, Penalises;
  }

  /** A penalty left over is the stored entry. */
  lemma {:induction false} LeftoverIsStored(c: Settings, run: seq<Event>, k: nat, n: nat, ip: Ip)
    requires Leftover(c, run, k, n, ip)
    ensures ip in After(c, run[..n]).penalties && After(c, run[..n]).penalties[ip] == run[k].time + c.duration
    decreases n
  {
    EntryStep(c, run, n - 1, ip);
    LeftoverStep(c, run, k, n - 1, ip);
    hide Cleans, Penalises, Leftover, After;
    if k < n - 1 {
      LeftoverIsStored(c, run, k, n - 1, ip);
    }
  }

  /** A stored entry is some penalty left over. */
  lemma {:induction false} StoredIsLeftover(c: Settings, run: seq<Event>, n: nat, ip: Ip) returns (k: nat)
    requires n <= |run| && ip in After(c, run[..n]).penalties
    ensures Leftover(c, run, k, n, ip)
    decreases n
  {
    assert n > 0;
    var m := n - 1;
    EntryStep(c, run, m, ip);
    hide Cleans, Penalises, Leftover, After;
    if Penalises(c, run, m, ip) {
      k := m;
    } else {
      k := StoredIsLeftover(c, run, m, ip);
      LeftoverIsStored(c, run, k, m, ip);
    }
    LeftoverStep(c, run, k, m, ip);
  }

  /** The stored entry tells whether some penalty still covers the n-th event. */
  lemma BlockedIffStored(c: Settings, run: seq<Event>, n: nat, ip: Ip)
    requires Chronological(run) && n < |run|
    ensures var penalties, t := After(c, run[..n]).penalties, run[n].time;
            Blocked(c, run, n, ip, t) <==> ip in penalties && t < penalties[ip]
  {
    hide After, Penalises, Cleans;
    var penalties, t := After(c, run[..n]).penalties, run[n].time;
    if k: nat :| k < n && Penalises(c, run, k, ip) && t < run[k].time + c.duration {
      assert Leftover(c, run, k, n, ip);
      LeftoverIsStored(c, run, k, n, ip);
    }
    if ip in penalties && t < penalties[ip] {
      var k := StoredIsLeftover(c, run, n, ip);
      LeftoverIsStored(c, run, k, n, ip);
    }
  }

  /**
   * A penalty issued at T blocks on exactly [T, T + duration): in every run the check
   * answers "blocked" if and only if some earlier 404 of the address was answered with a
   * penalty less than `duration` ago. Further 404s do not extend it and sweeps do not end it.
   */
  lemma CheckTellsBlocked(c: Settings, run: seq<Event>, n: nat)
    requires Chronological(run) && n < |run| && run[n].call.Check?
    ensures Answer(c, run, n) <==> Blocked(c, run, n, run[n].call.ip, run[n].time)
  {
    hide Blocked;
    BlockedIffStored(c, run, n, run[n].call.ip);
  }

  /** A penalty entry that has run out but that no check or sweep has removed yet. */
  ghost predicate Lingering(c: Settings, s: Tracker, ip: Ip, now: real) {
    ip in s.penalties && s.penalties[ip] <= now && s.sinceSweep + 1 < c.sweepEvery
  }

  /**
   * A 404 should be answered with a penalty when the full log holds `threshold` 404s in the
   * window and the address is not blocked. The code does so if and only if it does not find
   * a lingering entry for an address that is over the threshold.
   */
  lemma RecordMeetsIntentIff(c: Settings, run: seq<Event>, n: nat)
    requires Chronological(run) && n < |run| && run[n].call.Record? && c.window > 0.0
    ensures var ip, t := run[n].call.ip, run[n].time;
            var over := RecentCount(c, run, n) >= c.threshold;
            (Answer(c, run, n) <==> over && !Blocked(c, run, n, ip, t))
            <==> !(over && Lingering(c, After(c, run[..n]), ip, t))
  {
    var ip, t, s := run[n].call.ip, run[n].time, After(c, run[..n]);
    hide Blocked;
    RecordCounts(c, run, n);
    BlockedIffStored(c, run, n, ip);
    var sweeps := s.sinceSweep + 1 >= c.sweepEvery;
    assert ip in s.Tick(c, t).penalties <==> ip in s.penalties && (s.penalties[ip] > t || !sweeps);
  }

  // ---- The order the request wrapper uses ----

  /** The 404 at n belongs to a request whose initial check, at i, let it through. */
  ghost predicate Admitted(c: Settings, run: seq<Event>, i: nat, n: nat, ip: Ip) {
    i < n < |run| && run[i].call == Check(ip) && !Answer(c, run, i) && run[n].call == Record(ip)
  }

  /** After a check that let ip through, what is left over can only come from a later 404. */
  lemma LeftoverIsLater(c: Settings, run: seq<Event>, i: nat, n: nat, ip: Ip, k: nat)
    requires Chronological(run) && Admitted(c, run, i, n, ip) && Leftover(c, run, k, n, ip)
    ensures i < k
  {
    if k < i {
      assert Leftover(c, run, k, i, ip);
      LeftoverIsStored(c, run, k, i, ip);
      assert run[i].time >= run[k].time + c.duration;
      assert Cleans(c, run, i, ip);
    }
  }

  /**
   * A 404 of the same address that was penalised while the request was under way, whose penalty
   * has run out since, and whose entry nothing removed, not even a sweep at n itself.
   */
  ghost predicate Outlived(c: Settings, run: seq<Event>, i: nat, n: nat, ip: Ip, k: nat)
    requires n < |run|
  {
    && i < k && Leftover(c, run, k, n, ip) && run[k].time + c.duration <= run[n].time
    && !Cleans(c, run, n, ip)
  }

  /**
   * In the wrapper's order a request's 404 is answered with a penalty exactly when the full log
   * is over the threshold and the address is not blocked, unless the request outlived a whole
   * penalty of its address that was issued after its own check and that nothing has removed.
   */
  lemma WrapperOrderMeetsIntentIff(c: Settings, run: seq<Event>, i: nat, n: nat, ip: Ip)
    requires Chronological(run) && c.window > 0.0 && Admitted(c, run, i, n, ip)
    ensures var over := RecentCount(c, run, n) >= c.threshold;
            (Answer(c, run, n) <==> over && !Blocked(c, run, n, ip, run[n].time))
            <==> !(over && exists k: nat :: Outlived(c, run, i, n, ip, k))
  {
    hide Answer, Blocked, RecentCount, Penalises;
    RecordMeetsIntentIff(c, run, n);
    var s, t := After(c, run[..n]), run[n].time;
    if Lingering(c, s, ip, t) {
      var k := StoredIsLeftover(c, run, n, ip);
      LeftoverIsStored(c, run, k, n, ip);
      LeftoverIsLater(c, run, i, n, ip, k);
      assert Outlived(c, run, i, n, ip, k);
    }
    if k: nat :| Outlived(c, run, i, n, ip, k) {
      LeftoverIsStored(c, run, k, n, ip);
    }
  }

  /** So a request that takes less than `duration`, or has no other 404 of its address under way, is safe. */
  lemma WrapperOrderMeetsIntent(c: Settings, run: seq<Event>, i: nat, n: nat, ip: Ip)
    requires Chronological(run) && c.window > 0.0 && Admitted(c, run, i, n, ip)
    requires run[n].time < run[i].time + c.duration || forall k :: i < k < n ==> run[k].call != Record(ip)
    ensures Answer(c, run, n) <==> RecentCount(c, run, n) >= c.threshold && !Blocked(c, run, n, ip, run[n].time)
  {
    hide Answer, Blocked, RecentCount;
    WrapperOrderMeetsIntentIff(c, run, i, n, ip);
  }

  /** For requests handled one at a time per address, the count alone decides. */
  lemma SequentialCountDecides(c: Settings, run: seq<Event>, i: nat, n: nat, ip: Ip)
    requires Chronological(run) && c.window > 0.0 && Admitted(c, run, i, n, ip)
    requires forall k :: i < k < n ==> run[k].call != Record(ip)
    ensures Answer(c, run, n) <==> RecentCount(c, run, n) >= c.threshold
  {
    RecordCounts(c, run, n);
    if ip in After(c, run[..n]).penalties {
      var k := StoredIsLeftover(c, run, n, ip);
      LeftoverIsLater(c, run, i, n, ip, k);
      assert false;
    }
  }

  /**
   * The exception does happen: two requests are let through together, the first 404 is
   * penalised for 10 seconds, and the other request's 404 arrives after 20. It is over the
   * threshold and nothing blocks the address any more, but it goes unpunished.
   */
  lemma LingeringEntryShields(c: Settings, run: seq<Event>, ip: Ip)
    requires c == Settings(1, 60.0, 10.0, 1024)
    requires run == [At(0.0, Check(ip)), At(0.0, Check(ip)), At(0.0, Record(ip)), At(20.0, Record(ip))]
    ensures Chronological(run) && Admitted(c, run, 0, 2, ip) && Admitted(c, run, 1, 3, ip)
    ensures RecentCount(c, run, 3) >= c.threshold && !Blocked(c, run, 3, ip, 20.0) && !Answer(c, run, 3)
  {
    StatesOfSlowRun(c, run, ip);
    assert Outlived(c, run, 1, 3, ip, 2) by {
      assert Leftover(c, run, 2, 3, ip);
    }
    assert 3 in Recent(run, 4, ip, 20.0, c.window);
    WrapperOrderMeetsIntentIff(c, run, 1, 3, ip);
  }

  lemma StatesOfSlowRun(c: Settings, run: seq<Event>, ip: Ip)
    requires c == Settings(1, 60.0, 10.0, 1024)
    requires run == [At(0.0, Check(ip)), At(0.0, Check(ip)), At(0.0, Record(ip)), At(20.0, Record(ip))]
    ensures !Answer(c, run, 0) && !Answer(c, run, 1) && Answer(c, run, 2)
    ensures After(c, run[..3]).sinceSweep == 1 && After(c, run[..3]).penalties == map[ip := 10.0]
  {
    assert run[..0] == [];
    AfterNext(c, run, 0);
    AfterNext(c, run, 1);
    AfterNext(c, run, 2);
    assert InWindow([], 0.0, 60.0) == [];
  }

  // ---- The lifetime count ----

  function Records(run: seq<Event>): set<nat> {
    set k: nat | k < |run| && run[k].call.Record?
  }

  /** Every sweepEvery-th 404, of whatever address, sweeps. */
  predicate Sweeps(c: Settings, run: seq<Event>, j: nat)
    requires j < |run|
  {
    run[j].call.Record? && (c.sweepEvery <= 1 || |Records(run[..j + 1])| % c.sweepEvery == 0)
  }

  lemma StepCounts(c: Settings, s: Tracker, e: Event)
    ensures Step(c, s, e).1.sinceSweep
            == if !e.call.Record? then s.sinceSweep
               else if s.sinceSweep + 1 >= c.sweepEvery then 0 else s.sinceSweep + 1
  {
    hide Tracker.Sweep, InWindow;
  }

  lemma RecordsNext(run: seq<Event>, n: nat)
    requires n < |run|
    ensures |Records(run[..n + 1])| == |Records(run[..n])| + if run[n].call.Record? then 1 else 0
  {
    assert Records(run[..n + 1]) == Records(run[..n]) + if run[n].call.Record? then {n} else {};
  }

  lemma {:induction false} SweepsInTurn(c: Settings, run: seq<Event>, n: nat)
    requires n <= |run|
    ensures After(c, run[..n]).sinceSweep == Turn(c.sweepEvery, |Records(run[..n])|)
    decreases n
  {
    if n == 0 {
      assert Records(run[..0]) == {};
    } else {
      hide Turn, Step, Records, After;
      SweepsInTurn(c, run, n - 1);
      AfterNext(c, run, n - 1);
      StepCounts(c, After(c, run[..n - 1]), run[n - 1]);
      RecordsNext(run, n - 1);
      NextTurn(c.sweepEvery, |Records(run[..n - 1])|);
    }
  }

  /** The 404 at j sweeps, at a time when ip has neither a 404 in the window nor a penalty in force. */
  ghost predicate Forgets(c: Settings, run: seq<Event>, j: nat, ip: Ip)
    requires j < |run|
  {
    Sweeps(c, run, j) && Recent(run, j, ip, run[j].time, c.window) == {} && !Blocked(c, run, j, ip, run[j].time)
  }

  /** The 404s of ip after the last time a sweep forgot it; a 404 that sweeps counts itself afterwards. */
  ghost function Remembered(c: Settings, run: seq<Event>, ip: Ip): set<nat> {
    set k: nat | k < |run| && run[k].call == Record(ip) && forall j :: k < j < |run| ==> !Forgets(c, run, j, ip)
  }

  /** What a sweep forgets is settled by the events before it. */
  lemma ForgetsInPrefix(c: Settings, run: seq<Event>, n: nat, j: nat, ip: Ip)
    requires j < n <= |run|
    ensures Forgets(c, run[..n], j, ip) <==> Forgets(c, run, j, ip)
  {
    var t := run[j].time;
    assert run[..n][..j + 1] == run[..j + 1];
    assert Recent(run[..n], j, ip, t, c.window) == Recent(run, j, ip, t, c.window);
    assert forall k :: 0 <= k < j ==> run[..n][..k] == run[..k];
    assert forall k :: 0 <= k < j ==> (Penalises(c, run[..n], k, ip) <==> Penalises(c, run, k, ip));
    hide Answer, After;
  }

  lemma RememberedNext(c: Settings, run: seq<Event>, ip: Ip)
    requires run != []
    ensures var n := |run| - 1;
            Remembered(c, run, ip)
            == (if Forgets(c, run, n, ip) then {} else Remembered(c, run[..n], ip))
               + (if run[n].call == Record(ip) then {n} else {})
  {
    var n := |run| - 1;
    hide Forgets;
    forall j | 0 <= j < n ensures Forgets(c, run[..n], j, ip) <==> Forgets(c, run, j, ip) {
      ForgetsInPrefix(c, run, n, j, ip);
    }
  }

  /** The sweep that may come before a 404 drops an address's count exactly when it forgets the address. */
  lemma TickForgets(c: Settings, run: seq<Event>, ip: Ip)
    requires Chronological(run) && run != [] && run[|run| - 1].call.Record?
    ensures var n := |run| - 1;
            var s := After(c, run[..n]);
            s.Tick(c, run[n].time).Total(ip) == if Forgets(c, run, n, ip) then 0 else s.Total(ip)
  {
    var n := |run| - 1;
    var s, t := After(c, run[..n]), run[n].time;
    TotalsNameLogged(c, run[..n], ip);
    SweepIsDue(c, run);
    BlockedIffStored(c, run, n, ip);
    LogTracks(c, run[..n], ip, t);
    IdleIffEmpty(Stamps(s.log, ip), t, c.window);
    WindowCountIsRecent(c, run[..n], ip, t);
    assert Recent(run[..n], n, ip, t, c.window) == Recent(run, n, ip, t, c.window);
    hide After, Blocked, Chronological;
  }

  lemma SweepIsDue(c: Settings, run: seq<Event>)
    requires run != [] && run[|run| - 1].call.Record?
    ensures Sweeps(c, run, |run| - 1) <==> After(c, run[..|run| - 1]).sinceSweep + 1 >= c.sweepEvery
  {
    var n := |run| - 1;
    SweepsInTurn(c, run, n);
    assert run[..n + 1] == run;
    RecordsNext(run, n);
    hide Records;
    NextTurn(c.sweepEvery, |Records(run[..n])|);
    TurnIsOver(c.sweepEvery, |Records(run[..n])|);
  }

  /** The lifetime count is the number of 404s since the last sweep that forgot the address. */
  lemma {:induction false} LifetimeCountIs(c: Settings, run: seq<Event>, ip: Ip)
    requires Chronological(run)
    ensures After(c, run).Total(ip) == |Remembered(c, run, ip)|
    decreases |run|
  {
    if run == [] {
      assert Remembered(c, run, ip) == {};
    } else {
      var n := |run| - 1;
      LifetimeCountIs(c, run[..n], ip);
      RememberedNext(c, run, ip);
      if run[n].call.Record? {
        TickForgets(c, run, ip);
      }
      hide Forgets, Remembered, Tracker.Tick;
    }
  }
}
