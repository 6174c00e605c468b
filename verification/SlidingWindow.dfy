/** Timestamp lists and the part of them that lies in a rolling window. */
module SlidingWindow {

  /** The list kept for k, empty when there is none. */
  function Stamps<K(==)>(lists: map<K, seq<real>>, k: K): seq<real> {
    if k in lists then lists[k] else []
  }

  /** Nothing in the window any more, judged by the last timestamp alone. */
  predicate Idle(ts: seq<real>, now: real, window: real) {
    ts == [] || now - ts[|ts| - 1] >= window
  }

  /** The timestamps younger than `window` at `now`. */
  function InWindow(ts: seq<real>, now: real, window: real): seq<real> {
    if ts == [] then []
    else if now - ts[0] < window then [ts[0]] + InWindow(ts[1..], now, window)
    else InWindow(ts[1..], now, window)
  }

  ghost predicate Sorted(ts: seq<real>) {
    forall i, j :: 0 <= i <= j < |ts| ==> ts[i] <= ts[j]
  }

  ghost predicate UpTo(ts: seq<real>, now: real) {
    forall i :: 0 <= i < |ts| ==> ts[i] <= now
  }

  lemma {:induction false} WindowAppend(ts: seq<real>, t: real, now: real, window: real)
    ensures InWindow(ts + [t], now, window)
            == InWindow(ts, now, window) + (if now - t < window then [t] else [])
  {
    if ts == [] {
      assert ts + [t] == [t];
      assert [t][1..] == [];
    } else {
      assert (ts + [t])[1..] == ts[1..] + [t];
      WindowAppend(ts[1..], t, now, window);
    }
  }

  /** What was pruned earlier would be pruned now. */
  lemma {:induction false} PruneTwice(ts: seq<real>, earlier: real, now: real, window: real)
    requires earlier <= now
    ensures InWindow(InWindow(ts, earlier, window), now, window) == InWindow(ts, now, window)
  {
    if ts != [] {
      PruneTwice(ts[1..], earlier, now, window);
      if earlier - ts[0] < window {
        var rest := InWindow(ts[1..], earlier, window);
        assert ([ts[0]] + rest)[1..] == rest;
      }
    }
  }

  lemma {:induction false} WindowLength(ts: seq<real>, now: real, window: real)
    ensures |InWindow(ts, now, window)| <= |ts|
  {
    if ts != [] {
      WindowLength(ts[1..], now, window);
    }
  }

  /** Which of the timestamps are younger than `window` at `now`. */
  function Live(ts: seq<real>, now: real, window: real): set<nat> {
    set i: nat | i < |ts| && now - ts[i] < window
  }

  lemma {:induction false} WindowCounts(ts: seq<real>, now: real, window: real)
    ensures |InWindow(ts, now, window)| == |Live(ts, now, window)|
    decreases |ts|
  {
    if ts == [] {
      assert Live(ts, now, window) == {};
    } else {
      var n := |ts| - 1;
      WindowCounts(ts[..n], now, window);
      assert ts[..n] + [ts[n]] == ts;
      WindowAppend(ts[..n], ts[n], now, window);
      assert Live(ts, now, window) == Live(ts[..n], now, window) + if now - ts[n] < window then {n} else {};
    }
  }

  /** In a sorted list the first live timestamp is the oldest. */
  lemma OldestLive(ts: seq<real>, now: real, window: real) returns (oldest: nat)
    requires Sorted(ts) && InWindow(ts, now, window) != []
    ensures oldest in Live(ts, now, window) && InWindow(ts, now, window)[0] == ts[oldest]
    ensures forall i :: i in Live(ts, now, window) ==> ts[oldest] <= ts[i]
  {
    oldest := WindowIsTail(ts, now, window);
  }

  /** In a sorted list the window is a tail: everything from some place on. */
  lemma {:induction false} WindowIsTail(ts: seq<real>, now: real, window: real) returns (k: nat)
    requires Sorted(ts)
    ensures k <= |ts| && InWindow(ts, now, window) == ts[k..]
    ensures forall i :: 0 <= i < |ts| ==> (now - ts[i] < window <==> k <= i)
  {
    if ts == [] {
      k := 0;
    } else {
      var rest := ts[1..];
      var k' := WindowIsTail(rest, now, window);
      if now - ts[0] < window {
        k := 0;
        assert forall i :: 0 <= i < |rest| ==> rest[i] == ts[i + 1] && ts[0] <= ts[i + 1];
        assert rest != [] ==> now - rest[0] < window;
        assert [ts[0]] + rest == ts;
      } else {
        k := k' + 1;
        forall i | 0 <= i < |ts| ensures now - ts[i] < window <==> k <= i {
          if i > 0 { assert ts[i] == rest[i - 1]; }
        }
      }
    }
  }

  lemma WindowSorted(ts: seq<real>, now: real, window: real)
    requires Sorted(ts)
    ensures Sorted(InWindow(ts, now, window))
    ensures forall limit :: UpTo(ts, limit) ==> UpTo(InWindow(ts, now, window), limit)
  {
    var k := WindowIsTail(ts, now, window);
  }

  /** A list whose last timestamp has left the window has nothing in any later window. */
  lemma StaleStaysEmpty(ts: seq<real>, earlier: real, now: real, window: real)
    requires Sorted(ts) && earlier <= now && Idle(ts, earlier, window)
    ensures InWindow(ts, now, window) == []
  {
  }

  lemma IdleIffEmpty(ts: seq<real>, now: real, window: real)
    requires Sorted(ts)
    ensures Idle(ts, now, window) <==> InWindow(ts, now, window) == []
  {
    var k := WindowIsTail(ts, now, window);
  }

  // ---- A pruned list that stands for a full one ----

  /** Both lists are in order, and every window from `now` on shows the same part of them. */
  ghost predicate Tracks(kept: seq<real>, full: seq<real>, now: real, window: real) {
    && Sorted(kept) && UpTo(kept, now) && Sorted(full) && UpTo(full, now)
    && InWindow(kept, now, window) == InWindow(full, now, window)
  }

  lemma TracksLater(kept: seq<real>, full: seq<real>, earlier: real, now: real, window: real)
    requires Tracks(kept, full, earlier, window) && earlier <= now
    ensures Tracks(kept, full, now, window)
  {
    PruneTwice(kept, earlier, now, window);
    PruneTwice(full, earlier, now, window);
  }

  /** A list that looks idle can be forgotten. */
  lemma ForgetTracks(kept: seq<real>, full: seq<real>, now: real, window: real)
    requires Tracks(kept, full, now, window) && Idle(kept, now, window)
    ensures Tracks([], full, now, window)
  {
    StaleStaysEmpty(kept, now, now, window);
  }

  lemma PruneTracks(kept: seq<real>, full: seq<real>, now: real, window: real)
    requires Tracks(kept, full, now, window)
    ensures Tracks(InWindow(kept, now, window), full, now, window)
  {
    WindowSorted(kept, now, window);
    PruneTwice(kept, now, now, window);
  }

  lemma AppendSorted(ts: seq<real>, now: real)
    requires Sorted(ts) && UpTo(ts, now)
    ensures Sorted(ts + [now]) && UpTo(ts + [now], now)
  {
  }

  lemma AppendTracks(kept: seq<real>, full: seq<real>, now: real, window: real)
    requires Tracks(kept, full, now, window)
    ensures Tracks(kept + [now], full + [now], now, window)
  {
    AppendSorted(kept, now);
    AppendSorted(full, now);
    WindowAppend(kept, now, now, window);
    WindowAppend(full, now, now, window);
  }

  // ---- Spacing: no more than `limit` timestamps per window ----

  /** Any two entries `limit` places apart are at least a window apart. */
  ghost predicate Spaced(ts: seq<real>, limit: nat, window: real) {
    forall i, j :: 0 <= i && j == i + limit && j < |ts| ==> ts[j] - ts[i] >= window
  }

  lemma SpacedAt(ts: seq<real>, limit: nat, window: real, i: nat)
    requires Spaced(ts, limit, window) && i + limit < |ts|
    ensures ts[i + limit] - ts[i] >= window
  {
  }

  lemma WindowHoldsAtMostLimit(ts: seq<real>, limit: nat, now: real, window: real)
    requires Sorted(ts) && UpTo(ts, now) && Spaced(ts, limit, window)
    ensures |InWindow(ts, now, window)| <= limit
  {
    var k := WindowIsTail(ts, now, window);
    if k + limit < |ts| {
      SpacedAt(ts, limit, window, k);
      assert false;
    }
  }

  lemma AppendKeepsSpacing(ts: seq<real>, limit: nat, now: real, window: real)
    requires limit >= 1
    requires Sorted(ts) && UpTo(ts, now) && Spaced(ts, limit, window)
    requires |InWindow(ts, now, window)| < limit
    ensures Sorted(ts + [now]) && UpTo(ts + [now], now) && Spaced(ts + [now], limit, window)
  {
    var k := WindowIsTail(ts, now, window);
    forall i, j | 0 <= i && j == i + limit && j < |ts| + 1
      ensures (ts + [now])[j] - (ts + [now])[i] >= window
    {
      if j < |ts| {
        assert ts[j] - ts[i] >= window;
      } else {
        assert i < k;
      }
    }
  }

  /** The timestamps in the half-open interval of length `window` that starts at `start`. */
  function Within(ts: seq<real>, start: real, window: real): seq<real> {
    if ts == [] then []
    else if start <= ts[0] < start + window then [ts[0]] + Within(ts[1..], start, window)
    else Within(ts[1..], start, window)
  }

  lemma {:induction false} WithinAfterEnd(ts: seq<real>, start: real, window: real, limit: nat)
    requires Sorted(ts) && (|ts| > limit ==> ts[limit] >= start + window)
    ensures |Within(ts, start, window)| <= limit
  {
    if ts != [] {
      var rest := ts[1..];
      assert forall i, j :: 0 <= i <= j < |rest| ==> rest[i] == ts[i + 1] && rest[j] == ts[j + 1];
      WithinAfterEnd(rest, start, window, if limit == 0 then 0 else limit - 1);
    }
  }

  lemma {:induction false} AtMostLimitPerInterval(ts: seq<real>, start: real, window: real, limit: nat)
    requires Sorted(ts) && Spaced(ts, limit, window)
    ensures |Within(ts, start, window)| <= limit
  {
    if ts == [] {
    } else if ts[0] < start {
      var rest := ts[1..];
      assert forall i :: 0 <= i < |rest| ==> rest[i] == ts[i + 1];
      assert Spaced(rest, limit, window) by {
        forall i, j | 0 <= i && j == i + limit && j < |rest| ensures rest[j] - rest[i] >= window {
          assert ts[j + 1] - ts[i + 1] >= window;
        }
      }
      AtMostLimitPerInterval(rest, start, window, limit);
    } else {
      if |ts| > limit {
        assert ts[limit] - ts[0] >= window;
      }
      WithinAfterEnd(ts, start, window, limit);
    }
  }

  // ---- Sweeping now and then ----

  /** Where a counter stands after k events that is set back to zero at every `every`-th. */
  function Turn(every: int, k: nat): int {
    if every <= 1 then 0 else k % every
  }

  /** A remainder is known by the quotient it goes with. */
  lemma RemainderIs(x: int, m: int, q: int, r: int)
    requires m > 0 && 0 <= r < m && x == q * m + r
    ensures x % m == r
  {
    var d := x / m - q;
    assert d * m == (x / m) * m - q * m;
    assert d * m == r - x % m;
    assert d >= 1 ==> d * m >= m;
    assert d <= -1 ==> d * m <= -m;
  }

  lemma NextRemainder(k: nat, m: int)
    requires m > 1
    ensures (k + 1) % m == if k % m + 1 >= m then 0 else k % m + 1
  {
    var q, r := k / m, k % m;
    if r + 1 >= m {
      RemainderIs(k + 1, m, q + 1, 0);
    } else {
      RemainderIs(k + 1, m, q, r + 1);
    }
  }

  lemma NextTurn(every: int, k: nat)
    ensures Turn(every, k + 1) == if Turn(every, k) + 1 >= every then 0 else Turn(every, k) + 1
  {
    if every > 1 {
      NextRemainder(k, every);
    }
  }

  lemma TurnIsOver(every: int, k: nat)
    ensures Turn(every, k) + 1 >= every <==> every <= 1 || (k + 1) % every == 0
  {
    if every > 1 {
      NextRemainder(k, every);
    }
  }
}
