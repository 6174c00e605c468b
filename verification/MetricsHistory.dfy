/** The sparkline sampler of classes/metrics_history.py. */
module MetricsHistory {
  import opened Sequences

  datatype Kind = Gauge | Counter

  datatype Key = Key(name: string, labels: map<string, string>)

  datatype Sample = Sample(key: Key, value: real)

  /** One tracked metric as collected: its kind and its samples. */
  datatype Family = Family(kind: Kind, samples: seq<Sample>)

  datatype Point = Point(time: real, value: real)

  predicate EndsWith(s: string, suffix: string) {
    |s| >= |suffix| && s[|s| - |suffix|..] == suffix
  }

  predicate IsData(sample: Sample) {
    !EndsWith(sample.key.name, "_created")
  }

  /** deque(maxlen=points).append */
  function Push<T>(d: seq<T>, x: T, points: nat): seq<T> {
    var longer := d + [x];
    if |longer| > points then longer[|longer| - points..] else longer
  }

  datatype Observation = Observation(kind: Kind, key: Key, time: real, raw: real)

  datatype History = History(series: map<Key, seq<Point>>, lastRaw: map<Key, real>) {

    function Points(key: Key): seq<Point> {
      if key in series then series[key] else []
    }

    function Observe(o: Observation, points: nat): History {
      var value :=
        if o.kind.Gauge? || o.key !in lastRaw then o.raw
        else if o.raw - lastRaw[o.key] > 0.0 then o.raw - lastRaw[o.key] else 0.0;
      History(series[o.key := Push(Points(o.key), Point(o.time, value), points)],
              if o.kind.Counter? then lastRaw[o.key := o.raw] else lastRaw)
    }

    function ObserveAll(os: seq<Observation>, points: nat): History {
      if os == [] then this
      else ObserveAll(os[..|os| - 1], points).Observe(os[|os| - 1], points)
    }
  }

  /** The observations one sampling pass makes, in order. */
  function Read(kind: Kind, samples: seq<Sample>, now: real): seq<Observation> {
    if samples == [] then []
    else
      var n := |samples| - 1;
      Read(kind, samples[..n], now)
      + (if IsData(samples[n]) then [Observation(kind, samples[n].key, now, samples[n].value)] else [])
  }

  function ReadAll(families: seq<Family>, now: real): seq<Observation> {
    if families == [] then []
    else
      var n := |families| - 1;
      ReadAll(families[..n], now) + Read(families[n].kind, families[n].samples, now)
  }

  class MetricsHistory {
    const points: nat
    var series: map<Key, seq<Point>>
    var lastRaw: map<Key, real>

    function State(): History
      reads this
    {
      History(series, lastRaw)
    }

    constructor (points: nat)
      ensures State() == History(map[], map[]) && this.points == points
    {
      this.points := points;
      series, lastRaw := map[], map[];
    }

    method Append(kind: Kind, sample: Sample, now: real)
      modifies this
      ensures State() == old(State()).Observe(Observation(kind, sample.key, now, sample.value), points)
    {
      var value := sample.value;
      if kind.Counter? {
        if sample.key in lastRaw {
          value := if sample.value - lastRaw[sample.key] > 0.0 then sample.value - lastRaw[sample.key] else 0.0;
        }
        lastRaw := lastRaw[sample.key := sample.value];
      }
      var window := if sample.key in series then series[sample.key] else [];
      series := series[sample.key := Push(window, Point(now, value), points)];
    }

    method SampleFamily(kind: Kind, samples: seq<Sample>, now: real)
      modifies this
      ensures State() == old(State()).ObserveAll(Read(kind, samples, now), points)
    {
      hide EndsWith, IsData, Read, History.Observe, History.ObserveAll;
      ReadNothing(kind, now, old(State()), points);
      assert samples[..0] == [];
      for i := 0 to |samples|
        invariant State() == old(State()).ObserveAll(Read(kind, samples[..i], now), points)
      {
        ReadOneMore(kind, samples, i, now, old(State()), points);
        if IsData(samples[i]) {
          Append(kind, samples[i], now);
        }
      }
      assert samples[..|samples|] == samples;
    }

    method SampleNow(tracked: seq<Family>, now: real)
      modifies this
      ensures State() == old(State()).ObserveAll(ReadAll(tracked, now), points)
    {
      for f := 0 to |tracked|
        invariant State() == old(State()).ObserveAll(ReadAll(tracked[..f], now), points)
      {
        SampleFamily(tracked[f].kind, tracked[f].samples, now);
        assert tracked[..f + 1][..f] == tracked[..f];
        ObserveInTwo(old(State()), ReadAll(tracked[..f], now), Read(tracked[f].kind, tracked[f].samples, now), points);
      }
      assert tracked[..|tracked|] == tracked;
    }
  }

  lemma ReadNothing(kind: Kind, now: real, h: History, points: nat)
    ensures h.ObserveAll(Read(kind, [], now), points) == h
  {
  }

  lemma ReadOneMore(kind: Kind, samples: seq<Sample>, i: nat, now: real, h: History, points: nat)
    requires i < |samples|
    ensures var before := h.ObserveAll(Read(kind, samples[..i], now), points);
            var o := Observation(kind, samples[i].key, now, samples[i].value);
            h.ObserveAll(Read(kind, samples[..i + 1], now), points)
            == if IsData(samples[i]) then before.Observe(o, points) else before
  {
    hide EndsWith, IsData, History.Observe;
    var os := Read(kind, samples[..i], now);
    assert samples[..i + 1][..i] == samples[..i];
    if IsData(samples[i]) {
      var o := Observation(kind, samples[i].key, now, samples[i].value);
      assert (os + [o])[..|os|] == os;
    } else {
      assert os + [] == os;
    }
  }

  lemma {:induction false} ObserveInTwo(h: History, a: seq<Observation>, b: seq<Observation>, points: nat)
    ensures h.ObserveAll(a + b, points) == h.ObserveAll(a, points).ObserveAll(b, points)
    decreases |b|
  {
    if b == [] {
      assert a + b == a;
    } else {
      var n := |b| - 1;
      assert (a + b)[..|a + b| - 1] == a + b[..n];
      ObserveInTwo(h, a, b[..n], points);
    }
  }

  // ---- What a series shows ----

  /** The raw values observed for key, oldest first. */
  function Raws(os: seq<Observation>, key: Key): seq<real> {
    if os == [] then []
    else
      var before := Raws(os[..|os| - 1], key);
      if os[|os| - 1].key == key then before + [os[|os| - 1].raw] else before
  }

  /** The increases between successive values, the first counted from zero and drops shown as zero. */
  function Deltas(raws: seq<real>): (deltas: seq<real>)
    ensures |deltas| == |raws|
  {
    if raws == [] then []
    else
      var n := |raws| - 1;
      var step := if n == 0 then raws[0] else raws[n] - raws[n - 1];
      Deltas(raws[..n]) + [if n > 0 && step < 0.0 then 0.0 else step]
  }

  /** From where on a list of n is shown by a window of `points`. */
  function Start(n: nat, points: nat): (start: nat)
    ensures start <= n
  {
    if n <= points then 0 else n - points
  }

  function Tail<T>(s: seq<T>, n: nat): seq<T> {
    if |s| <= n then s else s[|s| - n..]
  }

  function Values(points: seq<Point>): seq<real> {
    seq(|points|, i requires 0 <= i < |points| => points[i].value)
  }

  /** The samples of key all come from one kind of metric. */
  ghost predicate OfKind(os: seq<Observation>, key: Key, kind: Kind) {
    forall i :: 0 <= i < |os| && os[i].key == key ==> os[i].kind == kind
  }

  lemma TailIsFrom<T>(s: seq<T>, n: nat)
    ensures Tail(s, n) == s[Start(|s|, n)..]
  {
  }

  lemma PushIsTail<T>(s: seq<T>, x: T, n: nat)
    ensures Push(Tail(s, n), x, n) == Tail(s + [x], n)
  {
  }

  lemma PushValues(d: seq<Point>, p: Point, n: nat)
    ensures Values(Push(d, p, n)) == Push(Values(d), p.value, n)
  {
  }

  /** What h shows of a counter whose raw values so far are `raws`. */
  ghost predicate ShowsCounter(h: History, key: Key, raws: seq<real>, points: nat) {
    && Values(h.Points(key)) == Tail(Deltas(raws), points)
    && (key in h.lastRaw <==> raws != [])
    && (raws != [] ==> h.lastRaw[key] == raws[|raws| - 1])
  }

  /** What observing x adds to the series of a counter. */
  function Increase(raws: seq<real>, x: real): real {
    if raws == [] then x else if x - raws[|raws| - 1] > 0.0 then x - raws[|raws| - 1] else 0.0
  }

  lemma DeltasAppend(raws: seq<real>, x: real)
    ensures Deltas(raws + [x]) == Deltas(raws) + [Increase(raws, x)]
  {
    assert (raws + [x])[..|raws|] == raws;
  }

  lemma CounterStep(h: History, o: Observation, raws: seq<real>, points: nat)
    requires ShowsCounter(h, o.key, raws, points) && o.kind == Counter
    ensures ShowsCounter(h.Observe(o, points), o.key, raws + [o.raw], points)
  {
    hide Deltas, Values, Push, Tail;
    var shown := Increase(raws, o.raw);
    DeltasAppend(raws, o.raw);
    PushIsTail(Deltas(raws), shown, points);
    PushValues(h.Points(o.key), Point(o.time, shown), points);
    assert h.Observe(o, points).Points(o.key) == Push(h.Points(o.key), Point(o.time, shown), points);
  }

  /** The bounded series of a counter is the tail of its list of increases; nothing else is ever in it. */
  lemma {:induction false} CounterSeries(os: seq<Observation>, key: Key, points: nat)
    requires OfKind(os, key, Counter)
    ensures ShowsCounter(History(map[], map[]).ObserveAll(os, points), key, Raws(os, key), points)
    decreases |os|
  {
    if os == [] {
      assert Deltas([]) == [];
    } else {
      var n := |os| - 1;
      var h := History(map[], map[]).ObserveAll(os[..n], points);
      CounterSeries(os[..n], key, points);
      hide Deltas, Values, Tail, Push;
      if os[n].key == key {
        hide ShowsCounter, History.Observe;
        CounterStep(h, os[n], Raws(os[..n], key), points);
      }
    }
  }

  /** A gauge's series is the tail of its raw values. */
  lemma {:induction false} GaugeSeries(os: seq<Observation>, key: Key, points: nat)
    requires OfKind(os, key, Gauge)
    ensures var h := History(map[], map[]).ObserveAll(os, points);
            Values(h.Points(key)) == Tail(Raws(os, key), points) && key !in h.lastRaw
    decreases |os|
  {
    if os != [] {
      var n := |os| - 1;
      var o, h, raws := os[n], History(map[], map[]).ObserveAll(os[..n], points), Raws(os[..n], key);
      GaugeSeries(os[..n], key, points);
      if o.key == key {
        PushIsTail(raws, o.raw, points);
        PushValues(h.Points(key), Point(o.time, o.raw), points);
      }
    }
  }

  function Sum(s: seq<real>): real {
    if s == [] then 0.0 else Sum(s[..|s| - 1]) + s[|s| - 1]
  }

  /** The raw value just before position j, zero when there is none. */
  function RawBefore(raws: seq<real>, j: nat): real
    requires j <= |raws|
  {
    if j == 0 then 0.0 else raws[j - 1]
  }

  /** The counter never drops from position j on. */
  ghost predicate Climbs(raws: seq<real>, j: nat) {
    forall i :: 0 < i < |raws| && j <= i ==> raws[i - 1] <= raws[i]
  }

  lemma ClimbsAppend(raws: seq<real>, x: real, j: nat)
    requires j <= |raws|
    ensures Climbs(raws + [x], j) <==> Climbs(raws, j) && (raws != [] ==> raws[|raws| - 1] <= x)
  {
    var longer := raws + [x];
    assert forall i :: 0 <= i < |raws| ==> longer[i] == raws[i];
    assert longer[|raws|] == x;
  }

  /** One more raw value adds its increase to what is shown from position j on. */
  lemma SumOneMore(raws: seq<real>, x: real, j: nat)
    requires j <= |raws|
    ensures Sum(Deltas(raws + [x])[j..]) == Sum(Deltas(raws)[j..]) + Increase(raws, x)
  {
    DeltasAppend(raws, x);
    hide Deltas, Increase;
    var shown := Deltas(raws)[j..];
    assert (shown + [Increase(raws, x)])[..|shown|] == shown;
    assert Deltas(raws + [x])[j..] == shown + [Increase(raws, x)];
  }

  lemma {:induction false} DeltasTelescope(raws: seq<real>, j: nat)
    requires j <= |raws|
    ensures Sum(Deltas(raws)[j..]) >= RawBefore(raws, |raws|) - RawBefore(raws, j)
    ensures Sum(Deltas(raws)[j..]) == RawBefore(raws, |raws|) - RawBefore(raws, j) <==> Climbs(raws, j)
    decreases |raws|
  {
    if j == |raws| {
      assert Deltas(raws)[j..] == [];
    } else {
      var before, x := raws[..|raws| - 1], raws[|raws| - 1];
      hide Deltas, Sum, Climbs;
      assert raws == before + [x];
      DeltasTelescope(before, j);
      ClimbsAppend(before, x, j);
      SumOneMore(before, x, j);
    }
  }

  /**
   * The window accounts for the counter: the points shown add up to its latest raw value
   * less the value just before the window (zero once the window reaches back to the start)
   * if and only if the counter did not drop inside the window, and to more if it did.
   */
  lemma WindowAccountsForCounter(os: seq<Observation>, key: Key, points: nat)
    requires OfKind(os, key, Counter)
    ensures var raws := Raws(os, key);
            var start := Start(|raws|, points);
            var shown := Sum(Values(History(map[], map[]).ObserveAll(os, points).Points(key)));
            && shown >= RawBefore(raws, |raws|) - RawBefore(raws, start)
            && (shown == RawBefore(raws, |raws|) - RawBefore(raws, start) <==> Climbs(raws, start))
  {
    var raws := Raws(os, key);
    var start := Start(|raws|, points);
    CounterSeries(os, key, points);
    DeltasTelescope(raws, start);
    TailIsFrom(Deltas(raws), points);
  }

  // ---- What a sampling pass reads ----

  /** The name of a creation stamp, which counters expose beside their data. */
  ghost predicate Created(name: string) {
    exists p: string :: name == p + "_created"
  }

  lemma IsDataIff(sample: Sample)
    ensures IsData(sample) <==> !Created(sample.key.name)
  {
    var name := sample.key.name;
    if !IsData(sample) {
      var k := |name| - |"_created"|;
      assert name == name[..k] + name[k..];
    }
    if p: string :| name == p + "_created" {
      assert name[|p|..] == "_created";
    }
  }

  /** The observations of key among os. */
  function Of(os: seq<Observation>, key: Key): seq<Observation> {
    if os == [] then []
    else Of(os[..|os| - 1], key) + if os[|os| - 1].key == key then [os[|os| - 1]] else []
  }

  lemma {:induction false} OfConcat(a: seq<Observation>, b: seq<Observation>, key: Key)
    ensures Of(a + b, key) == Of(a, key) + Of(b, key)
    decreases |b|
  {
    if b == [] {
      assert a + b == a;
    } else {
      assert (a + b)[..|a + b| - 1] == a + b[..|b| - 1];
      OfConcat(a, b[..|b| - 1], key);
    }
  }

  /** A family's samples of key in their order, each with the family's kind. */
  function Wanted(family: Family, n: nat, now: real, key: Key): seq<Observation>
    requires n <= |family.samples|
  {
    if n == 0 then []
    else
      var sample := family.samples[n - 1];
      Wanted(family, n - 1, now, key)
      + if sample.key == key then [Observation(family.kind, key, now, sample.value)] else []
  }

  /** All families' samples of key, family by family. */
  function WantedAll(families: seq<Family>, now: real, key: Key): seq<Observation> {
    if families == [] then []
    else
      var n := |families| - 1;
      WantedAll(families[..n], now, key) + Wanted(families[n], |families[n].samples|, now, key)
  }

  lemma ReadNext(kind: Kind, samples: seq<Sample>, n: nat, now: real)
    requires n < |samples|
    ensures Read(kind, samples[..n + 1], now)
            == Read(kind, samples[..n], now)
               + if IsData(samples[n]) then [Observation(kind, samples[n].key, now, samples[n].value)] else []
  {
    assert samples[..n + 1][..n] == samples[..n];
  }

  lemma {:induction false} ReadIsWanted(family: Family, n: nat, now: real, key: Key)
    requires n <= |family.samples|
    ensures Of(Read(family.kind, family.samples[..n], now), key)
            == if Created(key.name) then [] else Wanted(family, n, now, key)
    decreases n
  {
    if n > 0 {
      var m := n - 1;
      var o := Observation(family.kind, family.samples[m].key, now, family.samples[m].value);
      hide Read, Of, IsData, Created;
      ReadIsWanted(family, m, now, key);
      ReadNext(family.kind, family.samples, m, now);
      IsDataIff(family.samples[m]);
      OfConcat(Read(family.kind, family.samples[..m], now), if IsData(family.samples[m]) then [o] else [], key);
      OfOne(o, key);
    }
  }

  lemma OfOne(o: Observation, key: Key)
    ensures Of([o], key) == if o.key == key then [o] else []
    ensures Of([], key) == []
  {
    assert [o][..0] == [];
  }

  /**
   * A pass reads exactly the samples of each key, in the order of the families and of the samples
   * in them, at the time of the pass; of creation stamps it reads nothing.
   */
  lemma {:induction false} PassReadsAll(families: seq<Family>, now: real, key: Key)
    ensures Of(ReadAll(families, now), key) == if Created(key.name) then [] else WantedAll(families, now, key)
    decreases |families|
  {
    if families != [] {
      var n := |families| - 1;
      var family := families[n];
      PassReadsAll(families[..n], now, key);
      ReadIsWanted(family, |family.samples|, now, key);
      assert family.samples[..|family.samples|] == family.samples;
      OfConcat(ReadAll(families[..n], now), Read(family.kind, family.samples, now), key);
      hide Created;
    }
  }

  // ---- The dashboard over many passes ----

  datatype Pass = Pass(now: real, families: seq<Family>)

  function AfterPasses(passes: seq<Pass>, points: nat): History {
    if passes == [] then History(map[], map[])
    else
      var n := |passes| - 1;
      AfterPasses(passes[..n], points).ObserveAll(ReadAll(passes[n].families, passes[n].now), points)
  }

  function ReadPasses(passes: seq<Pass>): seq<Observation> {
    if passes == [] then []
    else
      var n := |passes| - 1;
      ReadPasses(passes[..n]) + ReadAll(passes[n].families, passes[n].now)
  }

  /** What the metrics held for key, pass after pass. */
  function WantedOverall(passes: seq<Pass>, key: Key): seq<Observation> {
    if passes == [] then []
    else
      var n := |passes| - 1;
      WantedOverall(passes[..n], key) + WantedAll(passes[n].families, passes[n].now, key)
  }

  lemma {:induction false} PassesObserve(passes: seq<Pass>, points: nat)
    ensures AfterPasses(passes, points) == History(map[], map[]).ObserveAll(ReadPasses(passes), points)
    decreases |passes|
  {
    if passes != [] {
      var n := |passes| - 1;
      PassesObserve(passes[..n], points);
      ObserveInTwo(History(map[], map[]), ReadPasses(passes[..n]), ReadAll(passes[n].families, passes[n].now), points);
    }
  }

  lemma {:induction false} PassesReadAll(passes: seq<Pass>, key: Key)
    ensures Of(ReadPasses(passes), key) == if Created(key.name) then [] else WantedOverall(passes, key)
    decreases |passes|
  {
    if passes != [] {
      var n := |passes| - 1;
      PassesReadAll(passes[..n], key);
      PassReadsAll(passes[n].families, passes[n].now, key);
      OfConcat(ReadPasses(passes[..n]), ReadAll(passes[n].families, passes[n].now), key);
      hide Created, ReadAll;
    }
  }

  function RawOf(os: seq<Observation>): seq<real> {
    seq(|os|, i requires 0 <= i < |os| => os[i].raw)
  }

  function TimesOf(os: seq<Observation>): seq<real> {
    seq(|os|, i requires 0 <= i < |os| => os[i].time)
  }

  lemma SameLength(os: seq<Observation>)
    ensures |RawOf(os)| == |TimesOf(os)| == |os|
  {
  }

  function Times(points: seq<Point>): seq<real> {
    seq(|points|, i requires 0 <= i < |points| => points[i].time)
  }

  /** A series depends on its own observations only. */
  lemma {:induction false} OwnObservations(os: seq<Observation>, key: Key)
    ensures Raws(os, key) == RawOf(Of(os, key))
    ensures forall kind :: OfKind(os, key, kind) <==> forall o :: o in Of(os, key) ==> o.kind == kind
    ensures forall o :: o in Of(os, key) ==> o.key == key
    decreases |os|
  {
    if os != [] {
      var n := |os| - 1;
      OwnObservations(os[..n], key);
      forall kind
        ensures OfKind(os, key, kind) <==> OfKind(os[..n], key, kind) && (os[n].key == key ==> os[n].kind == kind)
      {
        KindNext(os, key, kind);
      }
      hide OfKind;
    }
  }

  lemma KindNext(os: seq<Observation>, key: Key, kind: Kind)
    requires os != []
    ensures var n := |os| - 1;
            OfKind(os, key, kind) <==> OfKind(os[..n], key, kind) && (os[n].key == key ==> os[n].kind == kind)
  {
    var n := |os| - 1;
    assert forall i :: 0 <= i < n ==> os[..n][i] == os[i];
  }

  lemma PushTimes(d: seq<Point>, p: Point, n: nat)
    ensures Times(Push(d, p, n)) == Push(Times(d), p.time, n)
  {
  }

  lemma OfNext(os: seq<Observation>, n: nat, key: Key)
    requires n < |os|
    ensures Of(os[..n + 1], key) == Of(os[..n], key) + if os[n].key == key then [os[n]] else []
  {
    assert os[..n + 1][..n] == os[..n];
  }

  lemma ObserveNext(h: History, os: seq<Observation>, n: nat, points: nat)
    requires n < |os|
    ensures h.ObserveAll(os[..n + 1], points) == h.ObserveAll(os[..n], points).Observe(os[n], points)
  {
    assert os[..n + 1][..n] == os[..n];
  }

  /** Every point carries the time of its observation. */
  lemma {:induction false} SeriesTimes(os: seq<Observation>, n: nat, key: Key, points: nat)
    requires n <= |os|
    ensures Times(History(map[], map[]).ObserveAll(os[..n], points).Points(key))
            == Tail(TimesOf(Of(os[..n], key)), points)
    decreases n
  {
    if n > 0 {
      var m := n - 1;
      var o, h, own := os[m], History(map[], map[]).ObserveAll(os[..m], points), Of(os[..m], key);
      hide Times, Tail, Push, History.Observe, History.ObserveAll, History.Points, Of;
      SeriesTimes(os, m, key, points);
      OfNext(os, m, key);
      ObserveNext(History(map[], map[]), os, m, points);
      PushedTime(h, o, points);
      if o.key == key {
        assert TimesOf(own + [o]) == TimesOf(own) + [o.time];
        PushIsTail(TimesOf(own), o.time, points);
      } else {
        assert own + [] == own;
      }
    }
  }

  lemma PushedTime(h: History, o: Observation, points: nat)
    ensures Times(h.Observe(o, points).Points(o.key)) == Push(Times(h.Points(o.key)), o.time, points)
    ensures forall key :: key != o.key ==> h.Observe(o, points).Points(key) == h.Points(key)
  {
    hide Push, Times;
    var value :=
      if o.kind.Gauge? || o.key !in h.lastRaw then o.raw
      else if o.raw - h.lastRaw[o.key] > 0.0 then o.raw - h.lastRaw[o.key] else 0.0;
    PushTimes(h.Points(o.key), Point(o.time, value), points);
  }

  /**
   * Over any passes, the series of a counter that is no creation stamp shows the last passes that
   * had it, each at its time, and adds up to the counter's latest value less the one before the
   * window exactly when the counter did not drop inside it. Creation stamps have no series.
   */
  lemma DashboardShowsCounter(passes: seq<Pass>, key: Key, points: nat)
    requires !Created(key.name) && forall o :: o in WantedOverall(passes, key) ==> o.kind == Counter
    ensures var wanted, shown := WantedOverall(passes, key), AfterPasses(passes, points).Points(key);
            var raws, start := RawOf(wanted), Start(|wanted|, points);
            && Times(shown) == TimesOf(wanted)[start..]
            && Sum(Values(shown)) >= RawBefore(raws, |raws|) - RawBefore(raws, start)
            && (Sum(Values(shown)) == RawBefore(raws, |raws|) - RawBefore(raws, start) <==> Climbs(raws, start))
  {
    var os := ReadPasses(passes);
    PassesObserve(passes, points);
    PassesReadAll(passes, key);
    OwnObservations(os, key);
    SeriesTimes(os, |os|, key, points);
    assert os[..|os|] == os;
    WindowAccountsForCounter(os, key, points);
    TailIsFrom(TimesOf(WantedOverall(passes, key)), points);
    SameLength(WantedOverall(passes, key));
    hide Created, ReadPasses, AfterPasses, Sum, Climbs, Raws, Of, WantedOverall, OfKind;
    hide Tail, Start, TimesOf, RawOf, Values;
  }

  /** The series of a gauge shows the values of the last passes that had it, each at its time. */
  lemma DashboardShowsGauge(passes: seq<Pass>, key: Key, points: nat)
    requires !Created(key.name) && forall o :: o in WantedOverall(passes, key) ==> o.kind == Gauge
    ensures var wanted, shown := WantedOverall(passes, key), AfterPasses(passes, points).Points(key);
            var start := Start(|wanted|, points);
            Times(shown) == TimesOf(wanted)[start..] && Values(shown) == RawOf(wanted)[start..]
  {
    var os := ReadPasses(passes);
    PassesObserve(passes, points);
    PassesReadAll(passes, key);
    OwnObservations(os, key);
    SeriesTimes(os, |os|, key, points);
    assert os[..|os|] == os;
    GaugeSeries(os, key, points);
    TailIsFrom(TimesOf(WantedOverall(passes, key)), points);
    TailIsFrom(RawOf(WantedOverall(passes, key)), points);
    SameLength(WantedOverall(passes, key));
    hide Created, ReadPasses, AfterPasses, Raws, Of, WantedOverall, OfKind, Tail, Start, TimesOf, RawOf, Values;
  }

  lemma DashboardSkipsStamps(passes: seq<Pass>, key: Key, points: nat)
    requires Created(key.name)
    ensures AfterPasses(passes, points).Points(key) == []
  {
    var os := ReadPasses(passes);
    PassesObserve(passes, points);
    PassesReadAll(passes, key);
    SeriesTimes(os, |os|, key, points);
    assert os[..|os|] == os;
    assert Tail(TimesOf([]), points) == [];
    hide Created, ReadPasses, AfterPasses, Of;
  }
}
