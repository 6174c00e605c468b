/** What /health says over whole runs, against what the health passes have really verified. */
module ReadinessRuns {
  import opened Sequences
  import opened RoundRobin
  import opened InsertionDict
  import opened Identities
  import opened StickySession
  import opened ConfigTable
  import opened BackendManagement
  import opened Requests
  import opened Tickets
  import opened Protocol
  import opened SystemRuns

  // ---- Runs that remove no config ----

  /** Polls only add or change configs. */
  ghost predicate DropsNothing(s: System, step: Step) {
    step.Poll? ==> forall n :: n in s.configs ==> n in Winners(step.listing)
  }

  ghost predicate OnlyConfigured(s: System) {
    (forall n :: n in s.lastHealthy ==> n in s.configs) && (forall n :: n in s.probing ==> n in s.configs)
  }

  /** Request steps leave configs and verdicts alone. */
  lemma RequestsJudgeNothing(s: System, step: Step, l: Limits)
    requires Enabled(s, step) && (step.Arrive? || step.Pick? || step.Conclude?)
    ensures var s' := Do(s, step, l);
            s'.configs == s.configs && s'.lastHealthy == s.lastHealthy && s'.probing == s.probing
  {
    hide PickStep, OutcomeStep, OnlyConfigured, AfterPick, AfterConclude, AfterProbe, AfterPoll, CanProbe, CanPoll;
    match step {
      case Pick(id) => PickFrame(s, id, l);
      case Conclude(id, o, limited) => ConcludeFrame(s, id, o, limited, l);
      case _ =>
    }
  }

  lemma ProbeOnlyConfigured(s: System, step: Step, l: Limits)
    requires Enabled(s, step) && OnlyConfigured(s) && step.Probe?
    ensures OnlyConfigured(Do(s, step, l))
  {
    ProbeFrame(s, step, l);
    assert step.name in s.configs;
    hide Do;
  }

  lemma StepOnlyConfigured(s: System, step: Step, l: Limits)
    requires Enabled(s, step) && OnlyConfigured(s) && DropsNothing(s, step)
    ensures OnlyConfigured(Do(s, step, l))
  {
    hide AfterPick, AfterConclude, AfterProbe, CanProbe, CanPoll, Winners;
    match step {
      case Probe(_, _, _, _) => ProbeOnlyConfigured(s, step, l);
      case Poll(listing, made) =>
      case BeginPass =>
      case ProbeFails(_) =>
      case _ => RequestsJudgeNothing(s, step, l);
    }
  }

  lemma {:induction false} VerdictsAreConfigured(states: seq<System>, steps: seq<Step>, n: nat, l: Limits)
    requires Run(states, steps, l) && n <= |steps|
    requires forall i {:trigger steps[i]} :: 0 <= i < n ==> DropsNothing(states[i], steps[i])
    ensures OnlyConfigured(states[n])
    decreases n
  {
    hide Do, Enabled, DropsNothing;
    if n > 0 {
      VerdictsAreConfigured(states, steps, n - 1, l);
      StepOnlyConfigured(states[n - 1], steps[n - 1], l);
    }
  }

  /**
   * While no config is removed, /health with default settings is green exactly when every
   * configured name has a non-empty verified set, and no minimum blocks it then.
   */
  lemma ReadyMeansAllVerified(states: seq<System>, steps: seq<Step>, n: nat, minimum: Option<int>, l: Limits)
    requires Run(states, steps, l) && n <= |steps|
    requires forall i {:trigger steps[i]} :: 0 <= i < n ==> DropsNothing(states[i], steps[i])
    requires states[n].configs != map[]
    ensures var s := states[n];
            var allVerified := forall n :: n in s.configs ==> LastHealthy(s, n) != {};
            && (Readiness(s.configs.Keys, HealthyNames(s.lastHealthy), None, {}).0 <==> allVerified)
            && (allVerified ==> Readiness(s.configs.Keys, HealthyNames(s.lastHealthy), minimum, {}).0)
  {
    var s := states[n];
    VerdictsAreConfigured(states, steps, n, l);
    hide Run, Readiness;
    var healthy := HealthyNames(s.lastHealthy);
    var some :| some in s.configs;
    assert some in s.configs.Keys;
    assert healthy <= s.configs.Keys;
    ReadyIffAllHealthy(s.configs.Keys, healthy);
    if forall n :: n in s.configs ==> LastHealthy(s, n) != {} {
      assert s.configs.Keys <= healthy;
      ClampNeverBlocks(s.configs.Keys, healthy, minimum);
    } else {
      var n :| n in s.configs && LastHealthy(s, n) == {};
      assert n in s.configs.Keys && n !in healthy;
    }
  }

  // ---- What has really been verified ----

  /** What the last completed probe of a pool checked, and what it found up. */
  datatype Verdict = Verdict(checked: Config, found: set<Server>)

  /** The configs the latest health pass set out to check. */
  function Snapshot(states: seq<System>, steps: seq<Step>, n: nat): map<Name, Config>
    requires n <= |steps| < |states|
  {
    if n == 0 then map[]
    else if steps[n - 1].BeginPass? then states[n - 1].configs
    else Snapshot(states, steps, n - 1)
  }

  /** For every pool object the verdict of the last probe that reached it. */
  function LastVerdicts(states: seq<System>, steps: seq<Step>, n: nat): map<nat, Verdict>
    requires n <= |steps| < |states|
  {
    if n == 0 then map[]
    else
      var before, s := LastVerdicts(states, steps, n - 1), states[n - 1];
      match steps[n - 1]
      case Probe(name, healthy, _, _) =>
        var configs := Snapshot(states, steps, n - 1);
        if name in s.backends && name in configs then
          before[s.backends[name] := Verdict(configs[name], Elements(healthy))]
        else before
      case _ => before
  }

  /** The configured names whose pool was reached by a probe, the last of which found a server up. */
  function Reached(states: seq<System>, steps: seq<Step>, n: nat): set<Name>
    requires n <= |steps| < |states|
  {
    var s, verdicts := states[n], LastVerdicts(states, steps, n);
    set name | name in s.configs && name in s.backends && s.backends[name] in verdicts
               && verdicts[s.backends[name]].found != {}
  }

  /** Those of them for which that probe checked the config that the name has now. */
  function Verified(states: seq<System>, steps: seq<Step>, n: nat): set<Name>
    requires n <= |steps| < |states|
  {
    var s, verdicts := states[n], LastVerdicts(states, steps, n);
    set name | name in Reached(states, steps, n) && verdicts[s.backends[name]].checked == s.configs[name]
  }

  /** The stored verdicts of configured names are those of the probes of their pools, where there were any. */
  ghost predicate Truthful(s: System, verdicts: map<nat, Verdict>, pass: map<Name, Config>) {
    && verdicts.Keys <= s.pools.Keys && s.probing <= pass.Keys
    && forall name :: name in s.backends && s.backends[name] in verdicts ==>
         LastHealthy(s, name) == verdicts[s.backends[name]].found
  }

  lemma QuietStepIsTruthful(s: System, step: Step, verdicts: map<nat, Verdict>, pass: map<Name, Config>, l: Limits)
    requires Enabled(s, step) && !step.Probe? && !step.Poll? && !step.BeginPass? && Truthful(s, verdicts, pass)
    ensures Truthful(Do(s, step, l), verdicts, pass) && Do(s, step, l).backends == s.backends
  {
    hide PickStep, OutcomeStep, AfterPick, AfterConclude, AfterProbe, AfterPoll, CanProbe, CanPoll;
    match step {
      case Pick(id) => PickFrame(s, id, l);
      case Conclude(id, o, limited) => ConcludeFrame(s, id, o, limited, l);
      case _ =>
    }
  }

  lemma ProbeIsTruthful(s: System, step: Step, verdicts: map<nat, Verdict>, pass: map<Name, Config>, l: Limits)
    requires Registered(s) && Enabled(s, step) && step.Probe? && Truthful(s, verdicts, pass)
    ensures step.name in pass
    ensures var found := Elements(step.healthy);
            Truthful(Do(s, step, l),
                     if step.name in s.backends
                     then verdicts[s.backends[step.name] := Verdict(pass[step.name], found)] else verdicts, pass)
  {
    assert step.name in s.probing;
    ProbeFrame(s, step, l);
    hide Do, Enabled;
  }

  lemma PollIsTruthful(s: System, listing: seq<Entry>, made: map<Name, nat>,
                       verdicts: map<nat, Verdict>, pass: map<Name, Config>, l: Limits)
    requires Registered(s) && Enabled(s, Poll(listing, made)) && Truthful(s, verdicts, pass)
    ensures Truthful(Do(s, Poll(listing, made), l), verdicts, pass)
  {
    PollEffect(s, listing, made, l);
    PollJudgesNothing(s, listing, made, l);
    hide Do, Enabled, Registered;
  }

  lemma PollJudgesNothing(s: System, listing: seq<Entry>, made: map<Name, nat>, l: Limits)
    requires Enabled(s, Poll(listing, made))
    ensures var s' := Do(s, Poll(listing, made), l);
            s'.lastHealthy == s.lastHealthy && s'.probing == s.probing && s'.configs == Winners(listing)
  {
    hide Winners, Registry, Pools, AfterPick, AfterConclude, AfterProbe, CanProbe, CanPoll;
  }

  lemma {:induction false} RunIsTruthful(states: seq<System>, steps: seq<Step>, n: nat, l: Limits)
    requires Run(states, steps, l) && n <= |steps|
    ensures Truthful(states[n], LastVerdicts(states, steps, n), Snapshot(states, steps, n))
    decreases n
  {
    hide Do, Enabled, Inv, Truthful;
    if n == 0 {
      StartIsTruthful();
    } else {
      var m := n - 1;
      var s, step := states[m], steps[m];
      RunIsTruthful(states, steps, m, l);
      RegisteredThroughout(states, steps, m, l);
      var verdicts, pass := LastVerdicts(states, steps, m), Snapshot(states, steps, m);
      match step {
        case Probe(_, _, _, _) => ProbeIsTruthful(s, step, verdicts, pass, l);
        case Poll(listing, made) => PollIsTruthful(s, listing, made, verdicts, pass, l);
        case BeginPass => PassIsTruthful(s, verdicts, pass, l);
        case _ => QuietStepIsTruthful(s, step, verdicts, pass, l);
      }
    }
  }

  lemma StartIsTruthful()
    ensures Truthful(START, map[], map[])
  {
  }

  lemma PassIsTruthful(s: System, verdicts: map<nat, Verdict>, pass: map<Name, Config>, l: Limits)
    requires Enabled(s, BeginPass) && Truthful(s, verdicts, pass)
    ensures Truthful(Do(s, BeginPass, l), verdicts, s.configs)
  {
    hide AfterPick, AfterConclude, AfterProbe, AfterPoll, CanProbe, CanPoll;
  }

  lemma StepKeepsRegistered(s: System, step: Step, l: Limits)
    requires Registered(s) && Enabled(s, step)
    ensures Registered(Do(s, step, l))
  {
    hide PickStep, OutcomeStep, AfterPick, AfterConclude, AfterProbe, AfterPoll, CanProbe, CanPoll;
    match step {
      case Pick(id) => PickFrame(s, id, l);
      case Conclude(id, o, limited) => ConcludeFrame(s, id, o, limited, l);
      case Probe(_, _, _, _) => ProbeFrame(s, step, l);
      case Poll(listing, made) => PollEffect(s, listing, made, l);
      case _ =>
    }
  }

  lemma {:induction false} RegisteredThroughout(states: seq<System>, steps: seq<Step>, n: nat, l: Limits)
    requires Run(states, steps, l) && n <= |steps|
    ensures Registered(states[n])
    decreases n
  {
    hide Do, Enabled;
    if n > 0 {
      RegisteredThroughout(states, steps, n - 1, l);
      hide Registered;
      StepKeepsRegistered(states[n - 1], steps[n - 1], l);
    }
  }

  /** Whatever is verified is configured and counted. */
  lemma VerifiedIsCounted(states: seq<System>, steps: seq<Step>, n: nat, l: Limits)
    requires Run(states, steps, l) && n <= |steps|
    ensures Reached(states, steps, n) <= states[n].configs.Keys * HealthyNames(states[n].lastHealthy)
    ensures Verified(states, steps, n) <= Reached(states, steps, n)
  {
    RunIsTruthful(states, steps, n, l);
    hide Do, Enabled, LastVerdicts, Snapshot;
  }

  /**
   * In every state of every run: /health, with any minimum, answers as the really verified names
   * would exactly when enough of them are verified or too few stale verdicts are left over, from
   * names since removed or since removed and added again. The default asks for all configured
   * names. It holds by the lenient reading of verified and by the strict one, for which verdicts
   * on a config since changed are stale too.
   */
  lemma ReadinessIsRightIff(states: seq<System>, steps: seq<Step>, n: nat,
                            verified: set<Name>, minimum: Option<int>, l: Limits)
    requires Run(states, steps, l) && n <= |steps| && states[n].configs != map[]
    requires verified == Reached(states, steps, n) || verified == Verified(states, steps, n)
    ensures var configs, healthy := states[n].configs.Keys, HealthyNames(states[n].lastHealthy);
            var least := Least(minimum, |configs|);
            && verified <= configs * healthy
            && ((Readiness(configs, healthy, minimum, {}).0 <==> |verified| >= least)
                <==> |verified| >= least || |healthy - verified| < least - |verified|)
            && ((Readiness(configs, healthy, None, {}).0 <==> verified == configs)
                <==> verified == configs || |healthy - verified| < |configs - verified|)
  {
    VerifiedIsCounted(states, steps, n, l);
    hide Run, Reached, Verified, HealthyNames, Readiness, Least;
    var configs, healthy := states[n].configs.Keys, HealthyNames(states[n].lastHealthy);
    NonEmptyKeys(states[n].configs);
    ReadinessIff(configs, healthy, verified, minimum);
    DefaultReadinessIff(configs, healthy, verified);
  }

  /** The same with required names: a stale verdict on one of them matters when all of them have verdicts. */
  lemma RequiredIsRightIff(states: seq<System>, steps: seq<Step>, n: nat,
                           verified: set<Name>, required: set<Name>, l: Limits)
    requires Run(states, steps, l) && n <= |steps| && states[n].configs != map[]
    requires required != {} && (verified == Reached(states, steps, n) || verified == Verified(states, steps, n))
    ensures var configs, healthy := states[n].configs.Keys, HealthyNames(states[n].lastHealthy);
            (Readiness(configs, healthy, None, required).0 <==> required <= verified)
            <==> required !! healthy - verified || !(required <= healthy)
  {
    VerifiedIsCounted(states, steps, n, l);
    hide Run, Reached, Verified, HealthyNames, Readiness;
    NonEmptyKeys(states[n].configs);
    RequiredReadinessIff(states[n].configs.Keys, HealthyNames(states[n].lastHealthy), verified, required);
  }

  lemma NonEmptyKeys(configs: map<Name, Config>)
    requires configs != map[]
    ensures configs.Keys != {}
  {
    var name :| name in configs;
    assert name in configs.Keys;
  }

  // ---- Runs whose polls only add ----

  /** Polls keep every config as it is. */
  ghost predicate OnlyAdds(s: System, step: Step) {
    step.Poll? ==> forall n :: n in s.configs ==> n in Winners(step.listing) && Winners(step.listing)[n] == s.configs[n]
  }

  /** Every stored verdict is on the config its name has now. */
  ghost predicate UpToDate(s: System, verdicts: map<nat, Verdict>, pass: map<Name, Config>) {
    && (forall n :: n in pass ==> n in s.configs && s.configs[n] == pass[n])
    && (forall n :: n in s.lastHealthy ==>
          && n in s.configs && n in s.backends && s.backends[n] in verdicts
          && verdicts[s.backends[n]].checked == s.configs[n])
  }

  lemma QuietStepIsUpToDate(s: System, step: Step, verdicts: map<nat, Verdict>, pass: map<Name, Config>, l: Limits)
    requires Enabled(s, step) && !step.Probe? && !step.Poll? && !step.BeginPass? && UpToDate(s, verdicts, pass)
    ensures UpToDate(Do(s, step, l), verdicts, pass)
  {
    hide PickStep, OutcomeStep, AfterPick, AfterConclude, AfterProbe, AfterPoll, CanProbe, CanPoll;
    match step {
      case Pick(id) => PickFrame(s, id, l);
      case Conclude(id, o, limited) => ConcludeFrame(s, id, o, limited, l);
      case _ =>
    }
  }

  lemma ProbeIsUpToDate(s: System, step: Step, verdicts: map<nat, Verdict>, pass: map<Name, Config>, l: Limits)
    requires Registered(s) && Enabled(s, step) && step.Probe? && UpToDate(s, verdicts, pass)
    requires step.name in pass && step.name in s.backends
    ensures UpToDate(Do(s, step, l),
                     verdicts[s.backends[step.name] := Verdict(pass[step.name], Elements(step.healthy))], pass)
  {
    ProbeFrame(s, step, l);
    hide Do, Enabled, Registered, UpToDate, CanProbe, CanPoll;
    VerdictIsUpToDate(s, Do(s, step, l), step.name, Elements(step.healthy), verdicts, pass);
  }

  lemma VerdictIsUpToDate(s: System, s': System, name: Name, found: set<Server>,
                          verdicts: map<nat, Verdict>, pass: map<Name, Config>)
    requires Registered(s) && UpToDate(s, verdicts, pass) && name in pass && name in s.backends
    requires s'.configs == s.configs && s'.backends == s.backends && s'.lastHealthy == s.lastHealthy[name := found]
    ensures UpToDate(s', verdicts[s.backends[name] := Verdict(pass[name], found)], pass)
  {
  }

  lemma PollIsUpToDate(s: System, step: Step, verdicts: map<nat, Verdict>, pass: map<Name, Config>, l: Limits)
    requires Registered(s) && Enabled(s, step) && step.Poll? && OnlyAdds(s, step) && UpToDate(s, verdicts, pass)
    ensures UpToDate(Do(s, step, l), verdicts, pass)
  {
    PollEffect(s, step.listing, step.made, l);
    PollJudgesNothing(s, step.listing, step.made, l);
    hide Do, Enabled;
  }

  lemma PassIsUpToDate(s: System, verdicts: map<nat, Verdict>, pass: map<Name, Config>, l: Limits)
    requires Enabled(s, BeginPass) && UpToDate(s, verdicts, pass)
    ensures UpToDate(Do(s, BeginPass, l), verdicts, s.configs)
  {
    hide AfterPick, AfterConclude, AfterProbe, AfterPoll, CanProbe, CanPoll;
  }

  lemma {:induction false} RunIsUpToDate(states: seq<System>, steps: seq<Step>, n: nat, l: Limits)
    requires Run(states, steps, l) && n <= |steps|
    requires forall i {:trigger steps[i]} :: 0 <= i < n ==> OnlyAdds(states[i], steps[i])
    ensures UpToDate(states[n], LastVerdicts(states, steps, n), Snapshot(states, steps, n))
    decreases n
  {
    hide Do, Enabled, Inv, Truthful, UpToDate, OnlyAdds;
    if n == 0 {
      StartIsUpToDate();
    } else {
      var m := n - 1;
      var s, step := states[m], steps[m];
      RunIsUpToDate(states, steps, m, l);
      RunIsTruthful(states, steps, m, l);
      RegisteredThroughout(states, steps, m, l);
      var verdicts, pass := LastVerdicts(states, steps, m), Snapshot(states, steps, m);
      match step {
        case Probe(_, _, _, _) =>
          ProbeIsTruthful(s, step, verdicts, pass, l);
          PassIsRegistered(s, verdicts, pass, step.name);
          ProbeIsUpToDate(s, step, verdicts, pass, l);
        case Poll(_, _) => PollIsUpToDate(s, step, verdicts, pass, l);
        case BeginPass => PassIsUpToDate(s, verdicts, pass, l);
        case _ => QuietStepIsUpToDate(s, step, verdicts, pass, l);
      }
    }
  }

  lemma PassIsRegistered(s: System, verdicts: map<nat, Verdict>, pass: map<Name, Config>, name: Name)
    requires Registered(s) && UpToDate(s, verdicts, pass) && name in pass
    ensures name in s.backends
  {
  }

  lemma StartIsUpToDate()
    ensures UpToDate(START, map[], map[])
  {
  }

  /**
   * While polls neither remove nor change a config, the healthy names are the verified ones: then
   * /health with default settings is green exactly when every configured name is verified.
   */
  lemma GreenMeansVerified(states: seq<System>, steps: seq<Step>, n: nat, l: Limits)
    requires Run(states, steps, l) && n <= |steps| && states[n].configs != map[]
    requires forall i {:trigger steps[i]} :: 0 <= i < n ==> OnlyAdds(states[i], steps[i])
    ensures HealthyNames(states[n].lastHealthy) == Verified(states, steps, n)
    ensures Readiness(states[n].configs.Keys, HealthyNames(states[n].lastHealthy), None, {}).0
            <==> Verified(states, steps, n) == states[n].configs.Keys
  {
    RunIsUpToDate(states, steps, n, l);
    RunIsTruthful(states, steps, n, l);
    VerifiedIsCounted(states, steps, n, l);
    hide Run, LastVerdicts, Snapshot, Readiness;
    forall name | name in HealthyNames(states[n].lastHealthy) ensures name in Verified(states, steps, n) {
      assert LastHealthy(states[n], name) != {};
    }
    NonEmptyKeys(states[n].configs);
    ReadyIffAllHealthy(states[n].configs.Keys, HealthyNames(states[n].lastHealthy));
  }

  // ---- Runs in which the promise fails ----

  /** A run whose last step is a poll that adds its only name ends with nothing verified. */
  lemma NewNamesAreUnverified(states: seq<System>, steps: seq<Step>, l: Limits)
    requires Run(states, steps, l) && steps != [] && steps[|steps| - 1].Poll?
    requires var before, after := states[|steps| - 1], states[|steps|];
             forall name :: name in after.backends ==> after.backends[name] !in before.pools
    ensures Reached(states, steps, |steps|) == Verified(states, steps, |steps|) == {}
  {
    hide Do, Enabled;
    RunIsTruthful(states, steps, |steps| - 1, l);
  }

  /**
   * Once a config has been removed, the documented promise fails: a verdict on the removed
   * name makes /health green although the only configured name was never checked.
   */
  lemma LeftoverVerdictFakesReadiness(l: Limits) returns (states: seq<System>, steps: seq<Step>)
    ensures Run(states, steps, l)
    ensures var s := states[|steps|];
            && s.configs != map[] && (forall n :: n in s.configs ==> LastHealthy(s, n) == {})
            && Readiness(s.configs.Keys, HealthyNames(s.lastHealthy), None, {}).0
            && Reached(states, steps, |steps|) == {}
  {
    hide Run, Do, Enabled, Reached;
    var x, y := Name("x"), Name("y");
    var data := Config("https", "example.com", "192.0.2.1", "/");
    states, steps := OneVerified(x, data, Server("https://192.0.2.1"), l);
    var poll := PollOne(states[|steps|], 2, y, data, 1, l);
    var s := Do(states[|steps|], poll, l);
    states, steps := Extend(states, steps, poll, s, l);
    assert s.configs.Keys == {y};
    assert HealthyNames(s.lastHealthy) == {x};
    NewNamesAreUnverified(states, steps, l);
  }

  /** A poll that finds nothing forgets every name and keeps every pool object. */
  lemma PollNone(s: System, l: Limits) returns (poll: Step)
    ensures poll.Poll? && Enabled(s, poll) && Do(s, poll, l) == s.(configs := map[], backends := map[])
  {
    var none: map<Name, nat> := map[];
    poll := Poll([], none);
    assert none.Values == {};
    assert Pools(s.pools, none) == s.pools && Registry(s.backends, {}, none) == map[];
    hide AfterPick, AfterConclude, AfterProbe, CanProbe, Registry, Pools;
  }

  /**
   * It also fails for a name that is removed and then configured again: its verdict has survived,
   * so /health is green although no probe has visited the new, still empty pool.
   */
  lemma ReaddedNameFakesReadiness(l: Limits) returns (states: seq<System>, steps: seq<Step>)
    ensures Run(states, steps, l)
    ensures var s := states[|steps|];
            && s.configs != map[]
            && (forall n :: n in s.backends ==> s.backends[n] in s.pools && s.pools[s.backends[n]] == EMPTY_POOL)
            && HealthyNames(s.lastHealthy) == s.configs.Keys
            && Readiness(s.configs.Keys, HealthyNames(s.lastHealthy), None, {}).0
            && Reached(states, steps, |steps|) == {}
  {
    hide Run, Do, Enabled, Reached;
    var x, data := Name("x"), Config("https", "example.com", "192.0.2.1", "/");
    states, steps := OneVerified(x, data, Server("https://192.0.2.1"), l);
    var poll := PollNone(states[|steps|], l);
    states, steps := Extend(states, steps, poll, Do(states[|steps|], poll, l), l);
    poll := PollOne(states[|steps|], 2, x, data, 1, l);
    var s := Do(states[|steps|], poll, l);
    states, steps := Extend(states, steps, poll, s, l);
    assert s.configs.Keys == {x};
    assert HealthyNames(s.lastHealthy) == {x};
    NewNamesAreUnverified(states, steps, l);
  }

  /** A poll that finds another config for its one name keeps the pool. */
  lemma PollAnother(s: System, name: Name, data: Config, l: Limits) returns (poll: Step)
    requires s.backends.Keys == {name}
    ensures poll.Poll? && Enabled(s, poll) && Do(s, poll, l) == s.(configs := map[name := data])
  {
    var none: map<Name, nat> := map[];
    var listing := [Entry(2, RowOf(name, data))];
    poll := Poll(listing, none);
    OneWinner(2, name, data);
    assert none.Values == {};
    assert Pools(s.pools, none) == s.pools && Registry(s.backends, {name}, none) == s.backends;
    hide AfterPick, AfterConclude, AfterProbe, CanProbe, Registry, Pools, Winners;
    assert Winners(listing).Keys == {name};
  }

  /**
   * And it fails when a name is given another config: /health stays green although none of the
   * servers it names now has been checked.
   */
  lemma ChangedConfigFakesReadiness(l: Limits) returns (states: seq<System>, steps: seq<Step>)
    ensures Run(states, steps, l)
    ensures var s := states[|steps|];
            && s.configs != map[] && HealthyNames(s.lastHealthy) == s.configs.Keys
            && Readiness(s.configs.Keys, HealthyNames(s.lastHealthy), None, {}).0
            && Verified(states, steps, |steps|) == {}
  {
    hide Run, Do, Enabled, Verified;
    var x := Name("x");
    var data := Config("https", "example.com", "192.0.2.1", "/");
    var other := data.(servers := "192.0.2.9");
    states, steps := OneVerified(x, data, Server("https://192.0.2.1"), l);
    var poll := PollAnother(states[|steps|], x, other, l);
    var s := Do(states[|steps|], poll, l);
    states, steps := Extend(states, steps, poll, s, l);
    assert s.configs.Keys == {x};
    assert HealthyNames(s.lastHealthy) == {x};
    FirstPollAdds(states, steps, l);
    ChangedIsUnverified(states, steps, l);
  }

  /** The first poll of a run finds nothing configured before. */
  lemma FirstPollAdds(states: seq<System>, steps: seq<Step>, l: Limits)
    requires Run(states, steps, l) && |steps| >= 3 && steps[1] == BeginPass && steps[2].Probe?
    ensures forall i {:trigger steps[i]} :: 0 <= i < 3 ==> OnlyAdds(states[i], steps[i])
  {
    hide Do, Enabled, Winners;
    forall i | 0 <= i < 3 ensures OnlyAdds(states[i], steps[i]) {
      if i == 0 {
        assert states[0].configs == map[];
      }
    }
  }

  /** Verdicts on the configs before a poll say nothing about those that it changes. */
  lemma ChangedIsUnverified(states: seq<System>, steps: seq<Step>, l: Limits)
    requires Run(states, steps, l) && steps != [] && steps[|steps| - 1].Poll?
    requires forall i {:trigger steps[i]} :: 0 <= i < |steps| - 1 ==> OnlyAdds(states[i], steps[i])
    requires Outdated(states[|steps| - 1], states[|steps|])
    ensures Verified(states, steps, |steps|) == {}
  {
    hide Do, Enabled, OnlyAdds, Snapshot, UpToDate, Outdated;
    RunIsUpToDate(states, steps, |steps| - 1, l);
    NoVerdictIsCurrent(states[|steps| - 1], states[|steps|], LastVerdicts(states, steps, |steps| - 1),
                       Snapshot(states, steps, |steps| - 1));
  }

  /** Every name keeps its pool and its verdict, and gets another config. */
  ghost predicate Outdated(before: System, after: System) {
    && after.backends == before.backends
    && forall name :: name in after.configs ==>
         name in before.lastHealthy && name in before.configs && after.configs[name] != before.configs[name]
  }

  lemma NoVerdictIsCurrent(before: System, after: System, verdicts: map<nat, Verdict>, pass: map<Name, Config>)
    requires UpToDate(before, verdicts, pass) && Outdated(before, after)
    ensures forall name :: name in after.configs && name in after.backends && after.backends[name] in verdicts ==>
              verdicts[after.backends[name]].checked != after.configs[name]
  {
  }
}
