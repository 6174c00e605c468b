/** Config polling, health passes and readiness of classes/backend_manager.py. */
module BackendManagement {
  import opened Sequences
  import opened RoundRobin
  import opened InsertionDict
  import opened Identities
  import opened StickySession
  import opened StickyIp
  import opened ConfigTable

  const DEFAULT_MAX_SESSIONS: Positive := 10000

  type Healthy = map<Name, set<Server>>

  /** Removes the pins of every listed backend, one after the other. */
  function ForgetEach(pins: Pins, dead: seq<Server>): (pins': Pins)
    requires pins.Valid()
    ensures pins'.Valid()
    decreases |dead|
  {
    if dead == [] then pins else ForgetEach(pins, dead[..|dead| - 1]).RemoveValue(dead[|dead| - 1])
  }

  function HealthyNames(lastHealthy: Healthy): set<Name> {
    set name | name in lastHealthy && lastHealthy[name] != {}
  }

  /** The minimum asked for, clamped to the number of configured names; all of them by default. */
  function Least(minimum: Option<int>, total: nat): int {
    if minimum == None then total else if minimum.value < total then minimum.value else total
  }

  /** (ready, healthy count, configured count), as /health reports them. */
  function Readiness(configs: set<Name>, healthy: set<Name>, minimum: Option<int>, required: set<Name>)
    : (bool, nat, nat)
  {
    if configs == {} then (true, 0, 0)
    else if required != {} then (required <= healthy, |healthy * required|, |required|)
    else (|healthy| >= Least(minimum, |configs|), |healthy|, |configs|)
  }

  /** Merging one more name changes `before` if it was changed already or this name is news. */
  lemma MergeOne<V>(before: map<Name, V>, w: map<Name, V>, name: Name, v: V)
    requires name !in w
    ensures before + w[name := v] == (before + w)[name := v]
    ensures before + w[name := v] != before <==> before + w != before || (before + w)[name := v] != before + w
  {
  }

  /** Merging w over `before` and cutting back to w's names leaves w; it differs from `before` iff a step did. */
  lemma MergeThenCut<V>(before: map<Name, V>, w: map<Name, V>)
    ensures Cut(before + w, w.Keys) == w
    ensures w != before <==> before + w != before || Cut(before + w, w.Keys) != before + w
  {
  }

  function Cut<V>(m: map<Name, V>, names: set<Name>): map<Name, V> {
    map n | n in m && n in names :: m[n]
  }

  lemma KeysLeft<V>(before: map<Name, V>, w: map<Name, V>)
    ensures (before + w).Keys - w.Keys == before.Keys - w.Keys
  {
  }

  lemma MinusOneMore<V>(m: map<Name, V>, gone: set<Name>, name: Name)
    ensures m - gone - {name} == m - (gone + {name})
  {
  }

  lemma CutIsRemoval<V>(m: map<Name, V>, gone: set<Name>, names: set<Name>)
    requires forall n :: n in gone <==> n in m && n !in names
    ensures m - gone == Cut(m, names)
    ensures m - gone != m <==> gone != {}
  {
    if n :| n in gone {
      assert n in m && n !in m - gone;
    }
  }

  lemma WinnersNext(listing: seq<Entry>, i: nat)
    requires i < |listing|
    ensures var w, row := Winners(listing[..i]), listing[i].row;
            Winners(listing[..i + 1]) == if row.name in w then w else w[row.name := row.data]
  {
    assert listing[..i + 1][..i] == listing[..i];
  }

  class BackendManager {
    const readyMinBackends: Option<int>
    const readyBackends: set<Name>
    const stickyIp: StickyIP
    var configs: map<Name, Config>
    var backends: map<Name, StickyRoundRobin>
    var lastHealthy: Healthy
    var gauge: map<Name, nat>    // BACKEND_HEALTHY_SERVERS
    var broadcasts: nat

    /** Which name each pool object, and the rotation inside it, was made for. */
    ghost var owner: map<object, Name>

    /** Configs and pools have the same names, and no two names share an object. */
    ghost predicate Wired()
      reads `configs, `backends, `owner
    {
      && this !in owner && stickyIp !in owner
      && (forall n :: n in configs <==> n in backends)
      && (forall n :: n in backends ==>
            && backends[n] in owner && owner[backends[n]] == n
            && backends[n].rr in owner && owner[backends[n].rr] == n)
    }

    /** What the gauge shows is the size of a stored verdict; names that were dropped have none. */
    ghost predicate GaugeTells()
      reads `lastHealthy, `gauge
    {
      forall n :: n in gauge ==> n in lastHealthy && gauge[n] == |lastHealthy[n]|
    }

    constructor (stickyIp: StickyIP, readyMinBackends: Option<int>, readyBackends: set<Name>)
      requires stickyIp.Valid()
      ensures Wired() && configs == map[] && backends == map[] && lastHealthy == map[] && GaugeTells()
      ensures this.stickyIp == stickyIp
    {
      this.stickyIp := stickyIp;
      this.readyMinBackends, this.readyBackends := readyMinBackends, readyBackends;
      configs, backends, lastHealthy, gauge, broadcasts, owner := map[], map[], map[], map[], 0, map[];
    }

    method GetReadiness() returns (ready: bool, healthyCount: nat, total: nat)
      ensures (ready, healthyCount, total)
              == Readiness(configs.Keys, HealthyNames(lastHealthy), readyMinBackends, readyBackends)
      ensures configs == map[] ==> ready && healthyCount == total == 0
      ensures configs != map[] && readyBackends != {} ==>
                && total == |readyBackends| && healthyCount <= total
                && (ready <==> forall n :: n in readyBackends ==> n in lastHealthy && lastHealthy[n] != {})
      ensures configs != map[] && readyBackends == {} ==>
                total == |configs| && healthyCount == |set n | n in lastHealthy && lastHealthy[n] != {}|
    {
      total := |configs|;
      assert total == |configs.Keys|;
      if total == 0 {
        return true, 0, 0;
      }
      var healthyNames := HealthyNames(lastHealthy);
      if readyBackends != {} {
        SubsetSize(healthyNames * readyBackends, readyBackends);
        return readyBackends <= healthyNames, |healthyNames * readyBackends|, |readyBackends|;
      }
      var minBackends := match readyMinBackends
        case None => total
        case Some(n) => if n < total then n else total;
      return |healthyNames| >= minBackends, |healthyNames|, total;
    }

    /** Stores one config; a name seen for the first time gets an empty pool. */
    method Adopt(name: Name, newConfig: Config, ghost before: set<Name>, ghost known: set<object>)
      returns (changed: bool)
      requires Wired() && known <= owner.Keys
      requires forall n :: n in backends && n !in before ==>
                && backends[n] !in known && backends[n].rr !in known
                && backends[n].Unused()
      modifies this`configs, this`backends, this`owner
      ensures forall n :: n in backends && n !in before ==>
                && backends[n] !in known && backends[n].rr !in known
                && backends[n].Unused()
      ensures Wired() && known <= owner.Keys && fresh(owner.Keys - old(owner.Keys))
      ensures configs == old(configs)[name := newConfig] && changed == (configs != old(configs))
      ensures Kept(old(backends), backends)
    {
      changed := name !in configs || configs[name] != newConfig;
      if changed {
        configs := configs[name := newConfig];
        assert configs != old(configs) by {
          assert name !in old(configs) || configs[name] != old(configs)[name];
        }
        if name !in backends {
          var pool := new StickyRoundRobin([], DEFAULT_MAX_SESSIONS);
          backends := backends[name := pool];
          owner := owner[pool := name][pool.rr := name];
        }
      }
    }

    /** The first loop of a poll pass: new and changed configs. */
    method AdoptAll(listing: seq<Entry>) returns (currentNames: set<Name>, changed: bool)
      requires Wired()
      modifies this`configs, this`backends, this`owner
      ensures forall n :: n in backends && n !in old(backends) ==>
                && backends[n] !in old(owner) && backends[n].rr !in old(owner)
                && backends[n].Unused()
      ensures Wired() && fresh(owner.Keys - old(owner.Keys))
      ensures currentNames == Winners(listing).Keys
      ensures configs == old(configs) + Winners(listing) && changed == (configs != old(configs))
      ensures Kept(old(backends), backends)
    {
      hide Wired;
      currentNames := {};
      changed := false;
      ghost var seen := map[];
      for i := 0 to |listing|
        invariant forall n :: n in backends && n !in old(backends) ==>
                && backends[n] !in old(owner) && backends[n].rr !in old(owner)
                && backends[n].Unused()
        invariant Wired() && old(owner.Keys) <= owner.Keys && fresh(owner.Keys - old(owner.Keys))
        invariant Kept(old(backends), backends)
        invariant seen == Winners(listing[..i]) && forall n :: n in currentNames <==> n in seen
        invariant configs == old(configs) + seen && changed == (configs != old(configs))
      {
        var name, data := listing[i].row.name, listing[i].row.data;
        WinnersNext(listing, i);
        if name !in currentNames {
          currentNames := currentNames + {name};
          MergeOne(old(configs), seen, name, data);
          var news := Adopt(name, data, old(backends.Keys), old(owner.Keys));
          changed := changed || news;
          seen := seen[name := data];
        }
      }
      assert listing[..|listing|] == listing;
    }

    /** The second loop of a poll pass: names that left the table. */
    method DropGone(currentNames: set<Name>) returns (removed: bool)
      requires Wired()
      modifies this`configs, this`backends, this`gauge
      ensures gauge == old(gauge) - (old(configs).Keys - currentNames)
      ensures Wired()
      ensures forall n :: n in backends ==> n in old(backends) && backends[n] == old(backends)[n]
      ensures configs == Cut(old(configs), currentNames) && removed == (configs != old(configs))
    {
      var todo := set n | n in backends && n !in currentNames;
      ghost var gone, done := todo, {};
      removed := false;
      while todo != {}
        invariant done + todo == gone
        invariant configs == old(configs) - done && backends == old(backends) - done
        invariant gauge == old(gauge) - done
        invariant removed <==> done != {}
        decreases todo
      {
        var name :| name in todo;
        MinusOneMore(old(configs), done, name);
        MinusOneMore(old(backends), done, name);
        MinusOneMore(old(gauge), done, name);
        configs, backends, gauge := configs - {name}, backends - {name}, gauge - {name};
        removed := true;
        todo, done := todo - {name}, done + {name};
      }
      assert done == gone == old(configs).Keys - currentNames;
      CutIsRemoval(old(configs), gone, currentNames);
    }

    /**
     * One poll pass over the rows the database returned. Names that stay keep their pool
     * object, untouched; new names get an empty pool; names that left lose theirs. One
     * broadcast goes out exactly when the configs changed.
     */
    method PollConfigsOnce(listing: seq<Entry>)
      requires Wired()
      modifies this`configs, this`backends, this`owner, this`gauge, this`broadcasts
      ensures gauge == old(gauge) - (old(configs).Keys - Winners(listing).Keys)
      ensures old(GaugeTells()) ==> GaugeTells()
      ensures fresh(owner.Keys - old(owner.Keys))
      ensures configs == Winners(listing)
      ensures forall n :: n in backends && n in old(backends) ==> backends[n] == old(backends)[n]
      ensures Wired()
      ensures forall n :: n in backends && n !in old(backends) ==>
                && backends[n] !in old(owner) && backends[n].rr !in old(owner)
                && backends[n].Unused()
      ensures broadcasts == old(broadcasts) + if configs != old(configs) then 1 else 0
    {
      hide Wired;
      var currentNames, changed := AdoptAll(listing);
      var removed := DropGone(currentNames);
      MergeThenCut(old(configs), Winners(listing));
      KeysLeft(old(configs), Winners(listing));
      if changed || removed {
        broadcasts := broadcasts + 1;
      }
    }

    static ghost predicate Kept(before: map<Name, StickyRoundRobin>, after: map<Name, StickyRoundRobin>) {
      forall n :: n in before ==> n in after && after[n] == before[n]
    }

    // ---- One name's turn in a health pass ----

    /** Removes the pins of each listed backend. */
    method ForgetDead(dead: seq<Server>)
      requires stickyIp.Valid()
      modifies stickyIp
      ensures stickyIp.Valid() && stickyIp.ipMap == ForgetEach(old(stickyIp.ipMap), dead)
    {
      for i := 0 to |dead|
        invariant stickyIp.Valid() && stickyIp.ipMap == ForgetEach(old(stickyIp.ipMap), dead[..i])
      {
        assert dead[..i + 1][..i] == dead[..i];
        var _ := stickyIp.DeleteBackend(dead[i]);
      }
      assert dead[..|dead|] == dead;
    }

    /**
     * What a health pass does once it has probed one name's servers. The verdict is stored
     * even when the pool is gone by then; otherwise the address pins of servers that went
     * down are dropped and the pool is brought to exactly the healthy set.
     */
    method ApplyHealth(name: Name, healthy: seq<Server>)
      returns (changed: bool, ghost gone: seq<Server>, ghost added: seq<Server>)
      requires name in backends ==> backends[name].Valid()
      requires stickyIp.Valid()
      modifies this`lastHealthy, this`gauge, stickyIp
      modifies if name in backends then {backends[name] as object, backends[name].rr} else {}
      ensures lastHealthy == old(lastHealthy)[name := Elements(healthy)] && changed == (lastHealthy != old(lastHealthy))
      ensures gauge == old(gauge)[name := |Elements(healthy)|]
      ensures stickyIp.Valid()
      ensures name !in backends ==> stickyIp.ipMap == old(stickyIp.ipMap)
      ensures name in backends ==>
                && backends[name].Valid()
                && var pool := old(backends[name].State());
                && stickyIp.ipMap == ForgetEach(old(stickyIp.ipMap), Dropping(pool.wheel.Items(), Elements(healthy)))
                && Enumerates(gone, pool.Members() - Elements(healthy))
                && Enumerates(added, Elements(healthy) - pool.Members())
                && backends[name].State() == pool.Swap(gone, added)
    {
      var healthySet := Elements(healthy);
      gauge := gauge[name := |healthySet|];
      changed := name !in lastHealthy || lastHealthy[name] != healthySet;
      if changed {
        lastHealthy := lastHealthy[name := healthySet];
        assert lastHealthy[name] == healthySet;
      }
      gone, added := [], [];
      if name !in backends {
        return;
      }
      var current := backends[name].GetAll();
      ForgetDead(Dropping(current, healthySet));
      gone, added := backends[name].Replace(healthy);
    }

    /** The verdicts of a pass applied in turn; a name whose check raised keeps its old one. */
    static function Verdicts(before: Healthy, results: seq<(Name, Option<seq<Server>>)>): Healthy {
      if results == [] then before
      else
        var n := |results| - 1;
        var earlier := Verdicts(before, results[..n]);
        match results[n].1
        case None => earlier
        case Some(healthy) => earlier[results[n].0 := Elements(healthy)]
    }

    /** Whether any of those verdicts differed from the one stored before it. */
    static predicate Changes(before: Healthy, results: seq<(Name, Option<seq<Server>>)>) {
      results != []
      && var n := |results| - 1;
         Changes(before, results[..n]) || Verdicts(before, results) != Verdicts(before, results[..n])
    }

    static lemma PassStarts(before: Healthy)
      ensures Verdicts(before, []) == before && !Changes(before, [])
    {
    }

    static lemma PassNext(before: Healthy, results: seq<(Name, Option<seq<Server>>)>, i: nat)
      requires i < |results|
      ensures var earlier := Verdicts(before, results[..i]);
              var later := match results[i].1
                           case None => earlier
                           case Some(healthy) => earlier[results[i].0 := Elements(healthy)];
              && Verdicts(before, results[..i + 1]) == later
              && (Changes(before, results[..i + 1]) <==> Changes(before, results[..i]) || later != earlier)
    {
      assert results[..i + 1][..i] == results[..i];
    }

    /** Every pool is valid, free of duplicates, and pins sessions to its members only. */
    ghost predicate PoolsSound()
      reads `configs, `backends, `owner, owner.Keys
    {
      Wired() && forall n :: n in backends ==> backends[n].Valid() && backends[n].State().Sound()
    }

    /** The pools of the first k names that were probed hold exactly what the probe found healthy. */
    ghost predicate CaughtUp(results: seq<(Name, Option<seq<Server>>)>, k: nat)
      requires k <= |results| && PoolsSound()
      reads `configs, `backends, `owner, owner.Keys
    {
      forall i :: 0 <= i < k && results[i].1.Some? && results[i].0 in backends ==>
        backends[results[i].0].State().Members() == Elements(results[i].1.value)
    }

    /** One name's turn: its pool becomes the healthy set, the other pools stay as they are. */
    method ProbeOne(name: Name, healthy: seq<Server>) returns (changed: bool)
      requires PoolsSound() && stickyIp.Valid()
      modifies this`lastHealthy, this`gauge, stickyIp, owner.Keys
      ensures PoolsSound() && stickyIp.Valid()
      ensures gauge == old(gauge)[name := |Elements(healthy)|] && (old(GaugeTells()) ==> GaugeTells())
      ensures lastHealthy == old(lastHealthy)[name := Elements(healthy)] && changed == (lastHealthy != old(lastHealthy))
      ensures name in backends ==> backends[name].State().Members() == Elements(healthy)
      ensures forall n :: n in backends && n != name ==> backends[n].State() == old(backends[n].State())
    {
      hide Pool.Sound, Pool.Members, Pool.WellFormed, Pool.Swap, ForgetEach, Dropping, Enumerates, Elements;
      hide StickyRoundRobin.Valid, StickyRoundRobin.State;
      ghost var gone, added;
      ghost var before := if name in backends then backends[name].State() else Pool(Wheel([], []), Empty());
      changed, gone, added := ApplyHealth(name, healthy);
      if name in backends {
        SwapEffect(before, healthy, gone, added);
      }
      forall n | n in backends && n != name
        ensures backends[n].Valid() && backends[n].State() == old(backends[n].State())
      {
        assert name in backends ==> backends[n] != backends[name] && backends[n].rr != backends[name].rr;
        assert old(backends[n].Valid());
      }
    }

    /**
     * A whole pass over the names found at its start, with what probing each of them came
     * to. Every pool probed ends as exactly its healthy set, and one broadcast goes out
     * exactly when some verdict changed on the way.
     */
    method HealthPass(results: seq<(Name, Option<seq<Server>>)>)
      requires PoolsSound() && stickyIp.Valid()
      requires forall i, j :: 0 <= i < j < |results| ==> results[i].0 != results[j].0
      modifies this`lastHealthy, this`gauge, this`broadcasts, stickyIp, owner.Keys
      ensures old(GaugeTells()) ==> GaugeTells()
      ensures PoolsSound() && stickyIp.Valid() && CaughtUp(results, |results|)
      ensures lastHealthy == Verdicts(old(lastHealthy), results)
      ensures broadcasts == old(broadcasts) + if Changes(old(lastHealthy), results) then 1 else 0
    {
      hide Elements, StickyIP.Valid;
      assert this !in owner;
      hide Wired, Pool.Sound, Pool.Members, Verdicts, Changes, GaugeTells;
      PassStarts(lastHealthy);
      assert results[..0] == [];
      var healthChanged := false;
      for i := 0 to |results|
        invariant PoolsSound() && stickyIp.Valid() && CaughtUp(results, i)
        invariant lastHealthy == Verdicts(old(lastHealthy), results[..i])
        invariant healthChanged == Changes(old(lastHealthy), results[..i])
        invariant broadcasts == old(broadcasts)
        invariant old(GaugeTells()) ==> GaugeTells()
      {
        PassNext(old(lastHealthy), results, i);
        if results[i].1.Some? {
          var changed := ProbeOne(results[i].0, results[i].1.value);
          healthChanged := healthChanged || changed;
        }
      }
      assert results[..|results|] == results;
      if healthChanged {
        broadcasts := broadcasts + 1;
      }
    }
  }

  // ---- Readiness ----

  /** Splitting two sets along their intersection. */
  lemma Split(a: set<Name>, b: set<Name>)
    ensures |a| == |a * b| + |a - b|
  {
  }

  /** While only configured names have been verified, default readiness means that every configured name was. */
  lemma ReadyIffAllHealthy(configs: set<Name>, healthy: set<Name>)
    requires configs != {} && healthy <= configs
    ensures Readiness(configs, healthy, None, {}).0 <==> healthy == configs
  {
    SubsetSize(healthy, configs);
  }

  /**
   * The code counts stored verdicts, also those that no longer say anything about what is
   * configured now. Against the names that really are verified, its answer is right exactly when
   * enough of them are, or when there are too few stale verdicts to make up for the rest.
   */
  lemma ReadinessIff(configs: set<Name>, healthy: set<Name>, verified: set<Name>, minimum: Option<int>)
    requires configs != {} && verified <= configs && verified <= healthy
    ensures var least := Least(minimum, |configs|);
            (Readiness(configs, healthy, minimum, {}).0 <==> |verified| >= least)
            <==> |verified| >= least || |healthy - verified| < least - |verified|
  {
    Split(healthy, verified);
    assert healthy * verified == verified;
  }

  /** By default all configured names are asked for. */
  lemma DefaultReadinessIff(configs: set<Name>, healthy: set<Name>, verified: set<Name>)
    requires configs != {} && verified <= configs && verified <= healthy
    ensures (Readiness(configs, healthy, None, {}).0 <==> verified == configs)
            <==> verified == configs || |healthy - verified| < |configs - verified|
  {
    ReadinessIff(configs, healthy, verified, None);
    SubsetSize(verified, configs);
    Split(configs, verified);
    assert configs * verified == verified;
  }

  /** With required names, the stale verdicts matter if one is on a required name and none of those lacks a verdict. */
  lemma RequiredReadinessIff(configs: set<Name>, healthy: set<Name>, verified: set<Name>, required: set<Name>)
    requires configs != {} && required != {} && verified <= healthy
    ensures (Readiness(configs, healthy, None, required).0 <==> required <= verified)
            <==> required !! healthy - verified || !(required <= healthy)
  {
    if required <= healthy && !(required <= verified) {
      var name :| name in required && name !in verified;
      assert name in required * (healthy - verified);
    }
  }

  /** Asked for a minimum, /health is green exactly when so many names are healthy, or as many as are configured. */
  lemma MinimumIff(configs: set<Name>, healthy: set<Name>, minimum: int)
    requires configs != {}
    ensures Readiness(configs, healthy, Some(minimum), {}).0 <==> |healthy| >= minimum || |healthy| >= |configs|
    ensures Readiness(configs, healthy, None, {}).0 <==> |healthy| >= |configs|
  {
  }

  /** No minimum, however large, keeps /health red once every configured name is healthy. */
  lemma ClampNeverBlocks(configs: set<Name>, healthy: set<Name>, minimum: Option<int>)
    requires configs <= healthy
    ensures Readiness(configs, healthy, minimum, {}).0
  {
    SubsetSize(configs, healthy);
  }

  /** With required names, /health is green exactly when its two reported counts agree. */
  lemma RequiredNamesCount(configs: set<Name>, healthy: set<Name>, minimum: Option<int>, required: set<Name>)
    requires configs != {} && required != {}
    ensures var (ready, count, total) := Readiness(configs, healthy, minimum, required);
            ready <==> count == total
  {
    SubsetSize(healthy * required, required);
    assert healthy * required == required <==> required <= healthy;
  }
}
