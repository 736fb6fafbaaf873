/** The root kernel's life as far as domains go: start-up over the configured ones, then
    a reload for every hang-up signal. */
module RootKernel {
  import opened DM = DomainManager
  import L = Lifecycle
  import R = Registry

  /** One reload: the specs read, how hooks behave meanwhile, and the clock. */
  datatype Config = Config(specs: seq<Spec>, env: map<string, Env>, now: R.Time)

  datatype World = World(domains: map<string, Domain>, kernels: R.Kernels)

  ghost predicate StartedUp(w: World, ks: R.Kernels, entries: seq<Configured>, factories: set<string>, now: R.Time) {
    && (forall k :: Find(w.domains, k) == BootAll(NO_DOMAIN, EntriesOf(entries, k), factories))
    && w.kernels == Booted(ks, entries, factories, now)
  }

  ghost predicate LeadsTo(w: World, c: Config, w': World, factories: set<string>) {
    Reloaded(w.domains, w.kernels, c.specs, c.env, factories, c.now, w'.domains, w'.kernels)
  }

  /** What start-up and each reload leave, in whatever order maps are visited. */
  ghost predicate Lifetime(worlds: seq<World>, ks: R.Kernels, entries: seq<Configured>, now: R.Time,
                           configs: seq<Config>, factories: set<string>) {
    && |worlds| == |configs| + 1
    && StartedUp(worlds[0], ks, entries, factories, now)
    && (forall i | 0 <= i < |configs| :: LeadsTo(worlds[i], configs[i], worlds[i + 1], factories))
  }

  /** The reloads as one domain sees them. */
  function Seen(configs: seq<Config>, k: string): seq<Reload> {
    seq(|configs|, i requires 0 <= i < |configs| => Reload(Wanted(configs[i].specs, k), EnvOf(configs[i].env, k)))
  }

  lemma {:induction false} DomainAt(worlds: seq<World>, ks: R.Kernels, entries: seq<Configured>, now: R.Time,
                                    configs: seq<Config>, factories: set<string>, i: nat, k: string)
    requires Lifetime(worlds, ks, entries, now, configs, factories) && i < |worlds|
    ensures Find(worlds[i].domains, k)
            == AfterReloads(BootAll(NO_DOMAIN, EntriesOf(entries, k), factories), Seen(configs[..i], k), factories)
    decreases i
  {
    if i == 0 {
    } else {
      DomainAt(worlds, ks, entries, now, configs, factories, i - 1, k);
      assert LeadsTo(worlds[i - 1], configs[i - 1], worlds[i], factories);
      assert Seen(configs[..i], k)[..i - 1] == Seen(configs[..i - 1], k);
    }
  }

  /** At every moment of every lifetime the kernels of a domain are well managed exactly
      if start-up gave the manager every kernel of the domain it started. */
  lemma {:induction false} LifetimeNeverLeaksIff(worlds: seq<World>, ks: R.Kernels, entries: seq<Configured>,
                                                 now: R.Time, configs: seq<Config>, factories: set<string>, i: nat,
                                                 k: string)
    requires Lifetime(worlds, ks, entries, now, configs, factories) && i < |worlds|
    ensures WellManaged(Find(worlds[i].domains, k)) <==> OneInProcess(EntriesOf(entries, k), factories)
  {
    DomainAt(worlds, ks, entries, now, configs, factories, i, k);
    ReloadsNeverLeakIff(EntriesOf(entries, k), Seen(configs[..i], k), factories);
  }

  lemma {:induction false} AlwaysRegistered(worlds: seq<World>, ks: R.Kernels, entries: seq<Configured>, now: R.Time,
                                            configs: seq<Config>, factories: set<string>, i: nat)
    requires Lifetime(worlds, ks, entries, now, configs, factories) && i < |worlds|
    ensures Registered(worlds[i].domains, worlds[i].kernels)
    decreases i
  {
    if i == 0 {
      forall k | k != "" && Find(worlds[0].domains, k).run.Some? ensures k in worlds[0].kernels {
        BootRegisters(ks, entries, factories, now, k);
      }
    } else {
      var w, c, w' := worlds[i - 1], configs[i - 1], worlds[i];
      AlwaysRegistered(worlds, ks, entries, now, configs, factories, i - 1);
      assert LeadsTo(w, c, w', factories);
      ReloadKeepsRegistered(w.domains, w.kernels, c.specs, c.env, factories, c.now, w'.domains, w'.kernels);
    }
  }

  /** A record strays to an id in a reload: a domain with an empty id is launched and its
      manifest names the id. */
  ghost predicate RecordStraysTo(w: World, c: Config, factories: set<string>, k: string) {
    && Launches(Find(w.domains, ""), Wanted(c.specs, ""), EnvOf(c.env, ""), factories)
    && EnvOf(c.env, "").manifest.kernelId == k != ""
  }

  /** At every moment of every lifetime each running domain, the one with the empty id
      aside, is in the registry, strays or not; and one that ran before the last reload
      is there exactly if it runs, unless a record strayed to its id. */
  lemma {:induction false} RunningIffRegistered(worlds: seq<World>, ks: R.Kernels, entries: seq<Configured>,
                                                now: R.Time, configs: seq<Config>, factories: set<string>, i: nat,
                                                k: string)
    requires Lifetime(worlds, ks, entries, now, configs, factories) && i < |worlds| && k != ""
    ensures Find(worlds[i].domains, k).run.Some? ==> k in worlds[i].kernels
    ensures i > 0 && Find(worlds[i - 1].domains, k).run.Some?
            && !RecordStraysTo(worlds[i - 1], configs[i - 1], factories, k) ==>
              (Find(worlds[i].domains, k).run.Some? <==> k in worlds[i].kernels)
  {
    AlwaysRegistered(worlds, ks, entries, now, configs, factories, i);
    if i > 0 && Find(worlds[i - 1].domains, k).run.Some? && Find(worlds[i].domains, k).run.None? {
      var w, c, w' := worlds[i - 1], configs[i - 1], worlds[i];
      assert LeadsTo(w, c, w', factories);
      StoppedIsAbsentIff(w.domains, w.kernels, c.specs, c.env, factories, c.now, w'.domains, w'.kernels, k);
      UndisturbedIff(w.domains, c.specs, c.env, factories, c.now, k);
    }
  }

  // ----------------------------------------------------------------- the code

  /** Start-up, then a reload for each signal. */
  method Serve(m: DomainManager, entries: seq<Configured>, now: R.Time, configs: seq<Config>)
    returns (ghost worlds: seq<World>)
    requires m.Valid() && m.domains == map[]
    modifies m, m.reg
    ensures m.Valid() && Lifetime(worlds, old(m.reg.kernels), entries, now, configs, m.factories)
    ensures World(m.domains, m.reg.kernels) == worlds[|configs|]
    ensures forall k | k in m.runs && k != "" :: k in m.reg.kernels
  {
    ghost var ks := m.reg.kernels;
    NothingRuns(m);
    m.StartUp(entries, now);
    worlds := [World(m.domains, m.reg.kernels)];
    var i := 0;
    while i < |configs|
      invariant 0 <= i <= |configs| && m.Valid() && fresh(m.Machines())
      invariant Lifetime(worlds, ks, entries, now, configs[..i], m.factories)
      invariant World(m.domains, m.reg.kernels) == worlds[i]
    {
      var c := configs[i];
      m.Reload(c.specs, c.env, c.now);
      OneMoreWorld(worlds, World(m.domains, m.reg.kernels), ks, entries, now, configs, m.factories, i);
      worlds := worlds + [World(m.domains, m.reg.kernels)];
      i := i + 1;
    }
    assert configs[..|configs|] == configs;
    AlwaysRegistered(worlds, ks, entries, now, configs, m.factories, i);
    forall k | k in m.runs && k != "" ensures k in m.reg.kernels {
      assert m.Represents(k);
    }
  }

  lemma NothingRuns(m: DomainManager)
    requires m.Valid() && m.domains == map[]
    ensures m.Machines() == {}
  {
    forall k ensures k !in m.runs {
      assert m.Represents(k);
    }
  }

  lemma {:induction false} OneMoreWorld(worlds: seq<World>, w: World, ks: R.Kernels, entries: seq<Configured>,
                                        now: R.Time, configs: seq<Config>, factories: set<string>, i: nat)
    requires i < |configs| && Lifetime(worlds, ks, entries, now, configs[..i], factories)
    requires LeadsTo(worlds[i], configs[i], w, factories)
    ensures Lifetime(worlds + [w], ks, entries, now, configs[..i + 1], factories)
  {
    var more := worlds + [w];
    forall j | 0 <= j < i + 1 ensures LeadsTo(more[j], configs[..i + 1][j], more[j + 1], factories) {
      assert j < i ==> LeadsTo(worlds[j], configs[..i][j], worlds[j + 1], factories);
    }
  }
}
