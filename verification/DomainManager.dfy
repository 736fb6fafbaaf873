/** The domain manager: it reconciles the kernels it runs with a list of specs.  Hook
    results are an arbitrary oracle, given for each domain and each reload. */
module DomainManager {
  import L = Lifecycle
  import R = Registry

  datatype Value = Text(text: string) | OtherValue(n: int)

  /** A Go map field: nil and empty differ, as they do for DeepEqual. */
  datatype Field<V(==)> = Nil | Map(entries: map<string, V>)

  datatype Spec = Spec(
    id: string, mode: string, kind: string, entry: string, command: string,
    flags: Field<bool>, config: Field<Value>)

  /** How the hooks of one domain's kernels behave during one reload. */
  datatype Env = Env(results: L.Results, drainOk: bool, stopOk: bool, manifest: R.Manifest, health: R.Health)

  /** A kernel is told apart from the others of its domain by the launch it came from. */
  datatype Call = Call(launch: nat, hook: L.Hook)

  /** How OnDrain and OnStop of a kernel ended. */
  datatype Ending = Ending(drainOk: bool, stopOk: bool)

  /** A kernel: the hook results of its run, those of its shutdown if it had one, and
      its lifecycle machine as it now stands. */
  datatype Kernel = Kernel(results: L.Results, ending: R.Option<Ending>, fsm: L.Machine)

  datatype Running = Running(spec: Spec, launch: nat)

  /** One domain: the entry in the runs map, and as history every kernel ever launched
      for it and every hook called, in order. */
  datatype DomainState = DomainState(run: R.Option<Running>, kernels: seq<Kernel>, calls: seq<Call>)

  const NO_DOMAIN: DomainState := DomainState(R.None, [], [])

  type Domain = d: DomainState | d.run.Some? ==> d.run.value.launch < |d.kernels| witness NO_DOMAIN

  const SMOOTH := Env(L.Results(true, true, true, true, true), true, true,
                      R.Manifest("", "", ""), R.Health(R.Ready, "", 0))

  /** The oracle of one reload; every hook of a domain it does not list succeeds. */
  function EnvOf(env: map<string, Env>, id: string): Env {
    if id in env then env[id] else SMOOTH
  }

  function Tagged(launch: nat, hooks: seq<L.Hook>): seq<Call> {
    seq(|hooks|, i requires 0 <= i < |hooks| => Call(launch, hooks[i]))
  }

  predicate Changed(was: Spec, now: Spec) {
    was.mode != now.mode || was.kind != now.kind || was.config != now.config || was.flags != now.flags
  }

  predicate LaunchSucceeds(s: Spec, env: Env, factories: set<string>) {
    s.kind in factories && L.Succeeds(env.results)
  }

  /** A kernel has been launched: it joins the others with the hooks its machine shows,
      and is the running one if it started and is to be managed. */
  function Launched(d: Domain, s: Spec, k: Kernel, managed: bool): Domain {
    DomainState(if managed then R.Some(Running(s, |d.kernels|)) else d.run,
                d.kernels + [k],
                d.calls + Tagged(|d.kernels|, k.fsm.called))
  }

  function RunMachine(r: L.Results): L.Machine {
    L.Perform(L.FRESH, L.RunOp(r))
  }

  function Launch(d: Domain, s: Spec, env: Env, factories: set<string>): Domain {
    if s.kind !in factories then d
    else Launched(d, s, Kernel(env.results, R.None, RunMachine(env.results)), L.Succeeds(env.results))
  }

  /** What the manager's stop does to a kernel's machine. */
  function ShutDown(m: L.Machine, e: Ending): L.Machine {
    L.Perform(L.Perform(m, L.DrainOp(e.drainOk)), L.StopOp(e.stopOk))
  }

  /** The hooks called between two views of a machine. */
  function Gained(before: L.Machine, after: L.Machine): seq<L.Hook> {
    if |before.called| <= |after.called| then after.called[|before.called|..] else []
  }

  /** The running kernel has ended: its machine is kept as it then stands, and the
      hooks it gained are logged. */
  function Ended(d: Domain, e: Ending, m: L.Machine): Domain
    requires d.run.Some?
  {
    var g := d.run.value.launch;
    var k := d.kernels[g];
    DomainState(R.None, d.kernels[g := Kernel(k.results, R.Some(e), m)], d.calls + Tagged(g, Gained(k.fsm, m)))
  }

  function Halt(d: Domain, env: Env): Domain {
    if d.run.None? then d
    else
      var e := Ending(env.drainOk, env.stopOk);
      Ended(d, e, ShutDown(d.kernels[d.run.value.launch].fsm, e))
  }

  /** What one reload does to one domain, want being the spec listed last for it. */
  function Reconcile(d: Domain, want: R.Option<Spec>, env: Env, factories: set<string>): Domain {
    if want.None? then Halt(d, env)
    else if d.run.None? then Launch(d, want.value, env, factories)
    else if Changed(d.run.value.spec, want.value) then Launch(Halt(d, env), want.value, env, factories)
    else d.(run := R.Some(d.run.value.(spec := want.value)))
  }

  /** The last spec listed for an id. */
  function Wanted(specs: seq<Spec>, id: string): R.Option<Spec> {
    if specs == [] then R.None
    else
      var last := specs[|specs| - 1];
      if last.id == id then R.Some(last) else Wanted(specs[..|specs| - 1], id)
  }

  /** Some entry for the id, with no later one. */
  ghost predicate ListedLast(specs: seq<Spec>, i: int, id: string) {
    0 <= i < |specs| && specs[i].id == id && forall j | i < j < |specs| :: specs[j].id != id
  }

  lemma {:induction false} WantedIsLastListed(specs: seq<Spec>, id: string)
    ensures Wanted(specs, id).None? <==> forall i | 0 <= i < |specs| :: specs[i].id != id
    ensures forall i | ListedLast(specs, i, id) :: Wanted(specs, id) == R.Some(specs[i])
    ensures Wanted(specs, id).Some? ==> Wanted(specs, id).value.id == id
  {
    if specs == [] {
    } else {
      var n := |specs| - 1;
      WantedIsLastListed(specs[..n], id);
      forall i | ListedLast(specs, i, id) ensures Wanted(specs, id) == R.Some(specs[i]) {
        if i < n {
          assert specs[n].id != id && ListedLast(specs[..n], i, id);
        }
      }
    }
  }

  // ---------------------------------------------- no leaks and no overlaps

  predicate Live(d: Domain, g: nat) {
    d.run.Some? && d.run.value.launch == g
  }

  predicate Started(d: Domain, g: nat) {
    g < |d.kernels| && L.Succeeds(d.kernels[g].results)
  }

  /** A live kernel has been run with success; any other that started has been drained
      and stopped; one that failed to start has only been run. */
  predicate KernelOk(k: Kernel, live: bool) {
    && k.fsm == (if k.ending.None? then RunMachine(k.results) else ShutDown(RunMachine(k.results), k.ending.value))
    && (live ==> L.Succeeds(k.results))
    && (k.ending.Some? <==> L.Succeeds(k.results) && !live)
  }

  ghost predicate KernelsOk(d: Domain) {
    forall g | 0 <= g < |d.kernels| :: KernelOk(d.kernels[g], Live(d, g))
  }

  /** The hooks a log holds for one launch. */
  function Of(calls: seq<Call>, g: nat): seq<L.Hook> {
    if calls == [] then []
    else
      var last := calls[|calls| - 1];
      Of(calls[..|calls| - 1], g) + if last.launch == g then [last.hook] else []
  }

  /** The log and the machines agree on which hooks of which kernel were called. */
  ghost predicate Logged(d: Domain) {
    && (forall g | 0 <= g < |d.kernels| :: Of(d.calls, g) == d.kernels[g].fsm.called)
    && (forall i | 0 <= i < |d.calls| :: d.calls[i].launch < |d.kernels|)
  }

  /** The kernel of call i was stopped after it and before call j. */
  ghost predicate StoppedBetween(calls: seq<Call>, i: nat, j: nat)
    requires i < |calls|
  {
    exists k | i < k < j && k < |calls| :: calls[k] == Call(calls[i].launch, L.OnStop)
  }

  /** A kernel that got ready is live or has been stopped since. */
  ghost predicate Closed(d: Domain) {
    forall i | 0 <= i < |d.calls| && d.calls[i].hook == L.OnReady && !Live(d, d.calls[i].launch) ::
      StoppedBetween(d.calls, i, |d.calls|)
  }

  /** Once a kernel is ready, no hook of another one that starts is called before it
      has been stopped. */
  ghost predicate NoOverlap(d: Domain) {
    forall i, j | 0 <= i < j < |d.calls| && d.calls[i].hook == L.OnReady
                  && d.calls[j].launch != d.calls[i].launch && Started(d, d.calls[j].launch) ::
      StoppedBetween(d.calls, i, j)
  }

  ghost predicate WellManaged(d: Domain) {
    KernelsOk(d) && Logged(d) && Closed(d) && NoOverlap(d)
  }

  lemma {:induction false} OfTagged(calls: seq<Call>, g: nat, hooks: seq<L.Hook>, h: nat)
    ensures Of(calls + Tagged(g, hooks), h) == Of(calls, h) + if g == h then hooks else []
    decreases |hooks|
  {
    if hooks == [] {
      assert calls + Tagged(g, hooks) == calls;
    } else {
      var n := |hooks| - 1;
      var more := calls + Tagged(g, hooks);
      assert more[..|more| - 1] == calls + Tagged(g, hooks[..n]) && more[|more| - 1] == Call(g, hooks[n]);
      OfTagged(calls, g, hooks[..n], h);
      assert hooks[..n] + [hooks[n]] == hooks;
    }
  }

  lemma {:induction false} OfUnknown(calls: seq<Call>, g: nat)
    requires forall i | 0 <= i < |calls| :: calls[i].launch != g
    ensures Of(calls, g) == []
    decreases |calls|
  {
    if calls == [] {
    } else {
      OfUnknown(calls[..|calls| - 1], g);
    }
  }

  /** The hooks of a run: OnReady is among them exactly if it succeeds, OnDrain and
      OnStop never are. */
  lemma RunHooks(r: L.Results)
    ensures var called := RunMachine(r).called;
            && (L.OnReady in called <==> L.Succeeds(r)) && (L.Succeeds(r) ==> called == L.RUN_HOOKS)
            && L.OnDrain !in called && L.OnStop !in called
  {
    L.RunStopsAtFirstFailure(r);
    FirstHooks(RunMachine(r).called);
  }

  lemma FirstHooks(called: seq<L.Hook>)
    requires |called| <= |L.RUN_HOOKS| && called == L.RUN_HOOKS[..|called|]
    ensures L.OnReady in called <==> called == L.RUN_HOOKS
    ensures L.OnDrain !in called && L.OnStop !in called
  {
    assert called == L.RUN_HOOKS ==> called[4] == L.OnReady;
  }

  lemma ShutDownHooks(m: L.Machine, e: Ending)
    ensures ShutDown(m, e).called == m.called + [L.OnDrain, L.OnStop]
    ensures Gained(m, ShutDown(m, e)) == [L.OnDrain, L.OnStop]
  {
  }

  /** A stop that lies between two calls still does when the log has grown. */
  lemma StoppedStays(calls: seq<Call>, more: seq<Call>, i: nat, j: nat, j': nat)
    requires i < |calls| && j <= j' && StoppedBetween(calls, i, j)
    ensures StoppedBetween(calls + more, i, j')
  {
    var k :| i < k < j && k < |calls| && calls[k] == Call(calls[i].launch, L.OnStop);
    assert (calls + more)[k] == calls[k] && (calls + more)[i] == calls[i];
  }

  /** A log in which others had ended stays free of overlaps when a kernel's hooks are
      added, if it does not start or nothing else is live. */
  lemma LogGrows(d: Domain, d': Domain, g: nat, hooks: seq<L.Hook>)
    requires Closed(d) && NoOverlap(d) && Logged(d)
    requires d'.calls == d.calls + Tagged(g, hooks)
    requires forall h | 0 <= h < |d.kernels| :: Started(d', h) == Started(d, h)
    requires Started(d', g) ==> d.run.None? || Live(d, g)
    ensures NoOverlap(d')
  {
    var n := |d.calls|;
    forall i, j | 0 <= i < j < |d'.calls| && d'.calls[i].hook == L.OnReady
                  && d'.calls[j].launch != d'.calls[i].launch && Started(d', d'.calls[j].launch)
      ensures StoppedBetween(d'.calls, i, j)
    {
      assert i < n;
      assert d'.calls[i] == d.calls[i];
      if j < n {
        assert d'.calls[j] == d.calls[j];
        StoppedStays(d.calls, Tagged(g, hooks), i, j, j);
      } else {
        StoppedStays(d.calls, Tagged(g, hooks), i, n, j);
      }
    }
  }

  lemma HaltKeeps(d: Domain, env: Env)
    requires WellManaged(d)
    ensures WellManaged(Halt(d, env)) && Halt(d, env).run.None?
  {
    if d.run.Some? {
      var g, e := d.run.value.launch, Ending(env.drainOk, env.stopOk);
      var m := ShutDown(d.kernels[g].fsm, e);
      ShutDownHooks(d.kernels[g].fsm, e);
      EndedKernels(d, e);
      EndedLogs(d, e, m);
    }
  }

  lemma EndedKernels(d: Domain, e: Ending)
    requires KernelsOk(d) && d.run.Some?
    ensures KernelsOk(Ended(d, e, ShutDown(d.kernels[d.run.value.launch].fsm, e)))
  {
    var g := d.run.value.launch;
    var d' := Ended(d, e, ShutDown(d.kernels[g].fsm, e));
    assert KernelOk(d.kernels[g], true);
    forall h | 0 <= h < |d'.kernels| ensures KernelOk(d'.kernels[h], false) {
      assert KernelOk(d.kernels[h], Live(d, h));
    }
  }

  lemma EndedLogs(d: Domain, e: Ending, m: L.Machine)
    requires Logged(d) && Closed(d) && NoOverlap(d) && d.run.Some?
    requires var was := d.kernels[d.run.value.launch].fsm;
             m.called == was.called + [L.OnDrain, L.OnStop] && Gained(was, m) == [L.OnDrain, L.OnStop]
    ensures var d' := Ended(d, e, m); Logged(d') && Closed(d') && NoOverlap(d')
  {
    var d', g := Ended(d, e, m), d.run.value.launch;
    forall h | 0 <= h < |d'.kernels| ensures Of(d'.calls, h) == d'.kernels[h].fsm.called {
      OfTagged(d.calls, g, [L.OnDrain, L.OnStop], h);
    }
    LogGrows(d, d', g, [L.OnDrain, L.OnStop]);
    HaltCloses(d, d', g);
  }

  lemma HaltCloses(d: Domain, d': Domain, g: nat)
    requires Closed(d) && Live(d, g) && d'.calls == d.calls + Tagged(g, [L.OnDrain, L.OnStop])
    ensures Closed(d')
  {
    var n := |d.calls|;
    forall i | 0 <= i < |d'.calls| && d'.calls[i].hook == L.OnReady ensures StoppedBetween(d'.calls, i, n + 2) {
      assert i < n && d'.calls[i] == d.calls[i];
      if d.calls[i].launch == g {
        assert d'.calls[n + 1] == Call(g, L.OnStop);
      } else {
        StoppedStays(d.calls, Tagged(g, [L.OnDrain, L.OnStop]), i, n, n + 2);
      }
    }
  }

  /** A launch keeps a domain well managed if its kernel fails to start, or is the one
      to be managed and no other is. */
  lemma LaunchedKeeps(d: Domain, s: Spec, r: L.Results, managed: bool)
    requires WellManaged(d) && managed == L.Succeeds(r) && (managed ==> d.run.None?)
    ensures WellManaged(Launched(d, s, Kernel(r, R.None, RunMachine(r)), managed))
  {
    var k := Kernel(r, R.None, RunMachine(r));
    RunHooks(r);
    LaunchedKernels(d, s, k, managed);
    LaunchedLogs(d, s, k, managed);
  }

  lemma LaunchedKernels(d: Domain, s: Spec, k: Kernel, managed: bool)
    requires KernelsOk(d) && KernelOk(k, managed) && (managed ==> d.run.None?)
    ensures KernelsOk(Launched(d, s, k, managed))
  {
    var d' := Launched(d, s, k, managed);
    forall h | 0 <= h < |d'.kernels| ensures KernelOk(d'.kernels[h], Live(d', h)) {
      if h < |d.kernels| {
        assert KernelOk(d.kernels[h], Live(d, h));
      }
    }
  }

  lemma LaunchedLogs(d: Domain, s: Spec, k: Kernel, managed: bool)
    requires Logged(d) && Closed(d) && NoOverlap(d) && (managed ==> d.run.None?)
    requires managed == L.Succeeds(k.results) && (L.OnReady in k.fsm.called ==> managed)
    ensures var d' := Launched(d, s, k, managed); Logged(d') && Closed(d') && NoOverlap(d')
  {
    var d', g := Launched(d, s, k, managed), |d.kernels|;
    OfUnknown(d.calls, g);
    forall h | 0 <= h < |d'.kernels| ensures Of(d'.calls, h) == d'.kernels[h].fsm.called {
      OfTagged(d.calls, g, k.fsm.called, h);
    }
    LogGrows(d, d', g, k.fsm.called);
    LaunchedCloses(d, d', g, k.fsm.called);
  }

  lemma LaunchedCloses(d: Domain, d': Domain, g: nat, hooks: seq<L.Hook>)
    requires Closed(d) && d'.calls == d.calls + Tagged(g, hooks)
    requires forall h :: Live(d, h) ==> Live(d', h)
    requires L.OnReady in hooks ==> Live(d', g)
    ensures Closed(d')
  {
    var n := |d.calls|;
    assert forall i | n <= i < |d'.calls| :: d'.calls[i] == Call(g, hooks[i - n]);
    forall i | 0 <= i < |d'.calls| && d'.calls[i].hook == L.OnReady && !Live(d', d'.calls[i].launch)
      ensures StoppedBetween(d'.calls, i, |d'.calls|)
    {
      if i < n {
        assert d'.calls[i] == d.calls[i];
        StoppedStays(d.calls, Tagged(g, hooks), i, n, |d'.calls|);
      }
    }
  }

  lemma RespecKeeps(d: Domain, s: Spec)
    requires WellManaged(d) && d.run.Some?
    ensures WellManaged(d.(run := R.Some(d.run.value.(spec := s))))
  {
    var d': Domain := d.(run := R.Some(d.run.value.(spec := s)));
    forall h | 0 <= h < |d'.kernels| ensures KernelOk(d'.kernels[h], Live(d', h)) {
      assert KernelOk(d.kernels[h], Live(d, h));
    }
  }

  lemma ReconcileKeeps(d: Domain, want: R.Option<Spec>, env: Env, factories: set<string>)
    requires WellManaged(d)
    ensures WellManaged(Reconcile(d, want, env, factories))
  {
    HaltKeeps(d, env);
    if want.Some? {
      if d.run.None? {
        LaunchedKeeps(d, want.value, env.results, L.Succeeds(env.results));
      } else if Changed(d.run.value.spec, want.value) {
        LaunchedKeeps(Halt(d, env), want.value, env.results, L.Succeeds(env.results));
      } else {
        RespecKeeps(d, want.value);
      }
    }
  }

  /** One reload as a domain sees it. */
  datatype Reload = Reload(want: R.Option<Spec>, env: Env)

  function AfterReloads(d: Domain, reloads: seq<Reload>, factories: set<string>): Domain {
    if reloads == [] then d
    else
      var n := |reloads| - 1;
      Reconcile(AfterReloads(d, reloads[..n], factories), reloads[n].want, reloads[n].env, factories)
  }

  lemma {:induction false} ReloadsKeep(d: Domain, reloads: seq<Reload>, factories: set<string>)
    requires WellManaged(d)
    ensures WellManaged(AfterReloads(d, reloads, factories))
    decreases |reloads|
  {
    if reloads == [] {
    } else {
      var n := |reloads| - 1;
      ReloadsKeep(d, reloads[..n], factories);
      ReconcileKeeps(AfterReloads(d, reloads[..n], factories), reloads[n].want, reloads[n].env, factories);
    }
  }

  // ----------------------------------------------------------------- start-up

  /** The root kernel's start-up, for one configured domain: in-process kinds go
      through the manager, other modes through the factory alone. */
  function Boot(d: Domain, s: Spec, env: Env, factories: set<string>): Domain {
    if s.kind !in factories then d
    else Launched(d, s, Kernel(env.results, R.None, RunMachine(env.results)),
                  s.mode == "inproc" && L.Succeeds(env.results))
  }

  datatype Configured = Configured(spec: Spec, env: Env)

  /** The configured entries of one domain, in order. */
  function BootAll(d: Domain, entries: seq<Configured>, factories: set<string>): Domain {
    if entries == [] then d
    else
      var last := entries[|entries| - 1];
      Boot(BootAll(d, entries[..|entries| - 1], factories), last.spec, last.env, factories)
  }

  predicate Starts(e: Configured, factories: set<string>) {
    LaunchSucceeds(e.spec, e.env, factories)
  }

  /** Every kernel that started is the managed one. */
  ghost predicate AllManaged(d: Domain) {
    forall g | 0 <= g < |d.kernels| && Started(d, g) :: Live(d, g)
  }

  ghost predicate SomeStarted(d: Domain) {
    exists g | 0 <= g < |d.kernels| :: Started(d, g)
  }

  ghost predicate SomeStarts(entries: seq<Configured>, factories: set<string>) {
    exists i | 0 <= i < |entries| :: Starts(entries[i], factories)
  }

  /** At most one entry starts a kernel, and it is an in-process one. */
  ghost predicate OneInProcess(entries: seq<Configured>, factories: set<string>) {
    && (forall i, j | 0 <= i < j < |entries| :: !(Starts(entries[i], factories) && Starts(entries[j], factories)))
    && (forall i | 0 <= i < |entries| && Starts(entries[i], factories) :: entries[i].spec.mode == "inproc")
  }

  /** What start-up alone leaves: kernels that have been run and no more, the managed
      one with success. */
  ghost predicate JustRun(d: Domain) {
    && (forall g | 0 <= g < |d.kernels| :: d.kernels[g].ending.None?)
    && (d.run.Some? ==> Started(d, d.run.value.launch))
  }

  lemma BootStep(d: Domain, e: Configured, factories: set<string>)
    requires JustRun(d)
    ensures var d' := Boot(d, e.spec, e.env, factories);
            && JustRun(d')
            && (SomeStarted(d') <==> SomeStarted(d) || Starts(e, factories))
            && (AllManaged(d') <==>
                if Starts(e, factories) then e.spec.mode == "inproc" && !SomeStarted(d) else AllManaged(d))
  {
    if e.spec.kind in factories {
      var k := Kernel(e.env.results, R.None, RunMachine(e.env.results));
      LaunchStep(d, e.spec, k, e.spec.mode == "inproc" && L.Succeeds(e.env.results));
    }
  }

  lemma LaunchStep(d: Domain, s: Spec, k: Kernel, managed: bool)
    requires JustRun(d) && k.ending.None? && (managed ==> L.Succeeds(k.results))
    ensures var d' := Launched(d, s, k, managed);
            && JustRun(d')
            && (SomeStarted(d') <==> SomeStarted(d) || L.Succeeds(k.results))
            && (AllManaged(d') <==> if L.Succeeds(k.results) then managed && !SomeStarted(d) else AllManaged(d))
  {
    var d', n := Launched(d, s, k, managed), |d.kernels|;
    assert Started(d', n) <==> L.Succeeds(k.results);
    assert forall g | 0 <= g < n :: Started(d', g) == Started(d, g);
  }

  lemma OneMoreEntry(entries: seq<Configured>, e: Configured, factories: set<string>)
    ensures var more := entries + [e];
            && (SomeStarts(more, factories) <==> SomeStarts(entries, factories) || Starts(e, factories))
            && (OneInProcess(more, factories) <==>
                if Starts(e, factories) then e.spec.mode == "inproc" && !SomeStarts(entries, factories)
                else OneInProcess(entries, factories))
  {
    var more, n := entries + [e], |entries|;
    assert more[n] == e && forall i | 0 <= i < n :: more[i] == entries[i];
  }

  /** Start-up has no guard against a second kernel for an id: it leaves every
      started kernel in the manager's hands exactly if no two entries of a domain
      start and the one that does is in-process. */
  lemma {:induction false} StartUpManagesAllIff(entries: seq<Configured>, factories: set<string>)
    ensures AllManaged(BootAll(NO_DOMAIN, entries, factories)) <==> OneInProcess(entries, factories)
    ensures SomeStarted(BootAll(NO_DOMAIN, entries, factories)) <==> SomeStarts(entries, factories)
    ensures JustRun(BootAll(NO_DOMAIN, entries, factories))
  {
    if entries == [] {
    } else {
      var before, last := entries[..|entries| - 1], entries[|entries| - 1];
      assert entries == before + [last];
      StartUpManagesAllIff(before, factories);
      BootStep(BootAll(NO_DOMAIN, before, factories), last, factories);
      OneMoreEntry(before, last, factories);
    }
  }

  lemma {:induction false} StartUpKeeps(entries: seq<Configured>, factories: set<string>)
    requires OneInProcess(entries, factories)
    ensures WellManaged(BootAll(NO_DOMAIN, entries, factories))
  {
    if entries == [] {
    } else {
      var before, last := entries[..|entries| - 1], entries[|entries| - 1];
      assert entries == before + [last];
      OneMoreEntry(before, last, factories);
      EarlierEntries(before, last, factories);
      StartUpKeeps(before, factories);
      StartUpManagesAllIff(before, factories);
      var d := BootAll(NO_DOMAIN, before, factories);
      if last.spec.kind in factories {
        assert d.run.Some? ==> SomeStarted(d) by {
          assert d.run.Some? ==> Started(d, d.run.value.launch);
        }
        LaunchedKeeps(d, last.spec, last.env.results, L.Succeeds(last.env.results));
      }
    }
  }

  lemma EarlierEntries(entries: seq<Configured>, e: Configured, factories: set<string>)
    requires OneInProcess(entries + [e], factories)
    ensures OneInProcess(entries, factories)
  {
    OneMoreEntry(entries, e, factories);
  }

  /** A kernel that started, is not the running one and has not been shut down. */
  predicate Leaked(d: Domain, g: nat) {
    Started(d, g) && !Live(d, g) && d.kernels[g].ending.None?
  }

  lemma LeakLaunches(d: Domain, s: Spec, k: Kernel, managed: bool, g: nat)
    requires Leaked(d, g)
    ensures Leaked(Launched(d, s, k, managed), g)
  {
  }

  lemma LeakEnds(d: Domain, e: Ending, m: L.Machine, g: nat)
    requires Leaked(d, g)
    ensures d.run.Some? ==> Leaked(Ended(d, e, m), g)
  {
  }

  lemma ReconcileLeaks(d: Domain, want: R.Option<Spec>, env: Env, factories: set<string>, g: nat)
    requires Leaked(d, g)
    ensures Leaked(Reconcile(d, want, env, factories), g)
  {
    var e, k := Ending(env.drainOk, env.stopOk), Kernel(env.results, R.None, RunMachine(env.results));
    var ok, halted := L.Succeeds(env.results), Halt(d, env);
    var m := if d.run.Some? then ShutDown(d.kernels[d.run.value.launch].fsm, e) else L.FRESH;
    if want.None? {
      LeakEnds(d, e, m, g);
    } else if d.run.None? || Changed(d.run.value.spec, want.value) {
      LeakEnds(d, e, m, g);
      LeakLaunches(halted, want.value, k, ok, g);
    }
  }

  lemma {:induction false} LeakStays(d: Domain, reloads: seq<Reload>, factories: set<string>, g: nat)
    requires Leaked(d, g)
    ensures Leaked(AfterReloads(d, reloads, factories), g)
    decreases |reloads|
  {
    if reloads == [] {
    } else {
      var n := |reloads| - 1;
      LeakStays(d, reloads[..n], factories, g);
      ReconcileLeaks(AfterReloads(d, reloads[..n], factories), reloads[n].want, reloads[n].env, factories, g);
    }
  }

  /** From start-up on, through any reloads with any hook results: the kernels of a
      domain are well managed exactly if start-up gave the manager every kernel it
      started; what it did not is leaked for good. */
  lemma {:induction false} ReloadsNeverLeakIff(entries: seq<Configured>, reloads: seq<Reload>, factories: set<string>)
    ensures WellManaged(AfterReloads(BootAll(NO_DOMAIN, entries, factories), reloads, factories))
            <==> OneInProcess(entries, factories)
  {
    var d := BootAll(NO_DOMAIN, entries, factories);
    if OneInProcess(entries, factories) {
      StartUpKeeps(entries, factories);
      ReloadsKeep(d, reloads, factories);
    } else {
      StartUpManagesAllIff(entries, factories);
      var g :| 0 <= g < |d.kernels| && Started(d, g) && !Live(d, g);
      LeakStays(d, reloads, factories, g);
      var d' := AfterReloads(d, reloads, factories);
      assert !KernelOk(d'.kernels[g], Live(d', g));
    }
  }

  function Count(calls: seq<Call>, c: Call): nat {
    if calls == [] then 0 else Count(calls[..|calls| - 1], c) + if calls[|calls| - 1] == c then 1 else 0
  }

  function CountHook(hooks: seq<L.Hook>, h: L.Hook): nat {
    if hooks == [] then 0 else CountHook(hooks[..|hooks| - 1], h) + if hooks[|hooks| - 1] == h then 1 else 0
  }

  lemma {:induction false} CountOf(calls: seq<Call>, g: nat, h: L.Hook)
    ensures Count(calls, Call(g, h)) == CountHook(Of(calls, g), h)
    decreases |calls|
  {
    if calls == [] {
    } else {
      var last := calls[|calls| - 1];
      CountOf(calls[..|calls| - 1], g, h);
      var hooks := Of(calls, g);
      if last.launch == g {
        assert hooks[..|hooks| - 1] == Of(calls[..|calls| - 1], g) && hooks[|hooks| - 1] == last.hook;
      } else {
        assert hooks == Of(calls[..|calls| - 1], g);
      }
    }
  }

  lemma {:induction false} CountAbsent(hooks: seq<L.Hook>, h: L.Hook)
    requires h !in hooks
    ensures CountHook(hooks, h) == 0
    decreases |hooks|
  {
    if hooks == [] {
    } else {
      CountAbsent(hooks[..|hooks| - 1], h);
    }
  }

  lemma CountShutDown(hooks: seq<L.Hook>, h: L.Hook)
    requires h !in hooks && (h == L.OnDrain || h == L.OnStop)
    ensures CountHook(hooks + [L.OnDrain, L.OnStop], h) == 1
  {
    CountAbsent(hooks, h);
    var all := hooks + [L.OnDrain, L.OnStop];
    assert all[..|all| - 1] == hooks + [L.OnDrain] && (hooks + [L.OnDrain])[..|hooks|] == hooks;
  }

  /** Every kernel that started is the live one or was drained once and stopped once;
      one that failed to start, or is live, was neither.  A kernel ends in stopped
      exactly if it was shut down and OnStop succeeded. */
  lemma {:induction false} StartedKernelsAreAccountedFor(entries: seq<Configured>, reloads: seq<Reload>,
                                                         factories: set<string>, g: nat, hook: L.Hook)
    requires OneInProcess(entries, factories) && (hook == L.OnDrain || hook == L.OnStop)
    ensures var d := AfterReloads(BootAll(NO_DOMAIN, entries, factories), reloads, factories);
            && Count(d.calls, Call(g, hook)) == (if Started(d, g) && !Live(d, g) then 1 else 0)
            && (g < |d.kernels| ==>
                  (d.kernels[g].fsm.state == L.Stopped <==>
                     d.kernels[g].ending.Some? && d.kernels[g].ending.value.stopOk))
  {
    ReloadsNeverLeakIff(entries, reloads, factories);
    var d := AfterReloads(BootAll(NO_DOMAIN, entries, factories), reloads, factories);
    CountOf(d.calls, g, hook);
    if g < |d.kernels| {
      var k := d.kernels[g];
      assert KernelOk(k, Live(d, g));
      RunHooks(k.results);
      L.RunSucceedsIff(k.results);
      if k.ending.Some? {
        L.ShutdownEndsStoppedIff(k.results, k.ending.value.drainOk, k.ending.value.stopOk);
        ShutDownHooks(RunMachine(k.results), k.ending.value);
        CountShutDown(RunMachine(k.results).called, hook);
      } else {
        CountAbsent(RunMachine(k.results).called, hook);
      }
    } else {
      OfUnknown(d.calls, g);
    }
  }

  // ------------------------------------------------------------- convergence

  function SpecOf(d: Domain): R.Option<Spec> {
    if d.run.Some? then R.Some(d.run.value.spec) else R.None
  }

  /** The spec a domain should run with after a reload: the listed one, if the domain
      ran unchanged or has been launched with success, otherwise none. */
  function SpecAfter(was: R.Option<Spec>, want: R.Option<Spec>, env: Env, factories: set<string>): R.Option<Spec> {
    if want.Some? && ((was.Some? && !Changed(was.value, want.value)) || LaunchSucceeds(want.value, env, factories))
    then want else R.None
  }

  /** Stopping, launching and keeping add up to that. */
  lemma ReloadConverges(d: Domain, want: R.Option<Spec>, env: Env, factories: set<string>)
    ensures SpecOf(Reconcile(d, want, env, factories)) == SpecAfter(SpecOf(d), want, env, factories)
  {
  }

  /** A domain that needs nothing receives no hook call. */
  lemma UnchangedDomainIsLeftAlone(d: Domain, want: R.Option<Spec>, env: Env, factories: set<string>)
    requires if want.None? then d.run.None? else d.run.Some? && !Changed(d.run.value.spec, want.value)
    ensures var d' := Reconcile(d, want, env, factories);
            d'.calls == d.calls && d'.kernels == d.kernels
            && (d.run.Some? ==> d'.run.value.launch == d.run.value.launch)
  {
  }

  // ------------------------------------------------------------ the registry

  const DEFAULT_HTTP_ADDR := ":8081"

  function HttpAddr(config: Field<Value>): string {
    if config.Map? && "http_addr" in config.entries && config.entries["http_addr"].Text?
       && config.entries["http_addr"].text != ""
    then config.entries["http_addr"].text
    else DEFAULT_HTTP_ADDR
  }

  function HttpExports(config: Field<Value>): R.Exports {
    R.Exports(R.Slice([R.NetworkEndpoint("hello", "http", HttpAddr(config), "v1", ["/hello"])]),
              R.Nil, R.Nil, R.Nil, R.Nil)
  }

  /** What a successful launch hands to the registry. */
  function Unregistered(s: Spec, env: Env, now: R.Time): R.KernelRecord {
    R.KernelRecord(s.id, "domain", env.manifest, env.health, R.Some(HttpExports(s.config)), now, 0)
  }

  /** The record it leaves there, under the record's id. */
  function Record(s: Spec, env: Env, now: R.Time): R.KernelRecord {
    R.Completed(Unregistered(s, env, now), now)
  }

  /** A domain is registered under its own id unless that is empty and its kernel's
      manifest names another. */
  lemma RegisteredUnderOwnIdIff(s: Spec, env: Env, now: R.Time)
    ensures Record(s, env, now).id == s.id <==> s.id != "" || env.manifest.kernelId == ""
  {
  }

  predicate Restarted(d: Domain, want: R.Option<Spec>) {
    want.Some? && (d.run.None? || Changed(d.run.value.spec, want.value))
  }

  /** Whether a reload launches a kernel for the domain with success. */
  predicate Launches(d: Domain, want: R.Option<Spec>, env: Env, factories: set<string>) {
    Restarted(d, want) && LaunchSucceeds(want.value, env, factories)
  }

  /** What a reload does to the registry for one domain: it may remove the entry under
      the domain's id, and then add a record under the record's. */
  datatype Deed = Deed(removes: bool, adds: R.Option<R.KernelRecord>)

  const NO_DEED := Deed(false, R.None)

  function DeedOf(d: Domain, want: R.Option<Spec>, env: Env, factories: set<string>, now: R.Time): Deed {
    Deed(d.run.Some? && (want.None? || Restarted(d, want)),
         if Launches(d, want, env, factories) then R.Some(Record(want.value, env, now)) else R.None)
  }

  function Carried(ks: R.Kernels, id: string, deed: Deed): R.Kernels {
    var left := if deed.removes then ks - {id} else ks;
    if deed.adds.Some? then left[deed.adds.value.id := deed.adds.value] else left
  }

  /** The registry entry of a domain after its deed, if nobody else's goes there. */
  function RegistryAfter(was: R.Option<R.KernelRecord>, deed: Deed): R.Option<R.KernelRecord> {
    if deed.adds.Some? then deed.adds else if deed.removes then R.None else was
  }

  predicate Touches(deed: Deed) {
    deed.removes || deed.adds.Some?
  }

  /** The domain with the empty id adds its record under another id. */
  predicate Strays(empty: Deed) {
    empty.adds.Some? && empty.adds.value.id != ""
  }

  predicate StraysTo(empty: Deed, k: string) {
    Strays(empty) && k == empty.adds.value.id
  }

  /** The entry under an id after a reload.  Only a record that strays disturbs it: under
      the stray's id the stray stays, or what the id's own domain, if it is listed, made
      of the entry after it; under the empty one the record is missing. */
  predicate Outcome(k: string, was: R.Option<R.KernelRecord>, after: R.Option<R.KernelRecord>,
                    own: Deed, listed: bool, empty: Deed) {
    if Strays(empty) && k == empty.adds.value.id then
      after == empty.adds || (listed && Touches(own) && after == RegistryAfter(was, own))
    else if Strays(empty) && k == "" then
      after == if own.removes then R.None else was
    else
      after == RegistryAfter(was, own)
  }

  // -------------------------------------------------------- a whole reload

  /** The deed of one domain in a reload. */
  ghost function DeedAt(was: map<string, Domain>, specs: seq<Spec>, env: map<string, Env>,
                        factories: set<string>, now: R.Time, k: string): Deed {
    DeedOf(Find(was, k), Wanted(specs, k), EnvOf(env, k), factories, now)
  }

  /** No launch of a reload registers under an id that is another domain's, and the
      one for this id, if any, registers under it. */
  ghost predicate Undisturbed(was: map<string, Domain>, specs: seq<Spec>, env: map<string, Env>,
                              factories: set<string>, now: R.Time, k: string) {
    forall j :: DeedAt(was, specs, env, factories, now, j).adds.Some? ==>
      (DeedAt(was, specs, env, factories, now, j).adds.value.id == k <==> j == k)
  }

  /** Only a domain with an empty id disturbs the registry: when it is launched and its
      manifest names a kernel, that kernel's id and the empty one. */
  lemma UndisturbedIff(was: map<string, Domain>, specs: seq<Spec>, env: map<string, Env>,
                       factories: set<string>, now: R.Time, k: string)
    ensures var empty := DeedAt(was, specs, env, factories, now, "");
            && (Strays(empty) <==> Launches(Find(was, ""), Wanted(specs, ""), EnvOf(env, ""), factories)
                                   && EnvOf(env, "").manifest.kernelId != "")
            && (Strays(empty) ==> empty.adds.value.id == EnvOf(env, "").manifest.kernelId)
            && (Undisturbed(was, specs, env, factories, now, k) <==>
                !(Strays(empty) && (k == "" || k == empty.adds.value.id)))
  {
    forall j | Wanted(specs, j).Some? ensures Wanted(specs, j).value.id == j {
      WantedIsLastListed(specs, j);
    }
    var empty := DeedAt(was, specs, env, factories, now, "");
    assert Strays(empty) ==> empty.adds.value.id == EnvOf(env, "").manifest.kernelId;
  }

  /** And where it does, the visiting order may show: a domain and the one with the empty
      id whose record strays to it leave the same registry in both orders exactly if the
      domain's own deed touches nothing or adds the same record. */
  lemma OrderMattersIff(ks: R.Kernels, id: string, own: Deed, empty: Deed)
    requires Strays(empty) && empty.adds.value.id == id && (own.adds.Some? ==> own.adds.value.id == id)
    ensures var first, last := Carried(Carried(ks, id, own), "", empty), Carried(Carried(ks, "", empty), id, own);
            && R.Lookup(first, id) == empty.adds
            && R.Lookup(last, id) == (if Touches(own) then RegistryAfter(R.None, own) else empty.adds)
            && (first == last <==> !Touches(own) || own.adds == empty.adds)
  {
    var first, last := Carried(Carried(ks, id, own), "", empty), Carried(Carried(ks, "", empty), id, own);
    assert R.Lookup(first, id) == empty.adds;
    if !Touches(own) || own.adds == empty.adds {
      forall k ensures R.Lookup(first, k) == R.Lookup(last, k) {
      }
      SameLookups(first, last);
    }
  }

  lemma SameLookups(ks: R.Kernels, ms: R.Kernels)
    requires forall k :: R.Lookup(ks, k) == R.Lookup(ms, k)
    ensures ks == ms
  {
    forall k ensures k in ks <==> k in ms {
      assert R.Lookup(ks, k) == R.Lookup(ms, k);
    }
    forall k | k in ks ensures ks[k] == ms[k] {
      assert R.Lookup(ks, k) == R.Lookup(ms, k);
    }
  }

  /** For instance, with a factory whose kernels name another id than their domain's:
      kernel a runs, its kind is changed to one unknown, and a domain with
      an empty id is new whose manifest names a.  Visited last, a is unregistered although
      the other kernel has just been registered under its id. */
  lemma StrayCanBeUnregistered(fsm: L.Machine, now: R.Time)
    ensures var a := Spec("a", "inproc", "other", "", "", Nil, Nil);
            var d := DomainState(R.Some(Running(a, 0)), [Kernel(SMOOTH.results, R.None, fsm)], []);
            var stray := SMOOTH.(manifest := R.Manifest("a", "1", "domain"));
            var own := DeedOf(d, R.Some(a.(kind := "gone")), SMOOTH, {"other"}, now);
            var empty := DeedOf(NO_DOMAIN, R.Some(a.(id := "")), stray, {"other"}, now);
            && Strays(empty) && empty.adds.value.id == "a"
            && forall ks: R.Kernels :: "a" in Carried(Carried(ks, "a", own), "", empty)
                                       && "a" !in Carried(Carried(ks, "", empty), "a", own)
  {
  }

  /** The registry entry under an id is as the deeds of the reload ask. */
  ghost predicate OutcomeAt(was: map<string, Domain>, regWas: R.Kernels, specs: seq<Spec>, env: map<string, Env>,
                            factories: set<string>, now: R.Time, reg: R.Kernels, k: string) {
    Outcome(k, R.Lookup(regWas, k), R.Lookup(reg, k),
            DeedAt(was, specs, env, factories, now, k), Wanted(specs, k).Some?,
            DeedAt(was, specs, env, factories, now, ""))
  }

  /** What a reload makes of the domains and the registry. */
  ghost predicate Reloaded(was: map<string, Domain>, regWas: R.Kernels, specs: seq<Spec>, env: map<string, Env>,
                           factories: set<string>, now: R.Time, after: map<string, Domain>, regAfter: R.Kernels) {
    && (forall k :: Find(after, k) == Reconcile(Find(was, k), Wanted(specs, k), EnvOf(env, k), factories))
    && (forall k :: OutcomeAt(was, regWas, specs, env, factories, now, regAfter, k))
  }

  /** Where a reload's registry may depend on the visiting order: a record strays to the
      id of a listed domain whose own deed touches something else. */
  ghost predicate OrderShows(was: map<string, Domain>, specs: seq<Spec>, env: map<string, Env>,
                             factories: set<string>, now: R.Time) {
    var empty := DeedAt(was, specs, env, factories, now, "");
    Strays(empty) &&
    var k := empty.adds.value.id;
    var own := DeedAt(was, specs, env, factories, now, k);
    Wanted(specs, k).Some? && Touches(own) && own.adds != empty.adds
  }

  /** Two outcomes of one reload, in any two visiting orders, agree on every domain, and
      on every registry entry but the one a record strays to; on that too, unless the
      order may show there. */
  lemma {:induction false} ReloadOutcomesAgree(was: map<string, Domain>, regWas: R.Kernels, specs: seq<Spec>,
                                               env: map<string, Env>, factories: set<string>, now: R.Time,
                                               after1: map<string, Domain>, reg1: R.Kernels,
                                               after2: map<string, Domain>, reg2: R.Kernels)
    requires Reloaded(was, regWas, specs, env, factories, now, after1, reg1)
    requires Reloaded(was, regWas, specs, env, factories, now, after2, reg2)
    ensures forall k :: Find(after1, k) == Find(after2, k)
    ensures var empty := DeedAt(was, specs, env, factories, now, "");
            forall k :: StraysTo(empty, k) || R.Lookup(reg1, k) == R.Lookup(reg2, k)
    ensures OrderShows(was, specs, env, factories, now) || reg1 == reg2
  {
    var empty := DeedAt(was, specs, env, factories, now, "");
    forall k
      ensures StraysTo(empty, k) || R.Lookup(reg1, k) == R.Lookup(reg2, k)
      ensures OrderShows(was, specs, env, factories, now) || R.Lookup(reg1, k) == R.Lookup(reg2, k)
    {
      var own := DeedAt(was, specs, env, factories, now, k);
      assert OutcomeAt(was, regWas, specs, env, factories, now, reg1, k);
      assert OutcomeAt(was, regWas, specs, env, factories, now, reg2, k);
      OutcomesAgree(k, R.Lookup(regWas, k), R.Lookup(reg1, k), R.Lookup(reg2, k), own, Wanted(specs, k).Some?, empty);
    }
    if !OrderShows(was, specs, env, factories, now) {
      SameLookups(reg1, reg2);
    }
  }

  lemma OutcomesAgree(k: string, was: R.Option<R.KernelRecord>, after1: R.Option<R.KernelRecord>,
                      after2: R.Option<R.KernelRecord>, own: Deed, listed: bool, empty: Deed)
    requires Outcome(k, was, after1, own, listed, empty) && Outcome(k, was, after2, own, listed, empty)
    ensures StraysTo(empty, k) || after1 == after2
    ensures (StraysTo(empty, k) && listed && Touches(own) && own.adds != empty.adds)
            || after1 == after2
  {
  }

  /** And there both outcomes are outcomes of the reload. */
  lemma {:induction false} OrderMayShow(was: map<string, Domain>, regWas: R.Kernels, specs: seq<Spec>,
                                        env: map<string, Env>, factories: set<string>, now: R.Time,
                                        after: map<string, Domain>, reg: R.Kernels)
    requires Reloaded(was, regWas, specs, env, factories, now, after, reg)
    requires OrderShows(was, specs, env, factories, now)
    ensures var empty := DeedAt(was, specs, env, factories, now, "");
            var k := empty.adds.value.id;
            var own := DeedAt(was, specs, env, factories, now, k);
            var stray := reg[k := empty.adds.value];
            var mine := if own.adds.Some? then reg[k := own.adds.value] else reg - {k};
            && Reloaded(was, regWas, specs, env, factories, now, after, stray)
            && Reloaded(was, regWas, specs, env, factories, now, after, mine)
            && stray != mine
  {
    var empty := DeedAt(was, specs, env, factories, now, "");
    var k := empty.adds.value.id;
    var own := DeedAt(was, specs, env, factories, now, k);
    var stray := reg[k := empty.adds.value];
    var mine := if own.adds.Some? then reg[k := own.adds.value] else reg - {k};
    var deeds := j => DeedAt(was, specs, env, factories, now, j);
    var listed := j => Wanted(specs, j).Some?;
    forall j ensures OutcomeIn(j, regWas, reg, deeds, listed) {
      assert OutcomeAt(was, regWas, specs, env, factories, now, reg, j);
    }
    BothOutcomes(regWas, reg, deeds, listed, k, stray, mine);
    forall j
      ensures OutcomeAt(was, regWas, specs, env, factories, now, stray, j)
      ensures OutcomeAt(was, regWas, specs, env, factories, now, mine, j)
    {
      assert OutcomeIn(j, regWas, stray, deeds, listed) && OutcomeIn(j, regWas, mine, deeds, listed);
    }
  }

  ghost predicate OutcomeIn(j: string, regWas: R.Kernels, reg: R.Kernels, deeds: string -> Deed,
                            listed: string -> bool) {
    Outcome(j, R.Lookup(regWas, j), R.Lookup(reg, j), deeds(j), listed(j), deeds(""))
  }

  lemma {:induction false} BothOutcomes(regWas: R.Kernels, reg: R.Kernels, deeds: string -> Deed,
                                        listed: string -> bool, k: string, stray: R.Kernels, mine: R.Kernels)
    requires forall j :: OutcomeIn(j, regWas, reg, deeds, listed)
    requires StraysTo(deeds(""), k) && listed(k) && Touches(deeds(k)) && deeds(k).adds != deeds("").adds
    requires stray == reg[k := deeds("").adds.value]
    requires mine == if deeds(k).adds.Some? then reg[k := deeds(k).adds.value] else reg - {k}
    ensures forall j :: OutcomeIn(j, regWas, stray, deeds, listed) && OutcomeIn(j, regWas, mine, deeds, listed)
    ensures stray != mine
  {
    assert R.Lookup(stray, k) == deeds("").adds && R.Lookup(mine, k) == deeds(k).adds;
    forall j ensures OutcomeIn(j, regWas, stray, deeds, listed) && OutcomeIn(j, regWas, mine, deeds, listed) {
      assert OutcomeIn(j, regWas, reg, deeds, listed);
      Replaced(j, k, R.Lookup(regWas, j), R.Lookup(reg, j), R.Lookup(stray, j), deeds(j), listed(j), deeds(""));
      Replaced(j, k, R.Lookup(regWas, j), R.Lookup(reg, j), R.Lookup(mine, j), deeds(j), listed(j), deeds(""));
    }
  }

  lemma Replaced(j: string, k: string, was: R.Option<R.KernelRecord>, before: R.Option<R.KernelRecord>,
                 after: R.Option<R.KernelRecord>, own: Deed, listed: bool, empty: Deed)
    requires Outcome(j, was, before, own, listed, empty) && StraysTo(empty, k)
    requires if j != k then after == before
             else after == empty.adds || (listed && Touches(own) && after == own.adds)
    ensures Outcome(j, was, after, own, listed, empty)
  {
  }

  /** A stray outlives its kernel: a reload that stops the domain with the empty id and
      does nothing to the domain the record strayed to leaves that record registered. */
  lemma StrayOutlivesItsKernel(was: map<string, Domain>, regWas: R.Kernels, specs: seq<Spec>, env: map<string, Env>,
                               factories: set<string>, now: R.Time, after: map<string, Domain>, regAfter: R.Kernels,
                               k: string)
    requires Reloaded(was, regWas, specs, env, factories, now, after, regAfter)
    requires Find(was, "").run.Some? && Find(after, "").run.None?
    ensures "" !in regAfter
    ensures k != "" && !Touches(DeedAt(was, specs, env, factories, now, k)) ==>
              R.Lookup(regAfter, k) == R.Lookup(regWas, k)
  {
    RunsAfter(Find(was, ""), Wanted(specs, ""), EnvOf(env, ""), factories, now);
    assert OutcomeAt(was, regWas, specs, env, factories, now, regAfter, "");
    assert OutcomeAt(was, regWas, specs, env, factories, now, regAfter, k);
    assert R.Lookup(regAfter, "").None? <==> "" !in regAfter;
  }

  // ----------------------------------------- what a reload does, field by field

  /** A kernel that runs when a reload comes is still the live one after it exactly if its
      domain is listed with the same mode, kind, config and feature flags; then nothing is
      called.  Otherwise it has been drained and then stopped. */
  lemma KernelSurvivesIff(was: map<string, Domain>, regWas: R.Kernels, specs: seq<Spec>, env: map<string, Env>,
                          factories: set<string>, now: R.Time, after: map<string, Domain>, regAfter: R.Kernels,
                          k: string)
    requires Reloaded(was, regWas, specs, env, factories, now, after, regAfter) && Find(was, k).run.Some?
    ensures var d, d', want := Find(was, k), Find(after, k), Wanted(specs, k);
            var g, spec := d.run.value.launch, d.run.value.spec;
            var survives := d'.run.Some? && d'.run.value.launch == g;
            && (survives <==> want.Some? && want.value.mode == spec.mode && want.value.kind == spec.kind
                              && want.value.config == spec.config && want.value.flags == spec.flags)
            && (survives ==> d'.kernels == d.kernels && d'.calls == d.calls && d'.run.value.spec == want.value)
            && (!survives ==> |d.kernels| <= |d'.kernels|
                              && d'.kernels[g].fsm.called == d.kernels[g].fsm.called + [L.OnDrain, L.OnStop]
                              && d.calls + [Call(g, L.OnDrain), Call(g, L.OnStop)] <= d'.calls)
  {
    var d := Find(was, k);
    HaltDoes(d, EnvOf(env, k));
    if Wanted(specs, k).Some? {
      LaunchDoes(d, Wanted(specs, k).value, EnvOf(env, k), factories);
      LaunchDoes(Halt(d, EnvOf(env, k)), Wanted(specs, k).value, EnvOf(env, k), factories);
    }
  }

  lemma HaltDoes(d: Domain, env: Env)
    requires d.run.Some?
    ensures var d', g := Halt(d, env), d.run.value.launch;
            && d'.run.None? && |d'.kernels| == |d.kernels|
            && d'.kernels[g].fsm.called == d.kernels[g].fsm.called + [L.OnDrain, L.OnStop]
            && d'.calls == d.calls + [Call(g, L.OnDrain), Call(g, L.OnStop)]
  {
    var e := Ending(env.drainOk, env.stopOk);
    ShutDownHooks(d.kernels[d.run.value.launch].fsm, e);
  }

  /** A launch is of a new kernel with the spec given, and succeeds exactly if the kind is
      known and the first four hooks do; the hooks called are those of Run. */
  lemma LaunchDoes(d: Domain, s: Spec, env: Env, factories: set<string>)
    ensures var d', n, r := Launch(d, s, env, factories), |d.kernels|, env.results;
            var known := s.kind in factories;
            && |d'.kernels| == (if known then n + 1 else n) && d'.kernels[..n] == d.kernels
            && d.calls <= d'.calls && (!known ==> d' == d)
            && (known ==> d'.kernels[n].fsm == L.Perform(L.FRESH, L.RunOp(r)) && d'.kernels[n].ending.None?)
            && d'.run == if known && r.load && r.init && r.configure && r.start then R.Some(Running(s, n)) else d.run
  {
  }

  /** After a reload a listed domain whose kernel did not survive, or that had none, runs a
      new kernel with the listed spec exactly if its kind is known and its hooks succeed. */
  lemma NewKernelRunsIff(was: map<string, Domain>, regWas: R.Kernels, specs: seq<Spec>, env: map<string, Env>,
                         factories: set<string>, now: R.Time, after: map<string, Domain>, regAfter: R.Kernels,
                         k: string)
    requires Reloaded(was, regWas, specs, env, factories, now, after, regAfter) && Wanted(specs, k).Some?
    ensures var d, d', s, r := Find(was, k), Find(after, k), Wanted(specs, k).value, EnvOf(env, k).results;
            var survives := d.run.Some? && d'.run.Some? && d'.run.value.launch == d.run.value.launch;
            var starts := s.kind in factories && r.load && r.init && r.configure && r.start;
            !survives ==> d'.run == if starts then R.Some(Running(s, |d.kernels|)) else R.None
  {
    var d, s := Find(was, k), Wanted(specs, k).value;
    LaunchDoes(d, s, EnvOf(env, k), factories);
    if d.run.Some? {
      HaltDoes(d, EnvOf(env, k));
      LaunchDoes(Halt(d, EnvOf(env, k)), s, EnvOf(env, k), factories);
    }
  }

  /** And a new kernel is registered as healthy as it says, with the endpoint of the listed
      config, unless a record strays. */
  lemma NewKernelIsRegistered(was: map<string, Domain>, regWas: R.Kernels, specs: seq<Spec>, env: map<string, Env>,
                              factories: set<string>, now: R.Time, after: map<string, Domain>, regAfter: R.Kernels,
                              k: string)
    requires Reloaded(was, regWas, specs, env, factories, now, after, regAfter) && Wanted(specs, k).Some?
    requires Find(after, k).run.Some? && Find(after, k).run.value.launch == |Find(was, k).kernels|
    requires Undisturbed(was, specs, env, factories, now, k)
    ensures k in regAfter && RegisteredFor(regAfter[k], Wanted(specs, k).value, EnvOf(env, k), now)
  {
    WantedIsLastListed(specs, k);
    UndisturbedIff(was, specs, env, factories, now, k);
    assert OutcomeAt(was, regWas, specs, env, factories, now, regAfter, k);
    var d, s, e := Find(was, k), Wanted(specs, k).value, EnvOf(env, k);
    LaunchesWhenNew(d, Wanted(specs, k), e, factories);
    assert R.Lookup(regAfter, k) == R.Some(Record(s, e, now));
    RecordIs(s, e, now);
  }

  lemma LaunchesWhenNew(d: Domain, want: R.Option<Spec>, env: Env, factories: set<string>)
    requires var d' := Reconcile(d, want, env, factories); d'.run.Some? && d'.run.value.launch == |d.kernels|
    ensures Launches(d, want, env, factories)
  {
  }

  /** The address exported: the text under http_addr, if there is one and it is not empty. */
  predicate Exports(ex: R.Exports, config: Field<Value>) {
    && ex.events.Nil? && ex.streams.Nil? && ex.cli.Nil? && ex.local.Nil?
    && ex.network.Slice? && |ex.network.elems| == 1
    && var e := ex.network.elems[0];
       && e.name == "hello" && e.protocol == "http" && e.version == "v1" && e.endpoints == ["/hello"]
       && match config
          case Nil => e.address == ":8081"
          case Map(entries) =>
            if "http_addr" !in entries then e.address == ":8081"
            else match entries["http_addr"]
              case Text(text) => e.address == if text == "" then ":8081" else text
              case OtherValue(_) => e.address == ":8081"
  }

  predicate RegisteredFor(rec: R.KernelRecord, s: Spec, env: Env, now: R.Time) {
    && (s.id != "" ==> rec.id == s.id) && (s.id == "" ==> rec.id == env.manifest.kernelId)
    && rec.scope == "domain" && rec.health == env.health && rec.registeredAt == rec.updatedAt == now
    && rec.manifest.version == env.manifest.version && rec.manifest.scope == env.manifest.scope
    && (env.manifest.kernelId != "" ==> rec.manifest.kernelId == env.manifest.kernelId)
    && rec.exports.Some? && Exports(rec.exports.value, s.config)
  }

  lemma RecordIs(s: Spec, env: Env, now: R.Time)
    ensures RegisteredFor(Record(s, env, now), s, env, now)
  {
  }

  /** One more entry of start-up: its kernel is registered exactly if its kind is known and
      its hooks succeed, and managed if its mode is inproc besides. */
  lemma EntryStarts(d: Domain, ks: R.Kernels, e: Configured, factories: set<string>, now: R.Time)
    ensures var r, d', n := e.env.results, Boot(d, e.spec, e.env, factories), |d.kernels|;
            var starts := e.spec.kind in factories && r.load && r.init && r.configure && r.start;
            && d'.run == (if starts && e.spec.mode == "inproc" then R.Some(Running(e.spec, n)) else d.run)
            && |d'.kernels| == (if e.spec.kind in factories then n + 1 else n)
            && BootedOne(ks, e, factories, now)
               == (if starts then ks[Record(e.spec, e.env, now).id := Record(e.spec, e.env, now)] else ks)
            && RegisteredFor(Record(e.spec, e.env, now), e.spec, e.env, now)
  {
  }

  /** Every running domain, the one with the empty id aside, is in the registry. */
  ghost predicate Registered(domains: map<string, Domain>, ks: R.Kernels) {
    forall k | k != "" && Find(domains, k).run.Some? :: k in ks
  }

  /** Whatever the visiting orders and whichever record strays. */
  lemma {:induction false} ReloadKeepsRegistered(was: map<string, Domain>, regWas: R.Kernels, specs: seq<Spec>,
                                                 env: map<string, Env>, factories: set<string>, now: R.Time,
                                                 after: map<string, Domain>, regAfter: R.Kernels)
    requires Reloaded(was, regWas, specs, env, factories, now, after, regAfter) && Registered(was, regWas)
    ensures Registered(after, regAfter)
  {
    forall k | k != "" && Find(after, k).run.Some? ensures k in regAfter {
      RunsAfter(Find(was, k), Wanted(specs, k), EnvOf(env, k), factories, now);
      assert OutcomeAt(was, regWas, specs, env, factories, now, regAfter, k);
      RunningOutcome(k, R.Lookup(regWas, k), R.Lookup(regAfter, k), DeedAt(was, specs, env, factories, now, k),
                     Wanted(specs, k).Some?, DeedAt(was, specs, env, factories, now, ""));
    }
  }

  lemma RunningOutcome(k: string, was: R.Option<R.KernelRecord>, after: R.Option<R.KernelRecord>,
                       own: Deed, listed: bool, empty: Deed)
    requires Outcome(k, was, after, own, listed, empty) && k != ""
    requires own.adds.Some? || (was.Some? && !own.removes)
    ensures after.Some?
  {
  }

  /** A domain that runs after its deed was launched, or ran before and was left alone. */
  lemma RunsAfter(d: Domain, want: R.Option<Spec>, env: Env, factories: set<string>, now: R.Time)
    ensures var deed := DeedOf(d, want, env, factories, now);
            Reconcile(d, want, env, factories).run.Some? <==> deed.adds.Some? || (d.run.Some? && !deed.removes)
  {
  }

  /** A domain that ran and does not run any more is not in the registry, unless a record
      strayed to its id: then that is there if the domain is not listed, and if it is,
      depending on the order, that or none. */
  lemma StoppedIsAbsentIff(was: map<string, Domain>, regWas: R.Kernels, specs: seq<Spec>, env: map<string, Env>,
                           factories: set<string>, now: R.Time, after: map<string, Domain>, regAfter: R.Kernels,
                           k: string)
    requires Reloaded(was, regWas, specs, env, factories, now, after, regAfter)
    requires Find(was, k).run.Some? && Find(after, k).run.None?
    ensures var empty := DeedAt(was, specs, env, factories, now, "");
            if !(Strays(empty) && empty.adds.value.id == k) then k !in regAfter
            else if Wanted(specs, k).None? then R.Lookup(regAfter, k) == empty.adds
            else k in regAfter ==> R.Lookup(regAfter, k) == empty.adds
  {
    RunsAfter(Find(was, k), Wanted(specs, k), EnvOf(env, k), factories, now);
    assert OutcomeAt(was, regWas, specs, env, factories, now, regAfter, k);
    StoppedOutcome(k, R.Lookup(regWas, k), R.Lookup(regAfter, k), DeedAt(was, specs, env, factories, now, k),
                   Wanted(specs, k).Some?, DeedAt(was, specs, env, factories, now, ""));
  }

  lemma StoppedOutcome(k: string, was: R.Option<R.KernelRecord>, after: R.Option<R.KernelRecord>,
                       own: Deed, listed: bool, empty: Deed)
    requires Outcome(k, was, after, own, listed, empty) && own.removes && own.adds.None?
    ensures if !(Strays(empty) && empty.adds.value.id == k) then after.None?
            else if !listed then after == empty.adds
            else after.None? || after == empty.adds
  {
  }

  /** A domain with an empty id that has been launched is registered under it exactly if
      its manifest names no kernel, or an older entry is there that no stop removed. */
  lemma EmptyIdRegisteredIff(was: map<string, Domain>, regWas: R.Kernels, specs: seq<Spec>, env: map<string, Env>,
                             factories: set<string>, now: R.Time, after: map<string, Domain>, regAfter: R.Kernels)
    requires Reloaded(was, regWas, specs, env, factories, now, after, regAfter)
    requires Launches(Find(was, ""), Wanted(specs, ""), EnvOf(env, ""), factories)
    ensures var names := EnvOf(env, "").manifest.kernelId;
            && ("" in regAfter <==> names == "" || (Find(was, "").run.None? && "" in regWas))
            && (names == "" ==> R.Lookup(regAfter, "") == DeedAt(was, specs, env, factories, now, "").adds)
  {
    UndisturbedIff(was, specs, env, factories, now, "");
    WantedIsLastListed(specs, "");
    var entry := R.Lookup(regAfter, "");
    assert OutcomeAt(was, regWas, specs, env, factories, now, regAfter, "");
    assert entry.Some? <==> "" in regAfter;
  }

  /** Repeating a reload that left no listed domain down calls no hook and leaves the
      runs and the registry as they were, whatever the hooks would do. */
  lemma {:induction false} RepeatedReloadIsNoop(was: map<string, Domain>, regWas: R.Kernels, specs: seq<Spec>,
                             env: map<string, Env>, now: R.Time, once: map<string, Domain>, regOnce: R.Kernels,
                             again: map<string, Env>, later: R.Time, twice: map<string, Domain>,
                             regTwice: R.Kernels, factories: set<string>)
    requires Reloaded(was, regWas, specs, env, factories, now, once, regOnce)
    requires Reloaded(once, regOnce, specs, again, factories, later, twice, regTwice)
    requires forall k :: Wanted(specs, k).Some? ==> Find(once, k).run.Some?
    ensures (forall k :: Find(twice, k) == Find(once, k)) && regTwice == regOnce
  {
    forall k ensures Settled(Find(once, k), Wanted(specs, k)) {
      ReconcileSettles(Find(was, k), Wanted(specs, k), EnvOf(env, k), factories);
    }
    forall k ensures Find(twice, k) == Find(once, k) && R.Lookup(regTwice, k) == R.Lookup(regOnce, k) {
      SettledDomainStays(Find(once, k), Wanted(specs, k), EnvOf(again, k), factories);
      SettledDomainStays(Find(once, ""), Wanted(specs, ""), EnvOf(again, ""), factories);
      assert OutcomeAt(once, regOnce, specs, again, factories, later, regTwice, k);
    }
    SameLookups(regTwice, regOnce);
  }

  /** A domain runs exactly if it is listed, and then with the listed spec. */
  predicate Settled(d: Domain, want: R.Option<Spec>) {
    SpecOf(d) == want
  }

  lemma ReconcileSettles(d: Domain, want: R.Option<Spec>, env: Env, factories: set<string>)
    requires want.Some? ==> Reconcile(d, want, env, factories).run.Some?
    ensures Settled(Reconcile(d, want, env, factories), want)
  {
  }

  lemma SettledDomainStays(d: Domain, want: R.Option<Spec>, env: Env, factories: set<string>)
    requires Settled(d, want)
    ensures Reconcile(d, want, env, factories) == d && !Restarted(d, want)
    ensures forall now :: DeedOf(d, want, env, factories, now) == NO_DEED
  {
  }

  // ----------------------------------------------------------------- the code

  datatype DomainRun = DomainRun(spec: Spec, fsm: L.Fsm)

  class DomainManager {
    const factories: set<string>
    const reg: R.DiscoveryRegistry
    var runs: map<string, DomainRun>
    ghost var domains: map<string, Domain>   // what runs holds, with the history

    constructor (reg: R.DiscoveryRegistry, factories: set<string>)
      ensures Valid() && this.reg == reg && this.factories == factories && domains == map[]
    {
      this.reg, this.factories := reg, factories;
      runs, domains := map[], map[];
    }

    ghost function At(id: string): Domain
      reads this
    {
      Find(domains, id)
    }

    /** The spec a domain runs with. */
    function SpecAt(id: string): R.Option<Spec>
      reads this
    {
      if id in runs then R.Some(runs[id].spec) else R.None
    }

    ghost function Machines(): set<L.Fsm>
      reads this
    {
      set id | id in runs :: runs[id].fsm
    }

    /** The entry of a domain is its abstract run, with the machine of its kernel. */
    ghost predicate Represents(id: string)
      reads this, if id in runs then {runs[id].fsm} else {}
    {
      var d := At(id);
      (id in runs <==> d.run.Some?) &&
      (id in runs ==> d.run.value.spec == runs[id].spec && d.kernels[d.run.value.launch].fsm == runs[id].fsm.View())
    }

    /** Every entry is represented, and no two domains share a lifecycle machine. */
    ghost predicate Valid()
      reads this, Machines()
    {
      && (forall id :: Represents(id))
      && (forall i, j | i in runs && j in runs && i != j :: runs[i].fsm != runs[j].fsm)
    }

    /** Enters a run under an id. */
    method Put(id: string, r: DomainRun, ghost d: Domain)
      requires Valid() && forall k | k in runs && k != id :: runs[k].fsm != r.fsm
      requires d.run.Some? && d.run.value.spec == r.spec && d.kernels[d.run.value.launch].fsm == r.fsm.View()
      modifies this
      ensures Valid() && runs == old(runs)[id := r] && domains == old(domains)[id := d]
    {
      runs := runs[id := r];
      domains := domains[id := d];
      forall k ensures Represents(k) {
        assert old(Represents(k));
      }
    }

    /** Adds to the history of an id whose run stays. */
    ghost method Note(id: string, d: Domain)
      requires Valid() && d.run == At(id).run
      requires d.run.Some? ==> d.kernels[d.run.value.launch] == At(id).kernels[d.run.value.launch]
      modifies this`domains
      ensures Valid() && domains == old(domains)[id := d]
    {
      domains := domains[id := d];
      forall k ensures Represents(k) {
        assert old(Represents(k));
      }
    }

    /** A new kernel's machine is run; the history is what the machine shows. */
    method RunKernel(env: Env) returns (fsm: L.Fsm, ok: bool)
      requires Valid()
      modifies {}
      ensures Valid() && fresh(fsm) && forall k | k in runs :: runs[k].fsm != fsm
      ensures fsm.View() == RunMachine(env.results) && (ok <==> L.Succeeds(env.results))
    {
      fsm := new L.Fsm();
      ok := fsm.Run(env.results);
      forall k ensures Represents(k) {
        assert old(Represents(k));
      }
    }

    method LaunchInproc(s: Spec, env: Env, now: R.Time) returns (ok: bool)
      requires Valid()
      modifies this, reg
      ensures Valid() && fresh(Machines() - old(Machines()))
      ensures ok <==> LaunchSucceeds(s, env, factories)
      ensures domains == old(domains)[s.id := Launch(old(At(s.id)), s, env, factories)]
      ensures reg.kernels ==
              if ok then old(reg.kernels)[Record(s, env, now).id := Record(s, env, now)] else old(reg.kernels)
    {
      if s.kind !in factories {
        Note(s.id, At(s.id));
        return false;
      }
      var fsm;
      fsm, ok := RunKernel(env);
      Conclude(s, env, fsm, ok, now);
    }

    /** What comes after the run: a kernel that failed to start is only remembered. */
    method Conclude(s: Spec, env: Env, fsm: L.Fsm, ok: bool, now: R.Time)
      requires Valid() && forall k | k in runs :: runs[k].fsm != fsm
      modifies this, reg
      ensures Valid() && Machines() <= old(Machines()) + {fsm}
      ensures domains ==
              old(domains)[s.id := Launched(old(At(s.id)), s, Kernel(env.results, R.None, fsm.View()), ok)]
      ensures reg.kernels ==
              if ok then old(reg.kernels)[Record(s, env, now).id := Record(s, env, now)] else old(reg.kernels)
    {
      if !ok {
        Note(s.id, Launched(At(s.id), s, Kernel(env.results, R.None, fsm.View()), false));
        return;
      }
      Enter(s, env, fsm, now);
    }

    /** A kernel that started is registered and entered into the runs. */
    method Enter(s: Spec, env: Env, fsm: L.Fsm, now: R.Time)
      requires Valid() && forall k | k in runs :: runs[k].fsm != fsm
      modifies this, reg
      ensures Valid() && Machines() <= old(Machines()) + {fsm}
      ensures domains ==
              old(domains)[s.id := Launched(old(At(s.id)), s, Kernel(env.results, R.None, fsm.View()), true)]
      ensures reg.kernels == old(reg.kernels)[Record(s, env, now).id := Record(s, env, now)]
    {
      ghost var d := Launched(At(s.id), s, Kernel(env.results, R.None, fsm.View()), true);
      Announce(s, env, now);
      Put(s.id, DomainRun(s, fsm), d);
    }

    /** The factory path: the kernel is run and registered, and no handle to it kept. */
    method LaunchWithFactory(s: Spec, env: Env, now: R.Time) returns (handled: bool, ok: bool)
      requires Valid()
      modifies this, reg
      ensures Valid() && runs == old(runs)
      ensures (handled <==> s.kind in factories) && (ok <==> LaunchSucceeds(s, env, factories))
      ensures domains == old(domains)[s.id :=
                if handled then Launched(old(At(s.id)), s, Kernel(env.results, R.None, RunMachine(env.results)), false)
                else old(At(s.id))]
      ensures reg.kernels ==
              if ok then old(reg.kernels)[Record(s, env, now).id := Record(s, env, now)] else old(reg.kernels)
    {
      handled := s.kind in factories;
      if !handled {
        Note(s.id, At(s.id));
        return handled, false;
      }
      var fsm;
      fsm, ok := RunKernel(env);
      LetGo(s, env, fsm, ok, now);
    }

    /** A kernel is registered if it started, and no handle to it kept. */
    method LetGo(s: Spec, env: Env, fsm: L.Fsm, ok: bool, now: R.Time)
      requires Valid()
      modifies this`domains, reg
      ensures Valid()
      ensures domains ==
              old(domains)[s.id := Launched(old(At(s.id)), s, Kernel(env.results, R.None, fsm.View()), false)]
      ensures reg.kernels ==
              if ok then old(reg.kernels)[Record(s, env, now).id := Record(s, env, now)] else old(reg.kernels)
    {
      if ok {
        Announce(s, env, now);
      }
      Note(s.id, Launched(At(s.id), s, Kernel(env.results, R.None, fsm.View()), false));
    }

    /** A kernel that started is registered. */
    method Announce(s: Spec, env: Env, now: R.Time)
      requires Valid()
      modifies reg
      ensures Valid()
      ensures reg.kernels == old(reg.kernels)[Record(s, env, now).id := Record(s, env, now)]
    {
      reg.Register(Unregistered(s, env, now), now);
      forall k ensures Represents(k) {
        assert old(Represents(k));
      }
    }

    method StartOne(e: Configured, now: R.Time)
      requires Valid()
      modifies this, reg
      ensures Valid() && fresh(Machines() - old(Machines()))
      ensures domains == old(domains)[e.spec.id := Boot(old(At(e.spec.id)), e.spec, e.env, factories)]
      ensures reg.kernels == BootedOne(old(reg.kernels), e, factories, now)
    {
      if e.spec.mode == "inproc" && e.spec.kind in factories {
        var ok := LaunchInproc(e.spec, e.env, now);
      } else {
        var handled, ok := LaunchWithFactory(e.spec, e.env, now);
      }
    }

    /** The root kernel's start-up over its configured domains. */
    method StartUp(entries: seq<Configured>, now: R.Time)
      requires Valid()
      modifies this, reg
      ensures Valid() && fresh(Machines() - old(Machines()))
      ensures forall k :: At(k) == BootAll(old(At(k)), EntriesOf(entries, k), factories)
      ensures reg.kernels == Booted(old(reg.kernels), entries, factories, now)
    {
      var i := 0;
      while i < |entries|
        invariant 0 <= i <= |entries| && Valid() && fresh(Machines() - old(Machines()))
        invariant forall k :: At(k) == BootAll(old(At(k)), EntriesOf(entries[..i], k), factories)
        invariant reg.kernels == Booted(old(reg.kernels), entries[..i], factories, now)
      {
        assert entries[..i + 1][..i] == entries[..i];
        StartOne(entries[i], now);
        forall k ensures At(k) == BootAll(old(At(k)), EntriesOf(entries[..i + 1], k), factories) {
          BootOneMore(old(At(k)), entries, i, k, factories);
        }
        i := i + 1;
      }
      assert entries[..|entries|] == entries;
    }

    method Stop(id: string, env: Env)
      requires Valid()
      modifies this, reg, if id in runs then {runs[id].fsm} else {}
      ensures Valid() && Machines() <= old(Machines())
      ensures domains == old(domains)[id := Halt(old(At(id)), env)]
      ensures reg.kernels == if id in old(runs) then old(reg.kernels) - {id} else old(reg.kernels)
      ensures runs == old(runs) - {id}
      ensures id in old(runs) ==>
                old(runs)[id].fsm.View() == ShutDown(old(runs[id].fsm.View()), Ending(env.drainOk, env.stopOk))
    {
      assert Represents(id);
      if id in runs {
        var r := runs[id];
        var drained := r.fsm.Drain(env.drainOk);
        var stopped := r.fsm.Stop(env.stopOk);
        domains := domains[id := Ended(At(id), Ending(env.drainOk, env.stopOk), r.fsm.View())];
        runs := runs - {id};
        reg.Unregister(id);
      } else {
        domains := domains[id := At(id)];
      }
      forall k ensures Represents(k) {
        assert old(Represents(k));
      }
    }

    /** The body of Reload's second loop, for one listed domain. */
    method ReconcileOne(s: Spec, env: Env, now: R.Time)
      requires Valid()
      modifies this, reg, if s.id in runs then {runs[s.id].fsm} else {}
      ensures Valid() && fresh(Machines() - old(Machines()))
      ensures domains == old(domains)[s.id := Reconcile(old(At(s.id)), R.Some(s), env, factories)]
      ensures reg.kernels ==
              Carried(old(reg.kernels), s.id, DeedOf(old(At(s.id)), R.Some(s), env, factories, now))
    {
      assert Represents(s.id);
      if s.id !in runs {
        var ok := LaunchInproc(s, env, now);
      } else if Changed(runs[s.id].spec, s) {
        Restart(s, env, now);
      } else {
        Put(s.id, runs[s.id].(spec := s), Reconcile(At(s.id), R.Some(s), env, factories));
      }
    }

    method Restart(s: Spec, env: Env, now: R.Time)
      requires Valid() && s.id in runs
      modifies this, reg, runs[s.id].fsm
      ensures Valid() && fresh(Machines() - old(Machines()))
      ensures domains == old(domains)[s.id := Launch(Halt(old(At(s.id)), env), s, env, factories)]
      ensures reg.kernels == if LaunchSucceeds(s, env, factories)
                             then (old(reg.kernels) - {s.id})[Record(s, env, now).id := Record(s, env, now)]
                             else old(reg.kernels) - {s.id}
    {
      Stop(s.id, env);
      var ok := LaunchInproc(s, env, now);
    }

    /** The index of the specs, a later one replacing an earlier one of its id. */
    method BuildIndex(specs: seq<Spec>) returns (index: map<string, Spec>)
      ensures forall id :: IndexAt(index, id) == Wanted(specs, id)
    {
      index := map[];
      var i := 0;
      while i < |specs|
        invariant 0 <= i <= |specs|
        invariant forall id :: IndexAt(index, id) == Wanted(specs[..i], id)
      {
        assert specs[..i + 1][..i] == specs[..i];
        index := index[specs[i].id := specs[i]];
        i := i + 1;
      }
      assert specs[..|specs|] == specs;
    }

    /** One visit of Reload's first loop. */
    method VisitRun(id: string, index: map<string, Spec>, env: map<string, Env>,
                    ghost was: map<string, Domain>, ghost before: R.Kernels, ghost done: set<string>)
      requires Valid() && id in runs && id !in done
      requires Halted(was, domains, done, index, env) && Removed(before, reg.kernels, done, index)
      modifies this, reg, runs[id].fsm
      ensures Valid() && Machines() <= old(Machines()) && runs.Keys + {id} == old(runs).Keys
      ensures Halted(was, domains, done + {id}, index, env) && Removed(before, reg.kernels, done + {id}, index)
    {
      ghost var d, kernels := domains, reg.kernels;
      assert Represents(id);
      if id !in index {
        Stop(id, EnvOf(env, id));
      }
      HaltedWith(was, d, domains, done, id, index, env);
      RemovedWith(before, kernels, reg.kernels, done, id, index);
    }

    method StopRemoved(index: map<string, Spec>, env: map<string, Env>)
      requires Valid()
      modifies this, reg, Machines()
      ensures Valid() && Machines() <= old(Machines())
      ensures Halted(old(domains), domains, old(runs).Keys, index, env)
      ensures Removed(old(reg.kernels), reg.kernels, old(runs).Keys, index)
    {
      ghost var done := {};
      var todo := runs.Keys;
      while todo != {}
        invariant Valid() && Machines() <= old(Machines())
        invariant todo <= runs.Keys && done !! todo && done + todo == old(runs).Keys
        invariant Halted(old(domains), domains, done, index, env)
        invariant Removed(old(reg.kernels), reg.kernels, done, index)
      {
        var id :| id in todo;
        VisitRun(id, index, env, old(domains), old(reg.kernels), done);
        todo := todo - {id};
        done := done + {id};
      }
    }

    /** One visit of the second loop. */
    method VisitListed(id: string, index: map<string, Spec>, env: map<string, Env>, now: R.Time,
                       ghost was: map<string, Domain>, ghost before: R.Kernels, ghost done: set<string>)
      requires Valid() && id in index && index[id].id == id && id !in done && done <= index.Keys
      requires Reconciled(was, domains, done, index, env, factories)
      requires Rebound(before, reg.kernels, was, done, index, env, factories, now)
      modifies this, reg, if id in runs then {runs[id].fsm} else {}
      ensures Valid() && fresh(Machines() - old(Machines()))
      ensures Reconciled(was, domains, done + {id}, index, env, factories)
      ensures Rebound(before, reg.kernels, was, done + {id}, index, env, factories, now)
    {
      ghost var d, kernels := domains, reg.kernels;
      assert At(id) == Find(was, id);
      ReconcileOne(index[id], EnvOf(env, id), now);
      ReconciledWith(was, d, domains, done, id, index, env, factories);
      ReboundWith(before, kernels, reg.kernels, was, done, id, index, env, factories, now);
    }

    method StartListed(index: map<string, Spec>, env: map<string, Env>, now: R.Time)
      requires Valid() && forall id | id in index :: index[id].id == id
      modifies this, reg, Machines()
      ensures Valid() && fresh(Machines() - old(Machines()))
      ensures Reconciled(old(domains), domains, index.Keys, index, env, factories)
      ensures Rebound(old(reg.kernels), reg.kernels, old(domains), index.Keys, index, env, factories, now)
    {
      ghost var done := {};
      var todo := index.Keys;
      while todo != {}
        invariant Valid() && fresh(Machines() - old(Machines()))
        invariant done !! todo && done + todo == index.Keys
        invariant Reconciled(old(domains), domains, done, index, env, factories)
        invariant Rebound(old(reg.kernels), reg.kernels, old(domains), done, index, env, factories, now)
      {
        var id :| id in todo;
        VisitListed(id, index, env, now, old(domains), old(reg.kernels), done);
        todo := todo - {id};
        done := done + {id};
      }
    }

    /** Both maps are visited in any order: each domain is reconciled with the spec
        listed last for it, and the registry follows. */
    method Reload(specs: seq<Spec>, env: map<string, Env>, now: R.Time)
      requires Valid()
      modifies this, reg, Machines()
      ensures Valid() && fresh(Machines() - old(Machines()))
      ensures forall k :: SpecAt(k) == SpecAfter(old(SpecAt(k)), Wanted(specs, k), EnvOf(env, k), factories)
      ensures Reloaded(old(domains), old(reg.kernels), specs, env, factories, now, domains, reg.kernels)
    {
      var index := BuildIndex(specs);
      forall k | k in index ensures index[k].id == k {
        assert IndexAt(index, k) == Wanted(specs, k);
        WantedIsLastListed(specs, k);
      }
      forall k ensures SpecAt(k) == SpecOf(At(k)) && (k in runs <==> Find(domains, k).run.Some?) {
        assert Represents(k);
      }
      StopRemoved(index, env);
      ghost var middle, kernels := domains, reg.kernels;
      StartListed(index, env, now);
      LoopsReconcile(old(domains), middle, domains, old(runs).Keys, index, specs, env, factories);
      LoopsRebind(old(reg.kernels), kernels, reg.kernels, old(domains), middle, old(runs).Keys,
                  index, specs, env, factories, now);
      forall k ensures SpecAt(k) == SpecAfter(old(SpecAt(k)), Wanted(specs, k), EnvOf(env, k), factories) {
        assert Represents(k);
        ReloadConverges(old(At(k)), Wanted(specs, k), EnvOf(env, k), factories);
      }
    }
  }

  function IndexAt(index: map<string, Spec>, id: string): R.Option<Spec> {
    if id in index then R.Some(index[id]) else R.None
  }

  ghost function Find(domains: map<string, Domain>, id: string): Domain {
    if id in domains then domains[id] else NO_DOMAIN
  }

  /** The configured entries of one domain. */
  function EntriesOf(entries: seq<Configured>, id: string): seq<Configured> {
    if entries == [] then []
    else
      var last := entries[|entries| - 1];
      EntriesOf(entries[..|entries| - 1], id) + if last.spec.id == id then [last] else []
  }

  /** The registry after start-up: every kernel that started is registered, in order. */
  function Booted(ks: R.Kernels, entries: seq<Configured>, factories: set<string>, now: R.Time): R.Kernels {
    if entries == [] then ks
    else BootedOne(Booted(ks, entries[..|entries| - 1], factories, now), entries[|entries| - 1], factories, now)
  }

  function BootedOne(ks: R.Kernels, e: Configured, factories: set<string>, now: R.Time): R.Kernels {
    if Starts(e, factories) then ks[Record(e.spec, e.env, now).id := Record(e.spec, e.env, now)] else ks
  }

  /** Start-up registers every domain it starts under a non-empty id. */
  lemma {:induction false} BootRegisters(ks: R.Kernels, entries: seq<Configured>, factories: set<string>,
                                         now: R.Time, k: string)
    requires k != ""
    ensures BootAll(NO_DOMAIN, EntriesOf(entries, k), factories).run.Some? ==> k in Booted(ks, entries, factories, now)
    decreases |entries|
  {
    if entries == [] {
    } else {
      var n := |entries| - 1;
      BootRegisters(ks, entries[..n], factories, now, k);
      BootOneMore(NO_DOMAIN, entries, n, k, factories);
      assert entries[..n + 1] == entries;
    }
  }

  lemma BootOneMore(d: Domain, entries: seq<Configured>, i: nat, id: string, factories: set<string>)
    requires i < |entries|
    ensures var before, e := BootAll(d, EntriesOf(entries[..i], id), factories), entries[i];
            BootAll(d, EntriesOf(entries[..i + 1], id), factories)
            == if e.spec.id == id then Boot(before, e.spec, e.env, factories) else before
  {
    assert entries[..i + 1][..i] == entries[..i];
    var was := EntriesOf(entries[..i], id);
    assert (was + [entries[i]])[..|was|] == was && was + [] == was;
  }

  /** The first loop has visited some ids: those not listed are halted, nothing else. */
  ghost predicate Halted(was: map<string, Domain>, now: map<string, Domain>, done: set<string>,
                         index: map<string, Spec>, env: map<string, Env>) {
    forall k :: Find(now, k) == if k in done && k !in index then Halt(Find(was, k), EnvOf(env, k)) else Find(was, k)
  }

  ghost predicate Removed(was: R.Kernels, now: R.Kernels, done: set<string>, index: map<string, Spec>) {
    forall k :: R.Lookup(now, k) == if k in done && k !in index then R.None else R.Lookup(was, k)
  }

  lemma HaltedWith(was: map<string, Domain>, before: map<string, Domain>, after: map<string, Domain>,
                   done: set<string>, id: string, index: map<string, Spec>, env: map<string, Env>)
    requires Halted(was, before, done, index, env) && id !in done
    requires after == if id in index then before else before[id := Halt(Find(before, id), EnvOf(env, id))]
    ensures Halted(was, after, done + {id}, index, env)
  {
  }

  lemma RemovedWith(was: R.Kernels, before: R.Kernels, after: R.Kernels, done: set<string>, id: string,
                    index: map<string, Spec>)
    requires Removed(was, before, done, index)
    requires after == if id in index then before else before - {id}
    ensures Removed(was, after, done + {id}, index)
  {
  }

  /** The second loop has visited some listed ids. */
  ghost predicate Reconciled(was: map<string, Domain>, now: map<string, Domain>, done: set<string>,
                             index: map<string, Spec>, env: map<string, Env>, factories: set<string>)
    requires done <= index.Keys
  {
    forall k :: Find(now, k) ==
      if k in done then Reconcile(Find(was, k), R.Some(index[k]), EnvOf(env, k), factories) else Find(was, k)
  }

  /** What the second loop has done for an id so far. */
  ghost function DeedSoFar(domains: map<string, Domain>, done: set<string>, index: map<string, Spec>,
                           env: map<string, Env>, factories: set<string>, now: R.Time, k: string): Deed {
    if k in done && k in index then DeedOf(Find(domains, k), R.Some(index[k]), EnvOf(env, k), factories, now)
    else NO_DEED
  }

  ghost predicate Rebound(was: R.Kernels, after: R.Kernels, domains: map<string, Domain>, done: set<string>,
                          index: map<string, Spec>, env: map<string, Env>, factories: set<string>, now: R.Time) {
    forall k :: Outcome(k, R.Lookup(was, k), R.Lookup(after, k),
                        DeedSoFar(domains, done, index, env, factories, now, k), true,
                        DeedSoFar(domains, done, index, env, factories, now, ""))
  }

  lemma ReconciledWith(was: map<string, Domain>, before: map<string, Domain>, after: map<string, Domain>,
                       done: set<string>, id: string,
                       index: map<string, Spec>, env: map<string, Env>, factories: set<string>)
    requires done <= index.Keys && id in index && id !in done
    requires Reconciled(was, before, done, index, env, factories)
    requires after == before[id := Reconcile(Find(before, id), R.Some(index[id]), EnvOf(env, id), factories)]
    ensures Reconciled(was, after, done + {id}, index, env, factories)
  {
  }

  lemma ReboundWith(was: R.Kernels, before: R.Kernels, after: R.Kernels, domains: map<string, Domain>,
                    done: set<string>, id: string,
                    index: map<string, Spec>, env: map<string, Env>, factories: set<string>, now: R.Time)
    requires id in index && index[id].id == id && id !in done
    requires Rebound(was, before, domains, done, index, env, factories, now)
    requires after == Carried(before, id, DeedOf(Find(domains, id), R.Some(index[id]), EnvOf(env, id), factories, now))
    ensures Rebound(was, after, domains, done + {id}, index, env, factories, now)
  {
    var deed := DeedOf(Find(domains, id), R.Some(index[id]), EnvOf(env, id), factories, now);
    assert id != "" && deed.adds.Some? ==> deed.adds.value.id == id;
    forall k ensures Outcome(k, R.Lookup(was, k), R.Lookup(after, k),
                             DeedSoFar(domains, done + {id}, index, env, factories, now, k), true,
                             DeedSoFar(domains, done + {id}, index, env, factories, now, ""))
    {
      assert Outcome(k, R.Lookup(was, k), R.Lookup(before, k),
                     DeedSoFar(domains, done, index, env, factories, now, k), true,
                     DeedSoFar(domains, done, index, env, factories, now, ""));
      CarriedOutcome(before, after, id, deed, k, R.Lookup(was, k),
                     DeedSoFar(domains, done, index, env, factories, now, k),
                     DeedSoFar(domains, done, index, env, factories, now, ""));
    }
  }

  /** One more visit of the second loop, seen from one id. */
  lemma CarriedOutcome(before: R.Kernels, after: R.Kernels, id: string, deed: Deed, k: string,
                       was: R.Option<R.KernelRecord>, own: Deed, empty: Deed)
    requires after == Carried(before, id, deed) && (id != "" && deed.adds.Some? ==> deed.adds.value.id == id)
    requires Outcome(k, was, R.Lookup(before, k), own, true, empty)
    requires (k == id ==> own == NO_DEED) && (id == "" ==> empty == NO_DEED) && (k == "" ==> own == empty)
    ensures Outcome(k, was, R.Lookup(after, k), if k == id then deed else own, true, if id == "" then deed else empty)
  {
  }

  /** The two loops together reconcile every domain, listed or not. */
  lemma LoopsReconcile(was: map<string, Domain>, middle: map<string, Domain>, after: map<string, Domain>,
                       running: set<string>, index: map<string, Spec>, specs: seq<Spec>,
                       env: map<string, Env>, factories: set<string>)
    requires forall k :: k in running <==> Find(was, k).run.Some?
    requires forall k :: IndexAt(index, k) == Wanted(specs, k)
    requires Halted(was, middle, running, index, env) && Reconciled(middle, after, index.Keys, index, env, factories)
    ensures forall k :: Find(after, k) == Reconcile(Find(was, k), Wanted(specs, k), EnvOf(env, k), factories)
  {
    forall k ensures Find(after, k) == Reconcile(Find(was, k), Wanted(specs, k), EnvOf(env, k), factories) {
      assert IndexAt(index, k) == Wanted(specs, k);
    }
  }

  lemma LoopsRebind(was: R.Kernels, middle: R.Kernels, after: R.Kernels,
                    domains: map<string, Domain>, halted: map<string, Domain>,
                    running: set<string>, index: map<string, Spec>, specs: seq<Spec>,
                    env: map<string, Env>, factories: set<string>, now: R.Time)
    requires forall k :: k in running <==> Find(domains, k).run.Some?
    requires forall k :: IndexAt(index, k) == Wanted(specs, k)
    requires Halted(domains, halted, running, index, env) && Removed(was, middle, running, index)
    requires Rebound(middle, after, halted, index.Keys, index, env, factories, now)
    ensures forall k :: OutcomeAt(domains, was, specs, env, factories, now, after, k)
  {
    DeedsOfLoops(domains, halted, running, index, specs, env, factories, now, "");
    forall k ensures OutcomeAt(domains, was, specs, env, factories, now, after, k) {
      DeedsOfLoops(domains, halted, running, index, specs, env, factories, now, k);
      assert R.Lookup(middle, k) == if k in running && k !in index then R.None else R.Lookup(was, k);
      Composed(k, R.Lookup(was, k), R.Lookup(middle, k), R.Lookup(after, k),
               DeedSoFar(halted, index.Keys, index, env, factories, now, k),
               DeedAt(domains, specs, env, factories, now, k), Wanted(specs, k).Some?,
               DeedSoFar(halted, index.Keys, index, env, factories, now, ""),
               DeedAt(domains, specs, env, factories, now, ""));
    }
  }

  /** The second loop does the whole deed of a listed domain, the first of any other. */
  lemma DeedsOfLoops(domains: map<string, Domain>, halted: map<string, Domain>, running: set<string>,
                     index: map<string, Spec>, specs: seq<Spec>, env: map<string, Env>,
                     factories: set<string>, now: R.Time, k: string)
    requires k in running <==> Find(domains, k).run.Some?
    requires IndexAt(index, k) == Wanted(specs, k) && Halted(domains, halted, running, index, env)
    ensures k in index <==> Wanted(specs, k).Some?
    ensures var late := DeedSoFar(halted, index.Keys, index, env, factories, now, k);
            var whole := DeedAt(domains, specs, env, factories, now, k);
            if k in index then late == whole else late == NO_DEED && whole == Deed(k in running, R.None)
  {
  }

  lemma Composed(k: string, was: R.Option<R.KernelRecord>, middle: R.Option<R.KernelRecord>,
                 after: R.Option<R.KernelRecord>, late: Deed, whole: Deed, listed: bool, emptyLate: Deed, empty: Deed)
    requires Outcome(k, middle, after, late, true, emptyLate)
    requires if listed then late == whole && middle == was
             else late == NO_DEED && whole.adds.None? && middle == if whole.removes then R.None else was
    requires emptyLate == empty || (emptyLate == NO_DEED && empty.adds.None?)
    requires k == "" ==> late == emptyLate && whole == empty
    ensures Outcome(k, was, after, whole, listed, empty)
  {
  }
}
