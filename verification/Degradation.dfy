/** The degradation policy: on each tick it hides the exports of kernels that are not
    ready and restores them once they are.  The registry is shared, so health
    updates and registrations interleave with the steps of a tick. */
module Degradation {
  import opened Registry

  // -------------------------------------------------------- copies of exports

  /** Appending a slice's elements to nil: an empty slice becomes nil. */
  function CopySlice<T>(s: Slice<T>): Slice<T> {
    if s.Nil? || s.elems == [] then Nil else s
  }

  function CopyExports(ex: Exports): Exports {
    Exports(CopySlice(ex.network), CopySlice(ex.events), CopySlice(ex.streams), CopySlice(ex.cli), CopySlice(ex.local))
  }

  function Elements<T>(s: Slice<T>): seq<T> { if s.Nil? then [] else s.elems }

  /** A copy has the same contents; it is the same value unless a slice was empty
      without being nil. */
  lemma CopyKeepsContents(ex: Exports)
    ensures var cp := CopyExports(ex);
            && Elements(cp.network) == Elements(ex.network) && Elements(cp.events) == Elements(ex.events)
            && Elements(cp.streams) == Elements(ex.streams) && Elements(cp.cli) == Elements(ex.cli)
            && Elements(cp.local) == Elements(ex.local)
    ensures CopyExports(CopyExports(ex)) == CopyExports(ex)
    ensures CopyExports(ex) == ex <==>
            ex.network != Slice([]) && ex.events != Slice([]) && ex.streams != Slice([])
            && ex.cli != Slice([]) && ex.local != Slice([])
  {
  }

  // --------------------------------------------------------------- the policy

  type Snapshot = map<string, Exports>

  predicate Bad(s: Status) {
    s.Degraded? || s.Failed? || s.Draining? || s.Stopped?
  }

  function WithExports(ks: Kernels, id: string, ex: Option<Exports>): Kernels {
    if id in ks then ks[id := ks[id].(exports := ex)] else ks
  }

  function Saved(snap: Snapshot, id: string, ex: Exports): Snapshot {
    if id in snap then snap else snap[id := CopyExports(ex)]
  }

  /** Between ticks, or with records of the list still to visit; half is set inside a
      record's branch, between its two effects. */
  datatype Phase = Idle | Ticking(rest: seq<DiscoveryRecord>, half: bool)

  datatype State = State(kernels: Kernels, snapshot: Snapshot, phase: Phase)

  datatype Step =
    | Tick(list: seq<DiscoveryRecord>)            // the list is taken
    | First                                       // look at a record, first effect
    | Second                                      // the branch's second effect
    | EndTick
    | UpdateHealth(id: string, health: Health, now: Time)
    | RegisterKernel(manifest: Manifest, now: Time)
    | Register(record: KernelRecord, now: Time)
    | Unregister(id: string)

  ghost predicate Enabled(s: State, step: Step) {
    match step
    case Tick(list) => s.phase.Idle? && IsListing(s.kernels, list)
    case First => s.phase.Ticking? && s.phase.rest != [] && !s.phase.half
    case Second => s.phase.Ticking? && s.phase.rest != [] && s.phase.half
    case EndTick => s.phase.Ticking? && s.phase.rest == []
    case _ => true
  }

  function ApplyFirst(s: State): State
    requires s.phase.Ticking? && s.phase.rest != [] && !s.phase.half
  {
    var rec := s.phase.rest[0];
    if rec.health.status.Ready? && rec.id in s.snapshot then
      s.(kernels := WithExports(s.kernels, rec.id, Some(s.snapshot[rec.id])), phase := s.phase.(half := true))
    else if Bad(rec.health.status) && rec.exports.Some? then
      s.(snapshot := Saved(s.snapshot, rec.id, rec.exports.value), phase := s.phase.(half := true))
    else
      s.(phase := Ticking(s.phase.rest[1..], false))
  }

  function ApplySecond(s: State): State
    requires s.phase.Ticking? && s.phase.rest != [] && s.phase.half
  {
    var rec := s.phase.rest[0];
    var s' := s.(phase := Ticking(s.phase.rest[1..], false));
    if rec.health.status.Ready? then s'.(snapshot := s.snapshot - {rec.id})
    else s'.(kernels := WithExports(s.kernels, rec.id, None))
  }

  ghost function Apply(s: State, step: Step): State
    requires Enabled(s, step)
  {
    match step
    case Tick(list) => s.(phase := Ticking(list, false))
    case First => ApplyFirst(s)
    case Second => ApplySecond(s)
    case EndTick => s.(phase := Idle)
    case UpdateHealth(id, h, now) => s.(kernels := s.kernels[id := WithHealth(s.kernels, id, h, now)])
    case RegisterKernel(m, now) =>
      s.(kernels := s.kernels[m.kernelId := WithManifest(RecordOrEmpty(s.kernels, m.kernelId), m, now)])
    case Register(rec, now) => s.(kernels := s.kernels[Completed(rec, now).id := Completed(rec, now)])
    case Unregister(id) => s.(kernels := s.kernels - {id})
  }

  ghost predicate Legal(s: State, steps: seq<Step>)
    decreases |steps|
  {
    steps == [] || (Enabled(s, steps[0]) && Legal(Apply(s, steps[0]), steps[1..]))
  }

  ghost function Run(s: State, steps: seq<Step>): State
    requires Legal(s, steps)
    decreases |steps|
  {
    if steps == [] then s else Run(Apply(s, steps[0]), steps[1..])
  }

  /** Replaces or removes the record of id. */
  predicate Reregisters(step: Step, id: string) {
    match step
    case Register(rec, now) => Completed(rec, now).id == id
    case Unregister(k) => k == id
    case _ => false
  }

  // ------------------------------------------------- exports are never lost

  predicate IsOriginal(ex: Option<Exports>, orig: Exports) {
    ex == Some(orig) || ex == Some(CopyExports(orig))
  }

  /** Exports with the same contents: what is saved of them is the same. */
  predicate Alike(ex: Exports, orig: Exports) {
    CopyExports(ex) == CopyExports(orig)
  }

  /** The registry or the snapshot has the original. */
  predicate Held(s: State, id: string, orig: Exports) {
    && id in s.kernels
    && (IsOriginal(s.kernels[id].exports, orig) || (id in s.snapshot && s.snapshot[id] == CopyExports(orig)))
  }

  /** A tick is between the two effects of its branch for a kernel. */
  predicate Halfway(s: State, id: string) {
    s.phase.Ticking? && s.phase.half && s.phase.rest != [] && s.phase.rest[0].id == id
  }

  /** The saved copy of a kernel has been restored and is about to be dropped. */
  predicate Restoring(s: State, id: string) {
    Halfway(s, id) && s.phase.rest[0].health.status.Ready?
  }

  /** What every run keeps: a list has no kernel twice, a branch half done is one of the
      two that have effects and has saved what it is to hide, and only copies are saved. */
  ghost predicate Orderly(s: State) {
    && (s.phase.Ticking? ==> Distinct(s.phase.rest) && (s.phase.half ==> BranchBegun(s)))
    && (forall k | k in s.snapshot :: s.snapshot[k] == CopyExports(s.snapshot[k]))
  }

  predicate BranchBegun(s: State)
    requires s.phase.Ticking?
  {
    s.phase.rest != [] &&
    var rec := s.phase.rest[0];
    rec.health.status.Ready? || (Bad(rec.health.status) && rec.id in s.snapshot)
  }

  lemma StepKeepsOrderly(s: State, step: Step)
    requires Orderly(s) && Enabled(s, step)
    ensures Orderly(Apply(s, step))
  {
    if step.First? || step.Second? {
      MentionsRest(s.phase.rest, "");
      if s.phase.rest[0].exports.Some? {
        CopyKeepsContents(s.phase.rest[0].exports.value);
      }
    }
  }

  lemma {:induction false} EveryRunIsOrderly(s: State, steps: seq<Step>)
    requires Orderly(s) && Legal(s, steps)
    ensures Orderly(Run(s, steps))
    decreases |steps|
  {
    if steps == [] {
    } else {
      StepKeepsOrderly(s, steps[0]);
      EveryRunIsOrderly(Apply(s, steps[0]), steps[1..]);
    }
  }

  /** The registry shows the original, or nothing and the snapshot has it. */
  ghost predicate Kept(s: State, id: string, orig: Exports) {
    && id in s.kernels
    && (IsOriginal(s.kernels[id].exports, orig) || (s.kernels[id].exports.None? && id in s.snapshot))
    && (id in s.snapshot && !Restoring(s, id) ==> s.snapshot[id] == CopyExports(orig))
  }

  /** An entry of the list under way that would have other exports saved. */
  predicate Stale(rec: DiscoveryRecord, id: string, orig: Exports) {
    rec.id == id && Bad(rec.health.status) && rec.exports.Some? && !Alike(rec.exports.value, orig)
  }

  /** The list under way has no other exports to save, and a half-done branch has made
      its second effect safe. */
  ghost predicate Consistent(s: State, id: string, orig: Exports)
    requires id in s.kernels
  {
    s.phase.Ticking? ==>
      && (id !in s.snapshot ==> forall i | 0 <= i < |s.phase.rest| :: !Stale(s.phase.rest[i], id, orig))
      && (Halfway(s, id) ==> if Restoring(s, id) then s.kernels[id].exports.Some? else id in s.snapshot)
  }

  ghost predicate Safe(s: State, id: string, orig: Exports) {
    Orderly(s) && Kept(s, id, orig) && Consistent(s, id, orig)
  }

  lemma FirstKeepsSafe(s: State, id: string, orig: Exports)
    requires Safe(s, id, orig) && Enabled(s, First)
    ensures Safe(Apply(s, First), id, orig)
  {
    StepKeepsOrderly(s, First);
    MentionsRest(s.phase.rest, id);
    CopyKeepsContents(orig);
  }

  lemma SecondKeepsSafe(s: State, id: string, orig: Exports)
    requires Safe(s, id, orig) && Enabled(s, Second)
    ensures Safe(Apply(s, Second), id, orig)
  {
    StepKeepsOrderly(s, Second);
    MentionsRest(s.phase.rest, id);
    if s.phase.rest[0].id == id {
      forall i | 0 <= i < |s.phase.rest[1..]| ensures s.phase.rest[1..][i].id != id {
        assert s.phase.rest[1..][i] == s.phase.rest[i + 1];
      }
    }
  }

  lemma StepKeepsSafe(s: State, step: Step, id: string, orig: Exports)
    requires Safe(s, id, orig) && Enabled(s, step) && !Reregisters(step, id)
    ensures Safe(Apply(s, step), id, orig)
  {
    if step.First? {
      FirstKeepsSafe(s, id, orig);
    } else if step.Second? {
      SecondKeepsSafe(s, id, orig);
    } else {
      StepKeepsOrderly(s, step);
      CopyKeepsContents(orig);
    }
  }

  /** Nothing is done to the registration of a kernel. */
  ghost predicate Gentle(steps: seq<Step>, id: string) {
    forall k | 0 <= k < |steps| :: !Reregisters(steps[k], id)
  }

  /** In every interleaving of ticks with health updates, manifest registrations and
      anything done to other kernels, the exports a kernel registered are kept. */
  lemma {:induction false} ExportsAreNeverLost(s: State, steps: seq<Step>, id: string, orig: Exports)
    requires Safe(s, id, orig) && Legal(s, steps) && Gentle(steps, id)
    ensures Safe(Run(s, steps), id, orig) && Held(Run(s, steps), id, orig)
    decreases |steps|
  {
    if steps == [] {
    } else {
      assert !Reregisters(steps[0], id);
      StepKeepsSafe(s, steps[0], id, orig);
      ExportsAreNeverLost(Apply(s, steps[0]), steps[1..], id, orig);
    }
  }

  // ------------------------------------------------ exports that can be lost

  /** Nothing older can replace exports registered now: no other copy is saved, unless
      it is about to be dropped, and if none is saved the list under way has no other
      exports to save. */
  ghost predicate NothingStale(s: State, id: string, orig: Exports) {
    if id in s.snapshot then s.snapshot[id] == CopyExports(orig) || Restoring(s, id)
    else s.phase.Ticking? ==> forall i | 0 <= i < |s.phase.rest| :: !Stale(s.phase.rest[i], id, orig)
  }

  /** Some continuation in which the kernel's registration is left alone loses them. */
  ghost predicate CanBeLost(s: State, id: string, orig: Exports) {
    exists steps :: Legal(s, steps) && Gentle(steps, id) && !Held(Run(s, steps), id, orig)
  }

  lemma LostNow(s: State, id: string, orig: Exports)
    requires !Held(s, id, orig)
    ensures CanBeLost(s, id, orig)
  {
    assert Legal(s, []) && Gentle([], id) && Run(s, []) == s;
  }

  lemma LostAfter(s: State, step: Step, id: string, orig: Exports)
    requires Enabled(s, step) && !Reregisters(step, id) && CanBeLost(Apply(s, step), id, orig)
    ensures CanBeLost(s, id, orig)
  {
    var s' := Apply(s, step);
    var steps :| Legal(s', steps) && Gentle(steps, id) && !Held(Run(s', steps), id, orig);
    assert ([step] + steps)[1..] == steps;
    assert Legal(s, [step] + steps) && Run(s, [step] + steps) == Run(s', steps);
    assert Gentle([step] + steps, id);
  }

  /** How far a tick is from the record at a position of its list. */
  function Distance(s: State, i: nat): int
    requires s.phase.Ticking?
  {
    2 * i - if s.phase.half then 1 else 0
  }

  /** The next step of a tick that still has records to visit. */
  function NextEffect(s: State): Step
    requires s.phase.Ticking? && s.phase.rest != []
  {
    if s.phase.half then Second else First
  }

  /** Effects on other records bring a tick nearer to a record, and leave the kernel of
      that record and its saved copy alone. */
  lemma EffectOnOthers(s: State, id: string, i: nat)
    requires Orderly(s) && s.phase.Ticking? && 0 < i < |s.phase.rest| && s.phase.rest[i].id == id
    ensures var s' := Apply(s, NextEffect(s));
            && Orderly(s') && s'.phase.Ticking?
            && Peek(s', id) == Peek(s, id) && (id in s.kernels ==> id in s'.kernels)
            && (id in s.snapshot <==> id in s'.snapshot)
            && var i' := if |s'.phase.rest| < |s.phase.rest| then i - 1 else i;
               && i' < |s'.phase.rest| && s'.phase.rest[i'] == s.phase.rest[i]
               && Distance(s', i') < Distance(s, i)
  {
    StepKeepsOrderly(s, NextEffect(s));
    assert s.phase.rest[0].id != id;
  }

  /** A list taken before the registration has the kernel as bad with other exports: the
      tick saves those, hides the new ones, and they are lost. */
  lemma {:induction false} StaleEntryLoses(s: State, id: string, orig: Exports, i: nat)
    requires Orderly(s) && s.phase.Ticking? && id in s.kernels && id !in s.snapshot
    requires i < |s.phase.rest| && Stale(s.phase.rest[i], id, orig)
    ensures CanBeLost(s, id, orig)
    decreases Distance(s, i) + 1
  {
    var s' := Apply(s, NextEffect(s));
    if i == 0 {
      LostNow(Apply(s', Second), id, orig);
      LostAfter(s', Second, id, orig);
    } else {
      EffectOnOthers(s, id, i);
      StaleEntryLoses(s', id, orig, if |s'.phase.rest| < |s.phase.rest| then i - 1 else i);
    }
    LostAfter(s, NextEffect(s), id, orig);
  }

  /** A copy of other exports is saved, and not about to be dropped. */
  ghost predicate OtherSaved(s: State, id: string, orig: Exports) {
    && Orderly(s) && id in s.kernels && !Restoring(s, id)
    && id in s.snapshot && s.snapshot[id] != CopyExports(orig)
  }

  /** A tick whose list has the kernel as ready restores that copy over the new exports. */
  lemma {:induction false} OtherCopyIsRestored(s: State, id: string, orig: Exports, i: nat)
    requires OtherSaved(s, id, orig) && s.phase.Ticking?
    requires i < |s.phase.rest| && s.phase.rest[i].id == id && s.phase.rest[i].health.status.Ready?
    ensures CanBeLost(s, id, orig)
    decreases Distance(s, i) + 1
  {
    var s' := Apply(s, NextEffect(s));
    if i == 0 {
      LostNow(s', id, orig);
    } else {
      EffectOnOthers(s, id, i);
      assert s.phase.rest[0].id != id;
      OtherCopyIsRestored(s', id, orig, if |s'.phase.rest| < |s.phase.rest| then i - 1 else i);
    }
    LostAfter(s, NextEffect(s), id, orig);
  }

  lemma {:induction false} SomeListing(ks: Kernels) returns (list: seq<DiscoveryRecord>)
    ensures IsListing(ks, list)
    decreases |ks|
  {
    if ks == map[] {
      list := [];
    } else {
      var id :| id in ks;
      var others := SomeListing(ks - {id});
      list := others + [Listed(ks, id)];
      assert list[|others|].id == id;
      forall k | k in ks ensures Mentions(list, k) {
        if k != id {
          assert Mentions(others, k);
          var i :| 0 <= i < |others| && others[i].id == k;
          assert list[i].id == k;
        }
      }
    }
  }

  /** Between ticks, it is enough that the kernel gets ready for the next one. */
  lemma OtherCopyLosesBetweenTicks(s: State, id: string, orig: Exports)
    requires OtherSaved(s, id, orig) && s.phase.Idle?
    ensures CanBeLost(s, id, orig)
  {
    var getReady := UpdateHealth(id, Health(Ready, "", 0), 0);
    var s1 := Apply(s, getReady);
    var list := SomeListing(s1.kernels);
    var s2 := Apply(s1, Tick(list));
    assert Mentions(list, id);
    var i :| 0 <= i < |list| && list[i].id == id;
    OtherCopyIsRestored(s2, id, orig, i);
    LostAfter(s1, Tick(list), id, orig);
    LostAfter(s, getReady, id, orig);
  }

  /** Inside one, the tick comes first; it may lose them itself. */
  lemma {:induction false} OtherCopyLoses(s: State, id: string, orig: Exports)
    requires OtherSaved(s, id, orig)
    ensures CanBeLost(s, id, orig)
    decreases s.phase.Ticking?, if s.phase.Ticking? then Distance(s, |s.phase.rest|) + 1 else 0
  {
    if s.phase.Idle? {
      OtherCopyLosesBetweenTicks(s, id, orig);
    } else if s.phase.rest == [] {
      OtherCopyLosesBetweenTicks(Apply(s, EndTick), id, orig);
      LostAfter(s, EndTick, id, orig);
    } else if s.phase.rest[0].id == id && s.phase.rest[0].health.status.Ready? {
      OtherCopyIsRestored(s, id, orig, 0);
    } else {
      StepKeepsOrderly(s, NextEffect(s));
      OtherCopyLoses(Apply(s, NextEffect(s)), id, orig);
      LostAfter(s, NextEffect(s), id, orig);
    }
  }

  /** Registering a kernel with exports at any moment, in a tick or between two: they
      are kept in every continuation that leaves the registration alone exactly if
      nothing older can replace them. */
  lemma RegisteredExportsAreKeptIff(s: State, rec: KernelRecord, now: Time, orig: Exports)
    requires Orderly(s) && rec.exports == Some(orig)
    ensures var s', id := Apply(s, Register(rec, now)), Completed(rec, now).id;
            (forall steps | Legal(s', steps) && Gentle(steps, id) :: Held(Run(s', steps), id, orig))
            <==> NothingStale(s, id, orig)
    ensures var s', id := Apply(s, Register(rec, now)), Completed(rec, now).id;
            Safe(s', id, orig) <==> NothingStale(s, id, orig)
  {
    var s', id := Apply(s, Register(rec, now)), Completed(rec, now).id;
    StepKeepsOrderly(s, Register(rec, now));
    if NothingStale(s, id, orig) {
      assert Safe(s', id, orig);
      forall steps | Legal(s', steps) && Gentle(steps, id) ensures Held(Run(s', steps), id, orig) {
        ExportsAreNeverLost(s', steps, id, orig);
      }
    } else {
      if id in s.snapshot {
        OtherCopyLoses(s', id, orig);
      } else {
        var i :| 0 <= i < |s.phase.rest| && Stale(s.phase.rest[i], id, orig);
        StaleEntryLoses(s', id, orig, i);
      }
    }
  }

  // ------------------------------------------ a tick refines the simple view

  predicate Visible(s: State, id: string) {
    id in s.kernels && s.kernels[id].exports.Some?
  }

  /** The simple view: exports show exactly for a ready kernel; an unknown status
      leaves them as they were. */
  predicate Expected(st: Status, before: bool) {
    if st.Ready? then true else if Bad(st) then false else before
  }

  /** Progress of a tick on one kernel, whose listed status was st and whose exports
      showed or not when the list was taken. */
  ghost predicate OnTrack(s: State, id: string, st: Status, before: bool) {
    s.phase.Ticking? && Distinct(s.phase.rest) &&
    (s.phase.half ==>
       s.phase.rest != [] && (s.phase.rest[0].health.status.Ready? || Bad(s.phase.rest[0].health.status))) &&
    if Mentions(s.phase.rest, id) then
      && (forall i | 0 <= i < |s.phase.rest| && s.phase.rest[i].id == id ::
            s.phase.rest[i].health.status == st && s.phase.rest[i].exports.Some? == before)
      && (Visible(s, id) == before || (s.phase.half && s.phase.rest[0].id == id && Visible(s, id)))
      && (!before && !s.phase.half ==> id in s.snapshot)
    else
      Visible(s, id) == Expected(st, before)
  }

  lemma FirstStaysOnTrack(s: State, id: string, orig: Exports, st: Status, before: bool)
    requires Safe(s, id, orig) && OnTrack(s, id, st, before) && Enabled(s, First)
    ensures OnTrack(Apply(s, First), id, st, before)
  {
    MentionsRest(s.phase.rest, id);
  }

  lemma SecondStaysOnTrack(s: State, id: string, orig: Exports, st: Status, before: bool)
    requires Safe(s, id, orig) && OnTrack(s, id, st, before) && Enabled(s, Second)
    ensures OnTrack(Apply(s, Second), id, st, before)
  {
    MentionsRest(s.phase.rest, id);
  }

  lemma MentionsRest(list: seq<DiscoveryRecord>, id: string)
    requires list != [] && Distinct(list)
    ensures Distinct(list[1..])
    ensures Mentions(list[1..], id) <==> Mentions(list, id) && list[0].id != id
  {
    if Mentions(list, id) && list[0].id != id {
      var i :| 0 <= i < |list| && list[i].id == id;
      assert list[1..][i - 1].id == id;
    }
    if Mentions(list[1..], id) {
      var i :| 0 <= i < |list[1..]| && list[1..][i].id == id;
      assert list[i + 1].id == id;
    }
  }

  lemma OtherStaysOnTrack(s: State, step: Step, id: string, orig: Exports, st: Status, before: bool)
    requires Safe(s, id, orig) && OnTrack(s, id, st, before) && Enabled(s, step)
    requires !Reregisters(step, id) && !step.First? && !step.Second? && !step.EndTick?
    ensures OnTrack(Apply(s, step), id, st, before)
  {
  }

  lemma {:induction false} RunStaysOnTrack(s: State, steps: seq<Step>, id: string, orig: Exports,
                                           st: Status, before: bool)
    requires Safe(s, id, orig) && OnTrack(s, id, st, before) && Legal(s, steps)
    requires forall k | 0 <= k < |steps| :: !Reregisters(steps[k], id) && !steps[k].EndTick?
    ensures OnTrack(Run(s, steps), id, st, before)
    decreases |steps|
  {
    if steps == [] {
    } else {
      StepKeepsSafe(s, steps[0], id, orig);
      assert !Reregisters(steps[0], id) && !steps[0].EndTick?;
      if steps[0].First? {
        FirstStaysOnTrack(s, id, orig, st, before);
      } else if steps[0].Second? {
        SecondStaysOnTrack(s, id, orig, st, before);
      } else {
        OtherStaysOnTrack(s, steps[0], id, orig, st, before);
      }
      RunStaysOnTrack(Apply(s, steps[0]), steps[1..], id, orig, st, before);
    }
  }

  /** A complete tick, whatever interleaves with it, leaves the exports of a kernel
      visible exactly as the status in its list asks. */
  lemma {:induction false} TickRefinesTheView(s: State, list: seq<DiscoveryRecord>, steps: seq<Step>,
                                              id: string, orig: Exports)
    requires Safe(s, id, orig) && Enabled(s, Tick(list))
    requires Legal(Apply(s, Tick(list)), steps)
    requires forall k | 0 <= k < |steps| :: !Reregisters(steps[k], id) && !steps[k].EndTick?
    requires Enabled(Run(Apply(s, Tick(list)), steps), EndTick)
    ensures var s' := Apply(Run(Apply(s, Tick(list)), steps), EndTick);
            Visible(s', id) == Expected(s.kernels[id].health.status, Visible(s, id))
  {
    var s1, st, before := Apply(s, Tick(list)), s.kernels[id].health.status, Visible(s, id);
    assert Mentions(list, id);
    StepKeepsSafe(s, Tick(list), id, orig);
    RunStaysOnTrack(s1, steps, id, orig, st, before);
  }

  /** The same, status by status: after a complete tick the exports of a kernel listed as
      ready show, those of one listed as degraded, failed, draining or stopped do not and
      are saved, and the tick has not changed whether any other's show. */
  lemma {:induction false} TickDoes(s: State, list: seq<DiscoveryRecord>, steps: seq<Step>, id: string, orig: Exports)
    requires Safe(s, id, orig) && Enabled(s, Tick(list))
    requires Legal(Apply(s, Tick(list)), steps) && Gentle(steps, id)
    requires forall k | 0 <= k < |steps| :: !steps[k].EndTick?
    requires Enabled(Run(Apply(s, Tick(list)), steps), EndTick)
    ensures var s' := Apply(Run(Apply(s, Tick(list)), steps), EndTick);
            && id in s.kernels && id in s'.kernels
            && var before, after := s.kernels[id].exports, s'.kernels[id].exports;
               match s.kernels[id].health.status
               case Ready => after == Some(orig) || after == Some(CopyExports(orig))
               case Degraded => after.None? && id in s'.snapshot && s'.snapshot[id] == CopyExports(orig)
               case Failed => after.None? && id in s'.snapshot && s'.snapshot[id] == CopyExports(orig)
               case Draining => after.None? && id in s'.snapshot && s'.snapshot[id] == CopyExports(orig)
               case Stopped => after.None? && id in s'.snapshot && s'.snapshot[id] == CopyExports(orig)
               case Unset => before.Some? <==> after.Some?
               case Other(_) => before.Some? <==> after.Some?
  {
    forall k | 0 <= k < |steps| ensures !Reregisters(steps[k], id) && !steps[k].EndTick? {
      assert !Reregisters(steps[k], id);
    }
    TickRefinesTheView(s, list, steps, id, orig);
    StepKeepsSafe(s, Tick(list), id, orig);
    ExportsAreNeverLost(Apply(s, Tick(list)), steps, id, orig);
    StepKeepsSafe(Run(Apply(s, Tick(list)), steps), EndTick, id, orig);
  }

  // ------------------------------------------- a tick with nothing in between

  /** A record's branch, both effects at once. */
  function Visit(s: State): State
    requires s.phase.Ticking? && s.phase.rest != [] && !s.phase.half
  {
    var s' := ApplyFirst(s);
    if s'.phase.half then ApplySecond(s') else s'
  }

  /** The registry and snapshot after the records of the list have been visited. */
  function Scan(s: State): (s': State)
    requires s.phase.Ticking? && !s.phase.half
    ensures s'.phase == Ticking([], false)
    decreases |s.phase.rest|
  {
    if s.phase.rest == [] then s else Scan(Visit(s))
  }

  function Peek(s: State, id: string): (Option<Exports>, Option<Exports>) {
    (if id in s.kernels then s.kernels[id].exports else None, if id in s.snapshot then Some(s.snapshot[id]) else None)
  }

  /** What a visit does to the kernel it is about: the exports shown and saved. */
  function VisitOne(rec: DiscoveryRecord, shown: Option<Exports>, saved: Option<Exports>)
    : (Option<Exports>, Option<Exports>)
  {
    if rec.health.status.Ready? && saved.Some? then (saved, None)
    else if Bad(rec.health.status) && rec.exports.Some? then
      (None, if saved.Some? then saved else Some(CopyExports(rec.exports.value)))
    else (shown, saved)
  }

  lemma VisitIsPointwise(s: State, id: string)
    requires s.phase.Ticking? && s.phase.rest != [] && !s.phase.half && id in s.kernels
    ensures var s', rec := Visit(s), s.phase.rest[0];
            && s'.phase == Ticking(s.phase.rest[1..], false)
            && s'.kernels.Keys == s.kernels.Keys
            && s'.kernels[id] == s.kernels[id].(exports := s'.kernels[id].exports)
            && Peek(s', id) == if rec.id == id then VisitOne(rec, Peek(s, id).0, Peek(s, id).1) else Peek(s, id)
  {
  }

  /** A tick treats each kernel by itself, whatever the order of the list. */
  lemma {:induction false} ScanIsPointwise(s: State, id: string)
    requires s.phase.Ticking? && !s.phase.half && Distinct(s.phase.rest) && id in s.kernels
    ensures Scan(s).kernels.Keys == s.kernels.Keys
    ensures Scan(s).kernels[id] == s.kernels[id].(exports := Scan(s).kernels[id].exports)
    ensures !Mentions(s.phase.rest, id) ==> Peek(Scan(s), id) == Peek(s, id)
    ensures forall i | 0 <= i < |s.phase.rest| && s.phase.rest[i].id == id ::
              Peek(Scan(s), id) == VisitOne(s.phase.rest[i], Peek(s, id).0, Peek(s, id).1)
    decreases |s.phase.rest|
  {
    var rest := s.phase.rest;
    if rest == [] {
    } else {
      VisitIsPointwise(s, id);
      MentionsRest(rest, id);
      ScanIsPointwise(Visit(s), id);
      forall i | 0 <= i < |rest| && rest[i].id == id
        ensures Peek(Scan(s), id) == VisitOne(rest[i], Peek(s, id).0, Peek(s, id).1)
      {
        if i > 0 {
          assert rest[1..][i - 1] == rest[i] && rest[0].id != rest[i].id;
        }
      }
    }
  }

  /** What a tick run alone does to the exports shown and saved of one kernel. */
  predicate TickedAlone(st: Status, shown: Option<Exports>, saved: Option<Exports>,
                        shown': Option<Exports>, saved': Option<Exports>) {
    match st
    case Ready => if saved.Some? then shown' == saved && saved'.None? else shown' == shown && saved'.None?
    case Degraded => Hidden(shown, saved, shown', saved')
    case Failed => Hidden(shown, saved, shown', saved')
    case Draining => Hidden(shown, saved, shown', saved')
    case Stopped => Hidden(shown, saved, shown', saved')
    case Unset => shown' == shown && saved' == saved
    case Other(_) => shown' == shown && saved' == saved
  }

  /** Nothing is shown, and what was is saved if nothing was saved before. */
  predicate Hidden(shown: Option<Exports>, saved: Option<Exports>, shown': Option<Exports>, saved': Option<Exports>) {
    && shown'.None?
    && (saved.Some? || shown.None? ==> saved' == saved)
    && (saved.None? && shown.Some? ==> saved' == Some(CopyExports(shown.value)))
  }

  function SavedFor(snapshot: Snapshot, id: string): Option<Exports> {
    if id in snapshot then Some(snapshot[id]) else None
  }

  lemma LoneTickDoes(s: State, list: seq<DiscoveryRecord>, id: string)
    requires s.phase.Idle? && IsListing(s.kernels, list) && id in s.kernels
    ensures var s' := Scan(s.(phase := Ticking(list, false)));
            && s'.kernels.Keys == s.kernels.Keys
            && s'.kernels[id] == s.kernels[id].(exports := s'.kernels[id].exports)
            && TickedAlone(s.kernels[id].health.status, s.kernels[id].exports, SavedFor(s.snapshot, id),
                           s'.kernels[id].exports, SavedFor(s'.snapshot, id))
  {
    var s1 := s.(phase := Ticking(list, false));
    ScanIsPointwise(s1, id);
    assert Mentions(list, id);
    var i :| 0 <= i < |list| && list[i].id == id;
    assert Peek(Scan(s1), id) == VisitOne(list[i], Peek(s1, id).0, Peek(s1, id).1);
  }

  /** Nothing left to do: ready kernels have no saved copy, bad ones show nothing. */
  ghost predicate Settled(s: State) {
    forall id | id in s.kernels ::
      && (s.kernels[id].health.status.Ready? ==> id !in s.snapshot)
      && (Bad(s.kernels[id].health.status) ==> s.kernels[id].exports.None?)
  }

  /** A tick settles the registry: how often health flipped before does not matter,
      only the status at the time of the list. */
  lemma TickSettles(s: State, list: seq<DiscoveryRecord>)
    requires s.phase.Idle? && IsListing(s.kernels, list)
    ensures Settled(Scan(s.(phase := Ticking(list, false))))
  {
    var s1 := s.(phase := Ticking(list, false));
    var s2 := Scan(s1);
    forall id | id in s2.kernels
      ensures s2.kernels[id].health.status.Ready? ==> id !in s2.snapshot
      ensures Bad(s2.kernels[id].health.status) ==> s2.kernels[id].exports.None?
    {
      KeysKept(s1);
      ScanIsPointwise(s1, id);
      assert Mentions(list, id);
      var i :| 0 <= i < |list| && list[i].id == id;
      assert Peek(s2, id) == VisitOne(list[i], Peek(s1, id).0, Peek(s1, id).1);
    }
  }

  lemma {:induction false} KeysKept(s: State)
    requires s.phase.Ticking? && !s.phase.half
    ensures Scan(s).kernels.Keys == s.kernels.Keys
    decreases |s.phase.rest|
  {
    if s.phase.rest == [] {
    } else {
      KeysKept(Visit(s));
    }
  }

  /** And a tick on a settled registry changes nothing. */
  lemma {:induction false} SettledTickIsNoop(s: State)
    requires Settled(s) && s.phase.Ticking? && !s.phase.half
    requires forall i | 0 <= i < |s.phase.rest| ::
               s.phase.rest[i].id in s.kernels && s.phase.rest[i] == Listed(s.kernels, s.phase.rest[i].id)
    ensures Scan(s).kernels == s.kernels && Scan(s).snapshot == s.snapshot
    decreases |s.phase.rest|
  {
    if s.phase.rest == [] {
    } else {
      var rec := s.phase.rest[0];
      assert rec == Listed(s.kernels, rec.id);
      SettledTickIsNoop(Visit(s));
    }
  }

  /** What the next tick makes of a registration between ticks, with nothing in between:
      the exports are held exactly if no other copy was saved, or the kernel's status is
      none a tick acts on; those of a ready kernel are the ones shown exactly if no copy
      was saved or the copy is the same. */
  lemma ReregisteredExportsSurviveIff(s: State, rec: KernelRecord, now: Time, ex: Exports, list: seq<DiscoveryRecord>)
    requires Orderly(s) && s.phase.Idle? && rec.exports == Some(ex)
    requires IsListing(Apply(s, Register(rec, now)).kernels, list)
    ensures var id, st := Completed(rec, now).id, rec.health.status;
            var after := Scan(Apply(s, Register(rec, now)).(phase := Ticking(list, false)));
            && (Held(after, id, ex) <==>
                id !in s.snapshot || s.snapshot[id] == CopyExports(ex) || !(st.Ready? || Bad(st)))
            && id in after.kernels
            && (st.Ready? ==>
                  (after.kernels[id].exports == Some(ex) <==> id !in s.snapshot || s.snapshot[id] == ex))
  {
    var s1, id := Apply(s, Register(rec, now)), Completed(rec, now).id;
    var s2 := s1.(phase := Ticking(list, false));
    ScanIsPointwise(s2, id);
    assert Mentions(list, id);
    var i :| 0 <= i < |list| && list[i].id == id;
    assert Peek(Scan(s2), id) == VisitOne(list[i], Peek(s2, id).0, Peek(s2, id).1);
    CopyKeepsContents(ex);
  }

  // ---------------------------------------------------------------- the code

  class DegradationPolicy {
    const reg: DiscoveryRegistry
    var snapshot: Snapshot

    constructor (reg: DiscoveryRegistry)
      ensures this.reg == reg && snapshot == map[]
    {
      this.reg := reg;
      snapshot := map[];
    }

    ghost function View(phase: Phase): State
      reads this, reg
    {
      State(reg.kernels, snapshot, phase)
    }

    /** One tick of Run, with no other goroutine in between. */
    method RunTick() returns (list: seq<DiscoveryRecord>)
      modifies this, reg
      ensures IsListing(old(reg.kernels), list)
      ensures View(Ticking([], false)) == Scan(old(View(Ticking(list, false))))
      ensures reg.kernels.Keys == old(reg.kernels).Keys
      ensures forall id | id in old(reg.kernels) ::
                TickedAlone(old(reg.kernels)[id].health.status, old(reg.kernels)[id].exports,
                            SavedFor(old(snapshot), id), reg.kernels[id].exports, SavedFor(snapshot, id))
    {
      list := reg.List();
      ghost var start := View(Ticking(list, false));
      var i := 0;
      while i < |list|
        invariant 0 <= i <= |list|
        invariant Scan(View(Ticking(list[i..], false))) == Scan(start)
      {
        VisitRecord(list[i], list[i..]);
        i := i + 1;
      }
      ghost var was := old(View(Idle));
      KeysKept(start);
      forall id | id in was.kernels
        ensures TickedAlone(was.kernels[id].health.status, was.kernels[id].exports, SavedFor(was.snapshot, id),
                            reg.kernels[id].exports, SavedFor(snapshot, id))
      {
        LoneTickDoes(was, list, id);
      }
    }

    /** One record's branch, with no other goroutine in between. */
    method VisitRecord(rec: DiscoveryRecord, ghost rest: seq<DiscoveryRecord>)
      requires rest != [] && rest[0] == rec
      modifies this, reg
      ensures View(Ticking(rest[1..], false)) == Visit(old(View(Ticking(rest, false))))
    {
      var half := FirstEffect(rec, rest);
      if half {
        SecondEffect(rec, rest);
      }
    }

    /** The look at a record and the first effect of its branch: a saved copy is restored,
        or the exports listed are saved. */
    method FirstEffect(rec: DiscoveryRecord, ghost rest: seq<DiscoveryRecord>) returns (half: bool)
      requires rest != [] && rest[0] == rec
      modifies this, reg
      ensures View(Ticking(if half then rest else rest[1..], half)) == ApplyFirst(old(View(Ticking(rest, false))))
    {
      half := false;
      match rec.health.status {
        case Ready =>
          if rec.id in snapshot {
            reg.SetExports(rec.id, Some(snapshot[rec.id]));
            half := true;
          }
        case Degraded | Failed | Draining | Stopped =>
          if rec.exports.Some? {
            if rec.id !in snapshot {
              snapshot := snapshot[rec.id := CopyExports(rec.exports.value)];
            }
            half := true;
          }
        case _ =>
      }
    }

    /** The second effect: the copy is dropped, or the exports are hidden. */
    method SecondEffect(rec: DiscoveryRecord, ghost rest: seq<DiscoveryRecord>)
      requires rest != [] && rest[0] == rec
      modifies this, reg
      ensures View(Ticking(rest[1..], false)) == ApplySecond(old(View(Ticking(rest, true))))
    {
      if rec.health.status == Ready {
        snapshot := snapshot - {rec.id};
      } else {
        reg.SetExports(rec.id, None);
      }
    }
  }
}
