/** The worker supervisor: restart loops under a policy, with Start, Stop, StopAll
    and any number of workers interleaving.  One step is a critical section, a
    context check or a stretch of a worker's own code between two of those. */
module Supervisor {
  import B = Backoff

  /** RestartPolicy is an integer in the program; other values never restart. */
  datatype Policy = Permanent | Transient | Temporary | Unknown(value: int)

  datatype Outcome = Succeeded | Failed | Panicked

  predicate Restarts(p: Policy, o: Outcome) {
    match p
    case Permanent => true
    case Transient => o != Succeeded
    case Temporary => false
    case Unknown(_) => false
  }

  datatype Event =
    | Started(attempt: int)
    | Panicking(attempt: int)
    | Exited(attempt: int, failed: bool)
    | Restarting(attempt: int, failed: bool, nextAfter: int)
    | Stopped

  /** Where a worker stands in its loop. */
  datatype Phase =
    | AtTop                          // about to look at the supervisor's context
    | Starting                       // the context was alive, start event due
    | Running                        // inside the worker function
    | Returned(outcome: Outcome)     // exit event emitted, decision due
    | Sleeping                       // backing off
    | Leaving(ending: Ending)        // returned, wg.Done due

  datatype Ending = AtCheck | InSleep | ByPolicy(outcome: Outcome)

  /** One finished round: how the function ended and the delay that followed. */
  datatype Round = Round(outcome: Outcome, wait: int)

  datatype Worker = Worker(
    name: string, policy: Policy, backoff: B.Policy,
    phase: Phase, attempts: int, trace: seq<Event>,
    rounds: seq<Round>)              // history: the rounds that ended in a restart

  datatype Action =
    | Check | Begin | Return(outcome: Outcome) | Decide(wait: int) | Wake | Abort

  // ------------------------------------------------------------- one worker

  predicate CanAct(w: Worker, cancelled: bool, a: Action) {
    match a
    case Check => w.phase.AtTop?
    case Begin => w.phase.Starting?
    case Return(_) => w.phase.Running?
    case Decide(_) => w.phase.Returned?
    case Wake => w.phase.Sleeping?
    case Abort => w.phase.Sleeping? && cancelled
  }

  function Act(w: Worker, cancelled: bool, a: Action): Worker
    requires CanAct(w, cancelled, a)
  {
    match a
    case Check =>
      if cancelled then w.(phase := Leaving(AtCheck), trace := w.trace + [Stopped])
      else w.(phase := Starting)
    case Begin => w.(phase := Running, trace := w.trace + [Started(w.attempts + 1)])
    case Return(o) =>
      w.(phase := Returned(o), attempts := w.attempts + 1,
         trace := w.trace + (if o == Panicked then [Panicking(w.attempts + 1)] else [])
                  + [Exited(w.attempts + 1, o != Succeeded)])
    case Decide(wait) =>
      var o := w.phase.outcome;
      if Restarts(w.policy, o) then
        w.(phase := Sleeping, rounds := w.rounds + [Round(o, wait)],
           trace := w.trace + [Restarting(w.attempts, o != Succeeded, wait)])
      else
        w.(phase := Leaving(ByPolicy(o)))
    case Wake => w.(phase := AtTop)
    case Abort => w.(phase := Leaving(InSleep))
  }

  /** The events of one run of the worker function. */
  function Cycle(k: int, o: Outcome): seq<Event> {
    [Started(k)] + (if o == Panicked then [Panicking(k)] else []) + [Exited(k, o != Succeeded)]
  }

  /** The events of the rounds that ended in a restart, numbered from one. */
  function Cycles(rs: seq<Round>): seq<Event> {
    if rs == [] then []
    else
      var k, r := |rs|, rs[|rs| - 1];
      Cycles(rs[..k - 1]) + Cycle(k, r.outcome) + [Restarting(k, r.outcome != Succeeded, r.wait)]
  }

  /** The events of the round a worker is in, numbered k. */
  function Tail(phase: Phase, k: int): seq<Event> {
    match phase
    case Running => [Started(k)]
    case Returned(o) => Cycle(k, o)
    case Leaving(AtCheck) => [Stopped]
    case Leaving(ByPolicy(o)) => Cycle(k, o)
    case _ => []
  }

  predicate RoundExited(phase: Phase) {
    phase.Returned? || (phase.Leaving? && phase.ending.ByPolicy?)
  }

  /** The grammar of event traces: rounds that each ended in a legal restart,
      then the events of the current phase. */
  ghost predicate InGrammar(w: Worker) {
    && w.trace == Cycles(w.rounds) + Tail(w.phase, |w.rounds| + 1)
    && w.attempts == |w.rounds| + (if RoundExited(w.phase) then 1 else 0)
    && (forall i | 0 <= i < |w.rounds| :: Restarts(w.policy, w.rounds[i].outcome))
    && (w.phase.Sleeping? || w.phase == Leaving(InSleep) ==> w.rounds != [])
    && (w.phase.Leaving? && w.phase.ending.ByPolicy? ==> !Restarts(w.policy, w.phase.ending.outcome))
  }

  lemma {:induction false} ActKeepsGrammar(w: Worker, cancelled: bool, a: Action)
    requires InGrammar(w) && CanAct(w, cancelled, a)
    ensures InGrammar(Act(w, cancelled, a))
  {
    match a {
      case Return(o) => ReturnKeepsGrammar(w, o);
      case Decide(wait) => DecideKeepsGrammar(w, wait);
      case _ =>
    }
  }

  lemma ReturnKeepsGrammar(w: Worker, o: Outcome)
    requires InGrammar(w) && w.phase.Running?
    ensures InGrammar(Act(w, false, Return(o)))
  {
    assert Act(w, false, Return(o)).trace == Cycles(w.rounds) + Cycle(|w.rounds| + 1, o);
  }

  lemma DecideKeepsGrammar(w: Worker, wait: int)
    requires InGrammar(w) && w.phase.Returned?
    ensures InGrammar(Act(w, false, Decide(wait)))
  {
    var w' := Act(w, false, Decide(wait));
    if Restarts(w.policy, w.phase.outcome) {
      assert w'.rounds[..|w.rounds|] == w.rounds;
      assert w'.trace == Cycles(w'.rounds);
    }
  }

  function Exits(t: seq<Event>): nat {
    if t == [] then 0 else Exits(t[..|t| - 1]) + if t[|t| - 1].Exited? then 1 else 0
  }

  function Starts(t: seq<Event>): nat {
    if t == [] then 0 else Starts(t[..|t| - 1]) + if t[|t| - 1].Started? then 1 else 0
  }

  lemma {:induction false} CountsAdd(s: seq<Event>, t: seq<Event>)
    ensures Exits(s + t) == Exits(s) + Exits(t) && Starts(s + t) == Starts(s) + Starts(t)
    decreases |t|
  {
    if t == [] {
      assert s + t == s;
    } else {
      assert (s + t)[..|s + t| - 1] == s + t[..|t| - 1];
      CountsAdd(s, t[..|t| - 1]);
    }
  }

  lemma CycleCounts(k: int, o: Outcome)
    ensures Exits(Cycle(k, o)) == Starts(Cycle(k, o)) == 1
  {
    var panic := if o == Panicked then [Panicking(k)] else [];
    CountsAdd([Started(k)] + panic, [Exited(k, o != Succeeded)]);
    CountsAdd([Started(k)], panic);
  }

  lemma {:induction false} CyclesCounts(rs: seq<Round>)
    ensures Exits(Cycles(rs)) == Starts(Cycles(rs)) == |rs|
  {
    if rs == [] {
    } else {
      var k, r := |rs|, rs[|rs| - 1];
      var past := Cycles(rs[..k - 1]);
      var last := Restarting(k, r.outcome != Succeeded, r.wait);
      CyclesCounts(rs[..k - 1]);
      CycleCounts(k, r.outcome);
      CountsAdd(past, Cycle(k, r.outcome));
      CountsAdd(past + Cycle(k, r.outcome), [last]);
    }
  }

  /** What the grammar means: attempts counts the exits, a worker that may never
      restart starts its function at most once, and a permanent worker never ends
      by its policy. */
  lemma GrammarCounts(w: Worker)
    requires InGrammar(w)
    ensures Exits(w.trace) == w.attempts
    ensures w.attempts <= Starts(w.trace) <= w.attempts + 1
    ensures w.policy.Temporary? || w.policy.Unknown? ==> Starts(w.trace) <= 1
    ensures w.policy.Permanent? && w.phase.Leaving? ==> !w.phase.ending.ByPolicy?
  {
    CyclesCounts(w.rounds);
    TailCounts(w.phase, |w.rounds| + 1);
    CountsAdd(Cycles(w.rounds), Tail(w.phase, |w.rounds| + 1));
    assert w.policy.Temporary? || w.policy.Unknown? ==> w.rounds == [] by {
      if w.rounds != [] {
        assert Restarts(w.policy, w.rounds[0].outcome);
      }
    }
  }

  lemma TailCounts(phase: Phase, k: int)
    ensures Exits(Tail(phase, k)) == if RoundExited(phase) then 1 else 0
    ensures Starts(Tail(phase, k)) == if RoundExited(phase) || phase.Running? then 1 else 0
  {
    match phase {
      case Returned(o) => CycleCounts(k, o);
      case Leaving(ByPolicy(o)) => CycleCounts(k, o);
      case _ =>
    }
  }

  // ---------------------------------------------------------- the supervisor

  /** Workers are numbered in the order Start registers them. */
  type Id = nat

  datatype State = State(
    cancelled: bool,               // the supervisor's context
    names: map<string, Id>,        // the workers map
    live: map<Id, Worker>,         // goroutines that have not returned
    gone: map<Id, Worker>,
    stopped: set<Id>,              // workers marked stopped, their contexts cancelled
    wg: int,
    next: Id)

  const INITIAL := State(false, map[], map[], map[], {}, 0, 0)

  datatype Step =
    | Register(name: string, policy: Policy, backoff: B.Policy)
    | StopOne(name: string)
    | CancelAll                    // StopAll's first statement
    | MarkAll                      // StopAll's critical section
    | Work(id: Id, action: Action)
    | Done(id: Id)

  predicate Enabled(s: State, step: Step) {
    match step
    case Register(name, _, _) => name != "" && name !in s.names
    case StopOne(_) => true
    case CancelAll => true
    case MarkAll => s.cancelled
    case Work(id, a) => id in s.live && CanAct(s.live[id], s.cancelled, a)
    case Done(id) => id in s.live && s.live[id].phase.Leaving?
  }

  predicate Removes(w: Worker, a: Action) {
    a.Decide? && w.phase.Returned? && !Restarts(w.policy, w.phase.outcome)
  }

  function Apply(s: State, step: Step): State
    requires Enabled(s, step)
  {
    match step
    case Register(name, policy, backoff) =>
      s.(names := s.names[name := s.next],
         live := s.live[s.next := Worker(name, policy, backoff, AtTop, 0, [], [])],
         wg := s.wg + 1, next := s.next + 1)
    case StopOne(name) =>
      if name in s.names then s.(stopped := s.stopped + {s.names[name]}) else s
    case CancelAll => s.(cancelled := true)
    case MarkAll => s.(stopped := s.stopped + s.names.Values)
    case Work(id, a) =>
      var w := s.live[id];
      s.(live := s.live[id := Act(w, s.cancelled, a)],
         names := if Removes(w, a) then s.names - {w.name} else s.names)
    case Done(id) => s.(live := s.live - {id}, gone := s.gone[id := s.live[id]], wg := s.wg - 1)
  }

  ghost predicate Legal(s: State, steps: seq<Step>)
    decreases |steps|
  {
    steps == [] || (Enabled(s, steps[0]) && Legal(Apply(s, steps[0]), steps[1..]))
  }

  ghost function Run(s: State, steps: seq<Step>): State
    requires Legal(s, steps)
    decreases |steps|
  {
    if steps == [] then s else Run(Apply(s, steps[0]), steps[1..])
  }

  /** A worker still in its loop owns the entry under its name. */
  ghost predicate OwnsName(s: State, id: Id) {
    id in s.live && (!s.live[id].phase.Leaving? ==>
      s.live[id].name in s.names && s.names[s.live[id].name] == id)
  }

  /** A worker's history is in the grammar, and only cancellation cuts it short. */
  ghost predicate Sound(w: Worker, cancelled: bool) {
    InGrammar(w) && (w.phase.Leaving? ==> w.phase.ending.ByPolicy? || cancelled)
  }

  ghost predicate LiveOk(s: State, id: Id) {
    id in s.live && id < s.next && OwnsName(s, id) && Sound(s.live[id], s.cancelled)
  }

  ghost predicate GoneOk(s: State, id: Id) {
    id in s.gone && id < s.next && id !in s.live && Sound(s.gone[id], s.cancelled) && s.gone[id].phase.Leaving?
  }

  /** An entry of the map names a worker that was registered under it. */
  ghost predicate EntryOk(s: State, name: string) {
    name in s.names && s.names[name] < s.next && (s.names[name] in s.live ==> s.live[s.names[name]].name == name)
  }

  ghost predicate Inv(s: State) {
    && s.wg == |s.live|
    && (forall n | n in s.names :: EntryOk(s, n))
    && (forall id | id in s.live :: LiveOk(s, id))
    && (forall id | id in s.gone :: GoneOk(s, id))
  }

  lemma ActKeepsSound(w: Worker, cancelled: bool, a: Action)
    requires Sound(w, cancelled) && CanAct(w, cancelled, a)
    ensures Sound(Act(w, cancelled, a), cancelled)
  {
    ActKeepsGrammar(w, cancelled, a);
  }

  lemma WorkKeepsNames(s: State, id: Id, a: Action, i: Id)
    requires Enabled(s, Work(id, a)) && OwnsName(s, id) && OwnsName(s, i)
    ensures OwnsName(Apply(s, Work(id, a)), i)
  {
  }

  /** The next number is free. */
  predicate Fresh(s: State) {
    s.next !in s.live && s.next !in s.gone
  }

  lemma RegisterKeepsEach(s: State, step: Step, i: Id, n: string)
    requires step.Register? && Enabled(s, step) && Fresh(s)
    ensures var s' := Apply(s, step);
            && LiveOk(s', s.next) && EntryOk(s', step.name)
            && (LiveOk(s, i) ==> LiveOk(s', i))
            && (GoneOk(s, i) ==> GoneOk(s', i))
            && (EntryOk(s, n) ==> EntryOk(s', n))
  {
  }

  lemma {:induction false} RegisterKeepsInv(s: State, step: Step)
    requires Inv(s) && step.Register? && Enabled(s, step)
    ensures Inv(Apply(s, step))
  {
    assert Fresh(s) by {
      assert s.next in s.live ==> LiveOk(s, s.next);
      assert s.next in s.gone ==> GoneOk(s, s.next);
    }
    forall i | i in Apply(s, step).live ensures LiveOk(Apply(s, step), i) {
      RegisterKeepsEach(s, step, i, "");
    }
    forall i | i in Apply(s, step).gone ensures GoneOk(Apply(s, step), i) {
      RegisterKeepsEach(s, step, i, "");
    }
    forall n | n in Apply(s, step).names ensures EntryOk(Apply(s, step), n) {
      RegisterKeepsEach(s, step, s.next, n);
    }
  }

  lemma {:induction false} WorkKeepsLive(s: State, id: Id, a: Action, i: Id)
    requires Enabled(s, Work(id, a)) && LiveOk(s, id) && LiveOk(s, i)
    ensures LiveOk(Apply(s, Work(id, a)), i)
  {
    ActKeepsSound(s.live[id], s.cancelled, a);
    WorkKeepsNames(s, id, a, i);
  }

  lemma WorkKeepsOthers(s: State, id: Id, a: Action, i: Id, n: string)
    requires Enabled(s, Work(id, a))
    ensures var s' := Apply(s, Work(id, a));
            && s'.live.Keys == s.live.Keys && s'.gone == s.gone
            && (GoneOk(s, i) ==> GoneOk(s', i))
            && (EntryOk(s, n) && n in s'.names ==> EntryOk(s', n))
            && (n in s'.names ==> n in s.names)
  {
  }

  lemma {:induction false} WorkKeepsInv(s: State, id: Id, a: Action)
    requires Inv(s) && Enabled(s, Work(id, a))
    ensures Inv(Apply(s, Work(id, a)))
  {
    WorkKeepsOthers(s, id, a, id, "");
    forall i | i in Apply(s, Work(id, a)).live ensures LiveOk(Apply(s, Work(id, a)), i) {
      WorkKeepsLive(s, id, a, i);
    }
    forall i | i in Apply(s, Work(id, a)).gone ensures GoneOk(Apply(s, Work(id, a)), i) {
      WorkKeepsOthers(s, id, a, i, "");
    }
    forall n | n in Apply(s, Work(id, a)).names ensures EntryOk(Apply(s, Work(id, a)), n) {
      WorkKeepsOthers(s, id, a, id, n);
    }
  }

  lemma DoneKeepsInv(s: State, id: Id)
    requires Inv(s) && Enabled(s, Done(id))
    ensures Inv(Apply(s, Done(id)))
  {
    var s' := Apply(s, Done(id));
    assert s'.live.Keys == s.live.Keys - {id};
    forall i | i in s'.live ensures LiveOk(s', i) {
      assert LiveOk(s, i);
    }
    forall i | i in s'.gone ensures GoneOk(s', i) {
      assert LiveOk(s, id) && (i != id ==> GoneOk(s, i));
    }
    forall n | n in s'.names ensures EntryOk(s', n) {
      assert EntryOk(s, n);
    }
  }

  lemma StopKeepsInv(s: State, step: Step)
    requires Inv(s) && (step.StopOne? || step.CancelAll? || step.MarkAll?) && Enabled(s, step)
    ensures Inv(Apply(s, step))
  {
    var s' := Apply(s, step);
    forall i | i in s'.live ensures LiveOk(s', i) {
      assert LiveOk(s, i);
    }
    forall i | i in s'.gone ensures GoneOk(s', i) {
      assert GoneOk(s, i);
    }
    forall n | n in s'.names ensures EntryOk(s', n) {
      assert EntryOk(s, n);
    }
  }

  lemma {:induction false} StepKeepsInv(s: State, step: Step)
    requires Inv(s) && Enabled(s, step)
    ensures Inv(Apply(s, step))
  {
    match step {
      case Register(_, _, _) => RegisterKeepsInv(s, step);
      case Work(id, a) => WorkKeepsInv(s, id, a);
      case Done(id) => DoneKeepsInv(s, id);
      case _ => StopKeepsInv(s, step);
    }
  }

  lemma {:induction false} RunKeepsInv(s: State, steps: seq<Step>)
    requires Inv(s) && Legal(s, steps)
    ensures Inv(Run(s, steps))
    decreases |steps|
  {
    if steps == [] {
    } else {
      StepKeepsInv(s, steps[0]);
      RunKeepsInv(Apply(s, steps[0]), steps[1..]);
    }
  }

  /** Every worker of every run, live or gone, has a trace in the grammar; one that
      is gone without a decision by its policy was cut short by cancellation. */
  lemma EveryTraceInGrammar(steps: seq<Step>, id: Id)
    requires Legal(INITIAL, steps)
    requires id in Run(INITIAL, steps).live || id in Run(INITIAL, steps).gone
    ensures var s := Run(INITIAL, steps);
            var w := if id in s.live then s.live[id] else s.gone[id];
            && InGrammar(w)
            && Exits(w.trace) == w.attempts
            && (w.policy.Temporary? ==> Starts(w.trace) <= 1)
            && (w.policy.Permanent? && w.phase.Leaving? ==> s.cancelled)
  {
    RunKeepsInv(INITIAL, steps);
    var s := Run(INITIAL, steps);
    assert if id in s.live then LiveOk(s, id) else GoneOk(s, id);
    GrammarCounts(if id in s.live then s.live[id] else s.gone[id]);
  }

  // ------------------------------------------------- what Start was asked for

  lemma {:induction false} RunConcat(s: State, first: seq<Step>, rest: seq<Step>)
    requires Legal(s, first + rest)
    ensures Legal(s, first) && Legal(Run(s, first), rest) && Run(s, first + rest) == Run(Run(s, first), rest)
    decreases |first|
  {
    if first == [] {
      assert first + rest == rest;
    } else {
      assert (first + rest)[1..] == first[1..] + rest;
      RunConcat(Apply(s, first[0]), first[1..], rest);
    }
  }

  /** A worker by its number, in its loop or gone. */
  predicate IsWorker(s: State, id: Id, name: string, policy: Policy, backoff: B.Policy) {
    (id in s.live || id in s.gone) &&
    var w := if id in s.live then s.live[id] else s.gone[id];
    w.name == name && w.policy == policy && w.backoff == backoff
  }

  lemma StepKeepsIdentity(s: State, step: Step, id: Id, name: string, policy: Policy, backoff: B.Policy)
    requires Fresh(s) && Enabled(s, step) && IsWorker(s, id, name, policy, backoff)
    ensures IsWorker(Apply(s, step), id, name, policy, backoff)
  {
  }

  lemma NextIsFresh(s: State)
    requires Inv(s)
    ensures Fresh(s)
  {
    assert s.next in s.live ==> LiveOk(s, s.next);
    assert s.next in s.gone ==> GoneOk(s, s.next);
  }

  lemma {:induction false} RunKeepsIdentity(s: State, steps: seq<Step>, id: Id, name: string, policy: Policy,
                                            backoff: B.Policy)
    requires Inv(s) && Legal(s, steps) && IsWorker(s, id, name, policy, backoff)
    ensures IsWorker(Run(s, steps), id, name, policy, backoff)
    decreases |steps|
  {
    if steps == [] {
    } else {
      NextIsFresh(s);
      StepKeepsIdentity(s, steps[0], id, name, policy, backoff);
      StepKeepsInv(s, steps[0]);
      RunKeepsIdentity(Apply(s, steps[0]), steps[1..], id, name, policy, backoff);
    }
  }

  /** In every run, the worker a Start registers has the name, policy and backoff it was
      started with ever after, live or gone. */
  lemma WorkerIsAsStarted(before: seq<Step>, name: string, policy: Policy, backoff: B.Policy, after: seq<Step>)
    requires Legal(INITIAL, before + [Register(name, policy, backoff)] + after)
    ensures Legal(INITIAL, before)
    ensures IsWorker(Run(INITIAL, before + [Register(name, policy, backoff)] + after),
                     Run(INITIAL, before).next, name, policy, backoff)
  {
    var start := [Register(name, policy, backoff)];
    RunConcat(INITIAL, before + start, after);
    RunConcat(INITIAL, before, start);
    var s := Run(INITIAL, before);
    assert start[1..] == [];
    assert Run(s, start) == Apply(s, start[0]);
    RunKeepsInv(INITIAL, before + start);
    RunKeepsIdentity(Apply(s, start[0]), after, s.next, name, policy, backoff);
  }

  /** The restart events of some rounds report how the rounds ended. */
  lemma {:induction false} RestartsReportRounds(rs: seq<Round>, e: Event)
    requires e in Cycles(rs) && e.Restarting?
    ensures 1 <= e.attempt <= |rs| && e.failed == (rs[e.attempt - 1].outcome != Succeeded)
            && e.nextAfter == rs[e.attempt - 1].wait
  {
    if rs == [] {
    } else {
      var n := |rs| - 1;
      if e in Cycles(rs[..n]) {
        RestartsReportRounds(rs[..n], e);
      }
    }
  }

  /** What Start's policy promises of its worker, in every run: a permanent worker leaves
      only on cancellation; a transient one is restarted after errors and panics only, and
      its policy ends it only on success; any other is never restarted and starts its
      function at most once. */
  lemma PolicyIsObeyed(before: seq<Step>, name: string, policy: Policy, backoff: B.Policy, after: seq<Step>)
    requires Legal(INITIAL, before + [Register(name, policy, backoff)] + after)
    ensures Legal(INITIAL, before)
    ensures var s, id := Run(INITIAL, before + [Register(name, policy, backoff)] + after), Run(INITIAL, before).next;
            (id in s.live || id in s.gone) &&
            var w := if id in s.live then s.live[id] else s.gone[id];
            match policy
            case Permanent => w.phase.Leaving? ==> s.cancelled
            case Transient =>
              && (forall e | e in w.trace && e.Restarting? :: e.failed)
              && (w.phase.Leaving? && !s.cancelled ==> w.phase.ending == ByPolicy(Succeeded))
            case _ =>
              && (forall e | e in w.trace :: !e.Restarting?) && Starts(w.trace) <= 1
  {
    var steps := before + [Register(name, policy, backoff)] + after;
    WorkerIsAsStarted(before, name, policy, backoff, after);
    var s, id := Run(INITIAL, steps), Run(INITIAL, before).next;
    RunKeepsInv(INITIAL, steps);
    assert if id in s.live then LiveOk(s, id) else GoneOk(s, id);
    SoundWorker(if id in s.live then s.live[id] else s.gone[id], s.cancelled);
  }

  lemma SoundWorker(w: Worker, cancelled: bool)
    requires Sound(w, cancelled)
    ensures w.policy.Permanent? && w.phase.Leaving? ==> cancelled
    ensures w.policy.Transient? ==>
              (forall e | e in w.trace && e.Restarting? :: e.failed)
              && (w.phase.Leaving? && !cancelled ==> w.phase.ending == ByPolicy(Succeeded))
    ensures !w.policy.Permanent? && !w.policy.Transient? ==>
              (forall e | e in w.trace :: !e.Restarting?) && Starts(w.trace) <= 1
  {
    GrammarCounts(w);
    forall e | e in w.trace && e.Restarting?
      ensures e in Cycles(w.rounds) && 1 <= e.attempt <= |w.rounds|
      ensures e.failed == (w.rounds[e.attempt - 1].outcome != Succeeded)
      ensures Restarts(w.policy, w.rounds[e.attempt - 1].outcome)
    {
      assert e in Cycles(w.rounds) by {
        if e in Tail(w.phase, |w.rounds| + 1) {
          TailRestartsNothing(w.phase, |w.rounds| + 1, e);
        }
      }
      RestartsReportRounds(w.rounds, e);
    }
  }

  lemma TailRestartsNothing(phase: Phase, k: int, e: Event)
    requires e in Tail(phase, k)
    ensures !e.Restarting?
  {
  }

  /** One round of a worker that is not cancelled, event by event. */
  lemma OneRound(w: Worker, o: Outcome, wait: int)
    requires w.phase.AtTop?
    ensures var w1 := Act(Act(w, false, Check), false, Begin);
            var w2 := Act(Act(w1, false, Return(o)), false, Decide(wait));
            var k, failed := w.attempts + 1, o == Failed || o == Panicked;
            var again := w.policy.Permanent? || (w.policy.Transient? && failed);
            && w2.attempts == k
            && w1.trace == w.trace + [Started(k)]
            && w2.trace == w1.trace + (if o == Panicked then [Panicking(k)] else []) + [Exited(k, failed)]
                           + (if again then [Restarting(k, failed, wait)] else [])
            && w2.phase == (if again then Sleeping else Leaving(ByPolicy(o)))
            && (again ==> Act(w2, false, Wake) == w2.(phase := AtTop))
            && (again ==> Act(w2, true, Abort) == w2.(phase := Leaving(InSleep)))
    ensures Act(w, true, Check) == w.(phase := Leaving(AtCheck), trace := w.trace + [Stopped])
  {
  }

  /** The supervisor is cancelled exactly once StopAll has begun. */
  lemma {:induction false} CancelledIff(s: State, steps: seq<Step>)
    requires Legal(s, steps)
    ensures Run(s, steps).cancelled <==> s.cancelled || exists i | 0 <= i < |steps| :: steps[i].CancelAll?
    decreases |steps|
  {
    if steps == [] {
    } else {
      CancelledIff(Apply(s, steps[0]), steps[1..]);
      assert forall i | 0 <= i < |steps| - 1 :: steps[1..][i] == steps[i + 1];
      assert (exists i | 0 <= i < |steps| :: steps[i].CancelAll?)
        <==> steps[0].CancelAll? || exists i | 0 <= i < |steps| - 1 :: steps[1..][i].CancelAll?;
    }
  }

  // ------------------------------------------------- names, Wait and shutdown

  /** In every reachable state two workers in their loops have different names;
      in particular no two running functions share one. */
  lemma NamesAreExclusive(steps: seq<Step>, i: Id, j: Id)
    requires Legal(INITIAL, steps)
    requires var s := Run(INITIAL, steps);
             i in s.live && j in s.live && !s.live[i].phase.Leaving? && !s.live[j].phase.Leaving?
    ensures var s := Run(INITIAL, steps); s.live[i].name == s.live[j].name ==> i == j
  {
    RunKeepsInv(INITIAL, steps);
    var s := Run(INITIAL, steps);
    assert LiveOk(s, i) && LiveOk(s, j);
  }

  /** A worker that gives up its name removes its own entry and no other. */
  lemma RemovesOwnEntry(steps: seq<Step>, id: Id, a: Action)
    requires Legal(INITIAL, steps) && Enabled(Run(INITIAL, steps), Work(id, a))
    ensures var s := Run(INITIAL, steps);
            var names := Apply(s, Work(id, a)).names;
            Removes(s.live[id], a)
            ==> s.live[id].name in s.names && s.names[s.live[id].name] == id && names == s.names - {s.live[id].name}
  {
    RunKeepsInv(INITIAL, steps);
    assert LiveOk(Run(INITIAL, steps), id);
  }

  /** The WaitGroup reads zero exactly when no worker loop is left, and without a
      later registration it stays so. */
  lemma {:induction false} WaitIsFinal(s: State, steps: seq<Step>)
    requires Inv(s) && s.wg == 0 && Legal(s, steps)
    requires forall k | 0 <= k < |steps| :: !steps[k].Register?
    ensures s.live == map[] && Run(s, steps).live == map[] && Run(s, steps).gone == s.gone
    decreases |steps|
  {
    assert s.live == map[];
    if steps == [] {
    } else {
      assert !steps[0].Register?;
      StepKeepsInv(s, steps[0]);
      WaitIsFinal(Apply(s, steps[0]), steps[1..]);
    }
  }

  predicate ActsFor(step: Step, id: Id) {
    (step.Work? || step.Done?) && step.id == id
  }

  function PhaseRank(phase: Phase): nat {
    match phase
    case Starting => 6
    case Running => 5
    case Returned(_) => 4
    case Sleeping => 3
    case AtTop => 2
    case Leaving(_) => 1
  }

  /** The most steps a worker, registered or yet to be, can still take once the
      supervisor is cancelled. */
  function Rank(s: State, id: Id): nat {
    if id in s.live then PhaseRank(s.live[id].phase)
    else if id >= s.next then PhaseRank(AtTop)
    else 0
  }

  function StepsOf(id: Id, steps: seq<Step>): nat {
    if steps == [] then 0 else (if ActsFor(steps[0], id) then 1 else 0) + StepsOf(id, steps[1..])
  }

  /** How often a worker enters its function along a run. */
  function BeginsOf(id: Id, steps: seq<Step>): nat {
    if steps == [] then 0 else (if steps[0] == Work(id, Begin) then 1 else 0) + BeginsOf(id, steps[1..])
  }

  lemma ActLowersRank(w: Worker, a: Action)
    requires CanAct(w, true, a)
    ensures PhaseRank(Act(w, true, a).phase) < PhaseRank(w.phase)
  {
  }

  /** Workers in their loop carry numbers already given out. */
  predicate Numbered(s: State) {
    forall id | id in s.live :: id < s.next
  }

  lemma StepLowersRank(s: State, step: Step, id: Id)
    requires s.cancelled && Numbered(s) && Enabled(s, step)
    ensures Numbered(Apply(s, step)) && Apply(s, step).cancelled
    ensures Rank(Apply(s, step), id) + (if ActsFor(step, id) then 1 else 0) <= Rank(s, id)
  {
    if step.Work? {
      ActLowersRank(s.live[step.id], step.action);
    }
  }

  /** After StopAll a worker takes at most Rank more steps, enters its function at
      most once more, and only if it had already passed the context check; one
      registered later never enters it. */
  lemma {:induction false} ShutdownIsBounded(s: State, steps: seq<Step>, id: Id)
    requires s.cancelled && Numbered(s) && Legal(s, steps)
    ensures StepsOf(id, steps) + Rank(Run(s, steps), id) <= Rank(s, id)
    ensures StepsOf(id, steps) == Rank(s, id) ==> id !in Run(s, steps).live
    ensures BeginsOf(id, steps) <= if Rank(s, id) == PhaseRank(Starting) then 1 else 0
    decreases |steps|
  {
    if steps == [] {
    } else {
      StepLowersRank(s, steps[0], id);
      ShutdownIsBounded(Apply(s, steps[0]), steps[1..], id);
    }
  }

  /** The step a worker can take next, given how its function ends if it is in it. */
  function NextStep(w: Worker, id: Id, outcome: Outcome): Step {
    match w.phase
    case AtTop => Work(id, Check)
    case Starting => Work(id, Begin)
    case Running => Work(id, Return(outcome))
    case Returned(_) => Work(id, Decide(0))
    case Sleeping => Work(id, Wake)
    case Leaving(_) => Done(id)
  }

  /** No live worker is ever stuck outside its function, so with the bound above
      every one of them is gone in the end and Wait returns. */
  lemma LiveWorkerCanStep(s: State, id: Id, outcome: Outcome)
    requires id in s.live
    ensures Enabled(s, NextStep(s.live[id], id, outcome)) && ActsFor(NextStep(s.live[id], id, outcome), id)
  {
  }

  // ---------------------------------------------------------------- Stop(name)

  /** Stop marks the worker that holds the name and no other; StopAll marks every
      worker still in its loop. */
  lemma StopMarksItsWorker(s: State, id: Id, name: string)
    requires Inv(s) && id in s.live && !s.live[id].phase.Leaving?
    ensures id in Apply(s, StopOne(name)).stopped <==> id in s.stopped || s.live[id].name == name
    ensures id in Apply(Apply(s, CancelAll), MarkAll).stopped
  {
    assert LiveOk(s, id) && OwnsName(s, id);
    assert name in s.names ==> EntryOk(s, name);
  }

  function WithoutStops(steps: seq<Step>): seq<Step> {
    if steps == [] then []
    else (if steps[0].StopOne? then [] else [steps[0]]) + WithoutStops(steps[1..])
  }

  ghost predicate SameButForMarks(s: State, t: State) {
    s.(stopped := {}) == t.(stopped := {})
  }

  /** Stop only marks a worker and cancels the context its function sees: the loop
      itself runs as if Stop had never been called. */
  lemma {:induction false} StopDoesNotSteerTheLoop(s: State, t: State, steps: seq<Step>)
    requires SameButForMarks(s, t) && Legal(s, steps)
    ensures Legal(t, WithoutStops(steps))
    ensures SameButForMarks(Run(s, steps), Run(t, WithoutStops(steps)))
    decreases |steps|
  {
    if steps == [] {
    } else {
      var first, rest := steps[0], steps[1..];
      if first.StopOne? {
        assert WithoutStops(steps) == WithoutStops(rest);
        StopDoesNotSteerTheLoop(Apply(s, first), t, rest);
      } else {
        assert WithoutStops(steps) == [first] + WithoutStops(rest);
        assert WithoutStops(steps)[1..] == WithoutStops(rest);
        StopDoesNotSteerTheLoop(Apply(s, first), Apply(t, first), rest);
      }
    }
  }

  /** Whether a stopped worker ends when its function returns depends on its policy
      and the outcome alone. */
  lemma StoppedWorkerEndsIff(s: State, id: Id, o: Outcome, wait: int)
    requires id in s.live && id in s.stopped && s.live[id].phase.Running?
    ensures var steps := [Work(id, Return(o)), Work(id, Decide(wait))];
            && Legal(s, steps) && id in Run(s, steps).live
            && (Run(s, steps).live[id].phase.Leaving? <==>
                match s.live[id].policy
                case Permanent => false
                case Transient => o == Succeeded
                case _ => true)
  {
    var s1 := Apply(s, Work(id, Return(o)));
    Prepend(Apply(s1, Work(id, Decide(wait))), [], s1, Work(id, Decide(wait)));
    Prepend(s1, [Work(id, Decide(wait))], s, Work(id, Return(o)));
    assert [Work(id, Return(o))] + [Work(id, Decide(wait))] == [Work(id, Return(o)), Work(id, Decide(wait))];
    assert [Work(id, Decide(wait))] + [] == [Work(id, Decide(wait))];
  }

  /** So Stop ends no permanent worker: stopped while running, it goes on to enter
      its function again, however the function ended. */
  lemma StoppedPermanentStartsAgain(s: State, id: Id, o: Outcome, wait: int)
    requires !s.cancelled && id in s.live && id in s.stopped
    requires s.live[id].phase.Running? && s.live[id].policy.Permanent?
    ensures var again :=
              [Work(id, Return(o)), Work(id, Decide(wait)), Work(id, Wake), Work(id, Check)] + [Work(id, Begin)];
            Legal(s, again) && id in Run(s, again).live && Run(s, again).live[id].phase.Running?
  {
    var s1 := Apply(s, Work(id, Return(o)));
    var s2 := Apply(s1, Work(id, Decide(wait)));
    var s3 := Apply(s2, Work(id, Wake));
    var s4 := Apply(s3, Work(id, Check));
    var s5 := Apply(s4, Work(id, Begin));
    var t := [Work(id, Begin)];
    Prepend(s5, [], s4, Work(id, Begin));
    assert [Work(id, Begin)] + [] == t;
    Prepend(s4, t, s3, Work(id, Check));
    Prepend(s3, [Work(id, Check)] + t, s2, Work(id, Wake));
    Prepend(s2, [Work(id, Wake)] + ([Work(id, Check)] + t), s1, Work(id, Decide(wait)));
    Prepend(s1, [Work(id, Decide(wait))] + ([Work(id, Wake)] + ([Work(id, Check)] + t)), s, Work(id, Return(o)));
    assert [Work(id, Return(o))] + ([Work(id, Decide(wait))] + ([Work(id, Wake)] + ([Work(id, Check)] + t)))
        == [Work(id, Return(o)), Work(id, Decide(wait)), Work(id, Wake), Work(id, Check)] + t;
  }

  lemma Prepend(after: State, rest: seq<Step>, s: State, step: Step)
    requires Enabled(s, step) && after == Apply(s, step) && Legal(after, rest)
    ensures Legal(s, [step] + rest) && Run(s, [step] + rest) == Run(after, rest)
  {
    assert ([step] + rest)[1..] == rest;
  }

  // ----------------------------------------------------------------- the code

  datatype StartResult = Ok | InvalidSpec | AlreadyExists

  class Supervisor {
    var cancelled: bool
    var workers: map<string, Id>
    var loops: map<Id, Worker>
    var stopped: set<Id>
    var wg: int
    var next: Id
    ghost var gone: map<Id, Worker>

    ghost function View(): State
      reads this
    {
      State(cancelled, workers, loops, gone, stopped, wg, next)
    }

    constructor ()
      ensures View() == INITIAL
    {
      cancelled, workers, loops, stopped, wg, next, gone := false, map[], map[], {}, 0, 0, map[];
    }

    method Start(hasFn: bool, name: string, policy: Policy, backoff: B.Policy) returns (r: StartResult)
      modifies this
      ensures r == if !hasFn || name == "" then InvalidSpec else if name in old(workers) then AlreadyExists else Ok
      ensures View() == if r.Ok? then Apply(old(View()), Register(name, policy, backoff)) else old(View())
    {
      if !hasFn || name == "" {
        return InvalidSpec;
      }
      if name in workers {
        return AlreadyExists;
      }
      workers := workers[name := next];
      wg := wg + 1;
      loops := loops[next := Worker(name, policy, backoff, AtTop, 0, [], [])];
      next := next + 1;
      return Ok;
    }

    method Stop(name: string)
      modifies this
      ensures View() == Apply(old(View()), StopOne(name))
    {
      if name in workers && workers[name] !in stopped {
        stopped := stopped + {workers[name]};
      }
    }

    /** StopAll with no other goroutine in between; the map is visited in any order. */
    method StopAll()
      modifies this
      ensures View() == Apply(Apply(old(View()), CancelAll), MarkAll)
    {
      cancelled := true;
      var todo := workers.Keys;
      while todo != {}
        invariant todo <= workers.Keys
        invariant stopped == old(stopped) + set n | n in workers.Keys - todo :: workers[n]
        invariant View() == old(View()).(cancelled := true, stopped := stopped)
      {
        var n :| n in todo;
        todo := todo - {n};
        if workers[n] !in stopped {
          stopped := stopped + {workers[n]};
        }
      }
      assert (set n | n in workers.Keys :: workers[n]) == workers.Values;
    }

    /** The select at the top of the loop, with the stop event it may emit. */
    method CheckContext(id: Id) returns (proceed: bool)
      requires Enabled(View(), Work(id, Check))
      modifies this
      ensures proceed <==> !cancelled
      ensures View() == Apply(old(View()), Work(id, Check))
    {
      proceed := !cancelled;
      var w := loops[id];
      if proceed {
        loops := loops[id := w.(phase := Starting)];
      } else {
        loops := loops[id := w.(phase := Leaving(AtCheck), trace := w.trace + [Stopped])];
      }
    }

    method EnterFunction(id: Id)
      requires Enabled(View(), Work(id, Begin))
      modifies this
      ensures View() == Apply(old(View()), Work(id, Begin))
    {
      var w := loops[id];
      loops := loops[id := w.(phase := Running, trace := w.trace + [Started(w.attempts + 1)])];
    }

    /** The function is over: a panic is recovered and reported, the exit counted. */
    method LeaveFunction(id: Id, outcome: Outcome)
      requires Enabled(View(), Work(id, Return(outcome)))
      modifies this
      ensures View() == Apply(old(View()), Work(id, Return(outcome)))
    {
      var w := loops[id];
      var trace := w.trace;
      if outcome == Panicked {
        trace := trace + [Panicking(w.attempts + 1)];
      }
      var attempts := w.attempts + 1;
      trace := trace + [Exited(attempts, outcome != Succeeded)];
      assert trace == Apply(old(View()), Work(id, Return(outcome))).live[id].trace;
      loops := loops[id := w.(phase := Returned(outcome), attempts := attempts, trace := trace)];
    }

    /** The restart decision; the delay announced is the policy's for this attempt. */
    method DecideRestart(id: Id, u: real, over: B.Overflow) returns (sleep: int)
      requires id in loops && loops[id].phase.Returned?
      modifies this
      ensures sleep == B.Delay(B.WithDefaults(old(loops)[id].backoff), old(loops)[id].attempts, u, over)
      ensures View() == Apply(old(View()), Work(id, Decide(sleep)))
    {
      var w := loops[id];
      var o := w.phase.outcome;
      sleep := B.DurationByPower(w.backoff, w.attempts, u, over);
      var restart := false;
      match w.policy {
        case Permanent => restart := true;
        case Transient => restart := o != Succeeded;
        case _ =>
      }
      if !restart {
        workers := workers - {w.name};
        loops := loops[id := w.(phase := Leaving(ByPolicy(o)))];
      } else {
        loops := loops[id := w.(phase := Sleeping, rounds := w.rounds + [Round(o, sleep)],
                                trace := w.trace + [Restarting(w.attempts, o != Succeeded, sleep)])];
      }
    }

    /** The select between the timer and the context. */
    method Sleep(id: Id, timerFires: bool)
      requires id in loops && loops[id].phase.Sleeping? && (timerFires || cancelled)
      modifies this
      ensures View() == Apply(old(View()), Work(id, if timerFires then Wake else Abort))
    {
      var w := loops[id];
      loops := loops[id := w.(phase := if timerFires then AtTop else Leaving(InSleep))];
    }

    method WorkerDone(id: Id)
      requires Enabled(View(), Done(id))
      modifies this
      ensures View() == Apply(old(View()), Done(id))
    {
      gone := gone[id := loops[id]];
      loops := loops - {id};
      wg := wg - 1;
    }
  }
}
