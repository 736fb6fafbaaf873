/** The kernel lifecycle machine.  Hook results are an arbitrary oracle; the hooks
    called and the transitions made are recorded. */
module Lifecycle {

  datatype State = Load | Init | Configure | Start | Ready | Degraded | Failed | Draining | Stopped

  datatype Hook = OnLoad | OnInit | OnConfigure | OnStart | OnReady | OnDrain | OnStop

  datatype Transition = Transition(from: State, to: State, failed: bool)

  /** Which hooks of one Run return without an error. */
  datatype Results = Results(load: bool, init: bool, configure: bool, start: bool, ready: bool)

  datatype Machine = Machine(state: State, history: seq<Transition>, called: seq<Hook>)

  const FRESH := Machine(Load, [], [])

  const RUN_STATES := [Init, Configure, Start, Ready]
  const RUN_HOOKS := [OnLoad, OnInit, OnConfigure, OnStart, OnReady]

  predicate Succeeds(r: Results) {
    r.load && r.init && r.configure && r.start
  }

  /** Whether a hook of Run returned without an error. */
  predicate ResultOf(r: Results, h: Hook) {
    match h
    case OnLoad => r.load
    case OnInit => r.init
    case OnConfigure => r.configure
    case OnStart => r.start
    case _ => r.ready
  }

  /** A stage of Run: a hook, and the state it leads to if it succeeds. */
  datatype Stage = Stage(hook: Hook, to: State)

  const STAGES := [Stage(OnLoad, Init), Stage(OnInit, Configure), Stage(OnConfigure, Start), Stage(OnStart, Ready)]

  /** The states Run enters in the stages left; a failed stage is the last. */
  function PathThrough(r: Results, stages: seq<Stage>): seq<State>
    decreases |stages|
  {
    if stages == [] then []
    else if ResultOf(r, stages[0].hook) then [stages[0].to] + PathThrough(r, stages[1..])
    else [Failed]
  }

  /** The hooks Run calls in the stages left; OnReady comes after the last one. */
  function CallsThrough(r: Results, stages: seq<Stage>): seq<Hook>
    decreases |stages|
  {
    if stages == [] then [OnReady]
    else [stages[0].hook] + if ResultOf(r, stages[0].hook) then CallsThrough(r, stages[1..]) else []
  }

  function RunPath(r: Results): seq<State> { PathThrough(r, STAGES) }

  function RunCalls(r: Results): seq<Hook> { CallsThrough(r, STAGES) }

  function Last(from: State, path: seq<State>): State {
    if path == [] then from else path[|path| - 1]
  }

  /** The transitions along a path; entering Failed is the one that carries an error. */
  function Transitions(from: State, path: seq<State>): seq<Transition>
    decreases |path|
  {
    if path == [] then []
    else [Transition(from, path[0], path[0] == Failed)] + Transitions(path[0], path[1..])
  }

  function Follow(m: Machine, path: seq<State>, hooks: seq<Hook>): Machine {
    Machine(Last(m.state, path), m.history + Transitions(m.state, path), m.called + hooks)
  }

  datatype Operation = RunOp(results: Results) | DrainOp(ok: bool) | StopOp(ok: bool)

  /** The states an operation enters. */
  function PathOf(op: Operation): seq<State> {
    match op
    case RunOp(r) => RunPath(r)
    case DrainOp(ok) => if ok then [Draining] else [Draining, Failed]
    case StopOp(ok) => [if ok then Stopped else Failed]
  }

  function Perform(m: Machine, op: Operation): Machine {
    match op
    case RunOp(r) => Follow(m, PathOf(op), RunCalls(r))
    case DrainOp(_) => Follow(m, PathOf(op), [OnDrain])
    case StopOp(_) => Follow(m, PathOf(op), [OnStop])
  }

  function PerformAll(m: Machine, ops: seq<Operation>): Machine {
    if ops == [] then m else Perform(PerformAll(m, ops[..|ops| - 1]), ops[|ops| - 1])
  }

  // ---------------------------------------------------------------- the code

  class Fsm {
    var state: State
    var history: seq<Transition>   // what the transition callback has seen
    var called: seq<Hook>          // history: the kernel hooks called

    function View(): Machine
      reads this
    {
      Machine(state, history, called)
    }

    constructor ()
      ensures View() == FRESH
    {
      state, history, called := Load, [], [];
    }

    method Set(to: State, failed: bool)
      requires failed <==> to == Failed
      modifies this
      ensures View() == Follow(old(View()), [to], [])
    {
      history := history + [Transition(state, to, failed)];
      state := to;
      assert Transitions(old(state), [to]) == [Transition(old(state), to, failed)] by {
        assert [to][1..] == [];
      }
    }

    /** One stage of Run: a hook, then the state it leads to. */
    method Attempt(hook: Hook, ok: bool, to: State)
      requires to != Failed
      modifies this
      ensures View() == Follow(old(View()), [if ok then to else Failed], [hook])
    {
      called := called + [hook];
      if !ok {
        Set(Failed, true);
      } else {
        Set(to, false);
      }
    }

    /** The first of the stages left: it brings the machine nearer to the goal of all of
        them, or to it if it fails. */
    method RunStage(r: Results, hook: Hook, to: State, ghost stages: seq<Stage>, ghost goal: Machine)
      returns (ok: bool)
      requires stages != [] && stages[0] == Stage(hook, to) && to != Failed
      requires goal == Through(View(), r, stages)
      modifies this
      ensures ok <==> ResultOf(r, hook)
      ensures goal == if ok then Through(View(), r, stages[1..]) else View()
    {
      StageLeads(View(), r, stages);
      ok := ResultOf(r, hook);
      Attempt(hook, ok, to);
    }

    /** The optional hook after the last stage; its result is ignored. */
    method Announce(r: Results, ghost goal: Machine)
      requires goal == Through(View(), r, [])
      modifies this
      ensures goal == View()
    {
      called := called + [OnReady];
    }

    method Run(r: Results) returns (ok: bool)
      modifies this
      ensures ok <==> Succeeds(r)
      ensures View() == Perform(old(View()), RunOp(r))
    {
      ghost var goal := Through(View(), r, STAGES);
      ok := RunStage(r, OnLoad, Init, STAGES, goal);
      if !ok {
        return false;
      }
      ok := RunStage(r, OnInit, Configure, STAGES[1..], goal);
      if !ok {
        return false;
      }
      assert STAGES[1..][1..] == [Stage(OnConfigure, Start), Stage(OnStart, Ready)];
      ok := FinishRun(r, [Stage(OnConfigure, Start), Stage(OnStart, Ready)], goal);
    }

    /** The second half of Run, once the kernel has been initialized. */
    method FinishRun(r: Results, ghost stages: seq<Stage>, ghost goal: Machine) returns (ok: bool)
      requires |stages| == 2 && stages[0] == Stage(OnConfigure, Start) && stages[1] == Stage(OnStart, Ready)
      requires goal == Through(View(), r, stages)
      modifies this
      ensures ok <==> r.configure && r.start
      ensures goal == View()
    {
      ok := RunStage(r, OnConfigure, Start, stages, goal);
      if !ok {
        return false;
      }
      ok := RunStage(r, OnStart, Ready, stages[1..], goal);
      if !ok {
        return false;
      }
      assert stages[1..][1..] == [];
      Announce(r, goal);
    }

    method Drain(hookOk: bool) returns (ok: bool)
      modifies this
      ensures ok == hookOk
      ensures View() == Perform(old(View()), DrainOp(hookOk))
    {
      Set(Draining, false);
      called := called + [OnDrain];
      if !hookOk {
        Set(Failed, true);
        FollowAgain(old(View()), [Draining], [OnDrain], [Failed], []);
        assert [Draining] + [Failed] == [Draining, Failed] && [OnDrain] + [] == [OnDrain];
        return false;
      }
      return true;
    }

    method Stop(hookOk: bool) returns (ok: bool)
      modifies this
      ensures ok == hookOk
      ensures View() == Perform(old(View()), StopOp(hookOk))
    {
      called := called + [OnStop];
      if !hookOk {
        Set(Failed, true);
        return false;
      }
      Set(Stopped, false);
      return true;
    }
  }

  lemma {:induction false} TransitionsAdd(from: State, path: seq<State>, more: seq<State>)
    ensures Transitions(from, path + more) == Transitions(from, path) + Transitions(Last(from, path), more)
    decreases |path|
  {
    if path == [] {
      assert path + more == more;
    } else {
      assert (path + more)[1..] == path[1..] + more;
      TransitionsAdd(path[0], path[1..], more);
    }
  }

  /** Following one path and then another is following the two as one. */
  lemma FollowAgain(m: Machine, path: seq<State>, hooks: seq<Hook>, more: seq<State>, rest: seq<Hook>)
    ensures Follow(Follow(m, path, hooks), more, rest) == Follow(m, path + more, hooks + rest)
  {
    TransitionsAdd(m.state, path, more);
  }

  /** The machine after the stages of Run that are left. */
  function Through(m: Machine, r: Results, stages: seq<Stage>): Machine {
    Follow(m, PathThrough(r, stages), CallsThrough(r, stages))
  }

  lemma StageLeads(m: Machine, r: Results, stages: seq<Stage>)
    requires stages != []
    ensures var ok := ResultOf(r, stages[0].hook);
            var m' := Follow(m, [if ok then stages[0].to else Failed], [stages[0].hook]);
            Through(m, r, stages) == if ok then Through(m', r, stages[1..]) else m'
  {
    if ResultOf(r, stages[0].hook) {
      FollowAgain(m, [stages[0].to], [stages[0].hook], PathThrough(r, stages[1..]), CallsThrough(r, stages[1..]));
    }
  }

  // -------------------------------------------------------------- properties

  /** The state after the first i transitions of a history. */
  function Entered(h: seq<Transition>, i: nat): State
    requires i <= |h|
  {
    if i == 0 then Load else h[i - 1].to
  }

  /** Each transition leaves the state the one before entered, from Load on. */
  ghost predicate Chained(m: Machine) {
    && (forall i | 0 <= i < |m.history| ::
          m.history[i].from == Entered(m.history, i))
    && m.state == Entered(m.history, |m.history|)
    && (forall i | 0 <= i < |m.history| :: m.history[i].failed <==> m.history[i].to == Failed)
  }

  lemma ChainGrows(m: Machine, to: State, m': Machine)
    requires Chained(m) && m'.state == to
    requires m'.history == m.history + [Transition(m.state, to, to == Failed)]
    ensures Chained(m')
  {
    var n := |m.history|;
    forall i | 0 <= i <= n
      ensures m'.history[i].from == Entered(m'.history, i) && (m'.history[i].failed <==> m'.history[i].to == Failed)
    {
      EnteredGrows(m.history, m'.history[n], i);
      if i < n {
        assert m'.history[i] == m.history[i];
      }
    }
  }

  lemma EnteredGrows(h: seq<Transition>, t: Transition, i: nat)
    requires i <= |h|
    ensures Entered(h + [t], i) == Entered(h, i)
  {
  }

  lemma {:induction false} FollowKeepsChain(m: Machine, path: seq<State>, hooks: seq<Hook>)
    requires Chained(m)
    ensures Chained(Follow(m, path, hooks))
    decreases |path|
  {
    if path == [] {
      assert Follow(m, path, hooks).history == m.history;
    } else {
      var m1 := Follow(m, path[..1], []);
      assert Transitions(m.state, path[..1]) == [Transition(m.state, path[0], path[0] == Failed)] by {
        assert path[..1][1..] == [];
      }
      ChainGrows(m, path[0], m1);
      FollowKeepsChain(m1, path[1..], hooks);
      FollowAgain(m, path[..1], [], path[1..], hooks);
      assert path[..1] + path[1..] == path && [] + hooks == hooks;
    }
  }

  /** Whatever sequence of Run, Drain and Stop is called and however the hooks end. */
  lemma {:induction false} HistoryChains(ops: seq<Operation>)
    ensures Chained(PerformAll(FRESH, ops))
    decreases |ops|
  {
    if ops == [] {
    } else {
      var n := |ops| - 1;
      HistoryChains(ops[..n]);
      var m := PerformAll(FRESH, ops[..n]);
      match ops[n] {
        case RunOp(r) => FollowKeepsChain(m, PathOf(ops[n]), RunCalls(r));
        case DrainOp(_) => FollowKeepsChain(m, PathOf(ops[n]), [OnDrain]);
        case StopOp(_) => FollowKeepsChain(m, PathOf(ops[n]), [OnStop]);
      }
    }
  }

  function Targets(h: seq<Transition>): seq<State> {
    seq(|h|, i requires 0 <= i < |h| => h[i].to)
  }

  lemma {:induction false} TargetsOfTransitions(from: State, path: seq<State>)
    ensures Targets(Transitions(from, path)) == path
    decreases |path|
  {
    if path == [] {
    } else {
      TargetsOfTransitions(path[0], path[1..]);
    }
  }

  ghost predicate AllOk(r: Results, stages: seq<Stage>) {
    forall j | 0 <= j < |stages| :: ResultOf(r, stages[j].hook)
  }

  function StatesOf(stages: seq<Stage>): seq<State> {
    seq(|stages|, i requires 0 <= i < |stages| => stages[i].to)
  }

  function HooksOf(stages: seq<Stage>): seq<Hook> {
    seq(|stages|, i requires 0 <= i < |stages| => stages[i].hook)
  }

  /** The path through some stages is all their states, or ends in Failed. */
  lemma {:induction false} PathOutcome(r: Results, stages: seq<Stage>)
    ensures if AllOk(r, stages) then PathThrough(r, stages) == StatesOf(stages)
            else PathThrough(r, stages) != [] && Last(Load, PathThrough(r, stages)) == Failed
    decreases |stages|
  {
    if stages == [] {
    } else if ResultOf(r, stages[0].hook) {
      PathOutcome(r, stages[1..]);
      assert StatesOf(stages) == [stages[0].to] + StatesOf(stages[1..]);
      assert AllOk(r, stages) <==> AllOk(r, stages[1..]);
    }
  }

  /** The hooks called in some stages are theirs, up to the first that fails. */
  lemma {:induction false} CallsOutcome(r: Results, stages: seq<Stage>)
    ensures var calls, all := CallsThrough(r, stages), HooksOf(stages) + [OnReady];
            && 0 < |calls| <= |all| && calls == all[..|calls|]
            && (calls == all <==> AllOk(r, stages))
            && (|calls| < |all| ==> !ResultOf(r, calls[|calls| - 1]))
            && (forall j | 0 <= j < |calls| - 1 :: ResultOf(r, calls[j]))
    decreases |stages|
  {
    if stages == [] {
    } else if ResultOf(r, stages[0].hook) {
      CallsOutcome(r, stages[1..]);
      assert HooksOf(stages) == [stages[0].hook] + HooksOf(stages[1..]);
      assert AllOk(r, stages) <==> AllOk(r, stages[1..]);
      assert CallsThrough(r, stages)[1..] == CallsThrough(r, stages[1..]);
    }
  }

  lemma SucceedsIsAllOk(r: Results)
    ensures Succeeds(r) <==> AllOk(r, STAGES)
    ensures StatesOf(STAGES) == RUN_STATES && HooksOf(STAGES) + [OnReady] == RUN_HOOKS
  {
    assert AllOk(r, STAGES) <==> ResultOf(r, STAGES[0].hook) && ResultOf(r, STAGES[1].hook)
                                 && ResultOf(r, STAGES[2].hook) && ResultOf(r, STAGES[3].hook);
  }

  /** Run succeeds exactly when the kernel went through init, configure, start and
      ready. */
  lemma RunSucceedsIff(r: Results)
    ensures var m := Perform(FRESH, RunOp(r));
            && (Succeeds(r) <==> Targets(m.history) == [Init, Configure, Start, Ready])
            && (Succeeds(r) <==> r.load && r.init && r.configure && r.start)
            && (Succeeds(r) <==> m.state == Ready)
            && (!Succeeds(r) <==> m.state == Failed)
  {
    SucceedsIsAllOk(r);
    PathOutcome(r, STAGES);
    TargetsOfTransitions(Load, RunPath(r));
    assert Perform(FRESH, RunOp(r)).history == Transitions(Load, RunPath(r));
  }

  /** The hooks called are an initial part of the five, all of them if Run succeeds;
      the last one called failed unless all five were. */
  lemma RunStopsAtFirstFailure(r: Results)
    ensures var called := Perform(FRESH, RunOp(r)).called;
            && RUN_HOOKS == [OnLoad, OnInit, OnConfigure, OnStart, OnReady]
            && 0 < |called| <= |RUN_HOOKS| && called == RUN_HOOKS[..|called|]
            && (called == RUN_HOOKS <==> Succeeds(r))
            && (|called| < |RUN_HOOKS| ==> !ResultOf(r, called[|called| - 1]))
  {
    SucceedsIsAllOk(r);
    CallsOutcome(r, STAGES);
    assert Perform(FRESH, RunOp(r)).called == RunCalls(r);
  }

  /** Each hook is called only after all before it succeeded. */
  lemma HooksRunInOrder(r: Results, i: nat)
    requires i < |Perform(FRESH, RunOp(r)).called| - 1
    ensures ResultOf(r, Perform(FRESH, RunOp(r)).called[i])
  {
    SucceedsIsAllOk(r);
    CallsOutcome(r, STAGES);
    assert Perform(FRESH, RunOp(r)).called == RunCalls(r);
  }

  /** The manager ignores a failed drain: after Run, Drain and Stop the kernel is
      stopped exactly when OnStop succeeded, and both hooks were called in order. */
  lemma ShutdownEndsStoppedIff(r: Results, drainOk: bool, stopOk: bool)
    ensures var m := Perform(Perform(Perform(FRESH, RunOp(r)), DrainOp(drainOk)), StopOp(stopOk));
            && (m.state == Stopped <==> stopOk)
            && m.called == RunCalls(r) + [OnDrain, OnStop]
            && Targets(m.history) == RunPath(r) + (if drainOk then [Draining] else [Draining, Failed])
                                     + [if stopOk then Stopped else Failed]
  {
    var m1 := Perform(FRESH, RunOp(r));
    var m2 := Perform(m1, DrainOp(drainOk));
    PerformTargets(FRESH, RunOp(r));
    PerformTargets(m1, DrainOp(drainOk));
    PerformTargets(m2, StopOp(stopOk));
  }

  lemma PerformTargets(m: Machine, op: Operation)
    ensures Targets(Perform(m, op).history) == Targets(m.history) + PathOf(op)
  {
    TargetsOfTransitions(m.state, PathOf(op));
    TargetsAdd(m.history, Transitions(m.state, PathOf(op)));
  }

  lemma TargetsAdd(g: seq<Transition>, h: seq<Transition>)
    ensures Targets(g + h) == Targets(g) + Targets(h)
  {
  }
}
