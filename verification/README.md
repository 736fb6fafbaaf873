# Verified model of the micro-kernel platform's stateful core

The platform runs kernels under a root kernel.  Its concurrent, stateful pieces are
modelled here in Dafny, one module a component, and what each promises over whole runs
is proved for every run.

| Module | What it models |
|---|---|
| `Backoff` | restart delays: exponential backoff with jitter, in its two implementations |
| `Supervisor` | `Start`, `Stop`, `StopAll`, `Wait` and any number of worker restart loops interleaving |
| `SafeLogHub` | the rate-limited log hub: racing publishers, a bounded queue, one forwarding loop, ticks, `Close` |
| `Lifecycle` | the kernel lifecycle machine over an arbitrary outcome of every hook |
| `Registry` | the discovery registry and its health aggregation |
| `Degradation` | the policy that hides and restores exports while other goroutines change the registry |
| `DomainManager` | the reconciler of listed domains with running kernels, and the root kernel's start-up |
| `RootKernel` | the root kernel's life over its domains: start-up, then a reload for each signal |
| `EventBus` | the in-process bus: subscriptions, lossy sends, cancellation |
| `Forwarder` | fan-in, sender and reconnect loop of the log forwarder |
| `LogGateway` | the root's receive/acknowledge loop and the topic fan-out behind it |
| `LogLoop` | a forwarder on the bus of its own gateway, as one state machine |
| `LogEcho` | runs of that machine in which copies double as often as one likes |

## How to read it

Concurrent components are state machines.  A step is one critical section, atomic
operation or channel operation; a run is any sequence of enabled steps, so a statement
about runs covers every interleaving.  A `select` with several ready cases is a free
choice, iteration over a Go map is a choice of any element left, hook results, stream
and dial outcomes are arbitrary, time is an opaque number and jitter any real.

Next to each state machine stands a class with the component's fields.  Every method of
it does one step, or one sequential run of several, and its contract equates the new
state with the machine's; what the component promises is then proved about the machine.
Histories (what was accepted, received, called) are extra fields no decision reads.

Cross references between modules: the supervisor's delays are those of `Backoff`, the
domain manager's kernels are `Lifecycle` machines entered into a `Registry`, the
degradation policy acts on the same `Registry`, and the gateway publishes on the
`EventBus` the records the `Forwarder` lets through.

## What the proofs bring to light

- `Stop(name)` cancels the context the worker's function sees and nothing else: the
  loop runs on as if `Stop` had not been called.  A stopped worker ends exactly when its
  policy and its function's outcome say so; a permanent one always starts again.
- The int64 conversion in the backoff is in range, with the default minimum and factor,
  exactly up to attempt 37.  Beyond it, without jitter, a delay can be negative and later
  attempts can wait less; with jitter the final clamp keeps the bounds whatever the
  conversion gave.  The default policy is sure to wait its maximum from attempt 10 to 37.
- `AggregateHealth` reports the earliest time exactly when no record with a status has a
  zero time.  Otherwise the loop takes the next record's time after a zero one, and the
  result depends on the order in which the map is visited.
- Copying exports turns an empty slice into a nil one: the copy is the same value exactly
  when no slice is empty without being nil.
- Exports registered anew can be lost to older ones in two ways.  A copy saved by the
  degradation policy outlives `Unregister` and `Register`, and the next tick that finds
  the kernel ready restores it, whatever status was registered.  And a tick whose list
  was taken before the registration, with the kernel bad and other exports, saves those
  and hides the new ones.  Without the one and the other they are never lost.
- A domain is registered under its own id unless the id is empty and its kernel's
  manifest names another.  Its record then strays to that id, and if the domain of that
  id is stopped or relaunched by the same reload, the visiting order decides which of the
  two records, or none, is left.  A stray stays registered when its kernel is stopped,
  until the domain of that id is stopped or registered anew.  Any other running domain is
  always registered.  The one factory in the repository, `site`, repeats the domain's id
  in the manifest, so a stray takes another factory.
- Start-up has no guard against a second kernel for an id, and domains whose mode is not
  in-process are started without a handle: every started kernel is in the manager's
  hands exactly if no two entries of a domain start and the one that does is in-process.
- The bus sends after it has released its lock.  A cancel between the copy of the
  subscribers and the send makes that send panic, and nothing else does.
- The forwarder's wait after a send error is always the first delay, because the counter
  is reset by the dial before it; failed dials that follow count one more.
- The log hub publishes a record of scope `root` to the root topic twice.
- The forwarder's loop guard covers scope `root` and kernel `rk` only.  On the bus of its
  own gateway any other record comes back, and one of scope `domain` or `function`
  doubles with each round; only losses at full queues or broken streams end that.

## Model

| member | source | states |
|---|---|---|
| `Backoff.WithDefaults` | platform/runtime/supervisor_gen.go:44-62 | whatever the policy, the filled-in one has positive bounds, a positive factor and a jitter in [0, 1] |
| `Backoff.Pow` | platform/runtime/supervisor_gen.go:87-93 | the loop computes the power; exponents below one give one |
| `Backoff.DurationByPower` | platform/runtime/supervisor_gen.go:64-85 | the supervisor's delay is the common delay function, for every attempt, jitter draw and out-of-range conversion result |
| `Backoff.Multiply` | platform/runtime/process_runner_gen.go:92-98 | multiplying step by step gives the same exponential as the power |
| `Backoff.DurationByProduct` | platform/runtime/process_runner_gen.go:92-118 | the process runner's delay is the same function, its jitter draw read off the clock: the two implementations agree for every attempt |
| `Backoff.ClockFraction` | platform/runtime/process_runner_gen.go:106-107 | the clock-derived draw lies in [-1, 1) |
| `Backoff.ExponentialAtLeastMin` | platform/runtime/supervisor_gen.go:64-70 | the exponential, rounded, is at least the minimum exactly for a first attempt or a factor of at least one |
| `Backoff.DelayWithinBoundsIff` | platform/runtime/supervisor_gen.go:64-85 | a delay is sure to lie in [Min, Max], whatever an out-of-range conversion yields, exactly when Min ≤ Max and there is jitter, or the exponential fits an int64 and the attempt is the first or the factor at least one |
| `Backoff.DelayMonotoneIff` | platform/runtime/supervisor_gen.go:64-85 | without jitter and with factor ≥ 1, a later attempt never waits less, whatever an out-of-range conversion yields, exactly if the later exponential fits an int64 |
| `Backoff.WaitsMaxIff` | platform/runtime/supervisor_gen.go:64-85 | without jitter a delay is sure to be Max exactly if the exponential fits an int64 and has reached Max, for every policy and attempt |
| `Backoff.DelaySaturatesIff` | platform/runtime/supervisor_gen.go:64-85 | with factor > 1 and no jitter there are a first attempt that reaches Max and a first one past the int64 range, and the delay is sure to be Max from the one up to the other, and only there |
| `Backoff.FirstReaching` | platform/runtime/supervisor_gen.go:64-70 | for every bound there is a first attempt whose exponential reaches it, found by search |
| `Backoff.SaturationOfThePolicies` | kernels/infra/log-forwarder/forwarder_gen.go:51 | the default policy is sure to wait its 30 seconds from attempt 10 to 37, and the forwarder's exponential has reached its 10 seconds and fits from 7 to 36 |
| `Backoff.DefaultFitsIff` | platform/runtime/supervisor_gen.go:64-70 | with default minimum and factor the int64 conversion is in range exactly up to attempt 37 |
| `Backoff.DefaultWithoutJitterCanGoNegative` | platform/runtime/supervisor_gen.go:64-85 | concrete failure of the bounds: attempt 38 of the default policy, with no jitter |
| `Backoff.WithDefaultsIs` | platform/runtime/supervisor_gen.go:44-62 | each setting that makes sense is kept, each other one becomes 100 ms, 30 s, factor 2, or the nearest jitter in [0, 1] |
| `Backoff.ExponentialSteps` | platform/runtime/supervisor_gen.go:64-70 | the delay starts at Min and is multiplied by the factor from one attempt to the next |
| `Backoff.DelayIs` | platform/runtime/supervisor_gen.go:64-85 | in range, the delay is the exponential rounded toward zero and capped at Max, moved by its share of draw and jitter, and kept within Min and Max |
| `Backoff.TruncateTowardZero` | platform/runtime/supervisor_gen.go:68 | the conversion rounds toward zero |
| `Backoff.SumWraps` | platform/runtime/supervisor_gen.go:75-76 | the sum with the jitter is exact where it fits an int64 and else agrees with it modulo 2^64 |
| `SafeLogHub.OptionsKeepLimits` | platform/telemetry/loghub_safe_gen.go:15-39 | no list of options makes the queue unbuffered or switches the limiter off |
| `SafeLogHub.RunKeepsInv` | platform/telemetry/loghub_safe_gen.go:91-136 | every interleaving keeps conservation (each publish is forwarded, dropped by rate, dropped by queue, queued, being forwarded or in flight, and in one of these only), the queue bound, output in acceptance order and the rate bound |
| `SafeLogHub.EveryRunKeepsInv` | platform/telemetry/loghub_safe_gen.go:70-136 | the same from a new hub under any options |
| `SafeLogHub.AcceptedWithinRate` | platform/telemetry/loghub_safe_gen.go:97-131 | records accepted, and so forwarded, are at most rateMax for each window, counting publishers admitted in one window that enqueue in a later one |
| `SafeLogHub.CountersMatchHistory` | platform/telemetry/loghub_safe_gen.go:117-136 | total, the two drop counters and the window counter count the publishes begun, refused by rate, refused by queue, and those who asked the limiter since the last tick |
| `SafeLogHub.AdmittedIffWindowOpen` | platform/telemetry/loghub_safe_gen.go:120-126 | a publisher passes the limiter exactly when fewer than rateMax asked since the last tick |
| `SafeLogHub.OutputIs` | platform/telemetry/loghub_safe_gen.go:106-114 | in every run, with the loop at its select, the publisher calls are those of the records forwarded in the order accepted: each record once to every configured topic in order, then to its scope's topic exactly if that is on and the scope not empty, and nothing more |
| `SafeLogHub.LastOptionWins` | platform/telemetry/loghub_safe_gen.go:15-39 | each option takes effect, the later one wins, others are left alone; the defaults are telemetry.logs, 1024 and 1000 |
| `SafeLogHub.LeavesOnlyAfterStop` | platform/telemetry/loghub_safe_gen.go:91-96 | the loop returns only after stop was closed |
| `SafeLogHub.AfterClose` | platform/telemetry/loghub_safe_gen.go:160-164 | once the loop has returned the output never grows, and later acceptances fit both the free queue space and the unused rate budget |
| `SafeLogHub.LogHub.constructor` | platform/telemetry/loghub_safe_gen.go:70-89 | a new hub is the initial state of its options |
| `SafeLogHub.LogHub.AddTotal` | platform/telemetry/loghub_safe_gen.go:118 | the first atomic step of a publisher |
| `SafeLogHub.LogHub.AskLimiter` | platform/telemetry/loghub_safe_gen.go:121-122 | the limiter step; passes exactly when the counter was below rateMax |
| `SafeLogHub.LogHub.AddDroppedRate` | platform/telemetry/loghub_safe_gen.go:123-124 | the refused publisher is counted and gone |
| `SafeLogHub.LogHub.TrySend` | platform/telemetry/loghub_safe_gen.go:129-132 | the non-blocking send; succeeds exactly when the queue has room |
| `SafeLogHub.LogHub.AddDroppedQueue` | platform/telemetry/loghub_safe_gen.go:133-134 | the refused publisher is counted and gone |
| `SafeLogHub.LogHub.Publish` | platform/telemetry/loghub_safe_gen.go:117-136 | run alone, returns true exactly when window and queue have room, and exactly one of the counters or the queue takes the record |
| `SafeLogHub.LogHub.ResetWindow` | platform/telemetry/loghub_safe_gen.go:97-99 | the tick step |
| `SafeLogHub.LogHub.Receive` | platform/telemetry/loghub_safe_gen.go:100 | the loop takes the oldest record |
| `SafeLogHub.LogHub.CallPublisher` | platform/telemetry/loghub_safe_gen.go:107-108 | one publisher call of the record's expansion |
| `SafeLogHub.LogHub.Forward` | platform/telemetry/loghub_safe_gen.go:106-114 | appends the call (topic, record) for each configured topic, in order, then the scope's topic exactly if that is on and the scope not empty, and nothing more |
| `SafeLogHub.LogHub.CloseStop` | platform/telemetry/loghub_safe_gen.go:161 | the stop step |
| `SafeLogHub.LogHub.LeaveLoop` | platform/telemetry/loghub_safe_gen.go:95-96 | the loop returns, only after stop |
| `Supervisor.ActKeepsGrammar` | platform/runtime/supervisor_gen.go:221-277 | every step of a worker keeps its trace in the grammar: numbered rounds of start, optional panic, exit, restart, each restart allowed by policy and outcome, then a legal beginning or ending |
| `Supervisor.GrammarCounts` | platform/runtime/supervisor_gen.go:233-265 | in the grammar attempts equals the exits, a worker that may never restart starts at most once, and a permanent one never ends by policy |
| `Supervisor.RunKeepsInv` | platform/runtime/supervisor_gen.go:175-277 | in every interleaving the WaitGroup equals the number of live loops, a worker in its loop owns its name's entry, every live or finished worker's trace is in the grammar, and only cancellation cuts one short |
| `Supervisor.EveryTraceInGrammar` | platform/runtime/supervisor_gen.go:221-277 | from a new supervisor: grammar and counts for every worker of every run; a permanent worker has left only if the supervisor was cancelled |
| `Supervisor.WorkerIsAsStarted` | platform/runtime/supervisor_gen.go:175-192 | in every run the worker that a Start registered has the name, policy and backoff it was started with ever after, live or gone |
| `Supervisor.PolicyIsObeyed` | platform/runtime/supervisor_gen.go:248-265 | a worker started permanent leaves only if the supervisor is cancelled; one started transient restarts only after errors and panics and its policy ends it only on success; any other never restarts and starts at most once |
| `Supervisor.OneRound` | platform/runtime/supervisor_gen.go:225-276 | the events, the attempt and the decision of one round, for each policy and outcome |
| `Supervisor.CancelledIff` | platform/runtime/supervisor_gen.go:206-207 | the supervisor is cancelled exactly once StopAll has begun |
| `Supervisor.NamesAreExclusive` | platform/runtime/supervisor_gen.go:181-187 | two workers in their loops, so two running functions, never share a name |
| `Supervisor.RemovesOwnEntry` | platform/runtime/supervisor_gen.go:259-264 | a worker that gives up a name removes its own entry and no other |
| `Supervisor.WaitIsFinal` | platform/runtime/supervisor_gen.go:219 | the WaitGroup at zero means no live loop, and without a later registration none appears |
| `Supervisor.ShutdownIsBounded` | platform/runtime/supervisor_gen.go:206-277 | after StopAll a decreasing measure bounds the steps a worker can still take, and it is gone once it has taken them all; it enters its function at most once more and only if past its check, one registered later never |
| `Supervisor.LiveWorkerCanStep` | platform/runtime/supervisor_gen.go:225-276 | a live worker always has a next step once its function returns, so the bound above ends it |
| `Supervisor.StopMarksItsWorker` | platform/runtime/supervisor_gen.go:195-216 | Stop marks the worker in its loop that has the name and no other; StopAll marks all of them |
| `Supervisor.StopDoesNotSteerTheLoop` | platform/runtime/supervisor_gen.go:195-203 | any run with its Stop calls erased is a run with the same workers, traces and map |
| `Supervisor.StoppedWorkerEndsIff` | platform/runtime/supervisor_gen.go:248-265 | a stopped worker whose function returns leaves exactly if its policy and the outcome do not restart it |
| `Supervisor.StoppedPermanentStartsAgain` | platform/runtime/supervisor_gen.go:248-276 | a stopped permanent worker enters its function again, however that ended |
| `Supervisor.Supervisor.constructor` | platform/runtime/supervisor_gen.go:152-164 | a new supervisor is the initial state |
| `Supervisor.Supervisor.Start` | platform/runtime/supervisor_gen.go:175-192 | refuses an invalid spec, then a name in the map, and changes nothing; otherwise registers one worker |
| `Supervisor.Supervisor.Stop` | platform/runtime/supervisor_gen.go:195-203 | marks the worker of the name if there is one |
| `Supervisor.Supervisor.StopAll` | platform/runtime/supervisor_gen.go:206-216 | cancels, then marks every worker in the map, in any visiting order |
| `Supervisor.Supervisor.CheckContext` | platform/runtime/supervisor_gen.go:226-231 | proceeds exactly when the supervisor is not cancelled, otherwise emits stop |
| `Supervisor.Supervisor.EnterFunction` | platform/runtime/supervisor_gen.go:233-235 | the start event carries the next attempt number |
| `Supervisor.Supervisor.LeaveFunction` | platform/runtime/supervisor_gen.go:235-246 | panic and exit events, in that order, and the attempt counted |
| `Supervisor.Supervisor.DecideRestart` | platform/runtime/supervisor_gen.go:248-269 | the restart decision; the delay announced is the backoff's for this attempt |
| `Supervisor.Supervisor.Sleep` | platform/runtime/supervisor_gen.go:270-275 | the timer leads back to the check, the context out of the loop |
| `Supervisor.Supervisor.WorkerDone` | platform/runtime/supervisor_gen.go:222 | the WaitGroup is released as the loop is left |
| `Lifecycle.HistoryChains` | platform/runtime/fsm_gen.go:71-135 | after any sequence of Run, Drain and Stop with any hook results, each transition leaves the state the one before entered, starting at load, and exactly those into failed carry an error |
| `Lifecycle.RunSucceedsIff` | platform/runtime/fsm_gen.go:84-115 | Run succeeds exactly when the history is init, configure, start, ready; otherwise it ends in failed |
| `Lifecycle.RunStopsAtFirstFailure` | platform/runtime/fsm_gen.go:84-115 | the hooks called are an initial part of the five, and the last one failed unless all were |
| `Lifecycle.HooksRunInOrder` | platform/runtime/fsm_gen.go:84-115 | each hook is called only after all before it succeeded |
| `Lifecycle.ShutdownEndsStoppedIff` | cmd/rk/domain_manager_gen.go:71-79 | Run, Drain and Stop end in stopped exactly if OnStop succeeded, even after a failed drain, and both hooks are called |
| `Lifecycle.Fsm.constructor` | platform/runtime/fsm_gen.go:57-63 | a new machine is in load with no history |
| `Lifecycle.Fsm.Set` | platform/runtime/fsm_gen.go:71-80 | one transition from the current state is reported |
| `Lifecycle.Fsm.Attempt` | platform/runtime/fsm_gen.go:85-89 | a hook and the state its result leads to |
| `Lifecycle.Fsm.RunStage` | platform/runtime/fsm_gen.go:85-89 | what is left of Run is this stage and what is left after it; a failed stage is the last |
| `Lifecycle.Fsm.Run` | platform/runtime/fsm_gen.go:84-115 | the path and hooks of the results given; OnReady's result is ignored |
| `Lifecycle.Fsm.Drain` | platform/runtime/fsm_gen.go:118-125 | draining first, then the hook, failed if it fails |
| `Lifecycle.Fsm.Stop` | platform/runtime/fsm_gen.go:128-135 | stopped or failed as the hook says |
| `Registry.WorstIsUnique` | cmd/rk/discovery_registry_gen.go:137-194 | the aggregated status is determined by the records, whatever order the map is visited in |
| `Registry.EarliestIsUnique` | cmd/rk/discovery_registry_gen.go:137-194 | so is the aggregated time |
| `Registry.Absorb` | cmd/rk/discovery_registry_gen.go:153-183 | the nested switch takes the greater severity under ready < stopped < draining < degraded < failed, and sets a reason only once |
| `Registry.DiscoveryRegistry.RegisterKernel` | cmd/rk/discovery_registry_gen.go:36-54 | exports and a known health survive a new manifest |
| `Registry.DiscoveryRegistry.Register` | cmd/rk/discovery_registry_gen.go:56-75 | the completed record is stored under its id |
| `Registry.DiscoveryRegistry.Unregister` | cmd/rk/discovery_registry_gen.go:77-81 | removes that id and no other |
| `Registry.DiscoveryRegistry.UpdateHealth` | cmd/rk/discovery_registry_gen.go:83-103 | replaces the health, creating the record if there is none |
| `Registry.DiscoveryRegistry.SetExports` | cmd/rk/discovery_registry_exports_gen.go:5-11 | replaces the exports of a known kernel, otherwise nothing |
| `Registry.DiscoveryRegistry.List` | cmd/rk/discovery_registry_gen.go:126-135 | every kernel is listed exactly once, with its health and exports, sorted by id |
| `Registry.SortById` | cmd/rk/discovery_registry_gen.go:133 | the same records, in the order of their ids |
| `Registry.SortedListIsUnique` | cmd/rk/discovery_registry_gen.go:126-135 | there is only one sorted listing, so the map's order is not seen |
| `Registry.DiscoveryRegistry.AggregateHealth` | cmd/rk/discovery_registry_gen.go:137-194 | for any visiting order: the worst status present; the earliest time exactly if no counted record lacks one, and otherwise that of the order visited; a reason exactly if the status is not ready, and then that of a kernel that is not ready |
| `Registry.UndatedTimeDependsOnOrder` | cmd/rk/discovery_registry_gen.go:150-152 | with an undated and a dated record there are orders that differ in the last two visits and give the dated time and now |
| `Registry.AggregateStatusIs` | cmd/rk/discovery_registry_gen.go:153-183 | failed if any kernel has failed, else degraded if any is, else draining, else stopped, else ready |
| `Registry.AggregateTimeIs` | cmd/rk/discovery_registry_gen.go:147-152 | the earliest time is now or that of a kernel with a status, and none of them is earlier |
| `Registry.AggregateReasonIs` | cmd/rk/discovery_registry_gen.go:154-176 | the reason names the status and the kernel of a record that has it |
| `Registry.ListingShows` | cmd/rk/discovery_registry_gen.go:126-135 | a listing shows each kernel with its own health and exports |
| `Registry.ManifestRegistrationIs` | cmd/rk/discovery_registry_gen.go:36-54 | a known kernel keeps exports, health and first registration; a new one is ready as of now |
| `Registry.RegistrationIs` | cmd/rk/discovery_registry_gen.go:56-75 | what the caller gives is kept; ids, scope and dates fill in where missing |
| `Registry.HealthUpdateIs` | cmd/rk/discovery_registry_gen.go:83-103 | status, reason and time are those given, a missing time is now; a known kernel keeps the rest, an unknown one has no exports |
| `Registry.LessIsLexicographic` | cmd/rk/discovery_registry_gen.go:133 | ids are ordered by their first difference, or by length |
| `Registry.Merge` | cmd/rk/discovery_registry_gen.go:145-183 | what one record changes in time, status and reason |
| `Registry.DiscoveryRegistry.Survey` | cmd/rk/discovery_registry_gen.go:145-183 | after the loop status, time and reason are those of all records, in the order visited |
| `Degradation.CopyKeepsContents` | cmd/rk/degradation_policy_gen.go:21-42 | a copy has the same elements and copying twice is copying once; it is the same value exactly if no slice is empty and not nil |
| `Degradation.ExportsAreNeverLost` | cmd/rk/degradation_policy_gen.go:55-78 | with health updates, manifest registrations and anything on other kernels interleaved inside a tick, the registry shows the original exports, or the snapshot holds them and the registry none |
| `Degradation.TickRefinesTheView` | cmd/rk/degradation_policy_gen.go:56-78 | a complete tick, whatever interleaves, leaves exports visible exactly as the status at its List moment asks: ready shows, a known bad status hides, another leaves as was |
| `Degradation.TickDoes` | cmd/rk/degradation_policy_gen.go:56-78 | status by status: after a complete tick, whatever interleaves, the original exports show if the listed status was ready; they are hidden and saved if it was degraded, failed, draining or stopped; they show as before if it was unset or any other |
| `Degradation.LoneTickDoes` | cmd/rk/degradation_policy_gen.go:56-78 | status by status, what a tick run alone makes of the exports shown and saved of each kernel |
| `Degradation.ScanIsPointwise` | cmd/rk/degradation_policy_gen.go:57-77 | a tick treats each kernel by itself, whatever the list's order, and changes nothing but exports |
| `Degradation.TickSettles` | cmd/rk/degradation_policy_gen.go:56-78 | after a tick ready kernels have no saved copy and bad ones show nothing: earlier health flips do not matter |
| `Degradation.SettledTickIsNoop` | cmd/rk/degradation_policy_gen.go:56-78 | a second tick without changes in between does nothing |
| `Degradation.EveryRunIsOrderly` | cmd/rk/degradation_policy_gen.go:55-78 | what every run keeps: no list has a kernel twice, a branch under way has saved what it is to hide, only copies are saved |
| `Degradation.RegisteredExportsAreKeptIff` | cmd/rk/discovery_registry_gen.go:56-75 | exports registered at any moment, inside a tick or between two, are kept in every continuation exactly if no other copy is saved (unless about to be dropped) and, when none is saved, the list under way has no bad entry with other exports |
| `Degradation.StaleEntryLoses` | cmd/rk/degradation_policy_gen.go:67-76 | a bad entry with other exports in the list under way loses the new ones: a continuation to that state |
| `Degradation.OtherCopyLoses` | cmd/rk/degradation_policy_gen.go:59-76 | another saved copy loses the new exports, whatever the status registered: a continuation to that state |
| `Degradation.ReregisteredExportsSurviveIff` | cmd/rk/degradation_policy_gen.go:59-76 | a registration between ticks, of any status: after the next tick run alone the exports are held exactly if no other copy was saved or the status is unknown; for a ready kernel they are the ones shown exactly if no copy was saved or it is the same |
| `Degradation.DegradationPolicy.constructor` | cmd/rk/degradation_policy_gen.go:17-19 | the snapshot starts empty |
| `Degradation.DegradationPolicy.RunTick` | cmd/rk/degradation_policy_gen.go:56-78 | a tick run alone is the scan of the listing it took; for each kernel: ready shows what was saved, degraded, failed, draining and stopped hide and save what was shown, any other status changes nothing |
| `Degradation.DegradationPolicy.VisitRecord` | cmd/rk/degradation_policy_gen.go:58-77 | one record's branch, both effects |
| `Degradation.DegradationPolicy.FirstEffect` | cmd/rk/degradation_policy_gen.go:58-73 | the first effect, after which others may interleave: the copy restored, or the exports listed saved |
| `Degradation.DegradationPolicy.SecondEffect` | cmd/rk/degradation_policy_gen.go:64-74 | the second effect: the copy dropped, or the exports hidden |
| `DomainManager.WantedIsLastListed` | cmd/rk/domain_manager_gen.go:83-86 | of several specs with one id the last listed counts |
| `DomainManager.ReloadsNeverLeakIff` | cmd/rk/domain_manager_gen.go:33-116 | from start-up through any reloads with any hook results: each started kernel is live or has been drained and stopped, the hooks of the machines are those called, and once a kernel is ready no hook of another that starts is called before it is stopped; exactly if start-up gave the manager every kernel it started |
| `DomainManager.StartedKernelsAreAccountedFor` | cmd/rk/domain_manager_gen.go:33-116 | OnDrain and OnStop are each called once for a started kernel that is not live, and never for one that is live or failed to start; a kernel ends in stopped exactly if it was shut down and OnStop succeeded |
| `DomainManager.ReloadConverges` | cmd/rk/domain_manager_gen.go:94-114 | stopping, launching and keeping add up to: a domain runs afterwards exactly if it is listed and ran unchanged or was launched with success, and then with the listed spec |
| `DomainManager.KernelSurvivesIff` | cmd/rk/domain_manager_gen.go:88-115 | a kernel that runs when a reload comes is the live one after it exactly if its domain is listed with the same mode, kind, config and feature flags, and then nothing is called; otherwise OnDrain and then OnStop have been called for it |
| `DomainManager.NewKernelRunsIff` | cmd/rk/domain_manager_gen.go:94-115 | a listed domain without a surviving kernel runs a new one with the listed spec exactly if the kind is known and the first four hooks succeed, and none otherwise |
| `DomainManager.NewKernelIsRegistered` | cmd/rk/domain_manager_gen.go:54-68 | a new kernel is registered under its domain, with its own health and manifest and the address of the listed config, unless a record strays |
| `DomainManager.LaunchDoes` | cmd/rk/domain_manager_gen.go:33-69 | a launch adds one kernel if the kind is known, run by Run, and it is the running one exactly if its first four hooks succeed |
| `DomainManager.RecordIs` | cmd/rk/domain_manager_gen.go:54-65 | the record registered: id, scope, health, dates and the one endpoint, its address the text under http_addr or :8081 |
| `DomainManager.EntryStarts` | cmd/rk/root_kernel_gen.go:53-80 | one entry of start-up: registered exactly if kind and hooks allow, managed if its mode is inproc besides |
| `DomainManager.UnchangedDomainIsLeftAlone` | cmd/rk/domain_manager_gen.go:94-114 | an unchanged or absent domain gets no hook call |
| `DomainManager.RepeatedReloadIsNoop` | cmd/rk/domain_manager_gen.go:82-116 | two reloads in a row of one list: if the first left no listed domain down, the second calls no hook and leaves runs and registry as they were, whatever the hooks would do |
| `DomainManager.UndisturbedIff` | cmd/rk/domain_manager_gen.go:62-65 | only a launched domain with an empty id whose manifest names a kernel disturbs the registry, and then only under that kernel's id and the empty one |
| `DomainManager.OrderMattersIff` | cmd/rk/domain_manager_gen.go:95-115 | where it does: the two visiting orders of a domain and of the record straying to it leave the same registry exactly if the domain's own deed touches nothing or adds the same record; what each order leaves |
| `DomainManager.StrayCanBeUnregistered` | cmd/rk/domain_manager_gen.go:95-115 | concrete input: with a changed domain whose new kind is unknown, one order leaves the stray registered and the other does not |
| `DomainManager.ReloadOutcomesAgree` | cmd/rk/domain_manager_gen.go:82-116 | two outcomes of one whole reload, in any visiting orders, agree on every domain, and on the registry unless a record strays to a listed id whose own deed touches something else; then they agree but for that id |
| `DomainManager.OrderMayShow` | cmd/rk/domain_manager_gen.go:82-116 | and in that case there are two outcomes that differ: the stray's entry and the one the id's own domain makes |
| `DomainManager.StrayOutlivesItsKernel` | cmd/rk/domain_manager_gen.go:71-79 | a reload that stops the domain with the empty id removes the entry under the empty id, and leaves the entry its record strayed to unless that id's own deed touches it |
| `DomainManager.StartUpManagesAllIff` | cmd/rk/root_kernel_gen.go:52-87 | start-up leaves every started kernel managed exactly if no two entries of a domain start and the one that does is in-process |
| `DomainManager.RegisteredUnderOwnIdIff` | cmd/rk/discovery_registry_gen.go:56-75 | a launched domain is registered under its own id exactly if that is not empty or the manifest names none |
| `RootKernel.RunningIffRegistered` | cmd/rk/root_kernel_gen.go:52-106 | at every moment from start-up through any reloads, in every visiting order, each running domain with a non-empty id is in the registry; one that ran before the last reload is there exactly if it runs, unless a record strayed to its id |
| `RootKernel.AlwaysRegistered` | cmd/rk/root_kernel_gen.go:52-106 | the same for all domains at once |
| `RootKernel.LifetimeNeverLeaksIff` | cmd/rk/root_kernel_gen.go:52-106 | at every such moment the kernels of a domain are well managed exactly if start-up gave the manager every kernel of it that it started |
| `RootKernel.DomainAt` | cmd/rk/root_kernel_gen.go:52-106 | what a domain is at any moment is its own entries and reloads, the other domains left aside |
| `RootKernel.Serve` | cmd/rk/root_kernel_gen.go:52-106 | start-up and one reload for each signal leave such a lifetime, and every running domain with a non-empty id in the registry |
| `DomainManager.ReloadKeepsRegistered` | cmd/rk/domain_manager_gen.go:82-116 | a reload keeps running domains registered, whatever the visiting orders and whichever record strays |
| `DomainManager.BootRegisters` | cmd/rk/root_kernel_gen.go:52-87 | start-up registers every domain it leaves running under a non-empty id |
| `DomainManager.StoppedIsAbsentIff` | cmd/rk/domain_manager_gen.go:71-116 | a domain stopped and not relaunched is not in the registry, unless a record strayed to its id: that is there if the domain is not listed, and if it is, that or none |
| `DomainManager.EmptyIdRegisteredIff` | cmd/rk/domain_manager_gen.go:62-65 | a domain with an empty id that a reload launched is registered under it exactly if its manifest names no kernel, or an older entry is there that no stop removed |
| `DomainManager.DomainManager.constructor` | cmd/rk/domain_manager_gen.go:29-31 | nothing runs |
| `DomainManager.DomainManager.LaunchInproc` | cmd/rk/domain_manager_gen.go:33-69 | succeeds exactly if the kind is known and the lifecycle run succeeds; enters run and registry only then; the hooks logged are those of the machine |
| `DomainManager.DomainManager.RunKernel` | cmd/rk/domain_manager_gen.go:45-52 | a new machine is run with the hook results given |
| `DomainManager.DomainManager.Enter` | cmd/rk/domain_manager_gen.go:54-68 | a kernel that started is registered and entered into the runs |
| `DomainManager.DomainManager.LaunchWithFactory` | cmd/rk/domain_factory_gen.go:27-79 | handled exactly if the kind is known; the kernel is run, registered if it started, and not entered into the runs |
| `DomainManager.DomainManager.StartOne` | cmd/rk/root_kernel_gen.go:53-80 | one configured domain goes through the manager or the factory by its mode; it is registered exactly if it started |
| `DomainManager.DomainManager.StartUp` | cmd/rk/root_kernel_gen.go:52-87 | every domain is left as its configured entries, in order, make it, and the registry holds the records of all kernels that started, a later one over an earlier |
| `DomainManager.DomainManager.Stop` | cmd/rk/domain_manager_gen.go:71-79 | the kernel's machine is drained and then stopped with the hook results given, and its hooks logged; the domain is forgotten and unregistered, no other; nothing for an unknown id |
| `DomainManager.DomainManager.ReconcileOne` | cmd/rk/domain_manager_gen.go:94-114 | the loop body: start, restart or keep with the new spec |
| `DomainManager.DomainManager.BuildIndex` | cmd/rk/domain_manager_gen.go:83-86 | the index maps each id to the spec listed last |
| `DomainManager.DomainManager.StopRemoved` | cmd/rk/domain_manager_gen.go:88-93 | in any visiting order, exactly the running domains that are not listed are stopped and unregistered |
| `DomainManager.DomainManager.StartListed` | cmd/rk/domain_manager_gen.go:94-114 | in any visiting order, each listed domain is reconciled once with its own spec |
| `DomainManager.DomainManager.Reload` | cmd/rk/domain_manager_gen.go:82-116 | converges for any spec list, prior runs and visiting orders: the runs map then holds exactly the listed ids that ran unchanged or were launched with success, each with its last listed spec; every domain's kernels and hooks are those of one reconciliation; every registry entry is that of its domain's deed, and under a stray's id the stray or what a listed domain made of it after |
| `DomainManager.LoopsReconcile` | cmd/rk/domain_manager_gen.go:82-116 | the stop loop and the start loop together reconcile every domain |
| `DomainManager.LoopsRebind` | cmd/rk/domain_manager_gen.go:82-116 | and together leave every registry entry as the deeds of the reload ask |
| `EventBus.OfferKeepsAccount` | cmd/rk/event_bus_gen.go:35-43 | a send keeps order and accounting, and drops exactly when 16 are buffered |
| `EventBus.LateCancelIsNoop` | cmd/rk/event_bus_gen.go:60-78 | a second cancel, by the user or the context, changes nothing, even if the topic was removed and created again |
| `EventBus.RunKeepsOrder` | cmd/rk/event_bus_gen.go:23-81 | every step keeps: a subscriber is in the map exactly while its channel is open, no topic maps to an empty set, ids are given once, channels closed at most once, and each channel was offered exactly the calls to its topic made while subscribed, in order |
| `EventBus.EverySubscriberIsServed` | cmd/rk/event_bus_gen.go:23-81 | in every run a subscriber's messages are an in-order, duplicate-free subsequence of those published while it was subscribed, and received, buffered and dropped add up to published |
| `EventBus.SubscriberGetsItsTopic` | cmd/rk/event_bus_gen.go:47-81 | in every run the channel of a subscription to t is offered exactly the calls to t made from the subscription until it was closed, in order, and is open until first cancelled |
| `EventBus.ClosedAtFirstCancel` | cmd/rk/event_bus_gen.go:60-73 | and it is closed at that cancel |
| `EventBus.InterleavedRunKeepsInv` | cmd/rk/event_bus_gen.go:23-81 | with sends interleaving freely, every step keeps the map, the accounting of each call to each channel, and that no call reaches a channel twice or off its topic |
| `EventBus.EveryInterleavedCallIsAccounted` | cmd/rk/event_bus_gen.go:23-81 | from the empty bus, in every interleaving: a call was made to an open channel's topic exactly if it is offered to it, still due or abandoned, one of these only; offered ones are received, buffered or dropped |
| `EventBus.InterleavedSubscriberGetsItsTopic` | cmd/rk/event_bus_gen.go:23-81 | with publishes interleaving, exactly those calls are offered, due or abandoned |
| `EventBus.ClearCancelsNeverPanic` | cmd/rk/event_bus_gen.go:23-45 | no send hits a closed channel if no subscription is cancelled between copy and send |
| `EventBus.CancelInFlightPanics` | cmd/rk/event_bus_gen.go:35-43 | such a cancel makes the send that is due panic |
| `EventBus.InMemoryEventBus.constructor` | cmd/rk/event_bus_gen.go:19-21 | an empty bus |
| `EventBus.InMemoryEventBus.Subscribe` | cmd/rk/event_bus_gen.go:47-58 | a new id, an open channel of capacity 16, other subscriptions as they were |
| `EventBus.InMemoryEventBus.Cancel` | cmd/rk/event_bus_gen.go:60-73 | closes the channel once and removes an empty topic |
| `EventBus.InMemoryEventBus.Publish` | cmd/rk/event_bus_gen.go:23-45 | run alone, offers the call to every subscriber of the topic and no other, in any visiting order |
| `EventBus.InMemoryEventBus.SendAll` | cmd/rk/event_bus_gen.go:34-44 | the loop over the copied subscribers offers to each once |
| `EventBus.InMemoryEventBus.SendTo` | cmd/rk/event_bus_gen.go:36-43 | buffers if there is room, otherwise drops |
| `EventBus.InMemoryEventBus.Receive` | cmd/rk/event_bus_gen.go:48 | the consumer gets the oldest buffered message |
| `Forwarder.RunKeepsInv` | kernels/infra/log-forwarder/forwarder_gen.go:61-175 | every interleaving keeps: each message published to a subscription is counted once as dropped at the bus, on its way, dropped at the fan-in, queued, in hand, ignored, sent or failed; failed sends equal reconnects; per-subscription order; only forwardable records are sent |
| `Forwarder.EveryRunKeepsInv` | kernels/infra/log-forwarder/forwarder_gen.go:61-175 | the same from a new forwarder with any number of subscriptions, over any number of broken streams |
| `Forwarder.SentOnceInOrder` | kernels/infra/log-forwarder/forwarder_gen.go:124-151 | at most once: the sender never takes a message twice, and of two from one subscription the earlier goes first |
| `Forwarder.VerdictIs` | kernels/infra/log-forwarder/forwarder_gen.go:134-148 | log records of a scope other than root and a kernel other than rk are sent or fail; all other messages are ignored |
| `Forwarder.LostOnlyWhenFull` | kernels/infra/log-forwarder/forwarder_gen.go:68-82 | a message is dropped at the bus only with 16 buffered and at the fan-in only with 256 queued |
| `Forwarder.PhaseFollowsHistory` | kernels/infra/log-forwarder/forwarder_gen.go:92-173 | the loop dials at first and after each wait, opens after a dial, streams after an opening, and waits after a failed dial, a failed opening and a send error |
| `Forwarder.AttemptFollowsHistory` | kernels/infra/log-forwarder/forwarder_gen.go:91-173 | the backoff argument counts the failed dials in a row, one more if a send error came before them |
| `Forwarder.SendErrorWaitsFirstDelay` | kernels/infra/log-forwarder/forwarder_gen.go:163-165 | the wait after a send error is the first delay, however many streams broke in a row |
| `Forwarder.Forwarder.constructor` | kernels/infra/log-forwarder/forwarder_gen.go:66-91 | queues empty, about to dial |
| `Forwarder.Forwarder.Deliver` | cmd/rk/event_bus_gen.go:36-43 | the bus buffers the message or drops it at a full channel |
| `Forwarder.Forwarder.FanInReceive` | kernels/infra/log-forwarder/forwarder_gen.go:74 | a fan-in goroutine takes the oldest message of its channel |
| `Forwarder.Forwarder.FanInPush` | kernels/infra/log-forwarder/forwarder_gen.go:75-79 | it joins the queue, or is dropped when 256 are queued |
| `Forwarder.Forwarder.SenderReceive` | kernels/infra/log-forwarder/forwarder_gen.go:133 | the sender takes the oldest queued message |
| `Forwarder.Forwarder.SenderHandle` | kernels/infra/log-forwarder/forwarder_gen.go:134-148 | nil, other types, scope root and kernel rk are ignored; the rest is sent or, on an error, lost with the sender gone |
| `Forwarder.Forwarder.SenderQuit` | kernels/infra/log-forwarder/forwarder_gen.go:130-132 | the sender ends on a done context |
| `Forwarder.Forwarder.DialGateway` | kernels/infra/log-forwarder/forwarder_gen.go:93-108 | the counter goes up, is the backoff's argument on failure and zero on success |
| `Forwarder.Forwarder.OpenStream` | kernels/infra/log-forwarder/forwarder_gen.go:110-126 | a sender exists exactly if the stream opened; otherwise the backoff is asked for the first attempt |
| `Forwarder.Forwarder.HandleSendError` | kernels/infra/log-forwarder/forwarder_gen.go:158-166 | one reconnect a failed send |
| `Forwarder.Forwarder.SleepOver` | kernels/infra/log-forwarder/forwarder_gen.go:167-172 | the timer leads to a dial, the context to the end |
| `Forwarder.Forwarder.CancelContext` | kernels/infra/log-forwarder/forwarder_gen.go:155 | the context is done |
| `Forwarder.Forwarder.LeaveStream` | kernels/infra/log-forwarder/forwarder_gen.go:155-162 | the loop ends on the context or when the sender ended without an error |
| `LogGateway.HubPublish` | cmd/rk/log_hub_gen.go:17-27 | the bus is as after publishing to the common topic, the root topic and the scope topic, in this order |
| `LogGateway.TopicsAre` | cmd/rk/log_hub_gen.go:17-27 | each record is published once to telemetry.logs, to telemetry.logs.root and, if it has a scope, to the topic of its scope |
| `LogGateway.PushLogs` | cmd/rk/log_gateway_server_gen.go:22-45 | the bus is as after publishing every record received once, in order; acknowledgements carry the count so far, and the closing one counts them all |
| `LogGateway.PublishAllReaches` | cmd/rk/event_bus_gen.go:23-45 | publishes offer to open subscriptions exactly the calls that match their topics |
| `LogGateway.NextAckIsPrompt` | cmd/rk/log_gateway_server_gen.go:40-43 | acknowledgements are an interval apart and each follows the first record that far after the last |
| `LogGateway.HubRepeatsATopicIff` | cmd/rk/log_hub_gen.go:17-27 | a record reaches some topic twice exactly if its scope is root |
| `LogGateway.ReachedPerRecord` | kernels/infra/log-forwarder/forwarder_gen.go:46-50 | a forwarder with default topics gets two copies of a domain or function record and one of any other |
| `LogGateway.ForwarderSends` | kernels/infra/log-forwarder/forwarder_gen.go:124-151 | in any run of a forwarder over copies of one record, sent, lost and under way add up to published, or it is guarded and none is sent |
| `LogLoop.StepCouples` | kernels/infra/log-forwarder/forwarder_gen.go:66-151 | every step of bus, forwarder, stream and gateway keeps the subscriptions' channels and the forwarder's feeds equally full, the calls offered equal to the messages published, and the sends equal to records received and on the stream |
| `LogLoop.JointRunKeepsInv` | kernels/infra/log-forwarder/forwarder_gen.go:66-151 | every run, with any mix of messages, keeps that, the forwarder's own invariant, that only records the guard lets through are on the stream or published by the hub, and that the subscriptions got what others brought and what came back for each record received |
| `LogLoop.CirculationIs` | kernels/infra/log-forwarder/forwarder_gen.go:141-144 | copies in circulation, lost and ignored add up to those brought and one more for each record of scope domain or function received; no more are ignored than guarded ones were brought |
| `LogLoop.LoopRestsOnlyByLoss` | kernels/infra/log-forwarder/forwarder_gen.go:141-144 | from the subscription on, in every run and for any mix of messages: no guarded record is sent or comes back; nothing is in circulation any more only once at least as many copies have been lost as unguarded ones were brought, and one more for each record of scope domain or function received (exactly as many if no guarded one was brought) |
| `LogLoop.RoundAdds` | kernels/infra/log-forwarder/forwarder_gen.go:141-144 | a lossless round (as many records received as copies were in circulation, nothing brought) adds a copy for each record of scope domain or function it received, less the messages ignored in it |
| `LogLoop.RoundsWithoutGuard` | kernels/infra/log-forwarder/forwarder_gen.go:141-144 | with no guarded message brought, copies never get fewer with the rounds and at most double with each; they double if all records received are of scope domain or function, and stay as many if none is |
| `LogEcho.Cycle` | kernels/infra/log-forwarder/forwarder_gen.go:66-151 | from a stream that holds all copies there is a run in which the gateway receives one record and its copies are on the stream again, nothing lost |
| `LogEcho.RoundFollows` | kernels/infra/log-forwarder/forwarder_gen.go:66-151 | from such a moment there is a lossless round, and after it there is another |
| `LogEcho.OneRecordGrowsWithoutBound` | kernels/infra/log-forwarder/forwarder_gen.go:66-151 | one unguarded record of scope domain or function, published once after connecting, is enough: for every n some run that loses nothing has it in circulation two to the n times |

## Left out

- Supervisor: a worker is a value known by its number and its context is the mark in the set of stopped workers; what the worker function does with a cancelled context is one of its outcomes.
- Supervisor.ActKeepsGrammar: the delay in a restart event is arbitrary in the state machine; `Supervisor.Supervisor.DecideRestart` ties it to the policy's backoff.
- Supervisor.LiveWorkerCanStep: a function that never returns keeps its worker live, so the end after `StopAll` is stated for functions that return; fairness of the scheduler is not modelled.
- Supervisor.ShutdownIsBounded: starts from a cancelled supervisor, which the first statement of `StopAll` makes it.
- Backoff: rounding and overflow of float64 and the shared random source; a draw is any real, of which the two in the code are cases.
- SafeLogHub: the three atomic operations and two channel operations of `Publish` are its steps; a record's encoding, the publisher's error (ignored by the code), uint64 wrap-around of the counters and a concurrent `Stats` (four separate loads) are not modelled. `rateMax > 0` always holds (`SafeLogHub.OptionsKeepLimits`), so its guard has one branch. A second `Close` panics in Go and is not a step.
- SafeLogHub.AfterClose: `Close` waits for the loop, so its return is the state in which the loop has returned; records still queued then are never forwarded.
- Registry.DiscoveryRegistry.AggregateHealth: the reason may name a lesser status than the summary, because the code keeps the first one met; only that it names a kernel that is not ready is stated.
- Registry: records are values, so a caller holding a pointer into the map is not captured; `AggregateHealth` is given a non-zero clock.
- Degradation.ExportsAreNeverLost: stated for a kernel that is not registered anew or unregistered; `Degradation.RegisteredExportsAreKeptIff` says exactly what happens when it is.
- Degradation.TickRefinesTheView: the same condition; the kernel has registered exports, shown or saved.
- Degradation.ReregisteredExportsSurviveIff: for a next tick with nothing in between.
- DomainManager: each reload runs alone; the code has one goroutine that calls it and no lock of its own. Hook results are given per domain and reload; logging and the kernel's own work in its hooks are not modelled. Values of a domain's config are text or something else.
- Lifecycle: states and hooks only; the error values and the wrapping of their messages are not modelled.
- EventBus.EverySubscriberIsServed: stated for publishes that run to their end at once and whose context is not done; `EventBus.EveryInterleavedCallIsAccounted` is what holds without that, where concurrent publishes may be buffered in either order.
- EventBus: a message is the number of its publish call; publish's context can only be done between two sends (`Abandon`), and the goroutine that waits for a subscription's context is one more caller of cancel.
- Forwarder.RunKeepsInv: order is per subscription; messages of different subscriptions may overtake each other, as they do in the code.
- Forwarder: a fan-in goroutine's and the sender's local variables are phases of the state machine; dial, stream opening and send are arbitrary outcomes; conversion to the wire format is not part of this model. The subscriptions are not cancelled while `Run` is under way.
- LogLoop: a publish of the hub and a step of the forwarder are each one step; the bus publishes to its subscribers at once, as in `EventBus.EverySubscriberIsServed`. Records on the stream when it breaks are lost (`Cut`); a stream that loses some of them and delivers later ones is not modelled. The record received is taken to be the record sent: that scope and kernel id survive the conversion to the wire format, which is not part of this model, is assumed by all results about the loop.
- LogLoop.StepCouples: channels and feeds are matched by how many messages they hold; bus calls carry no payload in the model.
- LogGateway.PushLogs: runs alone on the bus, with the stream's context alive; a client that disconnects during a publish can cut it short (the `Abandon` step of `EventBus`), and that record then misses some subscribers. A failed acknowledgement is ignored by the code and is not modelled.
- LogGateway.HubPublish: the same.
- The process runner except its backoff, the HTTP and SSE handlers, the command-line client, configuration loading, signal handling and the main programs: input, output and wiring.
- Log filters, level parsing, the tee logger and the JSON schemas: each settled by reading one branch.
