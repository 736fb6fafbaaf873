/** The rate-limited log hub.  Publishers, the forwarding loop, the ticker and
    Close interleave at single atomic operations; publishers are grouped by the
    program point they have reached inside Publish. */
module SafeLogHub {

  datatype Record = Record(kernelId: string, scope: string, message: string)

  const TOPIC_ALL := "telemetry.logs"
  const SCOPE_PREFIX := "telemetry.logs."

  datatype Config = Config(topics: seq<string>, scopeTopic: bool, buf: int, rateMax: int)

  const DEFAULT_CONFIG := Config([TOPIC_ALL], false, 1024, 1000)

  datatype Setting =
    | Topics(topics: seq<string>)
    | ScopeTopic(enable: bool)
    | Buffer(size: int)
    | RateLimit(maxPerInterval: int)

  function Configure(c: Config, s: Setting): Config {
    match s
    case Topics(topics) => c.(topics := topics)
    case ScopeTopic(enable) => c.(scopeTopic := enable)
    case Buffer(size) => if size > 0 then c.(buf := size) else c
    case RateLimit(max) => c.(rateMax := if max <= 0 then 1000 else max)
  }

  function ConfigureAll(c: Config, settings: seq<Setting>): Config
    decreases |settings|
  {
    if settings == [] then c else ConfigureAll(Configure(c, settings[0]), settings[1..])
  }

  /** No list of options yields an unbuffered queue or switches the limiter off. */
  lemma {:induction false} OptionsKeepLimits(c: Config, settings: seq<Setting>)
    requires c.buf > 0 && c.rateMax > 0
    ensures ConfigureAll(c, settings).buf > 0 && ConfigureAll(c, settings).rateMax > 0
    decreases |settings|
  {
    if settings == [] {
    } else {
      OptionsKeepLimits(Configure(c, settings[0]), settings[1..]);
    }
  }

  type Pid = nat
  type Call = (string, Record)

  /** The publisher calls one record gives rise to. */
  function Expansion(c: Config, r: Record): seq<Call> {
    seq(|c.topics|, i requires 0 <= i < |c.topics| => (c.topics[i], r))
    + if c.scopeTopic && r.scope != "" then [(SCOPE_PREFIX + r.scope, r)] else []
  }

  function Expansions(c: Config, rs: seq<Record>): seq<Call> {
    if rs == [] then [] else Expansions(c, rs[..|rs| - 1]) + Expansion(c, rs[|rs| - 1])
  }

  /** Where the loop goroutine stands: at its select, inside forward with some of
      the record's calls made, or returned. */
  datatype Loop = Selecting | Forwarding(record: Record, made: nat) | Returned

  /** Where a publisher stands inside Publish. */
  datatype Place =
    | Counted(record: Record)    // past total++
    | OverRate                   // refused by the limiter, droppedRate++ due
    | Admitted(record: Record)   // past the limiter, at the queue
    | OverQueue                  // refused by the queue, droppedQueue++ due

  /** The fields of the hub, the goroutines, and as history the records in the
      order the queue accepted them, the calls made and the number of resets. */
  datatype Hub = Hub(
    config: Config,
    total: nat, forwarded: nat, droppedRate: nat, droppedQueue: nat, rateNow: nat,
    queue: seq<Record>,
    loop: Loop,
    stopped: bool,
    publishers: map<Pid, Place>,
    accepted: seq<Record>,
    calls: seq<Call>,
    resets: nat)
  {
    function Forwardings(): nat { if loop.Forwarding? then 1 else 0 }
  }

  function Initial(c: Config): Hub {
    Hub(c, 0, 0, 0, 0, 0, [], Selecting, false, map[], [], [], 0)
  }

  datatype Step =
    | Begin(p: Pid, record: Record)   // atomic total++
    | Rate(p: Pid)                    // atomic rateNow++ and the comparison
    | DropRate(p: Pid)                // atomic droppedRate++, Publish returns false
    | Offer(p: Pid)                   // the non-blocking send; on success Publish returns true
    | DropQueue(p: Pid)               // atomic droppedQueue++, Publish returns false
    | Tick                            // the loop resets the window
    | Take                            // the loop receives a record
    | Call                            // one publisher call inside forward
    | Finish                          // atomic forwarded++
    | Stop                            // close(stop)
    | Leave                           // the loop returns

  ghost predicate Enabled(h: Hub, s: Step) {
    match s
    case Begin(p, _) => p !in h.publishers
    case Rate(p) => p in h.publishers && h.publishers[p].Counted?
    case DropRate(p) => p in h.publishers && h.publishers[p].OverRate?
    case Offer(p) => p in h.publishers && h.publishers[p].Admitted?
    case DropQueue(p) => p in h.publishers && h.publishers[p].OverQueue?
    case Tick => h.loop.Selecting?
    case Take => h.loop.Selecting? && h.queue != []
    case Call => h.loop.Forwarding? && h.loop.made < |Expansion(h.config, h.loop.record)|
    case Finish => h.loop.Forwarding? && h.loop.made == |Expansion(h.config, h.loop.record)|
    case Stop => !h.stopped
    case Leave => h.loop.Selecting? && h.stopped
  }

  ghost function Apply(h: Hub, s: Step): Hub
    requires Enabled(h, s)
  {
    match s
    case Begin(p, r) => h.(total := h.total + 1, publishers := h.publishers[p := Counted(r)])
    case Rate(p) =>
      var place := if h.rateNow + 1 > h.config.rateMax then OverRate else Admitted(h.publishers[p].record);
      h.(rateNow := h.rateNow + 1, publishers := h.publishers[p := place])
    case DropRate(p) => h.(droppedRate := h.droppedRate + 1, publishers := h.publishers - {p})
    case Offer(p) =>
      if |h.queue| < h.config.buf then
        var r := h.publishers[p].record;
        h.(queue := h.queue + [r], accepted := h.accepted + [r], publishers := h.publishers - {p})
      else
        h.(publishers := h.publishers[p := OverQueue])
    case DropQueue(p) => h.(droppedQueue := h.droppedQueue + 1, publishers := h.publishers - {p})
    case Tick => h.(rateNow := 0, resets := h.resets + 1)
    case Take => h.(loop := Forwarding(h.queue[0], 0), queue := h.queue[1..])
    case Call =>
      h.(calls := h.calls + [Expansion(h.config, h.loop.record)[h.loop.made]],
         loop := Forwarding(h.loop.record, h.loop.made + 1))
    case Finish => h.(forwarded := h.forwarded + 1, loop := Selecting)
    case Stop => h.(stopped := true)
    case Leave => h.(loop := Returned)
  }

  ghost predicate Legal(h: Hub, steps: seq<Step>)
    decreases |steps|
  {
    steps == [] || (Enabled(h, steps[0]) && Legal(Apply(h, steps[0]), steps[1..]))
  }

  ghost function Run(h: Hub, steps: seq<Step>): Hub
    requires Legal(h, steps)
    decreases |steps|
  {
    if steps == [] then h else Run(Apply(h, steps[0]), steps[1..])
  }

  // ------------------------------------------------------------ conservation

  /** Every publish is in exactly one place. */
  ghost predicate Conserved(h: Hub) {
    && h.total == h.forwarded + h.droppedRate + h.droppedQueue + |h.queue| + h.Forwardings() + |h.publishers|
    && |h.queue| <= h.config.buf
  }

  /** What the loop has output is the expansion of a prefix of what was accepted. */
  ghost predicate InOrder(h: Hub) {
    && h.forwarded + h.Forwardings() + |h.queue| == |h.accepted|
    && h.queue == h.accepted[|h.accepted| - |h.queue|..]
    && match h.loop
       case Forwarding(r, made) =>
         && r == h.accepted[h.forwarded]
         && made <= |Expansion(h.config, r)|
         && h.calls == Expansions(h.config, h.accepted[..h.forwarded]) + Expansion(h.config, r)[..made]
       case _ => h.calls == Expansions(h.config, h.accepted[..h.forwarded])
  }

  /** Records past the limiter: accepted, dropped at the queue, or on their way. */
  function Passed(h: Hub): nat {
    |h.accepted| + h.droppedQueue + |AtQueue(h.publishers)|
  }

  function AtQueue(ps: map<Pid, Place>): set<Pid> {
    set p | p in ps && (ps[p].Admitted? || ps[p].OverQueue?)
  }

  function Min(a: int, b: int): int { if a < b then a else b }

  ghost predicate RateBounded(h: Hub) {
    h.config.rateMax > 0 && Passed(h) <= Allowance(h.config.rateMax, h.resets) + Min(h.rateNow, h.config.rateMax)
  }

  /** What the windows closed so far could let through. */
  ghost function Allowance(rateMax: int, resets: nat): int {
    if resets == 0 then 0 else Allowance(rateMax, resets - 1) + rateMax
  }

  lemma {:induction false} AllowanceIsProduct(rateMax: int, resets: nat)
    ensures Allowance(rateMax, resets) == rateMax * resets
  {
    if resets == 0 {
    } else {
      AllowanceIsProduct(rateMax, resets - 1);
    }
  }

  ghost predicate Inv(h: Hub) {
    Conserved(h) && InOrder(h) && RateBounded(h)
  }

  lemma StepConserves(h: Hub, s: Step)
    requires Conserved(h) && Enabled(h, s)
    ensures Conserved(Apply(h, s))
  {
    if s.DropRate? || s.DropQueue? || s.Offer? {
      DepartureConserves(h, s);
    }
  }

  lemma DepartureConserves(h: Hub, s: Step)
    requires Conserved(h) && (s.DropRate? || s.DropQueue? || s.Offer?) && Enabled(h, s)
    ensures Conserved(Apply(h, s))
  {
    Removed(h.publishers, s.p);
  }

  lemma Removed(ps: map<Pid, Place>, p: Pid)
    requires p in ps
    ensures |ps - {p}| == |ps| - 1
    ensures AtQueue(ps - {p}) == AtQueue(ps) - {p}
  {
    assert (ps - {p}).Keys == ps.Keys - {p};
  }

  lemma Moved(ps: map<Pid, Place>, p: Pid, place: Place)
    ensures AtQueue(ps[p := place]) ==
            if place.Admitted? || place.OverQueue? then AtQueue(ps) + {p} else AtQueue(ps) - {p}
  {
  }

  lemma StepKeepsOrder(h: Hub, s: Step)
    requires InOrder(h) && Enabled(h, s)
    ensures InOrder(Apply(h, s))
  {
    match s {
      case Offer(p) => OfferKeepsOrder(h, p);
      case Call => CallKeepsOrder(h);
      case Finish => FinishKeepsOrder(h);
      case _ =>
    }
  }

  lemma OfferKeepsOrder(h: Hub, p: Pid)
    requires InOrder(h) && Enabled(h, Offer(p))
    ensures InOrder(Apply(h, Offer(p)))
  {
    var h' := Apply(h, Offer(p));
    assert h'.accepted[..h.forwarded] == h.accepted[..h.forwarded];
  }

  lemma CallKeepsOrder(h: Hub)
    requires InOrder(h) && Enabled(h, Call)
    ensures InOrder(Apply(h, Call))
  {
    var e, made := Expansion(h.config, h.loop.record), h.loop.made;
    assert e[..made] + [e[made]] == e[..made + 1];
  }

  lemma FinishKeepsOrder(h: Hub)
    requires InOrder(h) && Enabled(h, Finish)
    ensures InOrder(Apply(h, Finish))
  {
    var done := h.accepted[..h.forwarded + 1];
    assert done[..|done| - 1] == h.accepted[..h.forwarded];
    var e := Expansion(h.config, h.loop.record);
    assert e[..h.loop.made] == e;
  }

  lemma StepKeepsRate(h: Hub, s: Step)
    requires RateBounded(h) && Enabled(h, s)
    ensures RateBounded(Apply(h, s))
  {
    AtQueueAfter(h, s);
  }

  /** How a step changes the set of publishers past the limiter. */
  lemma AtQueueAfter(h: Hub, s: Step)
    requires Enabled(h, s)
    ensures var after, before := AtQueue(Apply(h, s).publishers), AtQueue(h.publishers);
            match s
            case Rate(p) =>
              p !in before && after == if h.rateNow < h.config.rateMax then before + {p} else before
            case Offer(p) => p in before && after == if |h.queue| < h.config.buf then before - {p} else before
            case DropQueue(p) => p in before && after == before - {p}
            case _ => after == before
  {
    match s {
      case Begin(p, r) => Moved(h.publishers, p, Counted(r));
      case Rate(p) => Moved(h.publishers, p, Apply(h, s).publishers[p]);
      case DropRate(p) => Removed(h.publishers, p);
      case Offer(p) => Removed(h.publishers, p); Moved(h.publishers, p, OverQueue);
      case DropQueue(p) => Removed(h.publishers, p);
      case _ =>
    }
  }

  /** Over every interleaving of publishers, loop, ticks and Close, nothing is
      lost or counted twice, the queue keeps its bound, output is in acceptance
      order, and the limiter lets through at most rateMax records per window. */
  lemma {:induction false} RunKeepsInv(h: Hub, steps: seq<Step>)
    requires Inv(h) && Legal(h, steps)
    ensures Inv(Run(h, steps)) && Run(h, steps).config == h.config
    decreases |steps|
  {
    if steps == [] {
    } else {
      StepConserves(h, steps[0]);
      StepKeepsOrder(h, steps[0]);
      StepKeepsRate(h, steps[0]);
      RunKeepsInv(Apply(h, steps[0]), steps[1..]);
    }
  }

  lemma EveryRunKeepsInv(settings: seq<Setting>, steps: seq<Step>)
    requires Legal(Initial(ConfigureAll(DEFAULT_CONFIG, settings)), steps)
    ensures Inv(Run(Initial(ConfigureAll(DEFAULT_CONFIG, settings)), steps))
  {
    OptionsKeepLimits(DEFAULT_CONFIG, settings);
    RunKeepsInv(Initial(ConfigureAll(DEFAULT_CONFIG, settings)), steps);
  }

  /** Accepted, and hence forwarded, records are at most rateMax per window. */
  lemma AcceptedWithinRate(settings: seq<Setting>, steps: seq<Step>)
    requires Legal(Initial(ConfigureAll(DEFAULT_CONFIG, settings)), steps)
    ensures var h := Run(Initial(ConfigureAll(DEFAULT_CONFIG, settings)), steps);
            h.forwarded <= |h.accepted| <= h.config.rateMax * (h.resets + 1)
  {
    EveryRunKeepsInv(settings, steps);
    var h := Run(Initial(ConfigureAll(DEFAULT_CONFIG, settings)), steps);
    AllowanceIsProduct(h.config.rateMax, h.resets);
    assert h.config.rateMax * (h.resets + 1) == h.config.rateMax * h.resets + h.config.rateMax;
  }

  // ------------------------------------------------- the output, call by call

  function CallCount(topics: seq<string>, scopeTopic: bool, r: Record): nat {
    |topics| + if scopeTopic && r.scope != "" then 1 else 0
  }

  /** From a position on, the calls are one for each configured topic, in order, and then
      one for the scope's topic if that is on and the record has a scope. */
  ghost predicate CallsFor(calls: seq<Call>, at: nat, topics: seq<string>, scopeTopic: bool, r: Record) {
    && at + CallCount(topics, scopeTopic, r) <= |calls|
    && (forall i | 0 <= i < |topics| :: calls[at + i] == (topics[i], r))
    && (scopeTopic && r.scope != "" ==> calls[at + |topics|] == ("telemetry.logs." + r.scope, r))
  }

  /** Where the calls of a record begin. */
  function Offset(c: Config, rs: seq<Record>, k: nat): nat
    requires k <= |rs|
  {
    if k == 0 then 0 else Offset(c, rs, k - 1) + CallCount(c.topics, c.scopeTopic, rs[k - 1])
  }

  lemma {:induction false} ExpansionsSize(c: Config, rs: seq<Record>, n: nat)
    requires n <= |rs|
    ensures |Expansions(c, rs[..n])| == Offset(c, rs, n)
    decreases n
  {
    if n == 0 {
    } else {
      assert rs[..n][..n - 1] == rs[..n - 1];
      ExpansionsSize(c, rs, n - 1);
    }
  }

  lemma ExpansionIs(before: seq<Call>, c: Config, r: Record)
    ensures CallsFor(before + Expansion(c, r), |before|, c.topics, c.scopeTopic, r)
  {
  }

  lemma CallsStay(calls: seq<Call>, more: seq<Call>, at: nat, topics: seq<string>, scopeTopic: bool, r: Record)
    requires CallsFor(calls, at, topics, scopeTopic, r)
    ensures CallsFor(calls + more, at, topics, scopeTopic, r)
  {
  }

  lemma {:induction false} ExpansionsAt(c: Config, rs: seq<Record>, n: nat, k: nat)
    requires k < n <= |rs|
    ensures CallsFor(Expansions(c, rs[..n]), Offset(c, rs, k), c.topics, c.scopeTopic, rs[k])
    decreases n
  {
    var before := Expansions(c, rs[..n - 1]);
    assert rs[..n][..n - 1] == rs[..n - 1];
    if k < n - 1 {
      ExpansionsAt(c, rs, n - 1, k);
      CallsStay(before, Expansion(c, rs[n - 1]), Offset(c, rs, k), c.topics, c.scopeTopic, rs[k]);
    } else {
      ExpansionsSize(c, rs, k);
      ExpansionIs(before, c, rs[k]);
    }
  }

  lemma OutputInOrder(h: Hub, k: nat)
    requires InOrder(h) && h.loop.Selecting?
    ensures h.forwarded <= |h.accepted| && |h.calls| == Offset(h.config, h.accepted, h.forwarded)
    ensures k < h.forwarded ==>
              CallsFor(h.calls, Offset(h.config, h.accepted, k), h.config.topics, h.config.scopeTopic, h.accepted[k])
  {
    ExpansionsSize(h.config, h.accepted, h.forwarded);
    if k < h.forwarded {
      ExpansionsAt(h.config, h.accepted, h.forwarded, k);
    }
  }

  /** In every run of a hub with its limits, with the loop at its select, the output is the
      calls of the records forwarded, in the order they were accepted, and nothing more. */
  lemma {:induction false} OutputIs(c: Config, steps: seq<Step>, k: nat)
    requires c.buf > 0 && c.rateMax > 0 && Legal(Initial(c), steps) && Run(Initial(c), steps).loop.Selecting?
    ensures var h := Run(Initial(c), steps);
            && h.forwarded <= |h.accepted| && |h.calls| == Offset(c, h.accepted, h.forwarded)
            && (k < h.forwarded ==>
                  CallsFor(h.calls, Offset(c, h.accepted, k), c.topics, c.scopeTopic, h.accepted[k]))
  {
    RunKeepsInv(Initial(c), steps);
    OutputInOrder(Run(Initial(c), steps), k);
  }

  /** Each option takes effect and leaves the others alone; the later one wins. */
  lemma {:induction false} LastOptionWins(c: Config, settings: seq<Setting>, last: Setting)
    ensures var was, now := ConfigureAll(c, settings), ConfigureAll(c, settings + [last]);
            && now.topics == (if last.Topics? then last.topics else was.topics)
            && now.scopeTopic == (if last.ScopeTopic? then last.enable else was.scopeTopic)
            && now.buf == (if last.Buffer? && last.size >= 1 then last.size else was.buf)
            && now.rateMax == (if !last.RateLimit? then was.rateMax
                               else if last.maxPerInterval >= 1 then last.maxPerInterval else 1000)
    ensures DEFAULT_CONFIG.topics == ["telemetry.logs"] && !DEFAULT_CONFIG.scopeTopic
    ensures DEFAULT_CONFIG.buf == 1024 && DEFAULT_CONFIG.rateMax == 1000
    decreases |settings|
  {
    if settings == [] {
      assert (settings + [last])[1..] == [];
    } else {
      assert (settings + [last])[1..] == settings[1..] + [last];
      LastOptionWins(Configure(c, settings[0]), settings[1..], last);
    }
  }

  // ---------------------------------------- the limiter, read off the history

  /** How many publishers asked the limiter after the last tick of a history. */
  ghost function AskedSinceTick(steps: seq<Step>): nat {
    if steps == [] then 0
    else match steps[|steps| - 1]
      case Tick => 0
      case Rate(_) => AskedSinceTick(steps[..|steps| - 1]) + 1
      case _ => AskedSinceTick(steps[..|steps| - 1])
  }

  ghost function Begun(steps: seq<Step>): nat {
    if steps == [] then 0
    else Begun(steps[..|steps| - 1]) + if steps[|steps| - 1].Begin? then 1 else 0
  }

  ghost function RateDrops(steps: seq<Step>): nat {
    if steps == [] then 0
    else RateDrops(steps[..|steps| - 1]) + if steps[|steps| - 1].DropRate? then 1 else 0
  }

  ghost function QueueDrops(steps: seq<Step>): nat {
    if steps == [] then 0
    else QueueDrops(steps[..|steps| - 1]) + if steps[|steps| - 1].DropQueue? then 1 else 0
  }

  lemma {:induction false} RunAppend(h: Hub, steps: seq<Step>, s: Step)
    requires Legal(h, steps + [s])
    ensures Legal(h, steps) && Enabled(Run(h, steps), s)
    ensures Run(h, steps + [s]) == Apply(Run(h, steps), s)
    decreases |steps|
  {
    if steps == [] {
      assert (steps + [s])[1..] == [];
    } else {
      assert (steps + [s])[1..] == steps[1..] + [s];
      RunAppend(Apply(h, steps[0]), steps[1..], s);
    }
  }

  lemma {:induction false} CountersMatchHistory(c: Config, steps: seq<Step>)
    requires Legal(Initial(c), steps)
    ensures Run(Initial(c), steps).rateNow == AskedSinceTick(steps)
    ensures Run(Initial(c), steps).total == Begun(steps)
    ensures Run(Initial(c), steps).droppedRate == RateDrops(steps)
    ensures Run(Initial(c), steps).droppedQueue == QueueDrops(steps)
    ensures Run(Initial(c), steps).config == c
    decreases |steps|
  {
    if steps == [] {
    } else {
      var before, last := steps[..|steps| - 1], steps[|steps| - 1];
      assert steps == before + [last];
      RunAppend(Initial(c), before, last);
      CountersMatchHistory(c, before);
    }
  }

  /** The limiter lets a publisher through exactly when fewer than rateMax have
      asked since the last tick. */
  lemma AdmittedIffWindowOpen(c: Config, steps: seq<Step>, p: Pid)
    requires Legal(Initial(c), steps + [Rate(p)])
    ensures var h := Run(Initial(c), steps + [Rate(p)]);
            && p in h.publishers
            && (h.publishers[p].Admitted? <==> AskedSinceTick(steps) < c.rateMax)
            && (h.publishers[p].OverRate? <==> AskedSinceTick(steps) >= c.rateMax)
  {
    RunAppend(Initial(c), steps, Rate(p));
    CountersMatchHistory(c, steps);
  }

  // -------------------------------------------------------------------- Close

  /** The loop leaves only after Close has stopped it, and then has no record in hand. */
  lemma {:induction false} LeavesOnlyAfterStop(c: Config, steps: seq<Step>)
    requires Legal(Initial(c), steps)
    ensures Run(Initial(c), steps).stopped <==> Stop in steps
    ensures Run(Initial(c), steps).loop.Returned? <==> Leave in steps
    ensures Leave in steps ==> Stop in steps
    decreases |steps|
  {
    if steps == [] {
    } else {
      var before, last := steps[..|steps| - 1], steps[|steps| - 1];
      assert steps == before + [last];
      RunAppend(Initial(c), before, last);
      LeavesOnlyAfterStop(c, before);
    }
  }

  /** Publishers past the limiter that have not been at the queue yet. */
  function Unqueued(ps: map<Pid, Place>): set<Pid> {
    set p | p in ps && ps[p].Admitted?
  }

  /** Records that may still be accepted in the last window. */
  ghost function Admissible(h: Hub): int {
    |Unqueued(h.publishers)| + if h.rateNow < h.config.rateMax then h.config.rateMax - h.rateNow else 0
  }

  /** Once the loop has returned, the output never grows, and what is still
      accepted fits the free queue space and the budget of the last window. */
  lemma {:induction false} AfterClose(h: Hub, steps: seq<Step>)
    requires h.loop.Returned? && Legal(h, steps) && |h.queue| <= h.config.buf
    ensures var h' := Run(h, steps);
            && h'.loop.Returned? && h'.calls == h.calls && h'.forwarded == h.forwarded && h'.resets == h.resets
            && h.accepted <= h'.accepted
            && |h'.accepted| - |h.accepted| <= h.config.buf - |h.queue|
            && |h'.accepted| - |h.accepted| <= Admissible(h)
    decreases |steps|
  {
    if steps == [] {
    } else {
      StepAfterClose(h, steps[0]);
      AfterClose(Apply(h, steps[0]), steps[1..]);
    }
  }

  lemma StepAfterClose(h: Hub, s: Step)
    requires h.loop.Returned? && Enabled(h, s)
    ensures |Apply(h, s).accepted| + Admissible(Apply(h, s)) <= |h.accepted| + Admissible(h)
  {
    UnqueuedAfter(h, s);
  }

  /** How a step changes the set of publishers on their way to the queue. */
  lemma UnqueuedAfter(h: Hub, s: Step)
    requires Enabled(h, s)
    ensures var after, before := Unqueued(Apply(h, s).publishers), Unqueued(h.publishers);
            match s
            case Rate(p) =>
              p !in before && after == if h.rateNow < h.config.rateMax then before + {p} else before
            case Offer(p) => p in before && after == before - {p}
            case _ => after == before
  {
    var after, before := Unqueued(Apply(h, s).publishers), Unqueued(h.publishers);
    match s {
      case Offer(p) => assert after == before - {p};
      case Rate(p) =>
      case _ => assert after == before;
    }
  }

  // ----------------------------------------------------------------- the code

  class LogHub {
    const topics: seq<string>
    const scopeTopic: bool
    const buf: int
    const rateMax: int

    var rateNow: nat
    var queue: seq<Record>
    var total: nat
    var forwarded: nat
    var droppedRate: nat
    var droppedQueue: nat
    var stopped: bool

    // The goroutines and the history, kept for the proof.
    ghost var loop: Loop
    ghost var publishers: map<Pid, Place>
    ghost var accepted: seq<Record>
    ghost var calls: seq<Call>
    ghost var resets: nat

    ghost function View(): Hub
      reads this
    {
      Hub(Config(topics, scopeTopic, buf, rateMax), total, forwarded, droppedRate, droppedQueue, rateNow,
          queue, loop, stopped, publishers, accepted, calls, resets)
    }

    constructor (settings: seq<Setting>)
      ensures View() == Initial(ConfigureAll(DEFAULT_CONFIG, settings))
    {
      var c := ConfigureAll(DEFAULT_CONFIG, settings);
      topics, scopeTopic, buf, rateMax := c.topics, c.scopeTopic, c.buf, c.rateMax;
      rateNow, queue, total, forwarded, droppedRate, droppedQueue, stopped := 0, [], 0, 0, 0, 0, false;
      loop, publishers := Selecting, map[];
      accepted, calls, resets := [], [], 0;
    }

    method AddTotal(ghost p: Pid, record: Record)
      requires Enabled(View(), Begin(p, record))
      modifies this
      ensures View() == Apply(old(View()), Begin(p, record))
    {
      total := total + 1;
      publishers := publishers[p := Counted(record)];
    }

    method AskLimiter(ghost p: Pid) returns (pass: bool)
      requires Enabled(View(), Rate(p))
      modifies this
      ensures View() == Apply(old(View()), Rate(p))
      ensures pass <==> old(rateNow) < rateMax
    {
      rateNow := rateNow + 1;
      pass := rateNow <= rateMax;
      publishers := publishers[p := if pass then Admitted(publishers[p].record) else OverRate];
    }

    method AddDroppedRate(ghost p: Pid)
      requires Enabled(View(), DropRate(p))
      modifies this
      ensures View() == Apply(old(View()), DropRate(p))
    {
      droppedRate := droppedRate + 1;
      publishers := publishers - {p};
    }

    method TrySend(ghost p: Pid, record: Record) returns (ok: bool)
      requires Enabled(View(), Offer(p)) && publishers[p].record == record
      modifies this
      ensures View() == Apply(old(View()), Offer(p))
      ensures ok <==> old(|queue|) < buf
    {
      ok := |queue| < buf;
      if ok {
        queue := queue + [record];
        accepted := accepted + [record];
        publishers := publishers - {p};
      } else {
        publishers := publishers[p := OverQueue];
      }
    }

    method AddDroppedQueue(ghost p: Pid)
      requires Enabled(View(), DropQueue(p))
      modifies this
      ensures View() == Apply(old(View()), DropQueue(p))
    {
      droppedQueue := droppedQueue + 1;
      publishers := publishers - {p};
    }

    /** Publish with no other goroutine in between. */
    method Publish(ghost p: Pid, record: Record) returns (ok: bool)
      requires p !in publishers
      modifies this
      ensures ok <==> old(rateNow) < rateMax && old(|queue|) < buf
      ensures View() == old(View()).(
          total := old(total) + 1,
          rateNow := old(rateNow) + 1,
          droppedRate := old(droppedRate) + (if old(rateNow) < rateMax then 0 else 1),
          droppedQueue := old(droppedQueue) + (if old(rateNow) < rateMax && !ok then 1 else 0),
          queue := old(queue) + (if ok then [record] else []),
          accepted := old(accepted) + if ok then [record] else [])
    {
      AddTotal(p, record);
      var pass := AskLimiter(p);
      if !pass {
        AddDroppedRate(p);
        assert publishers == old(publishers);
        return false;
      }
      ok := TrySend(p, record);
      if !ok {
        AddDroppedQueue(p);
      }
      assert publishers == old(publishers);
    }

    method ResetWindow()
      requires Enabled(View(), Tick)
      modifies this
      ensures View() == Apply(old(View()), Tick)
    {
      rateNow := 0;
      resets := resets + 1;
    }

    method Receive() returns (record: Record)
      requires Enabled(View(), Take)
      modifies this
      ensures View() == Apply(old(View()), Take) && loop == Forwarding(record, 0)
    {
      record := queue[0];
      queue := queue[1..];
      loop := Forwarding(record, 0);
    }

    method CallPublisher(topic: string, record: Record)
      requires Enabled(View(), Call) && (topic, record) == Expansion(View().config, loop.record)[loop.made]
      modifies this
      ensures View() == Apply(old(View()), Call)
    {
      calls := calls + [(topic, record)];
      loop := Forwarding(loop.record, loop.made + 1);
    }

    /** forward: one call a topic, then the scope topic. */
    method Forward(record: Record)
      requires loop == Forwarding(record, 0)
      modifies this
      ensures View() == old(View()).(
          calls := old(calls) + Expansion(old(View()).config, record),
          forwarded := old(forwarded) + 1,
          loop := Selecting)
      ensures CallsFor(calls, |old(calls)|, topics, scopeTopic, record)
      ensures |calls| == |old(calls)| + CallCount(topics, scopeTopic, record) && calls[..|old(calls)|] == old(calls)
    {
      ghost var e := Expansion(View().config, record);
      CallTopics(record, e);
      if scopeTopic && record.scope != "" {
        assert e[..|topics|] + [e[|topics|]] == e;
        CallPublisher(SCOPE_PREFIX + record.scope, record);
      }
      assert calls == old(calls) + e;
      forwarded := forwarded + 1;
      loop := Selecting;
    }

    /** The loop over the configured topics. */
    method CallTopics(record: Record, ghost e: seq<Call>)
      requires loop == Forwarding(record, 0) && e == Expansion(View().config, record)
      modifies this
      ensures View() == old(View()).(calls := old(calls) + e[..|topics|], loop := Forwarding(record, |topics|))
    {
      var i := 0;
      while i < |topics|
        invariant 0 <= i <= |topics|
        invariant View() == old(View()).(calls := old(calls) + e[..i], loop := Forwarding(record, i))
      {
        assert e[..i] + [e[i]] == e[..i + 1];
        CallPublisher(topics[i], record);
        i := i + 1;
      }
    }

    method CloseStop()
      requires Enabled(View(), Stop)
      modifies this
      ensures View() == Apply(old(View()), Stop)
    {
      stopped := true;
    }

    method LeaveLoop()
      requires Enabled(View(), Leave)
      modifies this
      ensures View() == Apply(old(View()), Leave)
    {
      loop := Returned;
    }
  }
}
