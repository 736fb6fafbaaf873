/** A log forwarder on the bus of its own gateway: bus, forwarder, stream and gateway as
    one state machine.  What the hub publishes reaches the forwarder's subscriptions
    again, so records go round unless the forwarder's guard is on them. */
module LogLoop {
  import opened EventBus
  import opened LogGateway
  import H = SafeLogHub
  import F = Forwarder

  /** The forwarder's subscriptions on the bus, and what they are to. */
  datatype Setup = Setup(ids: seq<SubId>, topics: seq<string>)

  /** Between forwarder and gateway is the stream; the hub may have publishes of the
      record received last still to make.  As history, how many records the gateway has
      received, how many of them come back twice, how many a broken stream took with it,
      and how many messages others have brought to the subscriptions: those the guard
      lets through and those it does not. */
  datatype Joint = Joint(
    bus: Bus, fw: F.State, stream: seq<H.Record>,
    current: H.Record, due: seq<string>,
    received: nat, again: nat, cut: nat, brought: nat, guarded: nat)

  datatype JointStep =
    | Forward(action: F.Step)                     // any step of the forwarder but Publish
    | Original(topic: string, message: F.Message) // somebody else publishes
    | Cut                                         // the stream breaks, what is on it is gone
    | Receive                                     // the gateway receives from the stream
    | Publish                                     // the hub makes its next publish
    | Elsewhere(other: EventBus.Step)             // other subscribers come, go and receive

  /** The feeds of the subscriptions to a topic get a message, from feed f on. */
  function Fan(fw: F.State, topics: seq<string>, t: string, m: F.Message, f: nat): F.State
    requires f <= |topics| <= |fw.pipe.feeds|
    decreases |topics| - f
  {
    if f == |topics| then fw
    else Fan(if topics[f] == t then F.Apply(fw, F.Publish(f, m)) else fw, topics, t, m, f + 1)
  }

  ghost predicate Elsewise(s: Setup, step: EventBus.Step) {
    match step
    case Subscribe(_) => true
    case Cancel(id) => id !in s.ids
    case Receive(id) => id !in s.ids
    case Publish(_) => false
  }

  ghost predicate Fits(s: Setup, j: Joint) {
    |s.ids| == |s.topics| == |j.fw.pipe.feeds|
  }

  ghost predicate Enabled(s: Setup, j: Joint, step: JointStep) {
    Fits(s, j) && Consistent(j.bus) &&
    match step
    case Forward(a) =>
      && F.Enabled(j.fw, a) && !a.Publish?
      && (a.Pick? ==> s.ids[a.feed] in j.bus.channels && j.bus.channels[s.ids[a.feed]].buffer != [])
    case Original(_, _) => true
    case Cut => true
    case Receive => j.due == [] && j.stream != []
    case Publish => j.due != []
    case Elsewhere(a) => Elsewise(s, a) && EventBus.Enabled(j.bus, a)
  }

  /** A publish on the bus, as bus and forwarder see it. */
  ghost function Published(s: Setup, j: Joint, t: string, m: F.Message): Joint
    requires Fits(s, j) && Consistent(j.bus)
  {
    PublishKeepsConsistent(j.bus, t);
    j.(bus := PublishTo(j.bus, t), fw := Fan(j.fw, s.topics, t, m, 0))
  }

  ghost function Apply(s: Setup, j: Joint, step: JointStep): Joint
    requires Enabled(s, j, step)
  {
    match step
    case Forward(a) =>
      j.(fw := F.Apply(j.fw, a),
         bus := if a.Pick? then ReceiveFrom(j.bus, s.ids[a.feed]) else j.bus,
         stream := if a == F.Send(true) then j.stream + [F.InHand(j.fw.pipe).record] else j.stream)
    case Original(t, m) =>
      var reached := Occurrences(s.topics, t);
      Published(s, j, t, m).(brought := j.brought + if F.Forwardable(m) then reached else 0,
                             guarded := j.guarded + if F.Forwardable(m) then 0 else reached)
    case Cut => j.(stream := [], cut := j.cut + |j.stream|)
    case Receive =>
      j.(stream := j.stream[1..], current := j.stream[0], due := HubTopics(j.stream[0].scope),
         received := j.received + 1,
         again := j.again + if ComesBackTwice(j.stream[0].scope) then 1 else 0)
    case Publish => Published(s, j, j.due[0], F.Log(j.current)).(due := j.due[1..])
    case Elsewhere(a) => j.(bus := EventBus.Apply(j.bus, a))
  }

  ghost predicate Legal(s: Setup, j: Joint, steps: seq<JointStep>)
    decreases |steps|
  {
    steps == [] || (Enabled(s, j, steps[0]) && Legal(s, Apply(s, j, steps[0]), steps[1..]))
  }

  ghost function Run(s: Setup, j: Joint, steps: seq<JointStep>): Joint
    requires Legal(s, j, steps)
    decreases |steps|
  {
    if steps == [] then j else Run(s, Apply(s, j, steps[0]), steps[1..])
  }

  // ------------------------------------------- bus and forwarder stay in step

  ghost predicate OwnIds(s: Setup) {
    forall f, g | 0 <= f < g < |s.ids| :: s.ids[f] != s.ids[g]
  }

  /** The channels of the subscriptions are the forwarder's feeds. */
  ghost predicate BuffersAgree(s: Setup, b: Bus, fw: F.State) {
    |s.ids| == |fw.pipe.feeds| && forall f | 0 <= f < |s.ids| ::
      s.ids[f] in b.channels && |fw.pipe.feeds[f].buffer| == |b.channels[s.ids[f]].buffer|
  }

  ghost predicate Coupled(s: Setup, j: Joint) {
    && Consistent(j.bus) && OwnIds(s) && Subscribed(j.bus, s.ids, s.topics)
    && BuffersAgree(s, j.bus, j.fw)
    && OfferedCount(j.bus, s.ids) == |j.fw.pipe.published|
    && F.Count(j.fw.pipe.verdicts, F.Sent) == j.received + |j.stream| + j.cut
  }

  lemma {:induction false} FanKeepsInv(fw: F.State, topics: seq<string>, t: string, m: F.Message, f: nat)
    requires F.Inv(fw) && f <= |topics| == |fw.pipe.feeds|
    ensures F.Inv(Fan(fw, topics, t, m, f))
    decreases |topics| - f
  {
    if f == |topics| {
    } else if topics[f] == t {
      F.StepKeepsInv(fw, F.Publish(f, m));
      FanKeepsInv(F.Apply(fw, F.Publish(f, m)), topics, t, m, f + 1);
    } else {
      FanKeepsInv(fw, topics, t, m, f + 1);
    }
  }

  /** What a fan leaves alone, and what it adds. */
  lemma {:induction false} FanAdds(fw: F.State, topics: seq<string>, t: string, m: F.Message, f: nat)
    requires f <= |topics| == |fw.pipe.feeds|
    ensures var p, p' := fw.pipe, Fan(fw, topics, t, m, f).pipe;
            && |p'.feeds| == |p.feeds|
            && p'.verdicts == p.verdicts && p'.taken == p.taken && p'.sender == p.sender
            && |p'.published| == |p.published| + Occurrences(topics[f..], t)
            && (forall i | 0 <= i < |p.published| :: p'.published[i] == p.published[i])
            && (forall i | |p.published| <= i < |p'.published| :: p'.published[i].message == m)
    decreases |topics| - f
  {
    if f == |topics| {
    } else {
      FanAdds(if topics[f] == t then F.Apply(fw, F.Publish(f, m)) else fw, topics, t, m, f + 1);
      assert topics[f..][1..] == topics[f + 1..];
    }
  }

  /** How full a feed is after one more message. */
  function Fuller(n: nat): nat {
    if n < CAPACITY then n + 1 else n
  }

  lemma {:induction false} FanFills(fw: F.State, topics: seq<string>, t: string, m: F.Message, f: nat, g: nat)
    requires f <= |topics| == |fw.pipe.feeds| && g < |topics|
    ensures var fw' := Fan(fw, topics, t, m, f);
            && |fw'.pipe.feeds| == |fw.pipe.feeds|
            && |fw'.pipe.feeds[g].buffer| ==
               if f <= g && topics[g] == t then Fuller(|fw.pipe.feeds[g].buffer|) else |fw.pipe.feeds[g].buffer|
    decreases |topics| - f
  {
    if f == |topics| {
    } else {
      FanFills(if topics[f] == t then F.Apply(fw, F.Publish(f, m)) else fw, topics, t, m, f + 1, g);
    }
  }

  lemma PublishedBuffers(s: Setup, j: Joint, t: string, m: F.Message)
    requires Fits(s, j) && Consistent(j.bus) && Subscribed(j.bus, s.ids, s.topics) && BuffersAgree(s, j.bus, j.fw)
    ensures var j' := Published(s, j, t, m); Fits(s, j') && BuffersAgree(s, j'.bus, j'.fw)
  {
    PublishKeepsConsistent(j.bus, t);
    var j' := Published(s, j, t, m);
    if |s.ids| > 0 {
      FanFills(j.fw, s.topics, t, m, 0, 0);
    } else {
      assert s.topics == [];
    }
    forall f | 0 <= f < |s.ids|
      ensures s.ids[f] in j'.bus.channels
      ensures |j'.fw.pipe.feeds[f].buffer| == |j'.bus.channels[s.ids[f]].buffer|
    {
      FanFills(j.fw, s.topics, t, m, 0, f);
      SubscribedIff(j.bus, t, s.ids[f]);
    }
  }

  /** A publish reaches the subscriptions on the bus and the feeds alike. */
  lemma PublishedCouples(s: Setup, j: Joint, t: string, m: F.Message)
    requires Fits(s, j) && Coupled(s, j) && F.Inv(j.fw)
    ensures var j' := Published(s, j, t, m);
            && Fits(s, j') && Coupled(s, j') && F.Inv(j'.fw)
            && |j'.fw.pipe.published| == |j.fw.pipe.published| + Occurrences(s.topics, t)
  {
    PublishKeepsConsistent(j.bus, t);
    PublishedBuffers(s, j, t, m);
    PublishReaches(j.bus, s.ids, s.topics, t);
    FanAdds(j.fw, s.topics, t, m, 0);
    FanKeepsInv(j.fw, s.topics, t, m, 0);
    assert s.topics[0..] == s.topics;
  }

  lemma {:induction false} OfferedCountSame(b: Bus, b': Bus, ids: seq<SubId>)
    requires forall i | 0 <= i < |ids| ::
               ids[i] in b.channels && ids[i] in b'.channels
               && b'.channels[ids[i]].offered == b.channels[ids[i]].offered
    ensures OfferedCount(b', ids) == OfferedCount(b, ids)
    decreases |ids|
  {
    if ids == [] {
    } else {
      OfferedCountSame(b, b', ids[1..]);
    }
  }

  lemma PickCouples(s: Setup, j: Joint, f: nat)
    requires Fits(s, j) && Coupled(s, j) && Enabled(s, j, Forward(F.Pick(f)))
    ensures Coupled(s, Apply(s, j, Forward(F.Pick(f))))
  {
    var j' := Apply(s, j, Forward(F.Pick(f)));
    ReceiveKeepsConsistent(j.bus, s.ids[f]);
    OfferedCountSame(j.bus, j'.bus, s.ids);
  }

  /** The other steps of the forwarder leave the feeds' buffers and what was published
      alone; one sends a record exactly if it is a send that succeeds. */
  lemma OtherForward(fw: F.State, a: F.Step)
    requires F.Enabled(fw, a) && !a.Publish? && !a.Pick?
    ensures var p, p' := fw.pipe, F.Apply(fw, a).pipe;
            && |p'.feeds| == |p.feeds| && p'.published == p.published
            && (forall f | 0 <= f < |p.feeds| :: p'.feeds[f].buffer == p.feeds[f].buffer)
            && F.Count(p'.verdicts, F.Sent) == F.Count(p.verdicts, F.Sent) + if a == F.Send(true) then 1 else 0
  {
    if a.Skip? || a.Send? {
      F.CountGrows(fw.pipe.verdicts, if a.Skip? then F.Ignored else if a.ok then F.Sent else F.Failed, F.Sent);
    }
  }

  lemma OtherForwardCouples(s: Setup, j: Joint, a: F.Step)
    requires Fits(s, j) && Coupled(s, j) && Enabled(s, j, Forward(a)) && !a.Pick?
    ensures Coupled(s, Apply(s, j, Forward(a)))
  {
    OtherForward(j.fw, a);
  }

  lemma ElsewhereCouples(s: Setup, j: Joint, a: EventBus.Step)
    requires Fits(s, j) && Coupled(s, j) && Enabled(s, j, Elsewhere(a))
    ensures Coupled(s, Apply(s, j, Elsewhere(a)))
  {
    var b, b' := j.bus, EventBus.Apply(j.bus, a);
    match a {
      case Subscribe(t) => SubscribeKeepsConsistent(b, t);
      case Cancel(id) => CancelKeepsConsistent(b, id);
      case Receive(id) => ReceiveKeepsConsistent(b, id);
    }
    forall f | 0 <= f < |s.ids| ensures s.ids[f] in b'.channels && b'.channels[s.ids[f]] == b.channels[s.ids[f]] {
      assert s.ids[f] in s.ids;
    }
    OfferedCountSame(b, b', s.ids);
  }

  lemma {:induction false} StepCouples(s: Setup, j: Joint, step: JointStep)
    requires Fits(s, j) && Coupled(s, j) && F.Inv(j.fw) && Enabled(s, j, step)
    ensures var j' := Apply(s, j, step); Fits(s, j') && Coupled(s, j') && F.Inv(j'.fw)
  {
    match step {
      case Forward(a) =>
        F.StepKeepsInv(j.fw, a);
        if a.Pick? {
          PickCouples(s, j, a.feed);
        } else {
          OtherForwardCouples(s, j, a);
        }
      case Original(t, m) => PublishedCouples(s, j, t, m);
      case Cut =>
      case Receive =>
      case Publish => PublishedCouples(s, j, j.due[0], F.Log(j.current));
      case Elsewhere(a) => ElsewhereCouples(s, j, a);
    }
  }

  // ------------------------------------------------------- what goes round

  /** The guard lets a record through. */
  predicate Free(r: H.Record) {
    F.Forwardable(F.Log(r))
  }

  /** Published messages the guard is on, by number. */
  function Guarded(published: seq<F.Item>): set<nat> {
    set n: nat | n < |published| && !F.Forwardable(published[n].message)
  }

  /** Only records the guard lets through come back, and what the subscriptions got is
      what others brought and what came back for the records received: once each, and
      once again for those of scope domain or function. */
  ghost predicate Circles(s: Setup, j: Joint) {
    && (forall i | 0 <= i < |j.stream| :: Free(j.stream[i])) && (j.due != [] ==> Free(j.current))
    && |j.fw.pipe.published| + Reached(s.topics, j.due) == j.brought + j.guarded + j.received + j.again
    && |Guarded(j.fw.pipe.published)| == j.guarded
    && (j.brought == 0 ==>
          j.received == 0 && j.stream == [] && j.due == []
          && forall n | 0 <= n < |j.fw.pipe.published| :: !F.Forwardable(j.fw.pipe.published[n].message))
  }

  ghost predicate Inv(s: Setup, j: Joint) {
    Fits(s, j) && Coupled(s, j) && F.Inv(j.fw) && s.topics == FORWARDER_TOPICS && Circles(s, j)
  }

  function Interval(a: nat, b: nat): (ns: set<nat>)
    requires a <= b
    ensures (forall n :: n in ns <==> a <= n < b) && |ns| == b - a
    decreases b - a
  {
    if a == b then {} else Interval(a, b - 1) + {b - 1}
  }

  /** More of one message add to the guarded ones if the guard is on it. */
  lemma GuardedGrows(was: seq<F.Item>, now: seq<F.Item>, m: F.Message)
    requires |was| <= |now| && forall n | 0 <= n < |was| :: now[n] == was[n]
    requires forall n | |was| <= n < |now| :: now[n].message == m
    ensures |Guarded(now)| == |Guarded(was)| + if F.Forwardable(m) then 0 else |now| - |was|
  {
    var more := Interval(|was|, |now|);
    if F.Forwardable(m) {
      assert Guarded(now) == Guarded(was);
    } else {
      assert Guarded(now) == Guarded(was) + more;
    }
  }

  lemma PublishedGuarded(s: Setup, j: Joint, t: string, m: F.Message)
    requires Fits(s, j) && Coupled(s, j)
    ensures var was, now := j.fw.pipe.published, Published(s, j, t, m).fw.pipe.published;
            && |now| == |was| + Occurrences(s.topics, t)
            && |Guarded(now)| == |Guarded(was)| + (if F.Forwardable(m) then 0 else Occurrences(s.topics, t))
            && (forall n | 0 <= n < |was| :: now[n] == was[n])
            && (forall n | |was| <= n < |now| :: now[n].message == m)
  {
    FanAdds(j.fw, s.topics, t, m, 0);
    assert s.topics[0..] == s.topics;
    GuardedGrows(j.fw.pipe.published, Published(s, j, t, m).fw.pipe.published, m);
  }

  lemma ForwardCircles(s: Setup, j: Joint, a: F.Step)
    requires Circles(s, j) && Enabled(s, j, Forward(a))
    ensures Circles(s, Apply(s, j, Forward(a)))
  {
    assert Apply(s, j, Forward(a)).fw.pipe.published == j.fw.pipe.published;
  }

  lemma OriginalCircles(s: Setup, j: Joint, t: string, m: F.Message)
    requires Coupled(s, j) && Circles(s, j) && Enabled(s, j, Original(t, m))
    ensures Circles(s, Apply(s, j, Original(t, m)))
  {
    PublishedGuarded(s, j, t, m);
    BroughtCircles(j, Apply(s, j, Original(t, m)), s.topics, m, Occurrences(s.topics, t));
  }

  /** What somebody's publish of a message that reaches some subscriptions changes. */
  lemma BroughtCircles(j: Joint, j': Joint, topics: seq<string>, m: F.Message, reached: nat)
    requires j.brought == 0 ==> forall n | 0 <= n < |j.fw.pipe.published| ::
               !F.Forwardable(j.fw.pipe.published[n].message)
    requires j'.brought == j.brought + if F.Forwardable(m) then reached else 0
    requires var was, now := j.fw.pipe.published, j'.fw.pipe.published;
             && |now| == |was| + reached && (forall n | 0 <= n < |was| :: now[n] == was[n])
             && (forall n | |was| <= n < |now| :: now[n].message == m)
    ensures j'.brought == 0 ==> forall n | 0 <= n < |j'.fw.pipe.published| ::
              !F.Forwardable(j'.fw.pipe.published[n].message)
  {
  }

  lemma PublishCircles(s: Setup, j: Joint)
    requires Coupled(s, j) && Circles(s, j) && Enabled(s, j, JointStep.Publish)
    ensures Circles(s, Apply(s, j, JointStep.Publish))
  {
    PublishedGuarded(s, j, j.due[0], F.Log(j.current));
  }

  lemma StepCircles(s: Setup, j: Joint, step: JointStep)
    requires Fits(s, j) && Coupled(s, j) && s.topics == FORWARDER_TOPICS
    requires Circles(s, j) && Enabled(s, j, step)
    ensures Circles(s, Apply(s, j, step))
  {
    match step {
      case Forward(a) => ForwardCircles(s, j, a);
      case Original(t, m) => OriginalCircles(s, j, t, m);
      case Cut =>
      case Receive => ReachedPerRecord(j.stream[0].scope);
      case Publish => PublishCircles(s, j);
      case Elsewhere(_) =>
    }
  }

  lemma JointStepKeepsInv(s: Setup, j: Joint, step: JointStep)
    requires Inv(s, j) && Enabled(s, j, step)
    ensures Inv(s, Apply(s, j, step))
  {
    StepCouples(s, j, step);
    StepCircles(s, j, step);
  }

  /** Whatever every step keeps, every run keeps. */
  lemma {:induction false} RunKeeps(s: Setup, j: Joint, steps: seq<JointStep>, kept: Joint -> bool)
    requires kept(j) && Legal(s, j, steps)
    requires forall k, a | kept(k) && Enabled(s, k, a) :: kept(Apply(s, k, a))
    ensures kept(Run(s, j, steps))
    decreases |steps|
  {
    if steps == [] {
    } else {
      RunKeeps(s, Apply(s, j, steps[0]), steps[1..], kept);
    }
  }

  lemma {:induction false} JointRunKeepsInv(s: Setup, j: Joint, steps: seq<JointStep>)
    requires Inv(s, j) && Legal(s, j, steps)
    ensures Inv(s, Run(s, j, steps))
  {
    forall k, a | Inv(s, k) && Enabled(s, k, a) ensures Inv(s, Apply(s, k, a)) {
      JointStepKeepsInv(s, k, a);
    }
    RunKeeps(s, j, steps, k => Inv(s, k));
  }

  /** The start: the forwarder has subscribed, nothing has been published to it. */
  ghost predicate AtStart(s: Setup, j: Joint) {
    && Consistent(j.bus) && OwnIds(s) && Subscribed(j.bus, s.ids, s.topics) && s.topics == FORWARDER_TOPICS
    && (forall f | 0 <= f < |s.ids| :: Untouched(j.bus, s.ids[f]))
    && j.fw == F.Initial(|s.ids|) && j.stream == [] && j.due == []
    && j.received == j.again == j.cut == j.brought == j.guarded == 0
  }

  predicate Untouched(b: Bus, id: SubId) {
    id in b.channels && b.channels[id].offered == [] && b.channels[id].buffer == []
  }

  lemma {:induction false} NothingOffered(b: Bus, ids: seq<SubId>)
    requires forall f | 0 <= f < |ids| :: Untouched(b, ids[f])
    ensures forall f | 0 <= f < |ids| :: ids[f] in b.channels
    ensures OfferedCount(b, ids) == 0
    decreases |ids|
  {
    if ids == [] {
    } else {
      assert Untouched(b, ids[0]);
      forall f | 0 <= f < |ids[1..]| ensures Untouched(b, ids[1..][f]) {
        assert ids[1..][f] == ids[f + 1];
      }
      NothingOffered(b, ids[1..]);
    }
  }

  lemma StartCoupled(s: Setup, j: Joint)
    requires AtStart(s, j)
    ensures Fits(s, j) && Coupled(s, j)
  {
    NothingOffered(j.bus, s.ids);
    forall f | 0 <= f < |s.ids| ensures |j.bus.channels[s.ids[f]].buffer| == 0 {
      assert Untouched(j.bus, s.ids[f]);
    }
  }

  lemma StartInv(s: Setup, j: Joint)
    requires AtStart(s, j)
    ensures Inv(s, j)
  {
    F.InitialInv(|s.ids|);
    StartCoupled(s, j);
    StartCircles(s, j);
  }

  lemma StartCircles(s: Setup, j: Joint)
    requires AtStart(s, j)
    ensures Circles(s, j)
  {
    assert Guarded([]) == {};
  }

  // ------------------------------------------------------------ circulation

  /** The copies on their way round: in the forwarder, on the stream, or publishes of the
      hub that will reach the forwarder. */
  ghost function Circulating(s: Setup, j: Joint): nat {
    Underway(j.fw.pipe) + |j.stream| + Reached(s.topics, j.due)
  }

  /** Dropped at a full queue, or gone with a broken stream before or after the send. */
  function LostOnTheWay(j: Joint): nat {
    Lost(j.fw.pipe) + j.cut
  }

  /** Ignored by the forwarder: the guard was on them. */
  function Ignored(j: Joint): nat {
    F.Count(j.fw.pipe.verdicts, F.Ignored)
  }

  /** The messages taken that were ignored. */
  function IgnoredNumbers(taken: seq<nat>, verdicts: seq<F.Verdict>): set<nat>
    requires |verdicts| <= |taken|
  {
    set i | 0 <= i < |verdicts| && verdicts[i] == F.Ignored :: taken[i]
  }

  lemma {:induction false} IgnoredCount(taken: seq<nat>, verdicts: seq<F.Verdict>)
    requires |verdicts| <= |taken| && forall i, k | 0 <= i < k < |taken| :: taken[i] != taken[k]
    ensures |IgnoredNumbers(taken, verdicts)| == F.Count(verdicts, F.Ignored)
    decreases |verdicts|
  {
    if verdicts == [] {
    } else {
      var n := |verdicts| - 1;
      IgnoredCount(taken, verdicts[..n]);
      var before, all := IgnoredNumbers(taken, verdicts[..n]), IgnoredNumbers(taken, verdicts);
      if verdicts[n] == F.Ignored {
        assert taken[n] !in before && all == before + {taken[n]};
      } else {
        assert all == before;
      }
    }
  }

  lemma {:induction false} SubsetSize(a: set<nat>, b: set<nat>)
    requires a <= b
    ensures |a| <= |b|
    decreases a
  {
    if a == {} {
    } else {
      var x :| x in a;
      SubsetSize(a - {x}, b - {x});
    }
  }

  /** Only messages the guard is on are ignored, and each once. */
  lemma IgnoredAreGuarded(p: F.Pipe)
    requires F.Fifo(p) && F.Judged(p)
    ensures F.Count(p.verdicts, F.Ignored) <= |Guarded(p.published)|
  {
    var passed := p.taken + p.input;
    forall i, k | 0 <= i < k < |p.taken| ensures p.taken[i] != p.taken[k] {
      assert passed[i] == p.taken[i] && passed[k] == p.taken[k];
      assert F.FromFeed(p.published, passed[k], p.published[passed[k]].feed);
    }
    IgnoredCount(p.taken, p.verdicts);
    SubsetSize(IgnoredNumbers(p.taken, p.verdicts), Guarded(p.published));
  }

  /** Copies in circulation, lost and ignored add up to those others brought and one more
      for each record of scope domain or function received. */
  lemma CirculationIs(s: Setup, j: Joint)
    requires Inv(s, j)
    ensures Circulating(s, j) + LostOnTheWay(j) + Ignored(j) == j.brought + j.guarded + j.again
    ensures Ignored(j) <= j.guarded
  {
    IgnoredAreGuarded(j.fw.pipe);
  }

  /** In every run, with any mix of messages: only records the guard lets through are ever
      sent or published again, so if others brought none nothing comes back.  All others
      go round for as long as nothing is lost: when nothing is in circulation any more, at
      least as many copies have been lost as were brought, and one more for each record of
      scope domain or function received; exactly as many if the guard was on none. */
  lemma {:induction false} LoopRestsOnlyByLoss(s: Setup, start: Joint, steps: seq<JointStep>)
    requires AtStart(s, start) && Legal(s, start, steps)
    ensures var j := Run(s, start, steps);
            && (forall i | 0 <= i < |j.stream| :: Free(j.stream[i])) && (j.due != [] ==> Free(j.current))
            && (j.brought == 0 ==> j.received == 0)
            && Circulating(s, j) + LostOnTheWay(j) + Ignored(j) == j.brought + j.guarded + j.again
            && Ignored(j) <= j.guarded
            && (Circulating(s, j) == 0 ==> LostOnTheWay(j) >= j.brought + j.again)
            && (Circulating(s, j) == j.guarded == 0 ==> LostOnTheWay(j) == j.brought + j.again)
  {
    StartInv(s, start);
    JointRunKeepsInv(s, start, steps);
    CirculationIs(s, Run(s, start, steps));
  }

  // ------------------------------------------------------------------- rounds

  ghost predicate NoOriginals(steps: seq<JointStep>) {
    forall i | 0 <= i < |steps| :: !steps[i].Original?
  }

  /** A stretch of a run in which the gateway receives as many records as copies were in
      circulation, nothing is lost and nothing is brought from outside. */
  ghost predicate IsRound(s: Setup, j: Joint, steps: seq<JointStep>) {
    Legal(s, j, steps) &&
    var j' := Run(s, j, steps);
    NoOriginals(steps) && j'.received == j.received + Circulating(s, j) && LostOnTheWay(j') == LostOnTheWay(j)
  }

  lemma {:induction false} NothingEnters(s: Setup, j: Joint, steps: seq<JointStep>)
    requires Legal(s, j, steps) && NoOriginals(steps)
    ensures var j' := Run(s, j, steps);
            && j'.brought == j.brought && j'.guarded == j.guarded
            && j.again <= j'.again && j.received <= j'.received
            && j'.again - j.again <= j'.received - j.received
    decreases |steps|
  {
    if steps == [] {
    } else {
      assert !steps[0].Original?;
      NothingEnters(s, Apply(s, j, steps[0]), steps[1..]);
    }
  }

  /** A round adds a copy for each record of scope domain or function it received, less
      the messages ignored in it. */
  lemma {:induction false} RoundAdds(s: Setup, j: Joint, steps: seq<JointStep>)
    requires Inv(s, j) && IsRound(s, j, steps)
    ensures var j' := Run(s, j, steps);
            && Inv(s, j') && j'.guarded == j.guarded
            && Circulating(s, j') + Ignored(j') - Ignored(j) == Circulating(s, j) + j'.again - j.again
            && 0 <= j'.again - j.again <= Circulating(s, j)
  {
    JointRunKeepsInv(s, j, steps);
    NothingEnters(s, j, steps);
    CirculationIs(s, j);
    CirculationIs(s, Run(s, j, steps));
  }

  /** Rounds in a row, with the states between them. */
  ghost predicate AreRounds(s: Setup, js: seq<Joint>, rounds: seq<seq<JointStep>>) {
    |js| == |rounds| + 1 && forall i | 0 <= i < |rounds| :: RoundTo(s, js[i], rounds[i], js[i + 1])
  }

  ghost predicate RoundTo(s: Setup, j: Joint, steps: seq<JointStep>, j': Joint) {
    IsRound(s, j, steps) && j' == Run(s, j, steps)
  }

  /** A number doubled some times. */
  function Doubled(n: nat, times: nat): nat {
    if times == 0 then n else Doubled(n, times - 1) + Doubled(n, times - 1)
  }

  /** What each state of a sequence hands on to the next holds of all. */
  lemma {:induction false} Along(js: seq<Joint>, kept: Joint -> bool, i: nat)
    requires i < |js| && kept(js[0]) && forall k | 0 <= k < |js| - 1 && kept(js[k]) :: kept(js[k + 1])
    ensures kept(js[i])
    decreases i
  {
    if i == 0 {
    } else {
      Along(js, kept, i - 1);
    }
  }

  lemma RoundStep(s: Setup, j: Joint, steps: seq<JointStep>, j': Joint)
    requires RoundTo(s, j, steps, j') && Inv(s, j)
    ensures Inv(s, j') && j'.guarded == j.guarded
    ensures Circulating(s, j') + Ignored(j') - Ignored(j) == Circulating(s, j) + j'.again - j.again
    ensures 0 <= j'.again - j.again <= Circulating(s, j)
  {
    RoundAdds(s, j, steps);
  }

  lemma RoundsKeepInv(s: Setup, js: seq<Joint>, rounds: seq<seq<JointStep>>, i: nat)
    requires AreRounds(s, js, rounds) && i <= |rounds| && Inv(s, js[0])
    ensures Inv(s, js[i]) && js[i].guarded == js[0].guarded
  {
    forall k | 0 <= k < |js| - 1 && Inv(s, js[k]) && js[k].guarded == js[0].guarded
      ensures Inv(s, js[k + 1]) && js[k + 1].guarded == js[0].guarded
    {
      RoundStep(s, js[k], rounds[k], js[k + 1]);
    }
    Along(js, j => Inv(s, j) && j.guarded == js[0].guarded, i);
  }

  /** Numbers that grow by some of what there is at each step. */
  lemma {:induction false} Growth(ns: seq<nat>, adds: seq<nat>, i: nat)
    requires |adds| == |ns| - 1 && i < |ns|
    requires forall k | 0 <= k < |adds| :: ns[k + 1] == ns[k] + adds[k] && adds[k] <= ns[k]
    ensures ns[0] <= ns[i] <= Doubled(ns[0], i)
    ensures (forall k | 0 <= k < i :: adds[k] == ns[k]) ==> ns[i] == Doubled(ns[0], i)
    ensures (forall k | 0 <= k < i :: adds[k] == 0) ==> ns[i] == ns[0]
    decreases i
  {
    if i == 0 {
    } else {
      Growth(ns, adds, i - 1);
    }
  }

  /** A round in which there is nothing to ignore. */
  lemma FreeRound(s: Setup, js: seq<Joint>, rounds: seq<seq<JointStep>>, k: nat)
    requires AreRounds(s, js, rounds) && k < |rounds| && Inv(s, js[0]) && js[0].guarded == 0
    ensures var j, j' := js[k], js[k + 1];
            && Circulating(s, j') == Circulating(s, j) + j'.again - j.again
            && 0 <= j'.again - j.again <= Circulating(s, j)
            && j'.received - j.received == Circulating(s, j)
  {
    var j, j' := js[k], js[k + 1];
    RoundsKeepInv(s, js, rounds, k);
    assert RoundTo(s, j, rounds[k], j');
    RoundStep(s, j, rounds[k], j');
    NothingIgnored(s, j);
    NothingIgnored(s, j');
  }

  lemma NothingIgnored(s: Setup, j: Joint)
    requires Inv(s, j) && j.guarded == 0
    ensures Ignored(j) == 0
  {
    CirculationIs(s, j);
  }

  ghost function Sizes(s: Setup, js: seq<Joint>): seq<nat> {
    seq(|js|, k requires 0 <= k < |js| => Circulating(s, js[k]))
  }

  /** The records of scope domain or function received in each round. */
  function Added(js: seq<Joint>, k: nat): int {
    if k + 1 < |js| then js[k + 1].again - js[k].again else 0
  }

  function AllReceived(js: seq<Joint>, k: nat): int {
    if k + 1 < |js| then js[k + 1].received - js[k].received else 0
  }

  lemma RoundSize(s: Setup, js: seq<Joint>, rounds: seq<seq<JointStep>>, k: nat)
    requires AreRounds(s, js, rounds) && k < |rounds| && Inv(s, js[0]) && js[0].guarded == 0
    ensures var ns := Sizes(s, js);
            ns[k + 1] == ns[k] + Added(js, k) && 0 <= Added(js, k) <= ns[k] && AllReceived(js, k) == ns[k]
  {
    FreeRound(s, js, rounds, k);
  }

  /** With the guard on nothing that was brought, copies never get fewer with the rounds
      and at most double with each; they double if all records received are of scope
      domain or function, and stay as many if none is. */
  lemma {:induction false} RoundsWithoutGuard(s: Setup, js: seq<Joint>, rounds: seq<seq<JointStep>>, i: nat)
    requires AreRounds(s, js, rounds) && i <= |rounds| && Inv(s, js[0]) && js[0].guarded == 0
    ensures Circulating(s, js[0]) <= Circulating(s, js[i]) <= Doubled(Circulating(s, js[0]), i)
    ensures (forall k | 0 <= k < i :: Added(js, k) == AllReceived(js, k)) ==>
              Circulating(s, js[i]) == Doubled(Circulating(s, js[0]), i)
    ensures (forall k | 0 <= k < i :: Added(js, k) == 0) ==> Circulating(s, js[i]) == Circulating(s, js[0])
  {
    var ns := Sizes(s, js);
    forall k | 0 <= k < |rounds|
      ensures ns[k + 1] == ns[k] + Added(js, k) && 0 <= Added(js, k) <= ns[k] && AllReceived(js, k) == ns[k]
    {
      RoundSize(s, js, rounds, k);
    }
    var adds: seq<nat> := seq(|rounds|, k requires 0 <= k < |rounds| => Added(js, k));
    Growth(ns, adds, i);
  }
}
