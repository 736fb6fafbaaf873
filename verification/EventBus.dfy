/** The in-process event bus.  A message is known by the number of the Publish call
    that carries it.  Two views: publishes that run to their end at once, for order
    and accounting, and publishes whose sends interleave with everything else. */
module EventBus {

  type SubId = nat
  type CallNo = nat

  const CAPACITY := 16

  /** A subscriber's channel.  As history: what its consumer received, what Publish
      offered it, how many of those were dropped, how often it was closed, and the
      calls made when it was opened and closed. */
  datatype Channel = Channel(
    topic: string, open: bool, buffer: seq<CallNo>,
    received: seq<CallNo>, offered: seq<CallNo>, dropped: nat, closes: nat, since: nat, until: nat)

  datatype Bus = Bus(
    subs: map<string, set<SubId>>,
    channels: map<SubId, Channel>,
    next: SubId,
    calls: seq<string>)            // the topics published to, by call number

  const EMPTY_BUS := Bus(map[], map[], 0, [])

  function Subscribers(b: Bus, topic: string): set<SubId> {
    if topic in b.subs then b.subs[topic] else {}
  }

  function SubscribeTo(b: Bus, topic: string): Bus {
    b.(subs := b.subs[topic := Subscribers(b, topic) + {b.next}],
       channels := b.channels[b.next := Channel(topic, true, [], [], [], 0, 0, |b.calls|, |b.calls|)],
       next := b.next + 1)
  }

  /** The cancel closure of a subscription. */
  function CancelOf(b: Bus, id: SubId): Bus
    requires id in b.channels
  {
    var ch := b.channels[id];
    if ch.topic !in b.subs then b
    else
      var closing := id in b.subs[ch.topic] && ch.open;
      var left := if closing then b.subs[ch.topic] - {id} else b.subs[ch.topic];
      b.(channels := if closing then b.channels[id := ch.(open := false, closes := ch.closes + 1, until := |b.calls|)]
                     else b.channels,
         subs := if left == {} then b.subs - {ch.topic} else b.subs[ch.topic := left])
  }

  /** The non-blocking send to an open channel. */
  function Offer(ch: Channel, n: CallNo): Channel {
    var ch' := ch.(offered := ch.offered + [n]);
    if |ch.buffer| < CAPACITY then ch'.(buffer := ch.buffer + [n]) else ch'.(dropped := ch.dropped + 1)
  }

  /** A publish that runs to its end at once. */
  function PublishTo(b: Bus, topic: string): Bus
    requires Subscribers(b, topic) <= b.channels.Keys
  {
    b.(channels := map id | id in b.channels ::
         if id in Subscribers(b, topic) then Offer(b.channels[id], |b.calls|) else b.channels[id],
       calls := b.calls + [topic])
  }

  function ReceiveFrom(b: Bus, id: SubId): Bus
    requires id in b.channels && b.channels[id].buffer != []
  {
    var ch := b.channels[id];
    b.(channels := b.channels[id := ch.(buffer := ch.buffer[1..], received := ch.received + [ch.buffer[0]])])
  }

  // -------------------------------------------- what every channel satisfies

  predicate Subsequence(xs: seq<CallNo>, ys: seq<CallNo>)
    decreases |ys|
  {
    xs == [] || (ys != [] &&
      ((xs[|xs| - 1] == ys[|ys| - 1] && Subsequence(xs[..|xs| - 1], ys[..|ys| - 1])) ||
       Subsequence(xs, ys[..|ys| - 1])))
  }

  lemma SubsequenceGrows(xs: seq<CallNo>, ys: seq<CallNo>, n: CallNo)
    requires Subsequence(xs, ys)
    ensures Subsequence(xs, ys + [n]) && Subsequence(xs + [n], ys + [n])
  {
    assert (ys + [n])[..|ys|] == ys && (xs + [n])[..|xs|] == xs;
  }

  /** What was received and is buffered comes from what was offered, in its order,
      and the rest was dropped; a channel closed is closed once. */
  predicate Accounted(ch: Channel) {
    && |ch.buffer| <= CAPACITY
    && Subsequence(ch.received + ch.buffer, ch.offered)
    && |ch.received| + |ch.buffer| + ch.dropped == |ch.offered|
    && ch.closes == (if ch.open then 0 else 1)
  }

  lemma OfferKeepsAccount(ch: Channel, n: CallNo)
    requires Accounted(ch)
    ensures Accounted(Offer(ch, n))
    ensures Offer(ch, n).dropped > ch.dropped <==> |ch.buffer| == 16
  {
    SubsequenceGrows(ch.received + ch.buffer, ch.offered, n);
    assert ch.received + (ch.buffer + [n]) == ch.received + ch.buffer + [n];
  }

  lemma ReceiveKeepsAccount(ch: Channel)
    requires Accounted(ch) && ch.buffer != []
    ensures Accounted(ch.(buffer := ch.buffer[1..], received := ch.received + [ch.buffer[0]]))
  {
    assert ch.received + [ch.buffer[0]] + ch.buffer[1..] == ch.received + ch.buffer;
  }

  // ---------------------------------------------------- the subscription map

  /** Subscribed means open, no topic maps to an empty set, and ids are given once. */
  ghost predicate Consistent(b: Bus) {
    && (forall id | id in b.channels :: id < b.next && Accounted(b.channels[id]))
    && (forall id | id in b.channels :: b.channels[id].open <==> id in Subscribers(b, b.channels[id].topic))
    && (forall t, id | t in b.subs && id in b.subs[t] :: id in b.channels && b.channels[id].topic == t)
    && (forall t | t in b.subs :: b.subs[t] != {})
  }

  lemma SubscribeKeepsConsistent(b: Bus, topic: string)
    requires Consistent(b)
    ensures Consistent(SubscribeTo(b, topic)) && b.next !in b.channels
  {
  }

  lemma CancelKeepsConsistent(b: Bus, id: SubId)
    requires Consistent(b) && id in b.channels
    ensures Consistent(CancelOf(b, id))
    ensures forall k | k in b.channels && k != id :: CancelOf(b, id).channels[k] == b.channels[k]
  {
  }

  lemma {:induction false} PublishKeepsConsistent(b: Bus, topic: string)
    requires Consistent(b)
    ensures Subscribers(b, topic) <= b.channels.Keys && Consistent(PublishTo(b, topic))
  {
    forall id | id in b.channels ensures Accounted(Offer(b.channels[id], |b.calls|)) {
      OfferKeepsAccount(b.channels[id], |b.calls|);
    }
  }

  lemma ReceiveKeepsConsistent(b: Bus, id: SubId)
    requires Consistent(b) && id in b.channels && b.channels[id].buffer != []
    ensures Consistent(ReceiveFrom(b, id))
  {
    ReceiveKeepsAccount(b.channels[id]);
  }

  /** A cancel that comes late, from the user or from the context, changes nothing,
      even if its topic was removed and created again. */
  lemma LateCancelIsNoop(b: Bus, id: SubId)
    requires Consistent(b) && id in b.channels && !b.channels[id].open
    ensures CancelOf(b, id) == b
  {
    var t := b.channels[id].topic;
    if t in b.subs {
      assert b.subs[t := b.subs[t]] == b.subs;
    }
  }

  /** Some publishes, one after the other. */
  ghost function PublishAll(b: Bus, topics: seq<string>): (b': Bus)
    requires Consistent(b)
    ensures Consistent(b') && b'.subs == b.subs && b'.next == b.next && b'.calls == b.calls + topics
    decreases |topics|
  {
    if topics == [] then b
    else
      PublishKeepsConsistent(b, topics[0]);
      PublishAll(PublishTo(b, topics[0]), topics[1..])
  }

  lemma {:induction false} PublishAllAdds(b: Bus, topics: seq<string>, more: seq<string>)
    requires Consistent(b)
    ensures PublishAll(b, topics + more) == PublishAll(PublishAll(b, topics), more)
    decreases |topics|
  {
    if topics == [] {
      assert topics + more == more;
    } else {
      PublishKeepsConsistent(b, topics[0]);
      assert (topics + more)[1..] == topics[1..] + more;
      PublishAllAdds(PublishTo(b, topics[0]), topics[1..], more);
    }
  }

  // ------------------------------------------------------- atomic publishes

  datatype Step = Subscribe(topic: string) | Cancel(id: SubId) | Publish(topic: string) | Receive(id: SubId)

  ghost predicate Enabled(b: Bus, s: Step) {
    match s
    case Subscribe(_) => true
    case Cancel(id) => id in b.channels
    case Publish(topic) => Subscribers(b, topic) <= b.channels.Keys
    case Receive(id) => id in b.channels && b.channels[id].buffer != []
  }

  ghost function Apply(b: Bus, s: Step): Bus
    requires Enabled(b, s)
  {
    match s
    case Subscribe(topic) => SubscribeTo(b, topic)
    case Cancel(id) => CancelOf(b, id)
    case Publish(topic) => PublishTo(b, topic)
    case Receive(id) => ReceiveFrom(b, id)
  }

  ghost predicate Legal(b: Bus, steps: seq<Step>)
    decreases |steps|
  {
    steps == [] || (Enabled(b, steps[0]) && Legal(Apply(b, steps[0]), steps[1..]))
  }

  ghost function Run(b: Bus, steps: seq<Step>): Bus
    requires Legal(b, steps)
    decreases |steps|
  {
    if steps == [] then b else Run(Apply(b, steps[0]), steps[1..])
  }

  /** The calls to a topic numbered from lo up to hi, in order. */
  function CallsTo(calls: seq<string>, topic: string, lo: nat, hi: nat): (ns: seq<CallNo>)
    requires lo <= hi <= |calls|
    ensures forall i | 0 <= i < |ns| :: lo <= ns[i] < hi && calls[ns[i]] == topic
    ensures forall i, j | 0 <= i < j < |ns| :: ns[i] < ns[j]
    decreases hi
  {
    if lo == hi then []
    else CallsTo(calls, topic, lo, hi - 1) + if calls[hi - 1] == topic then [hi - 1] else []
  }

  /** A channel was offered exactly the calls to its topic made while it was open. */
  ghost predicate OfferedInOrder(b: Bus, id: SubId) {
    id in b.channels &&
    var ch := b.channels[id];
    && ch.since <= ch.until <= |b.calls|
    && ch.offered == CallsTo(b.calls, ch.topic, ch.since, if ch.open then |b.calls| else ch.until)
  }

  ghost predicate Ordered(b: Bus) {
    Consistent(b) && forall id | id in b.channels :: OfferedInOrder(b, id)
  }

  lemma {:induction false} CallsToStable(calls: seq<string>, more: seq<string>, topic: string, lo: nat, hi: nat)
    requires lo <= hi <= |calls|
    ensures CallsTo(calls + more, topic, lo, hi) == CallsTo(calls, topic, lo, hi)
    decreases hi
  {
    if lo == hi {
    } else {
      CallsToStable(calls, more, topic, lo, hi - 1);
    }
  }

  lemma PublishKeepsOrder(b: Bus, topic: string)
    requires Ordered(b)
    ensures Subscribers(b, topic) <= b.channels.Keys && Ordered(PublishTo(b, topic))
  {
    PublishKeepsConsistent(b, topic);
    var b' := PublishTo(b, topic);
    forall id | id in b'.channels ensures OfferedInOrder(b', id) {
      assert OfferedInOrder(b, id);
      var ch := b.channels[id];
      CallsToStable(b.calls, [topic], ch.topic, ch.since, if ch.open then |b.calls| else ch.until);
    }
  }

  lemma {:induction false} StepKeepsOrder(b: Bus, s: Step)
    requires Ordered(b) && Enabled(b, s)
    ensures Ordered(Apply(b, s))
  {
    var b' := Apply(b, s);
    match s {
      case Subscribe(topic) => SubscribeKeepsConsistent(b, topic);
      case Cancel(id) => CancelKeepsConsistent(b, id);
      case Publish(topic) => PublishKeepsOrder(b, topic);
      case Receive(id) => ReceiveKeepsConsistent(b, id);
    }
    if !s.Publish? {
      forall id | id in b'.channels ensures OfferedInOrder(b', id) {
        assert id in b.channels ==> OfferedInOrder(b, id);
      }
    }
  }

  lemma {:induction false} RunKeepsOrder(b: Bus, steps: seq<Step>)
    requires Ordered(b) && Legal(b, steps)
    ensures Ordered(Run(b, steps))
    decreases |steps|
  {
    if steps == [] {
    } else {
      StepKeepsOrder(b, steps[0]);
      RunKeepsOrder(Apply(b, steps[0]), steps[1..]);
    }
  }

  ghost predicate Increasing(xs: seq<CallNo>) {
    forall i, j | 0 <= i < j < |xs| :: xs[i] < xs[j]
  }

  lemma {:induction false} SubsequenceIncreases(xs: seq<CallNo>, ys: seq<CallNo>)
    requires Subsequence(xs, ys) && Increasing(ys)
    ensures Increasing(xs) && forall i | 0 <= i < |xs| :: xs[i] in ys
    decreases |ys|
  {
    if xs == [] {
    } else {
      var rest := ys[..|ys| - 1];
      if xs[|xs| - 1] == ys[|ys| - 1] && Subsequence(xs[..|xs| - 1], rest) {
        SubsequenceIncreases(xs[..|xs| - 1], rest);
      } else {
        SubsequenceIncreases(xs, rest);
      }
    }
  }

  /** Every subscriber of every run gets calls to its topic made while it was
      subscribed, in order and none twice; those it does not get are counted as
      dropped, and one is dropped only when the channel is full. */
  lemma EverySubscriberIsServed(steps: seq<Step>, id: SubId)
    requires Legal(EMPTY_BUS, steps) && id in Run(EMPTY_BUS, steps).channels
    ensures OfferedInOrder(Run(EMPTY_BUS, steps), id)
    ensures var ch := Run(EMPTY_BUS, steps).channels[id];
            && Subsequence(ch.received + ch.buffer, ch.offered)
            && Increasing(ch.received + ch.buffer)
            && |ch.received| + |ch.buffer| + ch.dropped == |ch.offered|
    ensures Consistent(Run(EMPTY_BUS, steps))
  {
    RunKeepsOrder(EMPTY_BUS, steps);
    var ch := Run(EMPTY_BUS, steps).channels[id];
    assert OfferedInOrder(Run(EMPTY_BUS, steps), id);
    SubsequenceIncreases(ch.received + ch.buffer, ch.offered);
  }

  // ------------------------------------------- what a subscription was asked for

  lemma {:induction false} RunConcat(b: Bus, first: seq<Step>, rest: seq<Step>)
    requires Legal(b, first + rest)
    ensures Legal(b, first) && Legal(Run(b, first), rest) && Run(b, first + rest) == Run(Run(b, first), rest)
    decreases |first|
  {
    if first == [] {
      assert first + rest == rest;
    } else {
      assert (first + rest)[1..] == first[1..] + rest;
      RunConcat(Apply(b, first[0]), first[1..], rest);
    }
  }

  /** A subscription to a topic made when so many calls had been made. */
  predicate IsSubscription(b: Bus, id: SubId, t: string, since: nat) {
    id in b.channels && b.channels[id].topic == t && b.channels[id].since == since
  }

  lemma StepKeepsSubscription(b: Bus, s: Step, id: SubId, t: string, since: nat)
    requires Consistent(b) && Enabled(b, s) && IsSubscription(b, id, t, since)
    ensures IsSubscription(Apply(b, s), id, t, since)
    ensures !b.channels[id].open ==> Apply(b, s).channels[id].until == b.channels[id].until
    ensures Apply(b, s).channels[id].open <==> b.channels[id].open && s != Cancel(id)
    ensures b.channels[id].open && s == Cancel(id) ==> Apply(b, s).channels[id].until == |b.calls|
  {
    if s.Cancel? {
      CancelKeepsConsistent(b, s.id);
    }
  }

  ghost predicate Cancels(steps: seq<Step>, id: SubId) {
    exists i | 0 <= i < |steps| :: steps[i] == Cancel(id)
  }

  lemma CancelsFirst(steps: seq<Step>, id: SubId)
    requires steps != []
    ensures Cancels(steps, id) <==> steps[0] == Cancel(id) || Cancels(steps[1..], id)
  {
    if Cancels(steps[1..], id) {
      var i :| 0 <= i < |steps[1..]| && steps[1..][i] == Cancel(id);
      assert steps[i + 1] == Cancel(id);
    }
    if Cancels(steps, id) && steps[0] != Cancel(id) {
      var i :| 0 <= i < |steps| && steps[i] == Cancel(id);
      assert steps[1..][i - 1] == Cancel(id);
    }
  }

  lemma {:induction false} RunKeepsSubscription(b: Bus, steps: seq<Step>, id: SubId, t: string, since: nat)
    requires Ordered(b) && Legal(b, steps) && IsSubscription(b, id, t, since)
    ensures IsSubscription(Run(b, steps), id, t, since) && Ordered(Run(b, steps))
    ensures Run(b, steps).channels[id].open <==> b.channels[id].open && !Cancels(steps, id)
    ensures !b.channels[id].open ==> Run(b, steps).channels[id].until == b.channels[id].until
    decreases |steps|
  {
    if steps == [] {
    } else {
      CancelsFirst(steps, id);
      StepKeepsOrder(b, steps[0]);
      StepKeepsSubscription(b, steps[0], id, t, since);
      RunKeepsSubscription(Apply(b, steps[0]), steps[1..], id, t, since);
    }
  }

  lemma {:induction false} CallsToComplete(calls: seq<string>, topic: string, lo: nat, hi: nat, n: nat)
    requires lo <= hi <= |calls|
    ensures n in CallsTo(calls, topic, lo, hi) <==> lo <= n < hi && calls[n] == topic
    decreases hi
  {
    if lo == hi {
    } else {
      CallsToComplete(calls, topic, lo, hi - 1, n);
    }
  }

  /** The channel of a subscription to t is offered exactly the calls to t made from the
      subscription until it is first cancelled, in order; it is open until then. */
  lemma SubscriberGetsItsTopic(before: seq<Step>, t: string, after: seq<Step>, n: CallNo)
    requires Legal(EMPTY_BUS, before + [Subscribe(t)] + after)
    ensures Legal(EMPTY_BUS, before)
    ensures var b, id := Run(EMPTY_BUS, before + [Subscribe(t)] + after), Run(EMPTY_BUS, before).next;
            var since := |Run(EMPTY_BUS, before).calls|;
            && id in b.channels && Increasing(b.channels[id].offered)
            && (b.channels[id].open <==> !Cancels(after, id))
            && b.channels[id].until <= |b.calls|
            && (n in b.channels[id].offered <==>
                  since <= n < (if b.channels[id].open then |b.calls| else b.channels[id].until) && b.calls[n] == t)
  {
    SubscriptionIsAsAsked(before, t, after);
    var b, id := Run(EMPTY_BUS, before + [Subscribe(t)] + after), Run(EMPTY_BUS, before).next;
    assert OfferedInOrder(b, id);
    var ch := b.channels[id];
    CallsToComplete(b.calls, ch.topic, ch.since, if ch.open then |b.calls| else ch.until, n);
  }

  lemma SubscriptionIsAsAsked(before: seq<Step>, t: string, after: seq<Step>)
    requires Legal(EMPTY_BUS, before + [Subscribe(t)] + after)
    ensures Legal(EMPTY_BUS, before)
    ensures var b, id := Run(EMPTY_BUS, before + [Subscribe(t)] + after), Run(EMPTY_BUS, before).next;
            && IsSubscription(b, id, t, |Run(EMPTY_BUS, before).calls|) && Ordered(b)
            && (b.channels[id].open <==> !Cancels(after, id))
  {
    var ask := [Subscribe(t)];
    RunConcat(EMPTY_BUS, before + ask, after);
    RunConcat(EMPTY_BUS, before, ask);
    var b := Run(EMPTY_BUS, before);
    assert ask[1..] == [];
    assert Run(b, ask) == Apply(b, ask[0]);
    RunKeepsOrder(EMPTY_BUS, before + ask);
    RunKeepsSubscription(Apply(b, ask[0]), after, b.next, t, |b.calls|);
  }

  /** And it is closed at its first cancel. */
  lemma ClosedAtFirstCancel(before: seq<Step>, t: string, open: seq<Step>, after: seq<Step>)
    requires Legal(EMPTY_BUS, before)
    requires Legal(EMPTY_BUS, before + [Subscribe(t)] + (open + [Cancel(Run(EMPTY_BUS, before).next)] + after))
    requires !Cancels(open, Run(EMPTY_BUS, before).next)
    ensures Legal(EMPTY_BUS, before + [Subscribe(t)] + open)
    ensures var id := Run(EMPTY_BUS, before).next;
            var b := Run(EMPTY_BUS, before + [Subscribe(t)] + (open + [Cancel(id)] + after));
            id in b.channels && b.channels[id].until == |Run(EMPTY_BUS, before + [Subscribe(t)] + open).calls|
  {
    var id := Run(EMPTY_BUS, before).next;
    var first, cancel := before + [Subscribe(t)] + open, [Cancel(id)];
    assert before + [Subscribe(t)] + (open + cancel + after) == (first + cancel) + after;
    RunConcat(EMPTY_BUS, first + cancel, after);
    RunConcat(EMPTY_BUS, first, cancel);
    SubscriptionIsAsAsked(before, t, open);
    var b := Run(EMPTY_BUS, first);
    assert cancel[1..] == [];
    assert Run(b, cancel) == Apply(b, cancel[0]);
    StepKeepsSubscription(b, Cancel(id), id, t, b.channels[id].since);
    StepKeepsOrder(b, Cancel(id));
    RunKeepsSubscription(Apply(b, Cancel(id)), after, id, t, b.channels[id].since);
  }

  // ---------------------------------------------------- interleaved publishes

  /** Publish copies the subscribers under the lock and sends after releasing it.  The
      sends still due, and as history those a done context cut off, by call. */
  datatype State = State(
    bus: Bus, flights: map<CallNo, set<SubId>>, abandoned: map<CallNo, set<SubId>>, panicked: bool)

  const EMPTY_STATE := State(EMPTY_BUS, map[], map[], false)

  datatype FineStep =
    | Atomic(step: Step)                   // subscribe, cancel or receive
    | Copy(topic: string)                  // the critical section of Publish
    | Send(call: CallNo, id: SubId)        // one iteration of its loop
    | Abandon(call: CallNo)                // the publish context is done

  ghost predicate FineEnabled(s: State, step: FineStep) {
    !s.panicked &&
    match step
    case Atomic(a) => !a.Publish? && Enabled(s.bus, a)
    case Copy(_) => true
    case Send(n, id) => n in s.flights && id in s.flights[n] && id in s.bus.channels
    case Abandon(n) => n in s.flights
  }

  ghost function FineApply(s: State, step: FineStep): State
    requires FineEnabled(s, step)
  {
    match step
    case Atomic(a) => s.(bus := Apply(s.bus, a))
    case Copy(topic) =>
      s.(bus := s.bus.(calls := s.bus.calls + [topic]),
         flights := s.flights[|s.bus.calls| := Subscribers(s.bus, topic)])
    case Send(n, id) =>
      var ch := s.bus.channels[id];
      if ch.open then
        s.(bus := s.bus.(channels := s.bus.channels[id := Offer(ch, n)]),
           flights := s.flights[n := s.flights[n] - {id}])
      else
        s.(panicked := true)
    case Abandon(n) => s.(flights := s.flights - {n}, abandoned := s.abandoned[n := s.flights[n]])
  }

  ghost predicate FineLegal(s: State, steps: seq<FineStep>)
    decreases |steps|
  {
    steps == [] || (FineEnabled(s, steps[0]) && FineLegal(FineApply(s, steps[0]), steps[1..]))
  }

  ghost function FineRun(s: State, steps: seq<FineStep>): State
    requires FineLegal(s, steps)
    decreases |steps|
  {
    if steps == [] then s else FineRun(FineApply(s, steps[0]), steps[1..])
  }

  /** A send still due is of a call to the channel's topic that it was not offered yet. */
  ghost predicate Due(s: State, n: CallNo, id: SubId) {
    n < |s.bus.calls| && id in s.bus.channels && s.bus.calls[n] == s.bus.channels[id].topic
    && n !in s.bus.channels[id].offered
  }

  /** Each call was offered to a channel at most once, and only calls to its topic. */
  ghost predicate OfferedOnce(b: Bus, id: SubId) {
    id in b.channels &&
    var offered := b.channels[id].offered;
    && (forall i, j | 0 <= i < j < |offered| :: offered[i] != offered[j])
    && (forall i | 0 <= i < |offered| :: offered[i] < |b.calls| && b.calls[offered[i]] == b.channels[id].topic)
  }

  predicate Sends(sends: map<CallNo, set<SubId>>, n: CallNo, id: SubId) {
    n in sends && id in sends[n]
  }

  /** A call to the channel's topic made while it was open. */
  predicate WasFor(b: Bus, id: SubId, n: CallNo)
    requires id in b.channels
  {
    var ch := b.channels[id];
    n < |b.calls| && b.calls[n] == ch.topic && ch.since <= n && (ch.open || n < ch.until)
  }

  /** A call that was for a channel was offered to it, is still due or was abandoned,
      and one of these only; any other call is none of these. */
  predicate CallAccounted(s: State, id: SubId, n: CallNo)
    requires id in s.bus.channels
  {
    var offered, due, cut := n in s.bus.channels[id].offered, Sends(s.flights, n, id), Sends(s.abandoned, n, id);
    && (WasFor(s.bus, id, n) <==> offered || due || cut)
    && !(offered && due) && !(offered && cut) && !(due && cut)
  }

  /** Channels and calls are as old as they say, and sends go to known channels. */
  ghost predicate Dated(s: State) {
    && (forall id | id in s.bus.channels ::
          s.bus.channels[id].since <= s.bus.channels[id].until <= |s.bus.calls|)
    && (forall n | n in s.flights || n in s.abandoned :: n < |s.bus.calls|)
    && s.flights.Keys !! s.abandoned.Keys
    && (forall n, id | Sends(s.abandoned, n, id) :: id in s.bus.channels)
  }

  ghost predicate AllAccounted(s: State) {
    forall id, n | id in s.bus.channels :: CallAccounted(s, id, n)
  }

  ghost predicate FineInv(s: State) {
    && Consistent(s.bus) && Dated(s) && AllAccounted(s)
    && (forall n, id | n in s.flights && id in s.flights[n] :: Due(s, n, id))
    && (forall id | id in s.bus.channels :: OfferedOnce(s.bus, id))
  }

  lemma SendAccounts(s: State, n: CallNo, id: SubId)
    requires FineInv(s) && FineEnabled(s, Send(n, id))
    ensures var s' := FineApply(s, Send(n, id)); Dated(s') && AllAccounted(s')
  {
    var s' := FineApply(s, Send(n, id));
    assert Sends(s.flights, n, id);
    forall k, m | k in s'.bus.channels ensures CallAccounted(s', k, m) {
      assert CallAccounted(s, k, m);
    }
  }

  lemma AtomicAccounts(s: State, a: Step)
    requires FineInv(s) && FineEnabled(s, Atomic(a))
    ensures var s' := FineApply(s, Atomic(a)); Dated(s') && AllAccounted(s')
  {
    var s' := FineApply(s, Atomic(a));
    if a.Cancel? {
      CancelKeepsConsistent(s.bus, a.id);
    }
    forall k, m | k in s'.bus.channels ensures CallAccounted(s', k, m) {
      if k in s.bus.channels {
        assert CallAccounted(s, k, m);
        assert s'.bus.channels[k].offered == s.bus.channels[k].offered;
        assert WasFor(s'.bus, k, m) == WasFor(s.bus, k, m);
      } else {
        assert Sends(s.flights, m, k) ==> Due(s, m, k);
      }
    }
  }

  lemma SubscribedIff(b: Bus, topic: string, id: SubId)
    requires Consistent(b) && id in b.channels
    ensures id in Subscribers(b, topic) <==> b.channels[id].open && b.channels[id].topic == topic
  {
    if id in Subscribers(b, topic) {
      assert topic in b.subs && id in b.subs[topic];
    }
  }

  lemma CopyAccounts(s: State, topic: string)
    requires FineInv(s) && FineEnabled(s, Copy(topic))
    ensures var s' := FineApply(s, Copy(topic)); Dated(s') && AllAccounted(s')
  {
    var s' := FineApply(s, Copy(topic));
    forall k, m | k in s'.bus.channels ensures CallAccounted(s', k, m) {
      assert CallAccounted(s, k, m);
      assert OfferedOnce(s.bus, k);
      SubscribedIff(s.bus, topic, k);
      if m != |s.bus.calls| {
        assert WasFor(s'.bus, k, m) == WasFor(s.bus, k, m);
        assert Sends(s'.flights, m, k) == Sends(s.flights, m, k);
      }
    }
  }

  lemma AbandonAccounts(s: State, n: CallNo)
    requires FineInv(s) && FineEnabled(s, Abandon(n))
    ensures var s' := FineApply(s, Abandon(n)); Dated(s') && AllAccounted(s')
  {
    var s' := FineApply(s, Abandon(n));
    forall m, k | Sends(s'.abandoned, m, k) ensures k in s'.bus.channels {
      assert Sends(s.abandoned, m, k) || Due(s, m, k);
    }
    forall k, m | k in s'.bus.channels ensures CallAccounted(s', k, m) {
      assert CallAccounted(s, k, m);
    }
  }

  lemma SendKeepsConsistent(s: State, n: CallNo, id: SubId)
    requires Consistent(s.bus) && FineEnabled(s, Send(n, id))
    ensures Consistent(FineApply(s, Send(n, id)).bus)
  {
    OfferKeepsAccount(s.bus.channels[id], n);
  }

  lemma {:induction false} SendKeepsOnce(s: State, n: CallNo, id: SubId)
    requires FineEnabled(s, Send(n, id)) && Due(s, n, id)
    requires forall k | k in s.bus.channels :: OfferedOnce(s.bus, k)
    requires forall m, k | m in s.flights && k in s.flights[m] :: Due(s, m, k)
    ensures var s' := FineApply(s, Send(n, id));
            && (forall m, k | m in s'.flights && k in s'.flights[m] :: Due(s', m, k))
            && (forall k | k in s'.bus.channels :: OfferedOnce(s'.bus, k))
  {
    var s' := FineApply(s, Send(n, id));
    forall m, k | m in s'.flights && k in s'.flights[m] ensures Due(s', m, k) {
      assert Due(s, m, k);
    }
    forall k | k in s'.bus.channels ensures OfferedOnce(s'.bus, k) {
      assert OfferedOnce(s.bus, k) && OfferedOnce(s.bus, id);
    }
  }

  lemma {:induction false} SendKeepsInv(s: State, n: CallNo, id: SubId)
    requires FineInv(s) && FineEnabled(s, Send(n, id))
    ensures FineInv(FineApply(s, Send(n, id)))
  {
    assert Due(s, n, id);
    SendAccounts(s, n, id);
    SendKeepsConsistent(s, n, id);
    SendKeepsOnce(s, n, id);
  }

  lemma AtomicKeepsConsistent(s: State, a: Step)
    requires Consistent(s.bus) && FineEnabled(s, Atomic(a))
    ensures Consistent(FineApply(s, Atomic(a)).bus)
  {
    match a {
      case Subscribe(topic) => SubscribeKeepsConsistent(s.bus, topic);
      case Cancel(id) => CancelKeepsConsistent(s.bus, id);
      case Receive(id) => ReceiveKeepsConsistent(s.bus, id);
    }
  }

  /** Subscribing, cancelling and receiving offer nothing. */
  lemma AtomicOffersNothing(s: State, a: Step)
    requires Consistent(s.bus) && FineEnabled(s, Atomic(a))
    ensures var b, b' := s.bus, FineApply(s, Atomic(a)).bus;
            && b'.calls == b.calls
            && (forall k | k in b.channels ::
                  k in b'.channels && b'.channels[k].offered == b.channels[k].offered
                  && b'.channels[k].topic == b.channels[k].topic)
            && (forall k | k in b'.channels && k !in b.channels :: b'.channels[k].offered == [])
  {
    if a.Cancel? {
      CancelKeepsConsistent(s.bus, a.id);
    }
  }

  lemma {:induction false} AtomicKeepsInv(s: State, a: Step)
    requires FineInv(s) && FineEnabled(s, Atomic(a))
    ensures FineInv(FineApply(s, Atomic(a)))
  {
    AtomicAccounts(s, a);
    AtomicKeepsConsistent(s, a);
    AtomicKeepsOnce(s, a);
  }

  lemma AtomicKeepsOnce(s: State, a: Step)
    requires Consistent(s.bus) && FineEnabled(s, Atomic(a))
    requires forall k | k in s.bus.channels :: OfferedOnce(s.bus, k)
    requires forall m, k | m in s.flights && k in s.flights[m] :: Due(s, m, k)
    ensures var s' := FineApply(s, Atomic(a));
            && (forall m, k | m in s'.flights && k in s'.flights[m] :: Due(s', m, k))
            && (forall k | k in s'.bus.channels :: OfferedOnce(s'.bus, k))
  {
    AtomicOffersNothing(s, a);
    var s' := FineApply(s, Atomic(a));
    forall m, k | m in s'.flights && k in s'.flights[m] ensures Due(s', m, k) {
      assert Due(s, m, k);
    }
    forall k | k in s'.bus.channels ensures OfferedOnce(s'.bus, k) {
      assert k in s.bus.channels ==> OfferedOnce(s.bus, k);
    }
  }

  lemma CopyKeepsInv(s: State, topic: string)
    requires FineInv(s) && FineEnabled(s, Copy(topic))
    ensures FineInv(FineApply(s, Copy(topic)))
  {
    CopyAccounts(s, topic);
    var s' := FineApply(s, Copy(topic));
    forall m, k | m in s'.flights && k in s'.flights[m] ensures Due(s', m, k) {
      assert m != |s.bus.calls| ==> Due(s, m, k);
      assert k in s.bus.channels ==> OfferedOnce(s.bus, k);
    }
    forall k | k in s'.bus.channels ensures OfferedOnce(s'.bus, k) {
      assert OfferedOnce(s.bus, k);
    }
  }

  lemma {:induction false} FineStepKeepsInv(s: State, step: FineStep)
    requires FineInv(s) && FineEnabled(s, step)
    ensures FineInv(FineApply(s, step))
  {
    match step {
      case Atomic(a) => AtomicKeepsInv(s, a);
      case Copy(topic) => CopyKeepsInv(s, topic);
      case Send(n, id) => SendKeepsInv(s, n, id);
      case Abandon(n) =>
        AbandonAccounts(s, n);
        forall m, k | m in FineApply(s, step).flights && k in FineApply(s, step).flights[m]
          ensures Due(FineApply(s, step), m, k)
        {
          assert Due(s, m, k);
        }
    }
  }

  lemma {:induction false} InterleavedRunKeepsInv(s: State, steps: seq<FineStep>)
    requires FineInv(s) && FineLegal(s, steps)
    ensures FineInv(FineRun(s, steps))
    decreases |steps|
  {
    if steps == [] {
    } else {
      FineStepKeepsInv(s, steps[0]);
      InterleavedRunKeepsInv(FineApply(s, steps[0]), steps[1..]);
    }
  }

  /** With publishes interleaving freely, up to the first panic if there is one: every
      call to a topic is offered to each channel open at that moment, still due to it or
      abandoned, one of these and once only; and what a channel was offered is received,
      buffered or dropped, in the order offered. */
  lemma EveryInterleavedCallIsAccounted(steps: seq<FineStep>, id: SubId, n: CallNo)
    requires FineLegal(EMPTY_STATE, steps) && id in FineRun(EMPTY_STATE, steps).bus.channels
    ensures var s := FineRun(EMPTY_STATE, steps);
            CallAccounted(s, id, n) && OfferedOnce(s.bus, id) && Accounted(s.bus.channels[id])
  {
    InterleavedRunKeepsInv(EMPTY_STATE, steps);
    var s := FineRun(EMPTY_STATE, steps);
    assert CallAccounted(s, id, n) && OfferedOnce(s.bus, id);
  }

  lemma {:induction false} FineRunConcat(s: State, first: seq<FineStep>, rest: seq<FineStep>)
    requires FineLegal(s, first + rest)
    ensures FineLegal(s, first) && FineLegal(FineRun(s, first), rest)
    ensures FineRun(s, first + rest) == FineRun(FineRun(s, first), rest)
    decreases |first|
  {
    if first == [] {
      assert first + rest == rest;
    } else {
      assert (first + rest)[1..] == first[1..] + rest;
      FineRunConcat(FineApply(s, first[0]), first[1..], rest);
    }
  }

  lemma {:induction false} FineRunKeepsSubscription(s: State, steps: seq<FineStep>, id: SubId, t: string, since: nat)
    requires FineInv(s) && FineLegal(s, steps) && IsSubscription(s.bus, id, t, since)
    ensures IsSubscription(FineRun(s, steps).bus, id, t, since)
    decreases |steps|
  {
    if steps == [] {
    } else {
      FineStepKeepsInv(s, steps[0]);
      if steps[0].Atomic? {
        StepKeepsSubscription(s.bus, steps[0].step, id, t, since);
      }
      FineRunKeepsSubscription(FineApply(s, steps[0]), steps[1..], id, t, since);
    }
  }

  /** With publishes interleaving: every call to t made from the subscription to t until
      its channel was closed is offered to it, still due or abandoned, and no other call. */
  lemma InterleavedSubscriberGetsItsTopic(before: seq<FineStep>, t: string, after: seq<FineStep>, n: CallNo)
    requires FineLegal(EMPTY_STATE, before + [Atomic(Subscribe(t))] + after)
    ensures FineLegal(EMPTY_STATE, before)
    ensures var s := FineRun(EMPTY_STATE, before + [Atomic(Subscribe(t))] + after);
            var id, since := FineRun(EMPTY_STATE, before).bus.next, |FineRun(EMPTY_STATE, before).bus.calls|;
            && id in s.bus.channels
            && (n in s.bus.channels[id].offered || Sends(s.flights, n, id) || Sends(s.abandoned, n, id) <==>
                  n < |s.bus.calls| && s.bus.calls[n] == t && since <= n
                  && (s.bus.channels[id].open || n < s.bus.channels[id].until))
  {
    var ask := [Atomic(Subscribe(t))];
    FineRunConcat(EMPTY_STATE, before + ask, after);
    FineRunConcat(EMPTY_STATE, before, ask);
    var s0 := FineRun(EMPTY_STATE, before);
    assert ask[1..] == [];
    assert FineRun(s0, ask) == FineApply(s0, ask[0]);
    InterleavedRunKeepsInv(EMPTY_STATE, before + ask);
    FineRunKeepsSubscription(FineApply(s0, ask[0]), after, s0.bus.next, t, |s0.bus.calls|);
    EveryInterleavedCallIsAccounted(before + ask + after, s0.bus.next, n);
  }

  ghost predicate InFlight(s: State, id: SubId) {
    exists n | n in s.flights :: id in s.flights[n]
  }

  /** No subscription is cancelled between a publish's copy and its send. */
  ghost predicate ClearCancels(s: State, steps: seq<FineStep>)
    requires FineLegal(s, steps)
    decreases |steps|
  {
    steps == [] ||
    (!(steps[0].Atomic? && steps[0].step.Cancel? && InFlight(s, steps[0].step.id))
     && ClearCancels(FineApply(s, steps[0]), steps[1..]))
  }

  ghost predicate FlightsOpen(s: State) {
    forall n, id | n in s.flights && id in s.flights[n] :: id in s.bus.channels && s.bus.channels[id].open
  }

  lemma StepKeepsFlightsOpen(s: State, step: FineStep)
    requires FineInv(s) && FlightsOpen(s) && FineEnabled(s, step)
    requires !(step.Atomic? && step.step.Cancel? && InFlight(s, step.step.id))
    ensures FlightsOpen(FineApply(s, step)) && !FineApply(s, step).panicked
  {
    var s' := FineApply(s, step);
    if step.Atomic? && step.step.Cancel? {
      CancelKeepsConsistent(s.bus, step.step.id);
    }
    forall n, id | n in s'.flights && id in s'.flights[n] ensures id in s'.bus.channels && s'.bus.channels[id].open {
      assert n in s.flights && id in s.flights[n] ==> Due(s, n, id);
      if step.Copy? && n == |s.bus.calls| {
        assert id in Subscribers(s.bus, step.topic);
      }
    }
  }

  /** No send hits a closed channel as long as cancels stay clear of publishes ... */
  lemma {:induction false} ClearCancelsNeverPanic(s: State, steps: seq<FineStep>)
    requires FineInv(s) && FlightsOpen(s) && !s.panicked && FineLegal(s, steps) && ClearCancels(s, steps)
    ensures !FineRun(s, steps).panicked
    decreases |steps|
  {
    if steps == [] {
    } else {
      StepKeepsFlightsOpen(s, steps[0]);
      FineStepKeepsInv(s, steps[0]);
      ClearCancelsNeverPanic(FineApply(s, steps[0]), steps[1..]);
    }
  }

  /** ... and a cancel between the copy and the send makes that send panic. */
  lemma CancelInFlightPanics(s: State, n: CallNo, id: SubId)
    requires FineInv(s) && !s.panicked && n in s.flights && id in s.flights[n]
    ensures FineEnabled(s, Atomic(Cancel(id)))
    ensures var s' := FineApply(s, Atomic(Cancel(id)));
            FineEnabled(s', Send(n, id)) && FineApply(s', Send(n, id)).panicked
  {
    assert Due(s, n, id);
  }

  // ----------------------------------------------------------------- the code

  class InMemoryEventBus {
    var subs: map<string, set<SubId>>
    var channels: map<SubId, Channel>
    var next: SubId
    var calls: seq<string>         // history

    function View(): Bus
      reads this
    {
      Bus(subs, channels, next, calls)
    }

    constructor ()
      ensures View() == EMPTY_BUS
    {
      subs, channels, next, calls := map[], map[], 0, [];
    }

    method Subscribe(topic: string) returns (id: SubId)
      requires Consistent(View())
      modifies this
      ensures id == old(next) && View() == SubscribeTo(old(View()), topic) && Consistent(View())
    {
      SubscribeKeepsConsistent(View(), topic);
      if topic !in subs {
        subs := subs[topic := {}];
      }
      id := next;
      next := next + 1;
      subs := subs[topic := subs[topic] + {id}];
      channels := channels[id := Channel(topic, true, [], [], [], 0, 0, |calls|, |calls|)];
    }

    method Cancel(id: SubId)
      requires Consistent(View()) && id in channels
      modifies this
      ensures View() == CancelOf(old(View()), id) && Consistent(View())
    {
      CancelKeepsConsistent(View(), id);
      var topic := channels[id].topic;
      if topic in subs {
        if id in subs[topic] && channels[id].open {
          channels := channels[id := channels[id].(open := false, closes := channels[id].closes + 1, until := |calls|)];
          subs := subs[topic := subs[topic] - {id}];
        }
        if subs[topic] == {} {
          subs := subs - {topic};
        }
      }
      assert subs == CancelOf(old(View()), id).subs;
    }

    /** Publish with no other goroutine in between; the subscribers are visited in
        any order. */
    method Publish(topic: string)
      requires Consistent(View())
      modifies this
      ensures View() == PublishTo(old(View()), topic) && Consistent(View())
    {
      PublishKeepsConsistent(View(), topic);
      var n := |calls|;
      calls := calls + [topic];
      if topic in subs {
        SendAll(subs[topic], n);
      }
      assert channels == PublishTo(old(View()), topic).channels;
    }

    /** The loop of Publish, over the copy of the subscribers. */
    method SendAll(subscribers: set<SubId>, n: CallNo)
      requires subscribers <= channels.Keys
      modifies this`channels
      ensures OfferedTo(old(channels), channels, subscribers, n)
    {
      var copies := subscribers;
      while copies != {}
        invariant copies <= subscribers
        invariant OfferedTo(old(channels), channels, subscribers - copies, n)
      {
        var id :| id in copies;
        SendTo(id, n);
        copies := copies - {id};
      }
    }

    /** The select around one send. */
    method SendTo(id: SubId, n: CallNo)
      requires id in channels
      modifies this`channels
      ensures channels == old(channels)[id := Offer(old(channels)[id], n)]
    {
      var ch := channels[id];
      if |ch.buffer| < CAPACITY {
        channels := channels[id := ch.(buffer := ch.buffer + [n], offered := ch.offered + [n])];
      } else {
        channels := channels[id := ch.(dropped := ch.dropped + 1, offered := ch.offered + [n])];
      }
    }

    /** The consumer takes the next message from its channel. */
    method Receive(id: SubId) returns (n: CallNo)
      requires Consistent(View()) && id in channels && channels[id].buffer != []
      modifies this
      ensures n == old(channels)[id].buffer[0]
      ensures View() == ReceiveFrom(old(View()), id) && Consistent(View())
    {
      ReceiveKeepsConsistent(View(), id);
      var ch := channels[id];
      n := ch.buffer[0];
      channels := channels[id := ch.(buffer := ch.buffer[1..], received := ch.received + [n])];
    }
  }

  /** Some channels have been offered a call, the others are as they were. */
  ghost predicate OfferedTo(was: map<SubId, Channel>, now: map<SubId, Channel>, sent: set<SubId>, n: CallNo) {
    now.Keys == was.Keys && forall id | id in was :: now[id] == if id in sent then Offer(was[id], n) else was[id]
  }
}
