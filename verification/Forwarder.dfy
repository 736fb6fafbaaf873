/** The log forwarder: bus subscriptions are fanned in to one queue, a sender drains it
    into the current stream, and a loop dials, opens and reconnects.  Publishers, the
    fan-in goroutines, the sender and the loop interleave freely. */
module Forwarder {
  import H = SafeLogHub
  import E = EventBus

  datatype Message = NoMessage | Log(record: H.Record) | Foreign

  const INPUT_CAPACITY := 256

  /** Root logs are not sent back to the root, and only log records are sent. */
  predicate Forwardable(m: Message) {
    m.Log? && m.record.scope != "root" && m.record.kernelId != "rk"
  }

  /** A message published to one of the forwarder's subscriptions; it is known by its
      number in the order of publication. */
  datatype Item = Item(feed: nat, message: Message)

  type Number = nat

  /** A subscription: its bus channel, and the message its goroutine holds, if any. */
  datatype Feed = Feed(buffer: seq<Number>, held: seq<Number>)

  datatype Sender = Absent | Idle | Holding | Broken | Finished

  /** What became of a message the sender took. */
  datatype Verdict = Sent | Failed | Ignored

  /** The queues, and as history everything published and taken and its fate; a sender
      that is holding a message holds the last one taken. */
  datatype Pipe = Pipe(
    published: seq<Item>, feeds: seq<Feed>, input: seq<Number>, sender: Sender,
    taken: seq<Number>, verdicts: seq<Verdict>,
    lostAtBus: nat, lostAtFanIn: nat)

  /** Where the reconnect loop stands. */
  datatype Phase = Dialing | Opening | Streaming | Sleeping | Over

  datatype Link = Link(phase: Phase, attempt: int, cancelled: bool, reconnects: nat)

  datatype State = State(pipe: Pipe, link: Link)

  datatype Step =
    | Publish(feed: nat, message: Message)
    | Pick(feed: nat)            // a fan-in goroutine receives from its channel
    | Push(feed: nat)            // and offers the message to the input queue
    | Take                       // the sender receives from the input queue
    | Skip                       // it drops a message that is not to be sent
    | Send(ok: bool)
    | Quit                       // it sees the context done
    | Dial(ok: bool)
    | Open(ok: bool)
    | Reconnect                  // the loop receives the send error
    | Wake
    | Cancel
    | Leave                      // the loop sees the context done, or the sender gone

  predicate CanTell(p: Pipe) {
    p.taken != [] && p.taken[|p.taken| - 1] < |p.published|
  }

  function InHand(p: Pipe): Message
    requires CanTell(p)
  {
    p.published[p.taken[|p.taken| - 1]].message
  }

  predicate Enabled(s: State, step: Step) {
    var p, k := s.pipe, s.link;
    match step
    case Publish(f, _) => f < |p.feeds|
    case Pick(f) => f < |p.feeds| && p.feeds[f].held == [] && p.feeds[f].buffer != []
    case Push(f) => f < |p.feeds| && |p.feeds[f].held| == 1
    case Take => p.sender.Idle? && p.input != []
    case Skip => p.sender.Holding? && CanTell(p) && !Forwardable(InHand(p))
    case Send(_) => p.sender.Holding? && CanTell(p) && Forwardable(InHand(p))
    case Quit => p.sender.Idle? && k.cancelled
    case Dial(_) => k.phase.Dialing?
    case Open(_) => k.phase.Opening?
    case Reconnect => k.phase.Streaming? && p.sender.Broken?
    case Wake => k.phase.Sleeping?
    case Cancel => true
    case Leave =>
      (k.cancelled && (k.phase.Streaming? || k.phase.Sleeping?)) || (k.phase.Streaming? && p.sender.Finished?)
  }

  function ApplyPipe(p: Pipe, step: Step): Pipe
    requires step.Publish? || step.Pick? || step.Push? ==> step.feed < |p.feeds|
    requires step.Pick? ==> p.feeds[step.feed].held == [] && p.feeds[step.feed].buffer != []
    requires step.Push? ==> |p.feeds[step.feed].held| == 1
    requires step.Take? ==> p.input != []
  {
    match step
    case Publish(f, m) =>
      var n, feed := |p.published|, p.feeds[f];
      var p' := p.(published := p.published + [Item(f, m)]);
      if |feed.buffer| < E.CAPACITY then p'.(feeds := p.feeds[f := feed.(buffer := feed.buffer + [n])])
      else p'.(lostAtBus := p.lostAtBus + 1)
    case Pick(f) =>
      var feed := p.feeds[f];
      p.(feeds := p.feeds[f := Feed(feed.buffer[1..], [feed.buffer[0]])])
    case Push(f) =>
      var feed := p.feeds[f];
      var p' := p.(feeds := p.feeds[f := feed.(held := [])]);
      if |p.input| < INPUT_CAPACITY then p'.(input := p.input + feed.held)
      else p'.(lostAtFanIn := p.lostAtFanIn + 1)
    case Take => p.(input := p.input[1..], taken := p.taken + [p.input[0]], sender := Holding)
    case Skip => p.(verdicts := p.verdicts + [Ignored], sender := Idle)
    case Send(ok) =>
      if ok then p.(verdicts := p.verdicts + [Sent], sender := Idle)
      else p.(verdicts := p.verdicts + [Failed], sender := Broken)
    case Quit => p.(sender := Finished)
    case Open(ok) => if ok then p.(sender := Idle) else p
    case Reconnect => p.(sender := Absent)
    case _ => p
  }

  function ApplyLink(k: Link, step: Step): Link {
    match step
    case Dial(ok) => if ok then k.(phase := Opening, attempt := 0) else k.(phase := Sleeping, attempt := k.attempt + 1)
    case Open(ok) => k.(phase := if ok then Streaming else Sleeping)
    case Reconnect => k.(phase := Sleeping, attempt := k.attempt + 1, reconnects := k.reconnects + 1)
    case Wake => k.(phase := Dialing)
    case Cancel => k.(cancelled := true)
    case Leave => k.(phase := Over)
    case _ => k
  }

  function Apply(s: State, step: Step): State
    requires Enabled(s, step)
  {
    State(ApplyPipe(s.pipe, step), ApplyLink(s.link, step))
  }

  /** The attempt number handed to the backoff before the loop sleeps. */
  function DelayAttempt(k: Link, step: Step): int {
    match step
    case Dial(_) => k.attempt + 1
    case Open(_) => 1
    case _ => k.attempt + 1
  }

  ghost predicate Legal(s: State, steps: seq<Step>)
    decreases |steps|
  {
    steps == [] || (Enabled(s, steps[0]) && Legal(Apply(s, steps[0]), steps[1..]))
  }

  ghost function Run(s: State, steps: seq<Step>): State
    requires Legal(s, steps)
    decreases |steps|
  {
    if steps == [] then s else Run(Apply(s, steps[0]), steps[1..])
  }

  function Initial(subscriptions: nat): State {
    State(Pipe([], seq(subscriptions, _ => Feed([], [])), [], Absent, [], [], 0, 0), Link(Dialing, 0, false, 0))
  }

  // ------------------------------------------------------------- accounting

  function Load(feeds: seq<Feed>): nat {
    if feeds == [] then 0
    else Load(feeds[..|feeds| - 1]) + |feeds[|feeds| - 1].buffer| + |feeds[|feeds| - 1].held|
  }

  lemma {:induction false} LoadUpdate(feeds: seq<Feed>, f: nat, feed: Feed)
    requires f < |feeds|
    ensures Load(feeds[f := feed]) == Load(feeds) - |feeds[f].buffer| - |feeds[f].held| + |feed.buffer| + |feed.held|
  {
    var n := |feeds| - 1;
    if f < n {
      LoadUpdate(feeds[..n], f, feed);
      assert feeds[f := feed][..n] == feeds[..n][f := feed];
    } else {
      assert feeds[f := feed][..n] == feeds[..n];
    }
  }

  lemma {:induction false} EmptyLoad(n: nat)
    ensures Load(seq(n, _ => Feed([], []))) == 0
  {
    if n == 0 {
    } else {
      EmptyLoad(n - 1);
      assert seq(n, _ => Feed([], []))[..n - 1] == seq(n - 1, _ => Feed([], []));
    }
  }

  function Count(vs: seq<Verdict>, v: Verdict): nat {
    if vs == [] then 0 else Count(vs[..|vs| - 1], v) + if vs[|vs| - 1] == v then 1 else 0
  }

  lemma CountGrows(vs: seq<Verdict>, w: Verdict, v: Verdict)
    ensures Count(vs + [w], v) == Count(vs, v) + if w == v then 1 else 0
  {
    assert (vs + [w])[..|vs|] == vs;
  }

  /** Every message published to a subscription is in one place: lost at a full
      channel, on its way in, lost at a full queue, queued, in the sender's hand, or
      ignored, sent or failed. */
  ghost predicate Conserved(p: Pipe) {
    && |p.published| == p.lostAtBus + Load(p.feeds) + p.lostAtFanIn + |p.input| + |p.taken|
    && |p.taken| == |p.verdicts| + (if p.sender.Holding? then 1 else 0)
    && |p.verdicts| == Count(p.verdicts, Ignored) + Count(p.verdicts, Sent) + Count(p.verdicts, Failed)
    && |p.input| <= INPUT_CAPACITY
    && (forall f | 0 <= f < |p.feeds| :: |p.feeds[f].buffer| <= E.CAPACITY && |p.feeds[f].held| <= 1)
  }

  /** There is a sender exactly while a stream is up. */
  predicate Linked(s: State) {
    && (s.link.phase.Streaming? ==> !s.pipe.sender.Absent?)
    && (s.link.phase.Dialing? || s.link.phase.Opening? || s.link.phase.Sleeping? ==> s.pipe.sender.Absent?)
    && (s.pipe.sender.Finished? ==> s.link.cancelled)
  }

  /** Each failed send has been answered by one reconnect or is about to be. */
  ghost predicate FailuresAnswered(s: State) {
    Count(s.pipe.verdicts, Failed) == s.link.reconnects + (if s.pipe.sender.Broken? then 1 else 0)
  }

  lemma StepKeepsLinked(s: State, step: Step)
    requires Linked(s) && Enabled(s, step)
    ensures Linked(Apply(s, step))
  {
  }

  lemma StepKeepsAnswered(s: State, step: Step)
    requires Linked(s) && FailuresAnswered(s) && Enabled(s, step)
    ensures FailuresAnswered(Apply(s, step))
  {
    if step.Skip? || step.Send? {
      CountGrows(s.pipe.verdicts, if step.Skip? then Ignored else if step.ok then Sent else Failed, Failed);
    }
  }

  lemma FeedStepConserves(s: State, step: Step)
    requires Conserved(s.pipe) && Enabled(s, step) && (step.Publish? || step.Pick? || step.Push?)
    ensures Conserved(Apply(s, step).pipe)
  {
    var p, p' := s.pipe, Apply(s, step).pipe;
    LoadUpdate(p.feeds, step.feed, p'.feeds[step.feed]);
    assert p'.feeds == p.feeds[step.feed := p'.feeds[step.feed]];
  }

  lemma SenderStepConserves(s: State, step: Step)
    requires Conserved(s.pipe) && Linked(s) && Enabled(s, step) && !step.Publish? && !step.Pick? && !step.Push?
    ensures Conserved(Apply(s, step).pipe)
  {
    if step.Skip? || step.Send? {
      var v := if step.Skip? then Ignored else if step.ok then Sent else Failed;
      CountGrows(s.pipe.verdicts, v, Ignored);
      CountGrows(s.pipe.verdicts, v, Sent);
      CountGrows(s.pipe.verdicts, v, Failed);
    }
  }

  // ------------------------------------------------------- order, at most once

  predicate FromFeed(published: seq<Item>, n: Number, f: nat) {
    n < |published| && published[n].feed == f
  }

  /** Messages of one subscription never overtake each other, and none comes twice. */
  ghost predicate InOrder(published: seq<Item>, ns: seq<Number>) {
    && (forall i | 0 <= i < |ns| :: ns[i] < |published|)
    && (forall i, j | 0 <= i < j < |ns| && FromFeed(published, ns[j], published[ns[i]].feed) :: ns[i] < ns[j])
  }

  /** All messages of a subscription that passed are older than a given one. */
  ghost predicate Younger(published: seq<Item>, passed: seq<Number>, f: nat, n: Number) {
    forall i | 0 <= i < |passed| && FromFeed(published, passed[i], f) :: passed[i] < n
  }

  function Line(feed: Feed): seq<Number> { feed.held + feed.buffer }

  /** A subscription holds numbers of published messages only. */
  predicate Published(feed: Feed, n: nat) {
    && (forall j | 0 <= j < |feed.held| :: feed.held[j] < n)
    && (forall j | 0 <= j < |feed.buffer| :: feed.buffer[j] < n)
  }

  /** The messages still on a subscription's side are its own, in order, and younger
      than those of it that passed. */
  ghost predicate FeedBehind(published: seq<Item>, feed: Feed, f: nat, passed: seq<Number>) {
    && E.Increasing(Line(feed))
    && (forall j | 0 <= j < |Line(feed)| :: FromFeed(published, Line(feed)[j], f))
    && (forall j | 0 <= j < |Line(feed)| :: Younger(published, passed, f, Line(feed)[j]))
  }

  /** Only messages that are to be sent were, and only others were ignored. */
  ghost predicate Judged(p: Pipe) {
    |p.verdicts| <= |p.taken| && forall i | 0 <= i < |p.verdicts| ::
      p.taken[i] < |p.published| && (p.verdicts[i] != Ignored <==> Forwardable(p.published[p.taken[i]].message))
  }

  ghost predicate Fifo(p: Pipe) {
    && InOrder(p.published, p.taken + p.input)
    && (forall f | 0 <= f < |p.feeds| :: FeedBehind(p.published, p.feeds[f], f, p.taken + p.input))
  }

  lemma FeedAfterPublish(published: seq<Item>, item: Item, feed: Feed, feed': Feed, f: nat, passed: seq<Number>)
    requires InOrder(published, passed) && FeedBehind(published, feed, f, passed)
    requires Line(feed') == Line(feed) || (item.feed == f && Line(feed') == Line(feed) + [|published|])
    ensures FeedBehind(published + [item], feed', f, passed)
  {
    forall j | 0 <= j < |Line(feed')| ensures Younger(published + [item], passed, f, Line(feed')[j]) {
      if j < |Line(feed)| {
        assert Younger(published, passed, f, Line(feed)[j]);
      }
    }
  }

  lemma PublishKeepsFifo(s: State, step: Step)
    requires Fifo(s.pipe) && step.Publish? && Enabled(s, step)
    ensures Fifo(Apply(s, step).pipe)
  {
    var p, p' := s.pipe, Apply(s, step).pipe;
    var item := Item(step.feed, step.message);
    forall f | 0 <= f < |p'.feeds| ensures FeedBehind(p'.published, p'.feeds[f], f, p'.taken + p'.input) {
      assert Line(p'.feeds[f]) == if f == step.feed && |p.feeds[f].buffer| < E.CAPACITY
                                  then Line(p.feeds[f]) + [|p.published|] else Line(p.feeds[f]);
      FeedAfterPublish(p.published, item, p.feeds[f], p'.feeds[f], f, p.taken + p.input);
    }
  }

  lemma PickKeepsFifo(s: State, step: Step)
    requires Fifo(s.pipe) && step.Pick? && Enabled(s, step)
    ensures Fifo(Apply(s, step).pipe)
  {
    var p, p' := s.pipe, Apply(s, step).pipe;
    forall f | 0 <= f < |p'.feeds| ensures FeedBehind(p'.published, p'.feeds[f], f, p'.taken + p'.input) {
      assert FeedBehind(p.published, p.feeds[f], f, p.taken + p.input);
      assert Line(p'.feeds[f]) == Line(p.feeds[f]);
    }
  }

  /** A message younger than all of its feed that passed may pass next. */
  lemma OneMorePasses(published: seq<Item>, passed: seq<Number>, f: nat, n: Number)
    requires InOrder(published, passed) && FromFeed(published, n, f) && Younger(published, passed, f, n)
    ensures InOrder(published, passed + [n])
  {
    var more := passed + [n];
    forall i, j | 0 <= i < j < |more| && FromFeed(published, more[j], published[more[i]].feed)
      ensures more[i] < more[j]
    {
      if j == |passed| {
        assert FromFeed(published, passed[i], f);
      }
    }
  }

  lemma FeedAfterPush(published: seq<Item>, feed: Feed, feed': Feed, f: nat, pushed: nat, n: Number,
                      passed: seq<Number>, passed': seq<Number>)
    requires passed' == passed || passed' == passed + [n]
    requires FeedBehind(published, feed, f, passed) && FromFeed(published, n, pushed)
    requires if f == pushed then Line(feed) == [n] + Line(feed') else Line(feed') == Line(feed)
    ensures FeedBehind(published, feed', f, passed')
  {
    var line, line', shift := Line(feed), Line(feed'), if f == pushed then 1 else 0;
    assert forall j | 0 <= j < |line'| :: line'[j] == line[j + shift];
    assert f == pushed ==> line[0] == n;
    forall j | 0 <= j < |line'| ensures Younger(published, passed', f, line'[j]) && FromFeed(published, line'[j], f) {
      assert Younger(published, passed, f, line[j + shift]);
    }
  }

  /** The shape of a push: the held message leaves its line and may join the queue. */
  lemma PushMoves(p: Pipe, f: nat)
    requires f < |p.feeds| && |p.feeds[f].held| == 1
    ensures var p', n := ApplyPipe(p, Push(f)), p.feeds[f].held[0];
            && p'.published == p.published && |p'.feeds| == |p.feeds|
            && Line(p.feeds[f]) == [n] + Line(p'.feeds[f]) && Line(p.feeds[f])[0] == n
            && (forall g | 0 <= g < |p.feeds| && g != f :: p'.feeds[g] == p.feeds[g])
            && p'.taken + p'.input == p.taken + p.input + if |p.input| < INPUT_CAPACITY then [n] else []
  {
  }

  lemma PushKeepsOrder(p: Pipe, f: nat)
    requires Fifo(p) && f < |p.feeds| && |p.feeds[f].held| == 1
    ensures var p' := ApplyPipe(p, Push(f)); InOrder(p'.published, p'.taken + p'.input)
  {
    PushMoves(p, f);
    var n := Line(p.feeds[f])[0];
    assert FromFeed(p.published, n, f) && Younger(p.published, p.taken + p.input, f, n);
    OneMorePasses(p.published, p.taken + p.input, f, n);
    assert p.taken + p.input + [] == p.taken + p.input;
  }

  lemma PushKeepsFeed(p: Pipe, f: nat, g: nat)
    requires Fifo(p) && f < |p.feeds| && g < |p.feeds| && |p.feeds[f].held| == 1
    ensures var p' := ApplyPipe(p, Push(f)); FeedBehind(p'.published, p'.feeds[g], g, p'.taken + p'.input)
  {
    PushMoves(p, f);
    var p', n := ApplyPipe(p, Push(f)), Line(p.feeds[f])[0];
    assert FromFeed(p.published, n, f);
    assert p.taken + p.input + [] == p.taken + p.input;
    FeedAfterPush(p.published, p.feeds[g], p'.feeds[g], g, f, n, p.taken + p.input, p'.taken + p'.input);
  }

  lemma PushKeepsFifo(s: State, step: Step)
    requires Fifo(s.pipe) && step.Push? && Enabled(s, step)
    ensures Fifo(Apply(s, step).pipe)
  {
    PushKeepsOrder(s.pipe, step.feed);
    forall g | 0 <= g < |s.pipe.feeds|
      ensures FeedBehind(s.pipe.published, ApplyPipe(s.pipe, step).feeds[g], g,
                         ApplyPipe(s.pipe, step).taken + ApplyPipe(s.pipe, step).input)
    {
      PushKeepsFeed(s.pipe, step.feed, g);
    }
  }

  lemma OtherKeepsFifo(s: State, step: Step)
    requires Fifo(s.pipe) && Enabled(s, step) && !step.Publish? && !step.Pick? && !step.Push?
    ensures Fifo(Apply(s, step).pipe)
  {
    var p, p' := s.pipe, Apply(s, step).pipe;
    assert p'.taken + p'.input == p.taken + p.input;
  }

  lemma StepKeepsJudged(s: State, step: Step)
    requires Judged(s.pipe) && Conserved(s.pipe) && Enabled(s, step)
    ensures Judged(Apply(s, step).pipe)
  {
  }

  ghost predicate Inv(s: State) {
    Conserved(s.pipe) && Linked(s) && FailuresAnswered(s) && Fifo(s.pipe) && Judged(s.pipe)
  }

  lemma StepKeepsInv(s: State, step: Step)
    requires Inv(s) && Enabled(s, step)
    ensures Inv(Apply(s, step))
  {
    StepKeepsLinked(s, step);
    StepKeepsAnswered(s, step);
    StepKeepsJudged(s, step);
    if step.Publish? || step.Pick? || step.Push? {
      FeedStepConserves(s, step);
      if step.Publish? {
        PublishKeepsFifo(s, step);
      } else if step.Pick? {
        PickKeepsFifo(s, step);
      } else {
        PushKeepsFifo(s, step);
      }
    } else {
      SenderStepConserves(s, step);
      OtherKeepsFifo(s, step);
    }
  }

  lemma {:induction false} RunKeepsInv(s: State, steps: seq<Step>)
    requires Inv(s) && Legal(s, steps)
    ensures Inv(Run(s, steps))
    decreases |steps|
  {
    if steps == [] {
    } else {
      StepKeepsInv(s, steps[0]);
      RunKeepsInv(Apply(s, steps[0]), steps[1..]);
    }
  }

  /** In every run, over any number of broken streams: nothing is counted twice or
      forgotten, each stream error costs the one message being sent, and what is sent
      is each subscription's messages in their order, none of them twice. */
  lemma EveryRunKeepsInv(subscriptions: nat, steps: seq<Step>)
    requires Legal(Initial(subscriptions), steps)
    ensures Inv(Run(Initial(subscriptions), steps))
  {
    InitialInv(subscriptions);
    RunKeepsInv(Initial(subscriptions), steps);
  }

  lemma InitialInv(subscriptions: nat)
    ensures Inv(Initial(subscriptions))
  {
    EmptyLoad(subscriptions);
  }

  /** Read off the invariant: the sender takes each message once, and of two it sent
      for one subscription the earlier published went first. */
  lemma SentOnceInOrder(subscriptions: nat, steps: seq<Step>, i: nat, j: nat)
    requires Legal(Initial(subscriptions), steps)
    requires i < j < |Run(Initial(subscriptions), steps).pipe.verdicts|
    ensures var p := Run(Initial(subscriptions), steps).pipe;
            && j < |p.taken| && p.taken[i] != p.taken[j]
            && p.taken[i] < |p.published| && p.taken[j] < |p.published|
            && (p.published[p.taken[i]].feed == p.published[p.taken[j]].feed ==> p.taken[i] < p.taken[j])
            && (p.verdicts[i].Sent? ==> Forwardable(p.published[p.taken[i]].message))
  {
    EveryRunKeepsInv(subscriptions, steps);
    var p := Run(Initial(subscriptions), steps).pipe;
    var passed := p.taken + p.input;
    assert passed[i] == p.taken[i] && passed[j] == p.taken[j];
    assert FromFeed(p.published, passed[j], p.published[passed[j]].feed);
  }

  /** What the sender did with each message, the guard written out: log records of a scope
      other than root and a kernel other than rk are sent or fail, all else is ignored. */
  lemma VerdictIs(subscriptions: nat, steps: seq<Step>, i: nat)
    requires Legal(Initial(subscriptions), steps)
    requires i < |Run(Initial(subscriptions), steps).pipe.verdicts|
    ensures var p := Run(Initial(subscriptions), steps).pipe;
            i < |p.taken| && p.taken[i] < |p.published| &&
            match p.published[p.taken[i]].message
            case Log(r) => p.verdicts[i] == Ignored <==> r.scope == "root" || r.kernelId == "rk"
            case NoMessage => p.verdicts[i] == Ignored
            case Foreign => p.verdicts[i] == Ignored
  {
    EveryRunKeepsInv(subscriptions, steps);
  }

  /** A message is lost at the bus only if 16 are buffered, and at the fan-in only if 256
      are queued; else it is kept. */
  lemma LostOnlyWhenFull(s: State, step: Step)
    requires Enabled(s, step)
    ensures var p, p' := s.pipe, Apply(s, step).pipe;
            && p'.lostAtBus == p.lostAtBus + (if step.Publish? && |p.feeds[step.feed].buffer| >= 16 then 1 else 0)
            && p'.lostAtFanIn == p.lostAtFanIn + (if step.Push? && |p.input| >= 256 then 1 else 0)
  {
  }

  // ----------------------------------------------------- the attempt counter

  /** Dials that failed since the last one that succeeded or the last send error. */
  function FailedDials(steps: seq<Step>): nat {
    if steps == [] then 0
    else
      var before, last := steps[..|steps| - 1], steps[|steps| - 1];
      if last == Dial(false) then FailedDials(before) + 1
      else if last.Dial? || last.Reconnect? then 0
      else FailedDials(before)
  }

  /** Whether the loop has had a send error and not dialled with success since. */
  predicate AfterSendError(steps: seq<Step>) {
    steps != [] &&
    var before, last := steps[..|steps| - 1], steps[|steps| - 1];
    last.Reconnect? || (last != Dial(true) && AfterSendError(before))
  }

  lemma {:induction false} RunAppend(s: State, steps: seq<Step>, last: Step)
    requires Legal(s, steps + [last])
    ensures Legal(s, steps) && Enabled(Run(s, steps), last)
    ensures Run(s, steps + [last]) == Apply(Run(s, steps), last)
    decreases |steps|
  {
    if steps == [] {
      assert (steps + [last])[1..] == [];
    } else {
      assert (steps + [last])[1..] == steps[1..] + [last];
      RunAppend(Apply(s, steps[0]), steps[1..], last);
    }
  }

  /** The backoff argument counts the failed dials in a row, one more if a send error
      came before them; while a stream is open or opening it is zero. */
  lemma {:induction false} AttemptFollowsHistory(subscriptions: nat, steps: seq<Step>)
    requires Legal(Initial(subscriptions), steps)
    ensures var k := Run(Initial(subscriptions), steps).link;
            && k.attempt == FailedDials(steps) + (if AfterSendError(steps) then 1 else 0)
            && (k.phase.Opening? || k.phase.Streaming? ==> k.attempt == 0)
    decreases |steps|
  {
    if steps == [] {
    } else {
      var before, last := steps[..|steps| - 1], steps[|steps| - 1];
      assert steps == before + [last];
      RunAppend(Initial(subscriptions), before, last);
      AttemptFollowsHistory(subscriptions, before);
    }
  }

  /** The last thing that happened to the connection, if anything has. */
  function LastOfLink(steps: seq<Step>): Step {
    if steps == [] then Wake
    else match steps[|steps| - 1]
      case Dial(_) => steps[|steps| - 1]
      case Open(_) => steps[|steps| - 1]
      case Reconnect => Reconnect
      case Wake => Wake
      case Leave => Leave
      case _ => LastOfLink(steps[..|steps| - 1])
  }

  /** Where the loop stands follows from that: it dials at first and after each wait, and
      waits after a failed dial, a failed opening and a send error. */
  lemma {:induction false} PhaseFollowsHistory(subscriptions: nat, steps: seq<Step>)
    requires Legal(Initial(subscriptions), steps)
    ensures Run(Initial(subscriptions), steps).link.phase ==
            match LastOfLink(steps)
            case Dial(ok) => if ok then Opening else Sleeping
            case Open(ok) => if ok then Streaming else Sleeping
            case Reconnect => Sleeping
            case Leave => Over
            case _ => Dialing
    ensures Run(Initial(subscriptions), steps).link.cancelled <==> Cancel in steps
    decreases |steps|
  {
    if steps == [] {
    } else {
      var before, last := steps[..|steps| - 1], steps[|steps| - 1];
      assert steps == before + [last];
      RunAppend(Initial(subscriptions), before, last);
      PhaseFollowsHistory(subscriptions, before);
    }
  }

  /** So the wait after a send error never grows: it is always the first delay, however
      many streams broke in a row. */
  lemma SendErrorWaitsFirstDelay(subscriptions: nat, steps: seq<Step>)
    requires Legal(Initial(subscriptions), steps + [Reconnect])
    ensures Legal(Initial(subscriptions), steps)
    ensures DelayAttempt(Run(Initial(subscriptions), steps).link, Reconnect) == 1
  {
    RunAppend(Initial(subscriptions), steps, Reconnect);
    AttemptFollowsHistory(subscriptions, steps);
  }

  // ----------------------------------------------------------------- the code

  class Forwarder {
    var feeds: seq<Feed>
    var input: seq<Number>
    var sender: Sender
    var holding: Number
    var phase: Phase
    var attempt: int
    var cancelled: bool
    // history
    var published: seq<Item>
    var taken: seq<Number>
    ghost var verdicts: seq<Verdict>
    ghost var lostAtBus: nat
    ghost var lostAtFanIn: nat
    ghost var reconnects: nat

    ghost function View(): State
      reads this
    {
      State(Pipe(published, feeds, input, sender, taken, verdicts, lostAtBus, lostAtFanIn),
            Link(phase, attempt, cancelled, reconnects))
    }

    /** The sender holds the last message taken, and only published messages are on
        their way to it. */
    ghost predicate Valid()
      reads this
    {
      && (sender.Holding? ==> taken != [] && taken[|taken| - 1] == holding && holding < |published|)
      && (forall i | 0 <= i < |input| :: input[i] < |published|)
      && (forall f | 0 <= f < |feeds| :: Published(feeds[f], |published|))
    }

    constructor (subscriptions: nat)
      ensures View() == Initial(subscriptions) && Valid()
    {
      feeds := seq(subscriptions, _ => Feed([], []));
      input, sender, holding, phase, attempt, cancelled := [], Absent, 0, Dialing, 0, false;
      published, taken, verdicts, lostAtBus, lostAtFanIn, reconnects := [], [], [], 0, 0, 0;
    }

    /** The bus offers a message to a subscription. */
    method Deliver(f: nat, m: Message)
      requires Valid() && f < |feeds|
      modifies this
      ensures View() == Apply(old(View()), Publish(f, m)) && Valid()
    {
      var n := |published|;
      published := published + [Item(f, m)];
      if |feeds[f].buffer| < E.CAPACITY {
        feeds := feeds[f := feeds[f].(buffer := feeds[f].buffer + [n])];
      } else {
        lostAtBus := lostAtBus + 1;
      }
    }

    method FanInReceive(f: nat)
      requires Valid() && Enabled(View(), Pick(f))
      modifies this
      ensures View() == Apply(old(View()), Pick(f)) && Valid()
    {
      feeds := feeds[f := Feed(feeds[f].buffer[1..], [feeds[f].buffer[0]])];
    }

    method FanInPush(f: nat)
      requires Valid() && Enabled(View(), Push(f))
      modifies this
      ensures View() == Apply(old(View()), Push(f)) && Valid()
    {
      var m := feeds[f].held;
      feeds := feeds[f := feeds[f].(held := [])];
      if |input| < INPUT_CAPACITY {
        input := input + m;
      } else {
        lostAtFanIn := lostAtFanIn + 1;
      }
    }

    method SenderReceive()
      requires Valid() && Enabled(View(), Take)
      modifies this
      ensures View() == Apply(old(View()), Take) && Valid()
    {
      holding := input[0];
      taken := taken + [holding];
      input := input[1..];
      sender := Holding;
    }

    /** The sender's handling of the message in its hand; streamOk is the outcome of
        the stream's Send, if it gets that far. */
    method SenderHandle(streamOk: bool)
      requires Valid() && sender.Holding?
      modifies this
      ensures Valid()
      ensures var m := old(published)[old(holding)].message;
              View() == Apply(old(View()), if Forwardable(m) then Send(streamOk) else Skip)
    {
      sender := Idle;
      var forward := false;
      match published[holding].message {
        case Log(rec) =>
          forward := !(rec.scope == "root" || rec.kernelId == "rk");
        case _ =>
      }
      if !forward {
        verdicts := verdicts + [Ignored];
      } else if streamOk {
        verdicts := verdicts + [Sent];
      } else {
        verdicts := verdicts + [Failed];
        sender := Broken;
      }
    }

    method SenderQuit()
      requires Valid() && Enabled(View(), Quit)
      modifies this
      ensures View() == Apply(old(View()), Quit) && Valid()
    {
      sender := Finished;
    }

    /** The top of the loop: the counter goes up, the dial ends, and on failure the
        backoff is asked for that attempt. */
    method DialGateway(ok: bool) returns (waitFor: int)
      requires Valid() && phase.Dialing?
      modifies this
      ensures View() == Apply(old(View()), Dial(ok)) && Valid()
      ensures !ok ==> waitFor == DelayAttempt(old(View()).link, Dial(ok)) == attempt
    {
      attempt := attempt + 1;
      waitFor := attempt;
      if !ok {
        phase := Sleeping;
      } else {
        attempt := 0;
        phase := Opening;
      }
    }

    /** On failure the backoff is asked for the first attempt. */
    method OpenStream(ok: bool) returns (waitFor: int)
      requires Valid() && phase.Opening? && sender.Absent?
      modifies this
      ensures View() == Apply(old(View()), Open(ok)) && Valid()
      ensures !ok ==> waitFor == DelayAttempt(old(View()).link, Open(ok)) == 1
    {
      waitFor := 1;
      if ok {
        sender := Idle;
        phase := Streaming;
      } else {
        phase := Sleeping;
      }
    }

    method HandleSendError() returns (waitFor: int)
      requires Valid() && Enabled(View(), Reconnect)
      modifies this
      ensures View() == Apply(old(View()), Reconnect) && Valid()
      ensures waitFor == DelayAttempt(old(View()).link, Reconnect) == attempt
    {
      attempt := attempt + 1;
      waitFor := attempt;
      reconnects := reconnects + 1;
      sender := Absent;
      phase := Sleeping;
    }

    /** The select between the backoff timer and the context. */
    method SleepOver(timerFires: bool)
      requires Valid() && phase.Sleeping? && (timerFires || cancelled)
      modifies this
      ensures View() == Apply(old(View()), if timerFires then Wake else Leave) && Valid()
    {
      phase := if timerFires then Dialing else Over;
    }

    method CancelContext()
      requires Valid()
      modifies this
      ensures View() == Apply(old(View()), Cancel) && Valid()
    {
      cancelled := true;
    }

    method LeaveStream()
      requires Valid() && phase.Streaming? && (cancelled || sender.Finished?)
      modifies this
      ensures View() == Apply(old(View()), Leave) && Valid()
    {
      phase := Over;
    }
  }
}
