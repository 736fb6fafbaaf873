/** Rounds of the log loop exist: from a forwarder that has connected and one record of
    scope domain or function, runs that lose nothing double the copies as often as one
    likes. */
module LogEcho {
  import opened EventBus
  import opened LogGateway
  import opened LogLoop
  import H = SafeLogHub
  import F = Forwarder

  const NO_FEED := F.Feed([], [])

  /** Some run from the start leads here. */
  ghost predicate Reachable(s: Setup, start: Joint, j: Joint) {
    AtStart(s, start) && exists steps :: LogLoop.Legal(s, start, steps) && LogLoop.Run(s, start, steps) == j
  }

  /** The stream is up and nothing is under way inside the forwarder. */
  ghost predicate Quiet(s: Setup, start: Joint, j: Joint) {
    Reachable(s, start, j) && Calm(j.fw)
  }

  ghost predicate Calm(fw: F.State) {
    Ready(fw) && forall f | 0 <= f < |fw.pipe.feeds| :: fw.pipe.feeds[f] == NO_FEED
  }

  predicate Ready(fw: F.State) {
    fw.link.phase.Streaming? && fw.pipe.sender.Idle? && fw.pipe.input == []
  }

  /** And the hub has nothing left to publish: all copies are on the stream. */
  ghost predicate Normal(s: Setup, start: Joint, j: Joint) {
    Quiet(s, start, j) && j.due == []
  }

  /** What is needed of the invariant here. */
  ghost predicate Sane(s: Setup, j: Joint) {
    && Fits(s, j) && Consistent(j.bus) && s.topics == FORWARDER_TOPICS
    && BuffersAgree(s, j.bus, j.fw) && (j.due != [] ==> Free(j.current))
  }

  lemma Facts(s: Setup, start: Joint, j: Joint)
    requires Reachable(s, start, j)
    ensures Sane(s, j)
  {
    var steps :| LogLoop.Legal(s, start, steps) && LogLoop.Run(s, start, steps) == j;
    StartInv(s, start);
    JointRunKeepsInv(s, start, steps);
  }

  lemma StepReaches(s: Setup, start: Joint, j: Joint, step: JointStep)
    requires Reachable(s, start, j) && LogLoop.Enabled(s, j, step)
    ensures Reachable(s, start, LogLoop.Apply(s, j, step))
  {
    var steps :| LogLoop.Legal(s, start, steps) && LogLoop.Run(s, start, steps) == j;
    OneStep(s, j, step);
    Append(s, start, steps, [step]);
  }

  lemma OneStep(s: Setup, j: Joint, step: JointStep)
    requires LogLoop.Enabled(s, j, step)
    ensures LogLoop.Legal(s, j, [step]) && LogLoop.Run(s, j, [step]) == LogLoop.Apply(s, j, step)
  {
    assert [step][1..] == [];
  }

  lemma {:induction false} EmptyFeeds(feeds: seq<F.Feed>)
    requires forall f | 0 <= f < |feeds| :: feeds[f] == NO_FEED
    ensures F.Load(feeds) == 0
    decreases |feeds|
  {
    if feeds == [] {
    } else {
      EmptyFeeds(feeds[..|feeds| - 1]);
    }
  }

  lemma NormalCirculation(s: Setup, j: Joint)
    requires Calm(j.fw) && j.due == []
    ensures Circulating(s, j) == |j.stream|
  {
    EmptyFeeds(j.fw.pipe.feeds);
  }

  // ---------------------------------------------------------- runs put together

  lemma Prepend(s: Setup, j: Joint, step: JointStep, rest: seq<JointStep>)
    requires LogLoop.Enabled(s, j, step) && LogLoop.Legal(s, LogLoop.Apply(s, j, step), rest)
    ensures LogLoop.Legal(s, j, [step] + rest)
    ensures LogLoop.Run(s, j, [step] + rest) == LogLoop.Run(s, LogLoop.Apply(s, j, step), rest)
  {
    assert ([step] + rest)[1..] == rest;
  }

  lemma {:induction false} Append(s: Setup, j: Joint, steps: seq<JointStep>, more: seq<JointStep>)
    requires LogLoop.Legal(s, j, steps) && LogLoop.Legal(s, LogLoop.Run(s, j, steps), more)
    ensures LogLoop.Legal(s, j, steps + more)
    ensures LogLoop.Run(s, j, steps + more) == LogLoop.Run(s, LogLoop.Run(s, j, steps), more)
    decreases |steps|
  {
    if steps == [] {
      assert steps + more == more;
    } else {
      assert (steps + more)[1..] == steps[1..] + more;
      Append(s, LogLoop.Apply(s, j, steps[0]), steps[1..], more);
    }
  }

  // -------------------------------------------------- one message is delivered

  /** One message waits in one feed, and nothing else. */
  ghost predicate Waiting(fw: F.State, f: nat, r: H.Record) {
    && Ready(fw) && Free(r)
    && var p := fw.pipe;
       && f < |p.feeds| && p.published != [] && p.feeds[f] == F.Feed([|p.published| - 1], [])
       && p.published[|p.published| - 1].message == F.Log(r)
       && forall g | 0 <= g < |p.feeds| && g != f :: p.feeds[g] == NO_FEED
  }

  /** A step of the forwarder in the whole: it is enabled, and only a send shows. */
  lemma ForwardStep(s: Setup, start: Joint, j: Joint, a: F.Step)
    requires Reachable(s, start, j) && F.Enabled(j.fw, a) && !a.Publish?
    ensures LogLoop.Enabled(s, j, Forward(a))
    ensures var j' := LogLoop.Apply(s, j, Forward(a));
            && Reachable(s, start, j') && j'.fw == F.Apply(j.fw, a) && OthersSame(j, j')
            && (a != F.Send(true) ==> j'.stream == j.stream)
            && (a == F.Send(true) ==> j'.stream == j.stream + [F.InHand(j.fw.pipe).record])
  {
    Facts(s, start, j);
    StepReaches(s, start, j, Forward(a));
  }

  predicate OthersSame(j: Joint, j': Joint) {
    && j'.received == j.received && j'.again == j.again && j'.cut == j.cut
    && j'.brought == j.brought && j'.guarded == j.guarded
    && j'.current == j.current && j'.due == j.due
  }

  predicate Inside(a: F.Step) {
    !a.Publish? && a != F.Send(true)
  }

  /** Steps inside the forwarder show nowhere else. */
  lemma {:induction false} Forwards(s: Setup, start: Joint, j: Joint, actions: seq<F.Step>)
    returns (steps: seq<JointStep>)
    requires Reachable(s, start, j) && F.Legal(j.fw, actions)
    requires forall i | 0 <= i < |actions| :: Inside(actions[i])
    ensures LogLoop.Legal(s, j, steps) && NoOriginals(steps)
    ensures var j' := LogLoop.Run(s, j, steps);
            && Reachable(s, start, j') && j'.fw == F.Run(j.fw, actions) && OthersSame(j, j') && j'.stream == j.stream
    decreases |actions|
  {
    if actions == [] {
      steps := [];
    } else {
      assert Inside(actions[0]);
      ForwardStep(s, start, j, actions[0]);
      var rest := Forwards(s, start, LogLoop.Apply(s, j, Forward(actions[0])), actions[1..]);
      Prepend(s, j, Forward(actions[0]), rest);
      steps := [Forward(actions[0])] + rest;
    }
  }

  /** The forwarder alone, from a waiting message to its send. */
  lemma DeliverForward(fw: F.State, f: nat, r: H.Record)
    requires Waiting(fw, f, r)
    ensures var actions := [F.Pick(f), F.Push(f), F.Take];
            F.Legal(fw, actions) &&
            var fw' := F.Run(fw, actions);
            && F.Enabled(fw', F.Send(true)) && F.InHand(fw'.pipe) == F.Log(r)
            && Calm(F.Apply(fw', F.Send(true))) && Lost(F.Apply(fw', F.Send(true)).pipe) == Lost(fw.pipe)
  {
    var n := |fw.pipe.published| - 1;
    var fw1 := F.Apply(fw, F.Pick(f));
    assert [n][1..] == [] && [n][0] == n;
    assert fw1.pipe == fw.pipe.(feeds := fw.pipe.feeds[f := F.Feed([], [n])]);
    var fw2 := F.Apply(fw1, F.Push(f));
    assert fw2.pipe == fw.pipe.(feeds := fw.pipe.feeds[f := NO_FEED], input := [n]);
    var fw3 := F.Apply(fw2, F.Take);
    assert [F.Pick(f), F.Push(f), F.Take][1..] == [F.Push(f), F.Take] && [F.Push(f), F.Take][1..] == [F.Take];
    assert [F.Take][1..] == [];
    assert F.Run(fw2, [F.Take]) == fw3;
    F.CountGrows(fw.pipe.verdicts, F.Sent, F.Failed);
  }

  lemma Deliver(s: Setup, start: Joint, j: Joint, f: nat, r: H.Record) returns (steps: seq<JointStep>)
    requires Reachable(s, start, j) && Waiting(j.fw, f, r)
    ensures LogLoop.Legal(s, j, steps) && NoOriginals(steps)
    ensures var j' := LogLoop.Run(s, j, steps);
            && Quiet(s, start, j') && OthersSame(j, j') && LostOnTheWay(j') == LostOnTheWay(j)
            && j'.stream == j.stream + [r]
  {
    DeliverForward(j.fw, f, r);
    var actions := [F.Pick(f), F.Push(f), F.Take];
    assert Inside(actions[0]) && Inside(actions[1]) && Inside(actions[2]);
    var most := Forwards(s, start, j, actions);
    var j' := LogLoop.Run(s, j, most);
    ForwardStep(s, start, j', F.Send(true));
    OneStep(s, j', Forward(F.Send(true)));
    Append(s, j, most, [Forward(F.Send(true))]);
    steps := most + [Forward(F.Send(true))];
  }

  // ------------------------------------------------------- one publish of the hub

  lemma {:induction false} FanNone(fw: F.State, topics: seq<string>, t: string, m: F.Message, f: nat)
    requires f <= |topics| <= |fw.pipe.feeds| && forall g | f <= g < |topics| :: topics[g] != t
    ensures Fan(fw, topics, t, m, f) == fw
    decreases |topics| - f
  {
    if f == |topics| {
    } else {
      FanNone(fw, topics, t, m, f + 1);
    }
  }

  lemma {:induction false} FanOne(fw: F.State, topics: seq<string>, t: string, m: F.Message, f: nat, g: nat)
    requires f <= g < |topics| <= |fw.pipe.feeds| && topics[g] == t
    requires forall h | f <= h < |topics| && h != g :: topics[h] != t
    ensures Fan(fw, topics, t, m, f) == F.Apply(fw, F.Publish(g, m))
    decreases |topics| - f
  {
    if f == g {
      FanNone(F.Apply(fw, F.Publish(g, m)), topics, t, m, f + 1);
    } else {
      FanOne(fw, topics, t, m, f + 1, g);
    }
  }

  /** Each topic has at most one of the subscriptions. */
  lemma TopicFeed(t: string) returns (f: nat)
    ensures if f < 3 then FORWARDER_TOPICS[f] == t && Occurrences(FORWARDER_TOPICS, t) == 1
            else Occurrences(FORWARDER_TOPICS, t) == 0
    ensures forall g | 0 <= g < 3 && g != f :: FORWARDER_TOPICS[g] != t
  {
    TopicsDiffer();
    OccurrencesOf(t);
    f := if t == H.TOPIC_ALL then 0 else if t == TOPIC_DOMAIN then 1 else if t == TOPIC_FUNCTION then 2 else 3;
  }

  /** A calm forwarder after a publish: one message waits, or nothing has changed. */
  lemma CalmPublished(fw: F.State, topics: seq<string>, t: string, r: H.Record) returns (f: nat)
    requires Calm(fw) && Free(r) && topics == FORWARDER_TOPICS && |fw.pipe.feeds| == 3
    ensures var fw' := Fan(fw, topics, t, F.Log(r), 0);
            && Lost(fw'.pipe) == Lost(fw.pipe)
            && Occurrences(topics, t) == (if f < 3 then 1 else 0)
            && if f < 3 then Waiting(fw', f, r) else Calm(fw')
  {
    f := TopicFeed(t);
    if f < 3 {
      FanOne(fw, topics, t, F.Log(r), 0, f);
    } else {
      FanNone(fw, topics, t, F.Log(r), 0);
    }
  }

  /** On the way from such a publish to being quiet again. */
  lemma AfterPublished(s: Setup, start: Joint, j: Joint, f: nat, r: H.Record) returns (steps: seq<JointStep>)
    requires Reachable(s, start, j) && if f < 3 then Waiting(j.fw, f, r) else Calm(j.fw)
    ensures LogLoop.Legal(s, j, steps) && NoOriginals(steps)
    ensures var j' := LogLoop.Run(s, j, steps);
            && Quiet(s, start, j') && OthersSame(j, j') && LostOnTheWay(j') == LostOnTheWay(j)
            && j'.stream == j.stream + Copies(r, if f < 3 then 1 else 0)
  {
    if f < 3 {
      steps := Deliver(s, start, j, f, r);
      assert Copies(r, 1) == [r];
    } else {
      steps := [];
      assert j.stream + Copies(r, 0) == j.stream;
    }
  }

  lemma PublishOnce(s: Setup, start: Joint, j: Joint) returns (steps: seq<JointStep>)
    requires Quiet(s, start, j) && j.due != []
    ensures LogLoop.Legal(s, j, steps) && NoOriginals(steps)
    ensures var j' := LogLoop.Run(s, j, steps);
            && Quiet(s, start, j') && OthersSame(j.(due := j.due[1..]), j') && LostOnTheWay(j') == LostOnTheWay(j)
            && j'.stream == j.stream + Copies(j.current, Occurrences(FORWARDER_TOPICS, j.due[0]))
  {
    Facts(s, start, j);
    var j1 := LogLoop.Apply(s, j, JointStep.Publish);
    StepReaches(s, start, j, JointStep.Publish);
    var f := CalmPublished(j.fw, s.topics, j.due[0], j.current);
    var rest := AfterPublished(s, start, j1, f, j.current);
    Prepend(s, j, JointStep.Publish, rest);
    steps := [JointStep.Publish] + rest;
  }

  /** The publish of the first topic due and those of the others are those of all. */
  lemma OneAndTheRest(j: Joint, j1: Joint, j2: Joint)
    requires j.due != [] && OthersSame(j.(due := j.due[1..]), j1) && OthersSame(j1.(due := []), j2)
    requires j1.stream == j.stream + Copies(j.current, Occurrences(FORWARDER_TOPICS, j.due[0]))
    requires j2.stream == j1.stream + Copies(j.current, Reached(FORWARDER_TOPICS, j.due[1..]))
    ensures OthersSame(j.(due := []), j2)
    ensures j2.stream == j.stream + Copies(j.current, Reached(FORWARDER_TOPICS, j.due))
  {
  }

  lemma {:induction false} PublishDue(s: Setup, start: Joint, j: Joint) returns (steps: seq<JointStep>)
    requires Quiet(s, start, j)
    ensures LogLoop.Legal(s, j, steps) && NoOriginals(steps)
    ensures var j' := LogLoop.Run(s, j, steps);
            && Normal(s, start, j') && OthersSame(j.(due := []), j') && LostOnTheWay(j') == LostOnTheWay(j)
            && j'.stream == j.stream + Copies(j.current, Reached(FORWARDER_TOPICS, j.due))
    decreases |j.due|
  {
    if j.due == [] {
      steps := [];
      assert j.stream + Copies(j.current, 0) == j.stream;
    } else {
      var first := PublishOnce(s, start, j);
      var j1 := LogLoop.Run(s, j, first);
      var rest := PublishDue(s, start, j1);
      var j2 := LogLoop.Run(s, j1, rest);
      AppendQuiet(s, j, first, rest, j1, j2);
      OneAndTheRest(j, j1, j2);
      steps := first + rest;
    }
  }

  lemma AppendQuiet(s: Setup, j: Joint, steps: seq<JointStep>, more: seq<JointStep>, j1: Joint, j2: Joint)
    requires LogLoop.Legal(s, j, steps) && NoOriginals(steps) && j1 == LogLoop.Run(s, j, steps)
    requires LogLoop.Legal(s, j1, more) && NoOriginals(more) && j2 == LogLoop.Run(s, j1, more)
    ensures LogLoop.Legal(s, j, steps + more) && NoOriginals(steps + more) && LogLoop.Run(s, j, steps + more) == j2
  {
    Append(s, j, steps, more);
  }

  // ----------------------------------------------------------- rounds and growth

  /** The gateway receives one record, and its copies are on the stream again. */
  lemma Cycle(s: Setup, start: Joint, j: Joint) returns (steps: seq<JointStep>)
    requires Normal(s, start, j) && j.stream != []
    ensures LogLoop.Legal(s, j, steps) && NoOriginals(steps)
    ensures var j', r := LogLoop.Run(s, j, steps), j.stream[0];
            && Normal(s, start, j') && LostOnTheWay(j') == LostOnTheWay(j) && j'.brought == j.brought
            && j'.received == j.received + 1 && j'.again == j.again + (if ComesBackTwice(r.scope) then 1 else 0)
            && j'.stream == j.stream[1..] + Copies(r, if ComesBackTwice(r.scope) then 2 else 1)
  {
    Facts(s, start, j);
    var j1 := LogLoop.Apply(s, j, JointStep.Receive);
    StepReaches(s, start, j, JointStep.Receive);
    ReachedPerRecord(j.stream[0].scope);
    var rest := PublishDue(s, start, j1);
    Prepend(s, j, JointStep.Receive, rest);
    steps := [JointStep.Receive] + rest;
  }

  ghost predicate OnlyThese(rs: seq<H.Record>, among: seq<H.Record>) {
    forall r | r in rs :: r in among
  }

  predicate AllComeTwice(rs: seq<H.Record>) {
    forall i | 0 <= i < |rs| :: ComesBackTwice(rs[i].scope)
  }

  lemma CycledStream(rs: seq<H.Record>, n: nat)
    requires rs != []
    ensures OnlyThese(rs[1..] + Copies(rs[0], n), rs)
  {
    forall r | r in rs[1..] + Copies(rs[0], n) ensures r in rs {
    }
  }

  /** As many cycles as records were on the stream, or fewer. */
  lemma {:induction false} Cycles(s: Setup, start: Joint, j: Joint, n: nat) returns (steps: seq<JointStep>)
    requires Normal(s, start, j) && n <= |j.stream|
    ensures LogLoop.Legal(s, j, steps) && NoOriginals(steps)
    ensures var j' := LogLoop.Run(s, j, steps);
            && Normal(s, start, j') && LostOnTheWay(j') == LostOnTheWay(j) && j'.brought == j.brought
            && j'.received == j.received + n && OnlyThese(j'.stream, j.stream)
            && |j'.stream| == |j.stream| + j'.again - j.again >= |j.stream|
            && (AllComeTwice(j.stream) ==> |j'.stream| == |j.stream| + n && AllComeTwice(j'.stream))
    decreases n
  {
    if n == 0 {
      steps := [];
    } else {
      var most := Cycles(s, start, j, n - 1);
      var j1 := LogLoop.Run(s, j, most);
      var last := Cycle(s, start, j1);
      Append(s, j, most, last);
      CycledStream(j1.stream, if ComesBackTwice(j1.stream[0].scope) then 2 else 1);
      steps := most + last;
    }
  }

  /** From every quiet moment there is a round, and after it there is another. */
  lemma RoundFollows(s: Setup, start: Joint, j: Joint) returns (steps: seq<JointStep>)
    requires Normal(s, start, j)
    ensures IsRound(s, j, steps)
    ensures var j' := LogLoop.Run(s, j, steps);
            && Normal(s, start, j') && j'.brought == j.brought && OnlyThese(j'.stream, j.stream)
            && (AllComeTwice(j.stream) ==> |j'.stream| == |j.stream| + |j.stream| && AllComeTwice(j'.stream))
  {
    NormalCirculation(s, j);
    steps := Cycles(s, start, j, |j.stream|);
  }

  lemma {:induction false} Grow(s: Setup, start: Joint, j: Joint, n: nat) returns (steps: seq<JointStep>)
    requires Normal(s, start, j) && AllComeTwice(j.stream)
    ensures LogLoop.Legal(s, j, steps)
    ensures var j' := LogLoop.Run(s, j, steps);
            && Normal(s, start, j') && AllComeTwice(j'.stream) && LostOnTheWay(j') == LostOnTheWay(j)
            && j'.brought == j.brought && |j'.stream| == Doubled(|j.stream|, n)
    decreases n
  {
    if n == 0 {
      steps := [];
    } else {
      var before := Grow(s, start, j, n - 1);
      var j1 := LogLoop.Run(s, j, before);
      var last := RoundFollows(s, start, j1);
      Append(s, j, before, last);
      steps := before + last;
    }
  }

  /** The forwarder connects at its first attempt. */
  lemma Connect(s: Setup, start: Joint) returns (steps: seq<JointStep>)
    requires AtStart(s, start)
    ensures LogLoop.Legal(s, start, steps)
    ensures var j := LogLoop.Run(s, start, steps);
            Normal(s, start, j) && j.stream == [] && j.brought == 0 && LostOnTheWay(j) == 0
  {
    StartReachable(s, start);
    ForwardStep(s, start, start, F.Dial(true));
    var j1 := LogLoop.Apply(s, start, Forward(F.Dial(true)));
    ForwardStep(s, start, j1, F.Open(true));
    Prepend(s, j1, Forward(F.Open(true)), []);
    Prepend(s, start, Forward(F.Dial(true)), [Forward(F.Open(true))] + []);
    steps := [Forward(F.Dial(true))] + ([Forward(F.Open(true))] + []);
  }

  lemma StartReachable(s: Setup, start: Joint)
    requires AtStart(s, start)
    ensures Reachable(s, start, start)
  {
    assert LogLoop.Legal(s, start, []) && LogLoop.Run(s, start, []) == start;
  }

  /** Somebody publishes one record to the common topic. */
  lemma Bring(s: Setup, start: Joint, j: Joint, r: H.Record) returns (steps: seq<JointStep>)
    requires Normal(s, start, j) && Free(r)
    ensures LogLoop.Legal(s, j, steps)
    ensures var j' := LogLoop.Run(s, j, steps);
            && Normal(s, start, j') && j'.stream == j.stream + [r]
            && j'.brought == j.brought + 1 && LostOnTheWay(j') == LostOnTheWay(j)
  {
    var first := Original(H.TOPIC_ALL, F.Log(r));
    Facts(s, start, j);
    StepReaches(s, start, j, first);
    var f := CalmPublished(j.fw, s.topics, H.TOPIC_ALL, r);
    CommonTopicReaches();
    var rest := AfterPublished(s, start, LogLoop.Apply(s, j, first), f, r);
    assert Copies(r, 1) == [r];
    Prepend(s, j, first, rest);
    steps := [first] + rest;
  }

  lemma CommonTopicReaches()
    ensures Occurrences(FORWARDER_TOPICS, H.TOPIC_ALL) == 1
  {
    OccurrencesOf(H.TOPIC_ALL);
    TopicsDiffer();
  }

  /** One record of scope domain or function, published once, is enough: there are runs
      that lose nothing after which two to any power of copies are in circulation. */
  lemma OneRecordGrowsWithoutBound(s: Setup, start: Joint, r: H.Record, n: nat) returns (steps: seq<JointStep>)
    requires AtStart(s, start) && Free(r) && ComesBackTwice(r.scope)
    ensures LogLoop.Legal(s, start, steps)
    ensures var j := LogLoop.Run(s, start, steps);
            j.brought == 1 && LostOnTheWay(j) == 0 && Circulating(s, j) == Doubled(1, n)
  {
    var first := Connect(s, start);
    var j1 := LogLoop.Run(s, start, first);
    var second := Bring(s, start, j1, r);
    var j2 := LogLoop.Run(s, j1, second);
    var third := Grow(s, start, j2, n);
    var j3 := LogLoop.Run(s, j2, third);
    Append(s, j1, second, third);
    Append(s, start, first, second + third);
    NormalCirculation(s, j3);
    steps := first + (second + third);
  }
}
