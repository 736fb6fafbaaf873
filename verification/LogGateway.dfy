/** The root side of the log pipeline: the gateway receives records from a stream and
    publishes each through the log hub, acknowledging as it goes. */
module LogGateway {
  import opened EventBus
  import H = SafeLogHub
  import F = Forwarder

  const TOPIC_ROOT := "telemetry.logs.root"
  const TOPIC_DOMAIN := "telemetry.logs.domain"
  const TOPIC_FUNCTION := "telemetry.logs.function"

  /** The topics the hub publishes a record to. */
  function HubTopics(scope: string): seq<string> {
    [H.TOPIC_ALL, TOPIC_ROOT] + if scope != "" then [H.SCOPE_PREFIX + scope] else []
  }

  function AllTopics(records: seq<H.Record>): seq<string> {
    if records == [] then []
    else AllTopics(records[..|records| - 1]) + HubTopics(records[|records| - 1].scope)
  }

  method HubPublish(bus: InMemoryEventBus, rec: H.Record)
    requires Consistent(bus.View())
    modifies bus
    ensures Consistent(bus.View()) && bus.View() == PublishAll(old(bus.View()), HubTopics(rec.scope))
  {
    ghost var b := bus.View();
    bus.Publish(H.TOPIC_ALL);
    bus.Publish(TOPIC_ROOT);
    PublishTwo(b, H.TOPIC_ALL, TOPIC_ROOT);
    if rec.scope != "" {
      var t := H.SCOPE_PREFIX + rec.scope;
      bus.Publish(t);
      PublishOne(PublishAll(b, [H.TOPIC_ALL, TOPIC_ROOT]), t);
      PublishAllAdds(b, [H.TOPIC_ALL, TOPIC_ROOT], [t]);
    }
    assert [H.TOPIC_ALL, TOPIC_ROOT] + [] == [H.TOPIC_ALL, TOPIC_ROOT];
  }

  lemma PublishOne(b: Bus, t: string)
    requires Consistent(b)
    ensures Subscribers(b, t) <= b.channels.Keys && PublishAll(b, [t]) == PublishTo(b, t)
  {
    PublishKeepsConsistent(b, t);
    assert [t][1..] == [];
  }

  lemma PublishTwo(b: Bus, t: string, u: string)
    requires Consistent(b)
    ensures Subscribers(b, t) <= b.channels.Keys && Subscribers(PublishTo(b, t), u) <= PublishTo(b, t).channels.Keys
    ensures PublishAll(b, [t, u]) == PublishTo(PublishTo(b, t), u)
  {
    PublishKeepsConsistent(b, t);
    PublishOne(PublishTo(b, t), u);
    assert [t, u][1..] == [u];
  }

  /** Each record is published once: to the common topic, the root topic, and the topic of
      its scope if it has one. */
  lemma TopicsAre(records: seq<H.Record>, last: H.Record)
    ensures AllTopics([]) == []
    ensures AllTopics(records + [last]) == AllTopics(records) + ["telemetry.logs", "telemetry.logs.root"]
              + if last.scope != "" then ["telemetry.logs." + last.scope] else []
  {
    assert (records + [last])[..|records|] == records;
  }

  datatype End = Eof | Failure

  /** The clock as the loop reads it at a record: for the check, and again once it has
      acknowledged. */
  datatype Reading = Reading(check: int, reset: int)

  /** The counts acknowledged while receiving records i to n, given the clock at each
      record and at the last acknowledgement. */
  function Acks(clock: seq<Reading>, interval: int, i: nat, n: nat, last: int): seq<nat>
    requires i <= n <= |clock|
    decreases n - i
  {
    if i == n then []
    else if clock[i].check - last >= interval then [i + 1] + Acks(clock, interval, i + 1, n, clock[i].reset)
    else Acks(clock, interval, i + 1, n, last)
  }

  /** The receive loop.  Every record received is published once, in order, before the
      next is received; the closing acknowledgement counts them all. */
  method PushLogs(bus: InMemoryEventBus, records: seq<H.Record>, end: End,
                  clock: seq<Reading>, start: int, interval: int)
    returns (acks: seq<nat>, ok: bool)
    requires Consistent(bus.View()) && |clock| == |records|
    modifies bus
    ensures Consistent(bus.View()) && bus.View() == PublishAll(old(bus.View()), AllTopics(records))
    ensures ok <==> end == Eof
    ensures acks == Acks(clock, interval, 0, |records|, start) + if end == Eof then [|records|] else []
  {
    var count, last := 0, start;
    acks := [];
    while count < |records|
      invariant 0 <= count <= |records|
      invariant Consistent(bus.View()) && bus.View() == PublishAll(old(bus.View()), AllTopics(records[..count]))
      invariant acks + Acks(clock, interval, count, |records|, last) == Acks(clock, interval, 0, |records|, start)
    {
      HubPublish(bus, records[count]);
      assert records[..count + 1][..count] == records[..count];
      PublishAllAdds(old(bus.View()), AllTopics(records[..count]), HubTopics(records[count].scope));
      count := count + 1;
      if clock[count - 1].check - last >= interval {
        acks := acks + [count];
        last := clock[count - 1].reset;
      }
    }
    assert records[..count] == records;
    if end == Eof {
      acks := acks + [count];
    }
    ok := end == Eof;
  }

  /** Acknowledgements are at least the interval apart and none is late: the next one
      follows the first record at least the interval after the last, counts up to it,
      and there is none if no such record comes. */
  lemma {:induction false} NextAckIsPrompt(clock: seq<Reading>, interval: int, i: nat, n: nat, last: int)
    requires i <= n <= |clock|
    ensures var acks := Acks(clock, interval, i, n, last);
            if acks == [] then forall k | i <= k < n :: clock[k].check - last < interval
            else
              && i < acks[0] <= n && clock[acks[0] - 1].check - last >= interval
              && (forall k | i <= k < acks[0] - 1 :: clock[k].check - last < interval)
              && acks[1..] == Acks(clock, interval, acks[0], n, clock[acks[0] - 1].reset)
    decreases n - i
  {
    if i == n {
    } else {
      NextAckIsPrompt(clock, interval, i + 1, n, if clock[i].check - last >= interval then clock[i].reset else last);
    }
  }

  lemma ScopeTopicIs(scope: string)
    ensures H.SCOPE_PREFIX + scope != H.TOPIC_ALL
    ensures H.SCOPE_PREFIX + scope == TOPIC_ROOT <==> scope == "root"
    ensures H.SCOPE_PREFIX + scope == TOPIC_DOMAIN <==> scope == "domain"
    ensures H.SCOPE_PREFIX + scope == TOPIC_FUNCTION <==> scope == "function"
  {
    var t := H.SCOPE_PREFIX + scope;
    assert t[..|H.SCOPE_PREFIX|] == H.SCOPE_PREFIX && t[|H.SCOPE_PREFIX|..] == scope;
    assert TOPIC_ROOT[|H.SCOPE_PREFIX|..] == "root" && TOPIC_ROOT == H.SCOPE_PREFIX + "root";
    assert TOPIC_DOMAIN[|H.SCOPE_PREFIX|..] == "domain" && TOPIC_DOMAIN == H.SCOPE_PREFIX + "domain";
    assert TOPIC_FUNCTION[|H.SCOPE_PREFIX|..] == "function" && TOPIC_FUNCTION == H.SCOPE_PREFIX + "function";
  }

  ghost predicate NoRepeats(topics: seq<string>) {
    forall i, j | 0 <= i < j < |topics| :: topics[i] != topics[j]
  }

  /** The hub publishes a record to no topic twice, except one of scope root, whose
      scope topic is the root topic it was just published to. */
  lemma HubRepeatsATopicIff(scope: string)
    ensures NoRepeats(HubTopics(scope)) <==> scope != "root"
  {
    ScopeTopicIs(scope);
    assert |H.TOPIC_ALL| < |TOPIC_ROOT|;
    if scope == "root" {
      assert HubTopics(scope)[1] == HubTopics(scope)[2];
    }
  }

  // --------------------------------- what subscribers get of the publishes

  function Occurrences(topics: seq<string>, t: string): nat {
    if topics == [] then 0 else (if topics[0] == t then 1 else 0) + Occurrences(topics[1..], t)
  }

  /** How many of the subscriptions to some topics a list of publishes reaches. */
  function Reached(topics: seq<string>, published: seq<string>): nat
    decreases |published|
  {
    if published == [] then 0 else Occurrences(topics, published[0]) + Reached(topics, published[1..])
  }

  /** Open subscriptions to some topics. */
  ghost predicate Subscribed(b: Bus, ids: seq<SubId>, topics: seq<string>) {
    && |ids| == |topics|
    && forall i | 0 <= i < |ids| ::
         ids[i] in b.channels && b.channels[ids[i]].open && b.channels[ids[i]].topic == topics[i]
  }

  /** How many calls some subscriptions have been offered. */
  function OfferedCount(b: Bus, ids: seq<SubId>): nat
    requires forall i | 0 <= i < |ids| :: ids[i] in b.channels
  {
    if ids == [] then 0 else |b.channels[ids[0]].offered| + OfferedCount(b, ids[1..])
  }

  lemma {:induction false} PublishReaches(b: Bus, ids: seq<SubId>, topics: seq<string>, t: string)
    requires Consistent(b) && Subscribed(b, ids, topics) && Subscribers(b, t) <= b.channels.Keys
    ensures Subscribed(PublishTo(b, t), ids, topics)
    ensures OfferedCount(PublishTo(b, t), ids) == OfferedCount(b, ids) + Occurrences(topics, t)
    decreases |ids|
  {
    if ids == [] {
    } else {
      assert Subscribed(b, ids[1..], topics[1..]);
      PublishReaches(b, ids[1..], topics[1..], t);
      SubscribedIff(b, t, ids[0]);
    }
  }

  /** Publishes offer to open subscriptions exactly the calls that match their topics. */
  lemma {:induction false} PublishAllReaches(b: Bus, ids: seq<SubId>, topics: seq<string>, published: seq<string>)
    requires Consistent(b) && Subscribed(b, ids, topics)
    ensures Subscribed(PublishAll(b, published), ids, topics)
    ensures OfferedCount(PublishAll(b, published), ids) == OfferedCount(b, ids) + Reached(topics, published)
    decreases |published|
  {
    if published == [] {
    } else {
      PublishKeepsConsistent(b, published[0]);
      PublishReaches(b, ids, topics, published[0]);
      PublishAllReaches(PublishTo(b, published[0]), ids, topics, published[1..]);
    }
  }

  lemma {:induction false} ReachedAdds(topics: seq<string>, xs: seq<string>, ys: seq<string>)
    ensures Reached(topics, xs + ys) == Reached(topics, xs) + Reached(topics, ys)
    decreases |xs|
  {
    if xs == [] {
      assert xs + ys == ys;
    } else {
      assert (xs + ys)[1..] == xs[1..] + ys;
      ReachedAdds(topics, xs[1..], ys);
    }
  }

  function Copies(rec: H.Record, n: nat): seq<H.Record> {
    seq(n, _ => rec)
  }

  // ------------------------------- a forwarder on the bus of its own gateway

  /** The topics a forwarder subscribes to unless told otherwise. */
  const FORWARDER_TOPICS := [H.TOPIC_ALL, TOPIC_DOMAIN, TOPIC_FUNCTION]

  predicate ComesBackTwice(scope: string) {
    scope == "domain" || scope == "function"
  }

  lemma ReachedPerRecord(scope: string)
    ensures Reached(FORWARDER_TOPICS, HubTopics(scope)) == if ComesBackTwice(scope) then 2 else 1
  {
    ScopeTopicIs(scope);
    var topics, t := HubTopics(scope), H.SCOPE_PREFIX + scope;
    TopicsDiffer();
    OccurrencesOf(H.TOPIC_ALL);
    OccurrencesOf(TOPIC_ROOT);
    OccurrencesOf(t);
    var rest := if scope != "" then [t] else [];
    assert topics[0] == H.TOPIC_ALL && topics[1..] == [TOPIC_ROOT] + rest && ([TOPIC_ROOT] + rest)[1..] == rest;
    assert Reached(FORWARDER_TOPICS, rest) == if scope != "" then Occurrences(FORWARDER_TOPICS, t) else 0 by {
      assert scope != "" ==> rest[1..] == [];
    }
    assert Reached(FORWARDER_TOPICS, [TOPIC_ROOT] + rest) == Reached(FORWARDER_TOPICS, rest);
  }

  lemma TopicsDiffer()
    ensures |H.TOPIC_ALL| < |TOPIC_ROOT| < |TOPIC_DOMAIN| < |TOPIC_FUNCTION|
  {
  }

  lemma OccurrencesOf(t: string)
    ensures Occurrences(FORWARDER_TOPICS, t) == (if t == H.TOPIC_ALL then 1 else 0)
              + (if t == TOPIC_DOMAIN then 1 else 0) + (if t == TOPIC_FUNCTION then 1 else 0)
  {
    var two, one := [TOPIC_DOMAIN, TOPIC_FUNCTION], [TOPIC_FUNCTION];
    assert FORWARDER_TOPICS[0] == H.TOPIC_ALL && FORWARDER_TOPICS[1..] == two;
    assert two[0] == TOPIC_DOMAIN && two[1..] == one && one[1..] == [];
    assert Occurrences(one, t) == if TOPIC_FUNCTION == t then 1 else 0;
    assert Occurrences(two, t) == (if TOPIC_DOMAIN == t then 1 else 0) + Occurrences(one, t);
  }

  /** Every message published to the forwarder's subscriptions is one record. */
  ghost predicate CarriesOnly(p: F.Pipe, rec: H.Record) {
    forall i | 0 <= i < |p.published| :: p.published[i].message == F.Log(rec)
  }

  /** The records a forwarder has put on its stream, in order: what the gateway gets. */
  function SentRecords(p: F.Pipe): seq<H.Record> {
    SentAmong(p.published, p.taken, p.verdicts)
  }

  function SentAmong(published: seq<F.Item>, taken: seq<F.Number>, verdicts: seq<F.Verdict>): seq<H.Record> {
    if verdicts == [] then []
    else
      var n := |verdicts| - 1;
      SentAmong(published, taken, verdicts[..n])
      + if verdicts[n] == F.Sent && n < |taken| && taken[n] < |published| && published[taken[n]].message.Log?
        then [published[taken[n]].message.record] else []
  }

  lemma {:induction false} SentAreCopies(p: F.Pipe, verdicts: seq<F.Verdict>, rec: H.Record)
    requires CarriesOnly(p, rec) && |verdicts| <= |p.taken|
    requires forall i | 0 <= i < |verdicts| :: p.taken[i] < |p.published|
    ensures SentAmong(p.published, p.taken, verdicts) == Copies(rec, F.Count(verdicts, F.Sent))
    decreases |verdicts|
  {
    if verdicts == [] {
    } else {
      SentAreCopies(p, verdicts[..|verdicts| - 1], rec);
    }
  }

  lemma {:induction false} NoneCounted(verdicts: seq<F.Verdict>, v: F.Verdict)
    requires forall i | 0 <= i < |verdicts| :: verdicts[i] != v
    ensures F.Count(verdicts, v) == 0
    decreases |verdicts|
  {
    if verdicts == [] {
    } else {
      NoneCounted(verdicts[..|verdicts| - 1], v);
    }
  }

  /** Dropped at a full queue, or lost with a broken stream. */
  function Lost(p: F.Pipe): nat {
    p.lostAtBus + p.lostAtFanIn + F.Count(p.verdicts, F.Failed)
  }

  /** Still on its way to the stream. */
  function Underway(p: F.Pipe): nat {
    F.Load(p.feeds) + |p.input| + if p.sender.Holding? then 1 else 0
  }

  /** Of copies of one record, a forwarder sends those not lost or under way, unless
      its guard is on the record: then it sends none. */
  lemma SendsWhatItCarries(p: F.Pipe, rec: H.Record)
    requires F.Conserved(p) && F.Judged(p) && CarriesOnly(p, rec)
    ensures SentRecords(p) == Copies(rec, F.Count(p.verdicts, F.Sent))
    ensures if F.Forwardable(F.Log(rec)) then F.Count(p.verdicts, F.Sent) + Lost(p) + Underway(p) == |p.published|
            else F.Count(p.verdicts, F.Sent) == 0
  {
    SentAreCopies(p, p.verdicts, rec);
    if F.Forwardable(F.Log(rec)) {
      NoneCounted(p.verdicts, F.Ignored);
    } else {
      NoneCounted(p.verdicts, F.Sent);
    }
  }

  lemma ForwarderSends(subscriptions: nat, steps: seq<F.Step>, rec: H.Record)
    requires F.Legal(F.Initial(subscriptions), steps)
    requires CarriesOnly(F.Run(F.Initial(subscriptions), steps).pipe, rec)
    ensures var p := F.Run(F.Initial(subscriptions), steps).pipe;
            && SentRecords(p) == Copies(rec, |SentRecords(p)|)
            && if F.Forwardable(F.Log(rec)) then |SentRecords(p)| + Lost(p) + Underway(p) == |p.published|
               else SentRecords(p) == []
  {
    F.EveryRunKeepsInv(subscriptions, steps);
    SendsWhatItCarries(F.Run(F.Initial(subscriptions), steps).pipe, rec);
  }
}
