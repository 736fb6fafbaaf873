/** The discovery registry: kernel records by id, health aggregation over them. */
module Registry {

  datatype Option<+T> = None | Some(value: T)

  /** HealthStatus is a string in the program; Unset is the empty one. */
  datatype Status = Unset | Ready | Degraded | Failed | Draining | Stopped | Other(name: string)

  /** Times are ordered and zero is the unset time. */
  type Time = nat

  datatype Health = Health(status: Status, reason: string, since: Time)

  datatype Manifest = Manifest(kernelId: string, version: string, scope: string)

  /** A Go slice: nil and empty differ. */
  datatype Slice<+T> = Nil | Slice(elems: seq<T>)

  datatype NetworkEndpoint = NetworkEndpoint(
    name: string, protocol: string, address: string, version: string, endpoints: seq<string>)
  datatype EventSpec = EventSpec(topic: string, description: string)
  datatype StreamSpec = StreamSpec(topic: string, group: string, dlq: string, delivery: string)
  datatype CliCommand = CliCommand(name: string, description: string)
  datatype LocalService = LocalService(name: string, iface: string, version: string)

  datatype Exports = Exports(
    network: Slice<NetworkEndpoint>,
    events: Slice<EventSpec>,
    streams: Slice<StreamSpec>,
    cli: Slice<CliCommand>,
    local: Slice<LocalService>)

  datatype KernelRecord = KernelRecord(
    id: string, scope: string, manifest: Manifest, health: Health, exports: Option<Exports>,
    registeredAt: Time, updatedAt: Time)

  const EMPTY_RECORD := KernelRecord("", "", Manifest("", "", ""), Health(Unset, "", 0), None, 0, 0)

  type Kernels = map<string, KernelRecord>

  function Lookup(ks: Kernels, id: string): Option<KernelRecord> {
    if id in ks then Some(ks[id]) else None
  }

  function OrNow(t: Time, now: Time): Time { if t == 0 then now else t }

  function RecordOrEmpty(ks: Kernels, id: string): KernelRecord {
    if id in ks then ks[id] else EMPTY_RECORD
  }

  /** The record RegisterKernel leaves: exports and a known health survive. */
  function WithManifest(was: KernelRecord, m: Manifest, now: Time): KernelRecord {
    KernelRecord(m.kernelId, m.scope, m,
                 if was.health.status == Unset then Health(Ready, "", now) else was.health,
                 was.exports, OrNow(was.registeredAt, now), now)
  }

  /** The record Register stores, its blanks filled in; it is stored under its id. */
  function Completed(rec: KernelRecord, now: Time): KernelRecord {
    var manifest :=
      if rec.manifest.kernelId == "" && rec.id != "" then rec.manifest.(kernelId := rec.id) else rec.manifest;
    rec.(manifest := manifest,
         id := if rec.id == "" then manifest.kernelId else rec.id,
         scope := if rec.scope == "" then manifest.scope else rec.scope,
         registeredAt := OrNow(rec.registeredAt, now),
         updatedAt := now)
  }

  function WithHealth(ks: Kernels, id: string, h: Health, now: Time): KernelRecord {
    var was := if id in ks then ks[id] else EMPTY_RECORD.(id := id, manifest := Manifest(id, "", ""));
    was.(health := h.(since := OrNow(h.since, now)),
         scope := if was.scope == "" then was.manifest.scope else was.scope,
         registeredAt := OrNow(was.registeredAt, now),
         updatedAt := now)
  }

  datatype DiscoveryRecord = DiscoveryRecord(id: string, health: Health, exports: Option<Exports>)

  function Listed(ks: Kernels, id: string): DiscoveryRecord
    requires id in ks
  {
    DiscoveryRecord(id, ks[id].health, ks[id].exports)
  }

  ghost predicate Distinct(list: seq<DiscoveryRecord>) {
    forall i, j | 0 <= i < j < |list| :: list[i].id != list[j].id
  }

  ghost predicate Mentions(list: seq<DiscoveryRecord>, id: string) {
    exists i | 0 <= i < |list| :: list[i].id == id
  }

  /** Every kernel is listed once, with its health and exports, in some order. */
  ghost predicate IsListing(ks: Kernels, list: seq<DiscoveryRecord>) {
    && Distinct(list)
    && (forall i | 0 <= i < |list| :: list[i].id in ks && list[i] == Listed(ks, list[i].id))
    && (forall id | id in ks :: Mentions(list, id))
  }

  // -------------------------------------------------------------- sorting by id

  /** The order of Go strings. */
  predicate Less(a: string, b: string)
    decreases |a|
  {
    b != "" && (a == "" || a[0] < b[0] || (a[0] == b[0] && Less(a[1..], b[1..])))
  }

  lemma {:induction false} LessIsTotal(a: string, b: string)
    ensures !(Less(a, b) && Less(b, a)) && !Less(a, a)
    ensures a != b ==> Less(a, b) || Less(b, a)
    decreases |a|
  {
    if a == "" || b == "" {
      assert a != "" ==> !(a[0] < a[0]);
      if a != "" {
        LessIsTotal(a[1..], "");
      }
    } else {
      LessIsTotal(a[1..], b[1..]);
      assert a == [a[0]] + a[1..] && b == [b[0]] + b[1..];
    }
  }

  /** The first difference decides, or the length if one is the start of the other. */
  lemma {:induction false} LessIsLexicographic(a: string, b: string)
    ensures Less(a, b) <==> exists i :: DiffersAt(a, b, i)
    decreases |a|
  {
    if a == "" || b == "" {
      assert b != "" && a == "" ==> DiffersAt(a, b, 0);
    } else if a[0] != b[0] {
      assert a[0] < b[0] ==> DiffersAt(a, b, 0);
    } else {
      LessIsLexicographic(a[1..], b[1..]);
      assert a == [a[0]] + a[1..] && b == [a[0]] + b[1..];
      if i :| DiffersAt(a[1..], b[1..], i) {
        assert a[..i + 1] == [a[0]] + a[1..][..i] && b[..i + 1] == [a[0]] + b[1..][..i];
        assert DiffersAt(a, b, i + 1);
      }
      if i :| DiffersAt(a, b, i) {
        assert i > 0 && a[1..][..i - 1] == a[..i][1..] && b[1..][..i - 1] == b[..i][1..];
        assert DiffersAt(a[1..], b[1..], i - 1);
      }
    }
  }

  predicate DiffersAt(a: string, b: string, i: int) {
    0 <= i <= |a| && i < |b| && a[..i] == b[..i] && (i == |a| || a[i] < b[i])
  }

  lemma {:induction false} LessIsTransitive(a: string, b: string, c: string)
    requires Less(a, b) && Less(b, c)
    ensures Less(a, c)
    decreases |a|
  {
    if a == "" {
    } else if a[0] == b[0] == c[0] {
      LessIsTransitive(a[1..], b[1..], c[1..]);
    }
  }

  ghost predicate Sorted(list: seq<DiscoveryRecord>) {
    forall i, j | 0 <= i < j < |list| :: Less(list[i].id, list[j].id)
  }

  /** There is one sorted listing: the order in which the map is visited is not seen. */
  lemma {:induction false} SortedListIsUnique(xs: seq<DiscoveryRecord>, ys: seq<DiscoveryRecord>)
    requires Sorted(xs) && Sorted(ys) && forall r :: r in xs <==> r in ys
    ensures xs == ys
    decreases |xs|
  {
    if xs == [] {
      NonEmptyHas(ys);
    } else {
      assert xs[0] in ys && ys[0] in xs;
      SameHead(xs, ys);
      forall r ensures r in xs[1..] <==> r in ys[1..] {
        HeadIsLeast(xs, r);
        HeadIsLeast(ys, r);
      }
      SortedListIsUnique(xs[1..], ys[1..]);
    }
  }

  lemma NonEmptyHas(xs: seq<DiscoveryRecord>)
    ensures xs != [] ==> exists r :: r in xs
  {
    if xs != [] {
      assert xs[0] in xs;
    }
  }

  lemma HeadIsLeast(xs: seq<DiscoveryRecord>, r: DiscoveryRecord)
    requires xs != [] && Sorted(xs)
    ensures r in xs[1..] <==> r in xs && r != xs[0]
    ensures r in xs[1..] ==> Less(xs[0].id, r.id)
  {
    LessIsTotal(xs[0].id, r.id);
    if r in xs && r != xs[0] {
      var i :| 0 <= i < |xs| && xs[i] == r;
      assert xs[1..][i - 1] == r;
    }
  }

  lemma SameHead(xs: seq<DiscoveryRecord>, ys: seq<DiscoveryRecord>)
    requires xs != [] && ys != [] && Sorted(xs) && Sorted(ys) && xs[0] in ys && ys[0] in xs
    ensures xs[0] == ys[0]
  {
    HeadIsLeast(xs, ys[0]);
    HeadIsLeast(ys, xs[0]);
    LessIsTotal(xs[0].id, ys[0].id);
  }

  lemma SortedListing(ks: Kernels, list: seq<DiscoveryRecord>, sorted: seq<DiscoveryRecord>)
    requires IsListing(ks, list) && Sorted(sorted) && forall r :: r in sorted <==> r in list
    ensures IsListing(ks, sorted)
  {
    forall i, j | 0 <= i < j < |sorted| ensures sorted[i].id != sorted[j].id {
      LessIsTotal(sorted[i].id, sorted[j].id);
    }
    forall i | 0 <= i < |sorted| ensures sorted[i].id in ks && sorted[i] == Listed(ks, sorted[i].id) {
      assert sorted[i] in list;
    }
    forall id | id in ks ensures Mentions(sorted, id) {
      assert Mentions(list, id);
      var i :| 0 <= i < |list| && list[i].id == id;
      assert list[i] in sorted;
    }
  }

  /** A record enters a sorted list at its place. */
  method Insert(list: seq<DiscoveryRecord>, rec: DiscoveryRecord) returns (more: seq<DiscoveryRecord>)
    requires Sorted(list) && forall i | 0 <= i < |list| :: list[i].id != rec.id
    ensures Sorted(more) && forall r :: r in more <==> r == rec || r in list
  {
    var k := 0;
    while k < |list| && Less(list[k].id, rec.id)
      invariant 0 <= k <= |list|
      invariant forall i | 0 <= i < k :: Less(list[i].id, rec.id)
    {
      k := k + 1;
    }
    forall i | k <= i < |list| ensures Less(rec.id, list[i].id) {
      LessIsTotal(list[k].id, rec.id);
      if i > k {
        LessIsTransitive(rec.id, list[k].id, list[i].id);
      }
    }
    more := list[..k] + [rec] + list[k..];
    assert list == list[..k] + list[k..];
  }

  method SortById(list: seq<DiscoveryRecord>) returns (sorted: seq<DiscoveryRecord>)
    requires Distinct(list)
    ensures Sorted(sorted) && forall r :: r in sorted <==> r in list
  {
    sorted := [];
    var i := 0;
    while i < |list|
      invariant 0 <= i <= |list| && Sorted(sorted)
      invariant forall r :: r in sorted <==> r in list[..i]
    {
      forall j | 0 <= j < |sorted| ensures sorted[j].id != list[i].id {
        assert sorted[j] in list[..i];
      }
      sorted := Insert(sorted, list[i]);
      assert list[..i + 1] == list[..i] + [list[i]];
      i := i + 1;
    }
    assert list[..i] == list;
  }

  // ------------------------------------------------------ health aggregation

  function Severity(s: Status): int {
    match s
    case Stopped => 1
    case Draining => 2
    case Degraded => 3
    case Failed => 4
    case _ => 0
  }

  function Reason(s: Status, kernelId: string): string {
    (match s
     case Failed => "kernel failed: "
     case Degraded => "kernel degraded: "
     case Draining => "kernel draining: "
     case _ => "kernel stopped: ") + kernelId
  }

  /** The status is the greatest severity present, ready if there is none. */
  ghost predicate IsWorst(ks: Kernels, s: Status) {
    && (s == Ready || (Severity(s) > 0 && exists id | id in ks :: ks[id].health.status == s))
    && (forall id | id in ks :: Severity(ks[id].health.status) <= Severity(s))
  }

  /** A record whose health takes part in the aggregate. */
  predicate Counted(ks: Kernels, id: string) {
    id in ks && ks[id].health.status != Unset
  }

  ghost predicate IsEarliest(ks: Kernels, now: Time, t: Time) {
    && (t == now || exists id | id in ks :: Counted(ks, id) && ks[id].health.since == t)
    && t <= now
    && (forall id | id in ks && Counted(ks, id) :: t <= ks[id].health.since)
  }

  ghost predicate Explains(ks: Kernels, reason: string) {
    exists id | id in ks :: Severity(ks[id].health.status) > 0
      && reason == Reason(ks[id].health.status, ks[id].manifest.kernelId)
  }

  ghost predicate AllDated(ks: Kernels) {
    forall id | id in ks && Counted(ks, id) :: ks[id].health.since != 0
  }

  /** What one more record does to the worst status, the earliest time and a reason. */
  lemma WorstWith(ks: Kernels, id: string, rec: KernelRecord, s: Status)
    requires id !in ks && IsWorst(ks, s)
    ensures IsWorst(ks[id := rec], if Severity(rec.health.status) > Severity(s) then rec.health.status else s)
  {
    var more := ks[id := rec];
    assert more[id] == rec;
    if s != Ready {
      var w :| w in ks && ks[w].health.status == s;
      assert more[w].health.status == s;
    }
  }

  lemma EarliestWith(ks: Kernels, id: string, rec: KernelRecord, now: Time, t: Time)
    requires id !in ks && AllDated(ks[id := rec]) && now > 0
    requires AllDated(ks) ==> t != 0 && IsEarliest(ks, now, t)
    ensures var since := rec.health.since;
            var t' := if rec.health.status != Unset && since < t then since else t;
            t' != 0 && IsEarliest(ks[id := rec], now, t')
  {
    var more := ks[id := rec];
    assert forall k | k in ks :: Counted(more, k) == Counted(ks, k) && more[k] == ks[k];
    assert AllDated(ks);
    assert more[id] == rec && Counted(more, id) == (rec.health.status != Unset);
    if t != now {
      var w :| w in ks && Counted(ks, w) && ks[w].health.since == t;
      assert Counted(more, w) && more[w].health.since == t;
    }
  }

  lemma ExplainsWith(ks: Kernels, id: string, rec: KernelRecord, reason: string)
    requires id !in ks
    ensures Explains(ks, reason) ==> Explains(ks[id := rec], reason)
    ensures Severity(rec.health.status) > 0 && reason == Reason(rec.health.status, rec.manifest.kernelId)
            ==> Explains(ks[id := rec], reason)
  {
    var more := ks[id := rec];
    assert more[id] == rec;
    if Explains(ks, reason) {
      var w :| w in ks && Severity(ks[w].health.status) > 0
        && reason == Reason(ks[w].health.status, ks[w].manifest.kernelId);
      assert more[w] == ks[w];
    }
  }

  /** What the loop knows of the records visited so far. */
  ghost predicate Summarizes(ks: Kernels, now: Time, status: Status, reason: string, since: Time) {
    && IsWorst(ks, status)
    && (AllDated(ks) ==> since != 0 && IsEarliest(ks, now, since))
    && (reason == "" <==> status == Ready)
    && (status != Ready ==> Explains(ks, reason))
  }

  lemma SummaryWith(ks: Kernels, id: string, rec: KernelRecord, now: Time,
                    status: Status, reason: string, since: Time,
                    status': Status, reason': string, since': Time)
    requires id !in ks && now > 0 && Summarizes(ks, now, status, reason, since)
    requires status' == if Severity(rec.health.status) > Severity(status) then rec.health.status else status
    requires reason' == if Severity(rec.health.status) > Severity(status) && reason == ""
                        then Reason(rec.health.status, rec.manifest.kernelId) else reason
    requires since' == if rec.health.status != Unset && (since == 0 || rec.health.since < since)
                       then rec.health.since else since
    ensures Summarizes(ks[id := rec], now, status', reason', since')
  {
    WorstWith(ks, id, rec, status);
    if AllDated(ks[id := rec]) {
      DatedWith(ks, id, rec);
      EarliestWith(ks, id, rec, now, since);
    }
    ExplainsWith(ks, id, rec, reason);
    ExplainsWith(ks, id, rec, reason');
  }

  lemma DatedWith(ks: Kernels, id: string, rec: KernelRecord)
    requires id !in ks && AllDated(ks[id := rec])
    ensures AllDated(ks)
  {
    assert forall k | k in ks :: Counted(ks[id := rec], k) == Counted(ks, k) && ks[id := rec][k] == ks[k];
  }

  /** The aggregated status does not depend on the order of the visits. */
  lemma WorstIsUnique(ks: Kernels, s: Status, t: Status)
    requires IsWorst(ks, s) && IsWorst(ks, t)
    ensures s == t
  {
    if s != Ready {
      var id :| id in ks && ks[id].health.status == s;
    }
    if t != Ready {
      var id :| id in ks && ks[id].health.status == t;
    }
  }

  lemma EarliestIsUnique(ks: Kernels, now: Time, s: Time, t: Time)
    requires IsEarliest(ks, now, s) && IsEarliest(ks, now, t)
    ensures s == t
  {
  }

  /** Every kernel once, in some order. */
  ghost predicate IsOrder(ks: Kernels, order: seq<string>) {
    && (forall i, j | 0 <= i < j < |order| :: order[i] != order[j])
    && (forall id :: id in order <==> id in ks)
  }

  /** The time the loop has after visiting some kernels: a zero one is replaced by the
      next. */
  function SinceAlong(ks: Kernels, order: seq<string>, now: Time): Time {
    if order == [] then now
    else SinceWith(ks, order[|order| - 1], SinceAlong(ks, order[..|order| - 1], now))
  }

  function SinceWith(ks: Kernels, id: string, t: Time): Time {
    if Counted(ks, id) && (t == 0 || ks[id].health.since < t) then ks[id].health.since else t
  }

  lemma OrderWith(ks: Kernels, seen: Kernels, order: seq<string>, id: string, now: Time)
    requires IsOrder(seen, order) && id in ks && id !in seen
    ensures IsOrder(seen[id := ks[id]], order + [id])
    ensures SinceAlong(ks, order + [id], now) == SinceWith(ks, id, SinceAlong(ks, order, now))
  {
    assert (order + [id])[..|order|] == order;
    forall i | 0 <= i < |order| ensures order[i] != id {
      assert order[i] in order;
    }
  }

  /** With an undated record the time reported depends on the order of the visits: the
      last dated one visited after it gives the time, and if there is none it is now. */
  lemma UndatedTimeDependsOnOrder(ks: Kernels, before: seq<string>, undated: string, dated: string, now: Time)
    requires Counted(ks, undated) && ks[undated].health.since == 0
    requires Counted(ks, dated) && ks[dated].health.since != 0
    ensures OrNow(SinceAlong(ks, before + [undated, dated], now), now) == ks[dated].health.since
    ensures OrNow(SinceAlong(ks, before + [dated, undated], now), now) == now
  {
    SinceAlongTwo(ks, before, undated, dated, now);
    SinceAlongTwo(ks, before, dated, undated, now);
  }

  lemma SinceAlongTwo(ks: Kernels, before: seq<string>, first: string, second: string, now: Time)
    ensures SinceAlong(ks, before + [first, second], now)
            == SinceWith(ks, second, SinceWith(ks, first, SinceAlong(ks, before, now)))
  {
    var one, two := before + [first], before + [first, second];
    assert one[..|before|] == before && two[..|one|] == one;
  }

  // -------------------------------------------------- the contracts, field by field

  ghost predicate AnyHas(ks: Kernels, s: Status) {
    exists id | id in ks :: ks[id].health.status == s
  }

  /** The aggregated status: failed if any kernel has failed, else degraded, draining and
      stopped in this order, else ready. */
  lemma AggregateStatusIs(ks: Kernels, s: Status)
    requires IsWorst(ks, s)
    ensures s == if AnyHas(ks, Failed) then Failed else if AnyHas(ks, Degraded) then Degraded
                 else if AnyHas(ks, Draining) then Draining else if AnyHas(ks, Stopped) then Stopped else Ready
  {
  }

  /** The aggregated time, if it is the earliest: now or that of a kernel with a status, and
      none of them is earlier. */
  lemma AggregateTimeIs(ks: Kernels, now: Time, t: Time)
    requires IsEarliest(ks, now, t)
    ensures t <= now && forall id | id in ks && ks[id].health.status != Unset :: t <= ks[id].health.since
    ensures t == now || exists id | id in ks :: ks[id].health.status != Unset && ks[id].health.since == t
    ensures AllDated(ks) <==> forall id | id in ks && ks[id].health.status != Unset :: ks[id].health.since > 0
  {
    if t != now {
      var id :| id in ks && Counted(ks, id) && ks[id].health.since == t;
    }
  }

  lemma AggregateReasonIs(ks: Kernels, reason: string)
    requires Explains(ks, reason)
    ensures exists id | id in ks ::
              var st, kernel := ks[id].health.status, ks[id].manifest.kernelId;
              || (st == Failed && reason == "kernel failed: " + kernel)
              || (st == Degraded && reason == "kernel degraded: " + kernel)
              || (st == Draining && reason == "kernel draining: " + kernel)
              || (st == Stopped && reason == "kernel stopped: " + kernel)
  {
  }

  /** A listing shows each kernel's own health and exports. */
  lemma ListingShows(ks: Kernels, list: seq<DiscoveryRecord>, id: string)
    requires IsListing(ks, list)
    ensures id in ks <==> exists i | 0 <= i < |list| :: list[i].id == id
    ensures forall i | 0 <= i < |list| && list[i].id == id ::
              id in ks && list[i].health == ks[id].health && list[i].exports == ks[id].exports
  {
    assert id in ks ==> Mentions(list, id);
  }

  /** RegisterKernel: a known kernel keeps its exports, its health and when it was first
      registered; a new one is ready. */
  lemma ManifestRegistrationIs(was: KernelRecord, m: Manifest, now: Time)
    ensures var rec := WithManifest(was, m, now);
            && rec.id == m.kernelId && rec.scope == m.scope && rec.manifest == m && rec.updatedAt == now
            && rec.exports == was.exports
            && (was.registeredAt != 0 ==> rec.registeredAt == was.registeredAt)
            && (was.registeredAt == 0 ==> rec.registeredAt == now)
            && (was.health.status != Unset ==> rec.health == was.health)
            && (was.health.status == Unset ==> rec.health.status == Ready && rec.health.since == now)
    ensures EMPTY_RECORD.exports.None? && EMPTY_RECORD.health.status == Unset && EMPTY_RECORD.registeredAt == 0
    ensures forall ks: Kernels, id :: RecordOrEmpty(ks, id) == if id in ks then ks[id] else EMPTY_RECORD
  {
  }

  /** Register: what the caller gave is kept; the ids of record and manifest fill in for
      each other, and the scope and the dates if missing. */
  lemma RegistrationIs(rec: KernelRecord, now: Time)
    ensures var r := Completed(rec, now);
            && r.health == rec.health && r.exports == rec.exports && r.updatedAt == now
            && r.manifest.version == rec.manifest.version && r.manifest.scope == rec.manifest.scope
            && (rec.id != "" ==> r.id == rec.id) && (rec.id == "" ==> r.id == rec.manifest.kernelId)
            && (rec.manifest.kernelId != "" ==> r.manifest.kernelId == rec.manifest.kernelId)
            && (rec.manifest.kernelId == "" ==> r.manifest.kernelId == rec.id)
            && (rec.scope != "" ==> r.scope == rec.scope) && (rec.scope == "" ==> r.scope == rec.manifest.scope)
            && (rec.registeredAt != 0 ==> r.registeredAt == rec.registeredAt)
            && (rec.registeredAt == 0 ==> r.registeredAt == now)
  {
  }

  /** UpdateHealth: status and reason are those given, and the time unless it is missing;
      a known kernel keeps everything else, an unknown one gets a record without exports. */
  lemma HealthUpdateIs(ks: Kernels, id: string, h: Health, now: Time)
    ensures var rec := WithHealth(ks, id, h, now);
            && rec.health.status == h.status && rec.health.reason == h.reason && rec.updatedAt == now
            && (h.since != 0 ==> rec.health.since == h.since) && (h.since == 0 ==> rec.health.since == now)
            && (id in ks ==> rec.id == ks[id].id && rec.manifest == ks[id].manifest && rec.exports == ks[id].exports
                             && (ks[id].registeredAt != 0 ==> rec.registeredAt == ks[id].registeredAt)
                             && (ks[id].scope != "" ==> rec.scope == ks[id].scope))
            && (id !in ks ==> rec.id == rec.manifest.kernelId == id && rec.exports.None? && rec.registeredAt == now)
  {
  }

  // ----------------------------------------------------------------- the code

  /** One record's part in the summary: a worse status replaces the current one, and
      the first that does so gives the reason. */
  method Absorb(status: Status, reason: string, h: Status, kernelId: string) returns (s: Status, r: string)
    requires status == Ready || Severity(status) > 0
    requires reason == "" <==> status == Ready
    ensures s == if Severity(h) > Severity(status) then h else status
    ensures r == if Severity(h) > Severity(status) && reason == "" then Reason(h, kernelId) else reason
  {
    s, r := status, reason;
    match h {
      case Failed =>
        s := Failed;
        if reason == "" {
          r := Reason(Failed, kernelId);
        }
      case Degraded =>
        if status != Failed {
          s := Degraded;
          if reason == "" {
            r := Reason(Degraded, kernelId);
          }
        }
      case Draining =>
        if status != Failed && status != Degraded {
          s := Draining;
          if reason == "" {
            r := Reason(Draining, kernelId);
          }
        }
      case Stopped =>
        if status == Ready {
          s := Stopped;
          if reason == "" {
            r := Reason(Stopped, kernelId);
          }
        }
      case _ =>
    }
  }

  /** What the loop has after visiting some kernels in some order. */
  ghost predicate Progress(ks: Kernels, seen: Kernels, order: seq<string>, now: Time, summary: Health, reason: string) {
    && Summarizes(seen, now, summary.status, reason, summary.since)
    && IsOrder(seen, order) && summary.since == SinceAlong(ks, order, now)
  }

  lemma SeenWith(ks: Kernels, todo: set<string>, id: string)
    requires id in ks && id in todo
    ensures ks - (todo - {id}) == (ks - todo)[id := ks[id]]
  {
  }

  lemma ProgressStarts(ks: Kernels, now: Time)
    requires now > 0
    ensures Progress(ks, map[], [], now, Health(Ready, "", now), "")
  {
  }

  lemma ProgressWith(ks: Kernels, seen: Kernels, order: seq<string>, id: string, now: Time,
                     was: Health, why: string, s: Health, r: string)
    requires id in ks && id !in seen && now > 0 && Progress(ks, seen, order, now, was, why)
    requires Merged(was, why, ks[id], s, r)
    ensures Progress(ks, seen[id := ks[id]], order + [id], now, s, r)
  {
    SummaryWith(seen, id, ks[id], now, was.status, why, was.since, s.status, r, s.since);
    OrderWith(ks, seen, order, id, now);
  }

  /** The time the loop ends with, or now in place of a zero one, is the earliest exactly
      when all counted records are dated. */
  lemma EarliestIffDated(ks: Kernels, now: Time, since: Time)
    requires now > 0 && (AllDated(ks) ==> since != 0 && IsEarliest(ks, now, since))
    ensures IsEarliest(ks, now, OrNow(since, now)) <==> AllDated(ks)
  {
  }

  /** How one record changes a summary and its reason. */
  predicate Merged(was: Health, why: string, rec: KernelRecord, s: Health, r: string) {
    var h := rec.health;
    var worse := Severity(h.status) > Severity(was.status);
    && s.status == (if worse then h.status else was.status)
    && s.since == (if h.status != Unset && (was.since == 0 || h.since < was.since) then h.since else was.since)
    && r == (if worse && why == "" then Reason(h.status, rec.manifest.kernelId) else why)
  }

  /** One record of the map: if it has a status, it may lower the time and worsen the
      summary. */
  method Merge(summary: Health, reason: string, rec: KernelRecord) returns (s: Health, r: string)
    requires summary.status == Ready || Severity(summary.status) > 0
    requires reason == "" <==> summary.status == Ready
    ensures Merged(summary, reason, rec, s, r)
  {
    var h := rec.health;
    s, r := summary, reason;
    if h.status != Unset {
      if s.since == 0 || h.since < s.since {
        s := s.(since := h.since);
      }
      var status;
      status, r := Absorb(s.status, reason, h.status, rec.manifest.kernelId);
      s := s.(status := status);
    }
  }

  class DiscoveryRegistry {
    var kernels: Kernels

    constructor ()
      ensures kernels == map[]
    {
      kernels := map[];
    }

    method RegisterKernel(m: Manifest, now: Time)
      modifies this
      ensures kernels == old(kernels)[m.kernelId := WithManifest(RecordOrEmpty(old(kernels), m.kernelId), m, now)]
    {
      var rec := if m.kernelId in kernels then kernels[m.kernelId] else EMPTY_RECORD;
      rec := rec.(id := m.kernelId, scope := m.scope, manifest := m);
      if rec.registeredAt == 0 {
        rec := rec.(registeredAt := now);
      }
      if rec.health.status == Unset {
        rec := rec.(health := Health(Ready, "", now));
      }
      rec := rec.(updatedAt := now);
      kernels := kernels[m.kernelId := rec];
    }

    method Register(record: KernelRecord, now: Time)
      modifies this
      ensures kernels == old(kernels)[Completed(record, now).id := Completed(record, now)]
    {
      var rec := record;
      if rec.manifest.kernelId == "" && rec.id != "" {
        rec := rec.(manifest := rec.manifest.(kernelId := rec.id));
      }
      if rec.id == "" {
        rec := rec.(id := rec.manifest.kernelId);
      }
      if rec.scope == "" {
        rec := rec.(scope := rec.manifest.scope);
      }
      if rec.registeredAt == 0 {
        rec := rec.(registeredAt := now);
      }
      rec := rec.(updatedAt := now);
      kernels := kernels[rec.id := rec];
    }

    method Unregister(id: string)
      modifies this
      ensures kernels == old(kernels) - {id}
    {
      kernels := kernels - {id};
    }

    method UpdateHealth(id: string, health: Health, now: Time)
      modifies this
      ensures kernels == old(kernels)[id := WithHealth(old(kernels), id, health, now)]
    {
      var rec := if id in kernels then kernels[id] else EMPTY_RECORD.(id := id, manifest := Manifest(id, "", ""));
      rec := rec.(health := health);
      if rec.scope == "" {
        rec := rec.(scope := rec.manifest.scope);
      }
      if rec.health.since == 0 {
        rec := rec.(health := rec.health.(since := now));
      }
      if rec.registeredAt == 0 {
        rec := rec.(registeredAt := now);
      }
      rec := rec.(updatedAt := now);
      kernels := kernels[id := rec];
    }

    method SetExports(id: string, ex: Option<Exports>)
      modifies this
      ensures kernels ==
              if id in old(kernels) then old(kernels)[id := old(kernels)[id].(exports := ex)] else old(kernels)
    {
      if id in kernels {
        kernels := kernels[id := kernels[id].(exports := ex)];
      }
    }

    method List() returns (list: seq<DiscoveryRecord>)
      ensures IsListing(kernels, list) && Sorted(list)
    {
      var out := Collect();
      list := SortById(out);
      SortedListing(kernels, out, list);
    }

    /** The map is visited in any order. */
    method Collect() returns (list: seq<DiscoveryRecord>)
      ensures IsListing(kernels, list)
    {
      list := [];
      var todo := kernels.Keys;
      while todo != {}
        invariant todo <= kernels.Keys && Distinct(list)
        invariant forall i | 0 <= i < |list| ::
                    list[i].id in kernels && list[i].id !in todo && list[i] == Listed(kernels, list[i].id)
        invariant forall id | id in kernels && id !in todo :: Mentions(list, id)
      {
        var id :| id in todo;
        ghost var before := list;
        todo := todo - {id};
        list := list + [DiscoveryRecord(id, kernels[id].health, kernels[id].exports)];
        assert list[|list| - 1].id == id;
        forall k | k in kernels && k !in todo ensures Mentions(list, k) {
          if k != id {
            var i :| 0 <= i < |before| && before[i].id == k;
            assert list[i].id == k;
          }
        }
      }
    }

    /** The map is visited in any order.  The time is the earliest exactly when no
        counted record lacks its own; otherwise it depends on the order. */
    method AggregateHealth(now: Time) returns (summary: Health, ghost order: seq<string>)
      requires now > 0
      ensures IsWorst(kernels, summary.status)
      ensures IsEarliest(kernels, now, summary.since) <==> AllDated(kernels)
      ensures IsOrder(kernels, order) && summary.since == OrNow(SinceAlong(kernels, order, now), now)
      ensures summary.reason == "" <==> summary.status == Ready
      ensures summary.status != Ready ==> Explains(kernels, summary.reason)
    {
      var reason;
      summary, reason, order := Survey(now);
      EarliestIffDated(kernels, now, summary.since);
      if summary.since == 0 {
        summary := summary.(since := now);
      }
      summary := summary.(reason := reason);
    }

    /** One visit of the loop over the map. */
    method Visit(id: string, summary: Health, reason: string, ghost seen: Kernels, ghost order: seq<string>,
                 ghost now: Time)
      returns (s: Health, r: string)
      requires id in kernels && id !in seen && now > 0 && Progress(kernels, seen, order, now, summary, reason)
      ensures Progress(kernels, seen[id := kernels[id]], order + [id], now, s, r)
    {
      s, r := Merge(summary, reason, kernels[id]);
      ProgressWith(kernels, seen, order, id, now, summary, reason, s, r);
    }

    /** The loop over the map. */
    method Survey(now: Time) returns (summary: Health, reason: string, ghost order: seq<string>)
      requires now > 0
      ensures Summarizes(kernels, now, summary.status, reason, summary.since)
      ensures Progress(kernels, kernels, order, now, summary, reason)
    {
      summary, reason, order := Health(Ready, "", now), "", [];
      var todo := kernels.Keys;
      ProgressStarts(kernels, now);
      assert kernels - todo == map[];
      while todo != {}
        invariant todo <= kernels.Keys
        invariant Progress(kernels, kernels - todo, order, now, summary, reason)
      {
        var id :| id in todo;
        summary, reason := Visit(id, summary, reason, kernels - todo, order, now);
        SeenWith(kernels, todo, id);
        order := order + [id];
        todo := todo - {id};
      }
      assert kernels - todo == kernels;
    }
  }
}
