/**
  The connection event stream of one SubscribeConnections call.

  The server keeps a snapshot per live connection and turns asynchronous events and
  periodic ticks into NEW, UPDATE and CLOSED messages; the client rebuilds the live
  table from the messages alone.  Byte counters are read afresh wherever the program
  reads them: once for the snapshot and once more for the totals shown in a NEW message.
 */
module ConnectionStream {
  import opened Wrappers

  type Id = nat
  const NIL_ID: Id := 0

  const TWO_63 := 0x8000_0000_0000_0000
  const TWO_64 := 0x1_0000_0000_0000_0000
  type Counter = x: int | 0 <= x < TWO_63

  /** int64 subtraction, with its wrap-around. */
  function Sub64(a: int, b: int): int {
    (a - b + TWO_63) % TWO_64 - TWO_63
  }

  /** One look at a connection: the counters stored, and the counters shown in a NEW. */
  datatype Sample = Sample(id: Id, up: Counter, down: Counter, shownUp: Counter, shownDown: Counter)

  datatype Snapshot = Snapshot(uplink: Counter, downlink: Counter, hadTraffic: bool)

  type Snapshots = map<Id, Snapshot>

  datatype ClosedInfo = ClosedInfo(id: Id, closedAt: Option<int>, up: Counter, down: Counter)

  datatype Event =
    | Joined(sample: Sample)
    | Left(id: Id, closedAt: Option<int>, info: ClosedInfo, now: int)
    | Unknown

  datatype Message =
    | New(id: Id, up: Counter, down: Counter, closedAt: Option<int>)
    | Update(id: Id, upDelta: int, downDelta: int)
    | Closed(id: Id, at: int, detailed: bool)

  // ----- what one call does to the snapshots, and what it sends -----

  function FirstTime(a: Option<int>, b: Option<int>, now: int): int {
    if a.Some? then a.value else if b.Some? then b.value else now
  }

  function OnEvent(snaps: Snapshots, e: Event): (Snapshots, seq<Message>) {
    match e
    case Joined(s) =>
      if s.id in snaps then (snaps, [])
      else (snaps[s.id := Snapshot(s.up, s.down, false)], [New(s.id, s.shownUp, s.shownDown, None)])
    case Left(id, closedAt, info, now) =>
      (snaps - {id}, [Closed(id, FirstTime(closedAt, info.closedAt, now), info.id != NIL_ID)])
    case Unknown => (snaps, [])
  }

  function OnSample(snaps: Snapshots, s: Sample): (Snapshots, seq<Message>) {
    var now := Snapshot(s.up, s.down, false);
    if s.id !in snaps then
      (snaps[s.id := now], [New(s.id, s.shownUp, s.shownDown, None)])
    else
      var was := snaps[s.id];
      var du, dd := Sub64(s.up, was.uplink), Sub64(s.down, was.downlink);
      if du < 0 || dd < 0 then
        (snaps[s.id := now], if was.hadTraffic then [Update(s.id, 0, 0)] else [])
      else if du > 0 || dd > 0 then
        (snaps[s.id := now.(hadTraffic := true)], [Update(s.id, du, dd)])
      else if was.hadTraffic then
        (snaps[s.id := now], [Update(s.id, 0, 0)])
      else (snaps, [])
  }

  function OnSamples(snaps: Snapshots, samples: seq<Sample>): (Snapshots, seq<Message>) {
    if samples == [] then (snaps, [])
    else
      var n := |samples| - 1;
      var before := OnSamples(snaps, samples[..n]);
      var last := OnSample(before.0, samples[n]);
      (last.0, before.1 + last.1)
  }

  predicate Distinct(samples: seq<Sample>) {
    forall i, j :: 0 <= i < j < |samples| ==> samples[i].id != samples[j].id
  }

  function Ids(samples: seq<Sample>): set<Id> { set i | 0 <= i < |samples| :: samples[i].id }

  /** The CLOSED messages of a tick: one per stale id, in the map's unspecified order. */
  predicate Closings(msgs: seq<Message>, stale: set<Id>) {
    && (forall i :: 0 <= i < |msgs| ==> msgs[i].Closed? && msgs[i].id in stale)
    && (forall i, j :: 0 <= i < j < |msgs| ==> msgs[i].id != msgs[j].id)
    && (forall id :: id in stale ==> exists i :: 0 <= i < |msgs| && msgs[i].id == id)
  }

  function Keep(snaps: Snapshots, ids: set<Id>): Snapshots { map id | id in snaps && id in ids :: snaps[id] }

  /** UnixMilli of Go's zero time, which is what an unset close time is shown as. */
  const ZERO_TIME_MILLI := -62135596800000

  function ClosedMilli(c: ClosedInfo): int { if c.closedAt.Some? then c.closedAt.value else ZERO_TIME_MILLI }

  /** The history part of the opening batch. */
  function ClosedNews(closed: seq<ClosedInfo>): seq<Message> {
    if closed == [] then []
    else
      var c := closed[|closed| - 1];
      ClosedNews(closed[..|closed| - 1]) + [New(c.id, c.up, c.down, Some(ClosedMilli(c)))]
  }

  // ----- the client -----

  datatype Totals = Totals(up: int, down: int)
  type Table = map<Id, Totals>

  function Show(t: Table, m: Message): Table {
    match m
    case New(id, up, down, closedAt) => if closedAt.None? then t[id := Totals(up, down)] else t
    case Update(id, du, dd) => if id in t then t[id := Totals(t[id].up + du, t[id].down + dd)] else t
    case Closed(id, _, _) => t - {id}
  }

  function Replay(t: Table, msgs: seq<Message>): Table {
    if msgs == [] then t else Show(Replay(t, msgs[..|msgs| - 1]), msgs[|msgs| - 1])
  }

  function View(snaps: Snapshots): Table { map id | id in snaps :: Totals(snaps[id].uplink, snaps[id].downlink) }

  // ----- the program's own form -----

  class Subscription {
    var snapshots: Snapshots

    constructor ()
      ensures snapshots == map[]
    {
      snapshots := map[];
    }

    method BuildInitialConnectionState(active: seq<Sample>, closed: seq<ClosedInfo>)
      returns (events: seq<Message>)
      requires snapshots == map[] && Distinct(active)
      modifies this
      ensures snapshots == OnSamples(map[], active).0
      ensures events == OnSamples(map[], active).1 + ClosedNews(closed)
    {
      events := [];
      var i := 0;
      while i < |active|
        invariant 0 <= i <= |active|
        invariant (snapshots, events) == OnSamples(map[], active[..i])
      {
        var s := active[i];
        assert active[..i + 1][..i] == active[..i];
        OnSamplesKeys(map[], active[..i]);
        events := events + [New(s.id, s.shownUp, s.shownDown, None)];
        snapshots := snapshots[s.id := Snapshot(s.up, s.down, false)];
        i := i + 1;
      }
      assert active[..i] == active;
      i := 0;
      while i < |closed|
        invariant 0 <= i <= |closed|
        invariant events == OnSamples(map[], active).1 + ClosedNews(closed[..i])
      {
        assert closed[..i + 1][..i] == closed[..i];
        events := events + [New(closed[i].id, closed[i].up, closed[i].down, Some(ClosedMilli(closed[i])))];
        i := i + 1;
      }
      assert closed[..i] == closed;
    }

    method ApplyConnectionEvent(e: Event) returns (sent: seq<Message>)
      modifies this
      ensures (snapshots, sent) == OnEvent(old(snapshots), e)
    {
      match e {
        case Joined(s) =>
          if s.id in snapshots {
            return [];
          }
          snapshots := snapshots[s.id := Snapshot(s.up, s.down, false)];
          sent := [New(s.id, s.shownUp, s.shownDown, None)];
        case Left(id, eventTime, info, now) =>
          snapshots := snapshots - {id};
          var closedAt := eventTime;
          if closedAt.None? && info.closedAt.Some? {
            closedAt := info.closedAt;
          }
          if closedAt.None? {
            closedAt := Some(now);
          }
          sent := [Closed(id, closedAt.value, info.id != NIL_ID)];
        case Unknown =>
          sent := [];
      }
    }

    /** The events already queued are drained into one batch: the same as delivering them one by one. */
    method DrainEvents(batch: seq<Event>, ghost before: seq<Message>) returns (pending: seq<Message>)
      modifies this
      ensures Server(snapshots, before + pending) == After(Server(old(snapshots), before), Deliveries(batch))
    {
      pending := [];
      assert before + pending == before;
      var i := 0;
      while i < |batch|
        invariant 0 <= i <= |batch|
        invariant Server(snapshots, before + pending) == After(Server(old(snapshots), before), Deliveries(batch[..i]))
      {
        assert batch[..i + 1][..i] == batch[..i];
        assert Deliveries(batch[..i + 1])[..i] == Deliveries(batch[..i]);
        var protoEvents := ApplyConnectionEvent(batch[i]);
        assert before + (pending + protoEvents) == before + pending + protoEvents;
        pending := pending + protoEvents;
        i := i + 1;
      }
      assert batch[..i] == batch;
    }

    /** A tick.  "clock" gives the time read when the given id is found gone. */
    method BuildTrafficUpdates(active: seq<Sample>, recent: seq<ClosedInfo>, clock: Id -> int)
      returns (events: seq<Message>, ghost closings: seq<Message>)
      requires Distinct(active)
      modifies this
      ensures snapshots == Keep(OnSamples(old(snapshots), active).0, Ids(active))
      ensures events == OnSamples(old(snapshots), active).1 + closings
      ensures Closings(closings, old(snapshots).Keys - Ids(active))
      ensures forall i :: 0 <= i < |closings| ==> closings[i] == ClosingFor(closings[i].id, recent, clock)
    {
      var activeIndex: set<Id> := {};
      events := [];
      var i := 0;
      while i < |active|
        invariant 0 <= i <= |active|
        invariant activeIndex == Ids(active[..i])
        invariant (snapshots, events) == OnSamples(old(snapshots), active[..i])
      {
        var s := active[i];
        IdsSnoc(active, i);
        assert active[..i + 1][..i] == active[..i];
        activeIndex := activeIndex + {s.id};
        assert events + [] == events;
        i := i + 1;
        if s.id !in snapshots {
          snapshots := snapshots[s.id := Snapshot(s.up, s.down, false)];
          events := events + [New(s.id, s.shownUp, s.shownDown, None)];
          continue;
        }
        var snapshot := snapshots[s.id];
        var uplinkDelta := Sub64(s.up, snapshot.uplink);
        var downlinkDelta := Sub64(s.down, snapshot.downlink);
        if uplinkDelta < 0 || downlinkDelta < 0 {
          if snapshot.hadTraffic {
            events := events + [Update(s.id, 0, 0)];
          }
          snapshots := snapshots[s.id := Snapshot(s.up, s.down, false)];
          continue;
        }
        if uplinkDelta > 0 || downlinkDelta > 0 {
          snapshots := snapshots[s.id := Snapshot(s.up, s.down, true)];
          events := events + [Update(s.id, uplinkDelta, downlinkDelta)];
          continue;
        }
        if snapshot.hadTraffic {
          snapshots := snapshots[s.id := Snapshot(s.up, s.down, false)];
          events := events + [Update(s.id, 0, 0)];
        }
      }
      assert active[..i] == active;
      OnSamplesKeys(old(snapshots), active);
      assert snapshots.Keys - activeIndex == old(snapshots).Keys - Ids(active);
      var gone := CloseStale(activeIndex, recent, clock);
      closings := gone;
      events := events + gone;
    }

    /** The second half of a tick: report and forget every snapshot whose connection is gone. */
    method CloseStale(activeIndex: set<Id>, recent: seq<ClosedInfo>, clock: Id -> int) returns (closings: seq<Message>)
      modifies this
      ensures snapshots == Keep(old(snapshots), activeIndex)
      ensures Closings(closings, old(snapshots).Keys - activeIndex)
      ensures forall i :: 0 <= i < |closings| ==> closings[i] == ClosingFor(closings[i].id, recent, clock)
    {
      closings := [];
      var todo := snapshots.Keys;
      while todo != {}
        invariant todo <= old(snapshots).Keys
        invariant Closings(closings, old(snapshots).Keys - todo - activeIndex)
        invariant forall k :: 0 <= k < |closings| ==> closings[k] == ClosingFor(closings[k].id, recent, clock)
        invariant snapshots == Keep(old(snapshots), todo + activeIndex)
        decreases todo
      {
        var id :| id in todo;
        ghost var done := old(snapshots).Keys - todo - activeIndex;
        todo := todo - {id};
        if id in activeIndex {
          assert old(snapshots).Keys - todo - activeIndex == done;
          continue;
        }
        assert old(snapshots).Keys - todo - activeIndex == done + {id};
        var known, when := FindClosed(recent, id);
        var closedAt := if when.Some? then when.value else clock(id);
        ClosingsSnoc(closings, done, Closed(id, closedAt, known));
        closings := closings + [Closed(id, closedAt, known)];
        snapshots := snapshots - {id};
      }
      assert old(snapshots).Keys - todo - activeIndex == old(snapshots).Keys - activeIndex;
    }
  }

  predicate Mentions(recent: seq<ClosedInfo>, id: Id) { exists k :: 0 <= k < |recent| && recent[k].id == id }

  function ClosingFor(id: Id, recent: seq<ClosedInfo>, clock: Id -> int): Message {
    Closed(id, FirstTime(LatestClosedAt(recent, id), None, clock(id)), Mentions(recent, id))
  }

  lemma ClosingsSnoc(msgs: seq<Message>, stale: set<Id>, m: Message)
    requires Closings(msgs, stale) && m.Closed? && m.id !in stale
    ensures Closings(msgs + [m], stale + {m.id})
  {
    var longer := msgs + [m];
    assert longer[|msgs|].id == m.id;
    forall id | id in stale ensures exists i :: 0 <= i < |longer| && longer[i].id == id {
      var k :| 0 <= k < |msgs| && msgs[k].id == id;
      assert longer[k].id == id;
    }
  }

  /** The close time kept for an id by the index over recently closed connections (the last entry wins). */
  function LatestClosedAt(recent: seq<ClosedInfo>, id: Id): Option<int> {
    if recent == [] then None
    else if recent[|recent| - 1].id == id then recent[|recent| - 1].closedAt
    else LatestClosedAt(recent[..|recent| - 1], id)
  }

  /** The entry that counts is the last one for the id. */
  lemma {:induction false} LatestIsLast(recent: seq<ClosedInfo>, id: Id)
    ensures !Mentions(recent, id) ==> LatestClosedAt(recent, id) == None
    ensures Mentions(recent, id) ==>
      exists k :: 0 <= k < |recent| && recent[k].id == id && LatestClosedAt(recent, id) == recent[k].closedAt &&
        forall j :: k < j < |recent| ==> recent[j].id != id
  {
    if recent != [] {
      var n := |recent| - 1;
      LatestIsLast(recent[..n], id);
      if recent[n].id != id && Mentions(recent, id) {
        var i :| 0 <= i < |recent| && recent[i].id == id;
        assert recent[..n][i].id == id;
        var k :| 0 <= k < n && recent[..n][k].id == id && LatestClosedAt(recent[..n], id) == recent[..n][k].closedAt &&
          forall j :: k < j < n ==> recent[..n][j].id != id;
        assert recent[k].id == id;
        forall j | k < j < |recent| ensures recent[j].id != id {
          assert j < n ==> recent[j] == recent[..n][j];
        }
      }
    }
  }

  /** When a connection is reported closed, and with which time: a leaving one at the time of its event, else at the time
      its record has, else now; a stale one at the time of its latest history entry, else now. */
  lemma ClosingTimes(snaps: Snapshots, id: Id, closedAt: Option<int>, info: ClosedInfo, now: int, recent: seq<ClosedInfo>, clock: Id -> int)
    ensures
      var (snaps', msgs) := OnEvent(snaps, Left(id, closedAt, info, now));
      && snaps' == snaps - {id} && |msgs| == 1 && msgs[0].Closed? && msgs[0].id == id
      && (msgs[0].detailed <==> info.id != NIL_ID)
      && (closedAt.Some? ==> closedAt == Some(msgs[0].at))
      && (closedAt.None? && info.closedAt.Some? ==> info.closedAt == Some(msgs[0].at))
      && (closedAt.None? && info.closedAt.None? ==> msgs[0].at == now)
    ensures
      var m := ClosingFor(id, recent, clock);
      && m.Closed? && m.id == id && (m.detailed <==> Mentions(recent, id))
      && (LatestClosedAt(recent, id) == Some(m.at) || (LatestClosedAt(recent, id) == None && m.at == clock(id)))
  {
  }

  /** The history in the opening batch: one NEW for each entry, in order, marked by its close time, which is that of Go's
      zero time if it has none. */
  lemma {:induction false} HistoryAt(closed: seq<ClosedInfo>)
    ensures |ClosedNews(closed)| == |closed|
    ensures forall i :: 0 <= i < |closed| ==>
      var at := if closed[i].closedAt.Some? then closed[i].closedAt.value else -62135596800000;
      ClosedNews(closed)[i] == New(closed[i].id, closed[i].up, closed[i].down, Some(at))
  {
    if closed != [] {
      HistoryAt(closed[..|closed| - 1]);
    }
  }

  method FindClosed(recent: seq<ClosedInfo>, id: Id) returns (known: bool, when: Option<int>)
    ensures known == Mentions(recent, id)
    ensures when == LatestClosedAt(recent, id)
  {
    known, when := false, None;
    var i := 0;
    while i < |recent|
      invariant 0 <= i <= |recent|
      invariant known <==> exists k :: 0 <= k < i && recent[k].id == id
      invariant when == LatestClosedAt(recent[..i], id)
    {
      assert recent[..i + 1][..i] == recent[..i];
      if recent[i].id == id {
        known, when := true, recent[i].closedAt;
      }
      i := i + 1;
    }
    assert recent[..i] == recent;
  }

  // ----- lemmas about one call -----

  lemma IdsSnoc(samples: seq<Sample>, i: nat)
    requires i < |samples|
    ensures Ids(samples[..i + 1]) == Ids(samples[..i]) + {samples[i].id}
  {
    var a, b := samples[..i + 1], samples[..i];
    forall id | id in Ids(b) ensures id in Ids(a) {
      var k :| 0 <= k < i && b[k].id == id;
      assert a[k].id == id;
    }
    assert a[i].id in Ids(a);
  }

  lemma SubIsExact(a: Counter, b: Counter)
    ensures Sub64(a, b) == a - b
  {
  }

  lemma {:induction false} OnSamplesKeys(snaps: Snapshots, samples: seq<Sample>)
    ensures OnSamples(snaps, samples).0.Keys == snaps.Keys + Ids(samples)
  {
    if samples != [] {
      var n := |samples| - 1;
      OnSamplesKeys(snaps, samples[..n]);
      IdsSnoc(samples, n);
      assert samples[..n + 1] == samples;
    }
  }

  lemma {:induction false} ReplayConcat(t: Table, a: seq<Message>, b: seq<Message>)
    ensures Replay(t, a + b) == Replay(Replay(t, a), b)
  {
    if b == [] {
      assert a + b == a;
    } else {
      var n := |b| - 1;
      assert (a + b)[..|a| + n] == a + b[..n];
      ReplayConcat(t, a, b[..n]);
    }
  }

  lemma ReplayOne(t: Table, msgs: seq<Message>, m: Message)
    ensures Replay(t, msgs + [m]) == Show(Replay(t, msgs), m)
  {
    assert (msgs + [m])[..|msgs|] == msgs;
  }

  lemma {:induction false} ReplayClosings(t: Table, msgs: seq<Message>)
    requires forall i :: 0 <= i < |msgs| ==> msgs[i].Closed?
    ensures Replay(t, msgs) == map id | id in t && forall i :: 0 <= i < |msgs| ==> msgs[i].id != id :: t[id]
  {
    if msgs != [] {
      ReplayClosings(t, msgs[..|msgs| - 1]);
    }
  }

  /** The totals a client shows for a sampled connection, whatever it showed before. */
  function Shown(snaps: Snapshots, t: Table, s: Sample): Totals
    requires s.id in snaps ==> s.id in t
  {
    if s.id !in snaps then Totals(s.shownUp, s.shownDown)
    else if s.up < snaps[s.id].uplink || s.down < snaps[s.id].downlink then t[s.id]
    else Totals(t[s.id].up + s.up - snaps[s.id].uplink, t[s.id].down + s.down - snaps[s.id].downlink)
  }

  lemma OnSampleShown(snaps: Snapshots, t: Table, s: Sample)
    requires t.Keys == snaps.Keys
    ensures
      var (snaps', msgs) := OnSample(snaps, s);
      && Replay(t, msgs) == t[s.id := Shown(snaps, t, s)]
      && snaps'.Keys == snaps.Keys + {s.id}
      && snaps'[s.id].uplink == s.up && snaps'[s.id].downlink == s.down
      && forall id :: id in snaps && id != s.id ==> snaps'[id] == snaps[id]
  {
    var (snaps', msgs) := OnSample(snaps, s);
    if s.id in snaps {
      SubIsExact(s.up, snaps[s.id].uplink);
      SubIsExact(s.down, snaps[s.id].downlink);
    }
    if msgs == [] {
      assert Replay(t, msgs) == t;
    } else {
      assert msgs == [] + [msgs[0]];
      ReplayOne(t, [], msgs[0]);
    }
  }

  lemma {:induction false} OnSamplesTable(snaps: Snapshots, t: Table, samples: seq<Sample>)
    requires t.Keys == snaps.Keys
    ensures Replay(t, OnSamples(snaps, samples).1).Keys == OnSamples(snaps, samples).0.Keys
  {
    if samples != [] {
      var n := |samples| - 1;
      var (mid, msgs) := OnSamples(snaps, samples[..n]);
      OnSamplesTable(snaps, t, samples[..n]);
      OnSampleShown(mid, Replay(t, msgs), samples[n]);
      ReplayConcat(t, msgs, OnSample(mid, samples[n]).1);
    }
  }

  /** An id that is not sampled keeps its snapshot and its shown totals. */
  lemma {:induction false} OnSamplesElsewhere(snaps: Snapshots, t: Table, samples: seq<Sample>, id: Id)
    requires t.Keys == snaps.Keys
    requires forall k :: 0 <= k < |samples| ==> samples[k].id != id
    ensures id in OnSamples(snaps, samples).0 <==> id in snaps
    ensures id in Replay(t, OnSamples(snaps, samples).1) <==> id in snaps
    ensures id in snaps ==>
      OnSamples(snaps, samples).0[id] == snaps[id] && Replay(t, OnSamples(snaps, samples).1)[id] == t[id]
  {
    if samples == [] {
      assert Replay(t, []) == t;
    } else {
      var n := |samples| - 1;
      var (mid, msgs) := OnSamples(snaps, samples[..n]);
      OnSamplesElsewhere(snaps, t, samples[..n], id);
      OnSamplesTable(snaps, t, samples[..n]);
      assert samples[n].id != id;
      OnSampleShown(mid, Replay(t, msgs), samples[n]);
      ReplayConcat(t, msgs, OnSample(mid, samples[n]).1);
    }
  }

  /** A sampled id is stored with the counters just read, and the client shows for it what Shown says. */
  lemma {:induction false} OnSamplesHere(snaps: Snapshots, t: Table, samples: seq<Sample>, k: nat)
    requires Distinct(samples) && t.Keys == snaps.Keys && k < |samples|
    ensures
      var (snaps', msgs) := OnSamples(snaps, samples);
      var s := samples[k];
      && s.id in snaps' && s.id in Replay(t, msgs)
      && snaps'[s.id].uplink == s.up && snaps'[s.id].downlink == s.down
      && Replay(t, msgs)[s.id] == Shown(snaps, t, s)
  {
    var n := |samples| - 1;
    var (mid, msgs) := OnSamples(snaps, samples[..n]);
    OnSamplesTable(snaps, t, samples[..n]);
    OnSampleShown(mid, Replay(t, msgs), samples[n]);
    ReplayConcat(t, msgs, OnSample(mid, samples[n]).1);
    if k == n {
      OnSamplesElsewhere(snaps, t, samples[..n], samples[n].id);
    } else {
      OnSamplesHere(snaps, t, samples[..n], k);
      assert samples[k].id != samples[n].id;
    }
  }

  // ----- steps and runs -----

  datatype Step = Deliver(e: Event) | Tick(active: seq<Sample>, closings: seq<Message>)

  datatype Server = Server(snaps: Snapshots, sent: seq<Message>)

  predicate Possible(snaps: Snapshots, step: Step) {
    step.Tick? ==> Distinct(step.active) && Closings(step.closings, snaps.Keys - Ids(step.active))
  }

  function Do(s: Server, step: Step): Server {
    match step
    case Deliver(e) => Server(OnEvent(s.snaps, e).0, s.sent + OnEvent(s.snaps, e).1)
    case Tick(active, closings) =>
      Server(Keep(OnSamples(s.snaps, active).0, Ids(active)), s.sent + (OnSamples(s.snaps, active).1 + closings))
  }

  function Open(active: seq<Sample>, closed: seq<ClosedInfo>): Server {
    Server(OnSamples(map[], active).0, OnSamples(map[], active).1 + ClosedNews(closed))
  }

  function After(s: Server, steps: seq<Step>): Server {
    if steps == [] then s else Do(After(s, steps[..|steps| - 1]), steps[|steps| - 1])
  }

  function Deliveries(batch: seq<Event>): seq<Step> { seq(|batch|, i requires 0 <= i < |batch| => Deliver(batch[i])) }

  /** Late, repeated, reordered and missing events are all allowed: any step may follow any other. */
  predicate Run(s: Server, steps: seq<Step>) {
    steps == [] ||
    (Run(s, steps[..|steps| - 1]) && Possible(After(s, steps[..|steps| - 1]).snaps, steps[|steps| - 1]))
  }

  ghost predicate InSync(s: Server) { Replay(map[], s.sent) == View(s.snaps) }

  ghost predicate SameIds(s: Server) { Replay(map[], s.sent).Keys == s.snaps.Keys }

  /** A new connection is shown with the counters that are stored; a known one has not gone backwards. */
  predicate CleanSample(snaps: Snapshots, s: Sample) {
    if s.id in snaps then s.up >= snaps[s.id].uplink && s.down >= snaps[s.id].downlink
    else s.up == s.shownUp && s.down == s.shownDown
  }

  predicate CleanStep(snaps: Snapshots, step: Step) {
    match step
    case Deliver(Joined(s)) => s.id in snaps || CleanSample(snaps, s)
    case Deliver(_) => true
    case Tick(active, _) => forall k :: 0 <= k < |active| ==> CleanSample(snaps, active[k])
  }

  /** The client's table before and after one event. */
  lemma DeliverReplay(s: Server, e: Event)
    ensures
      var t, msgs := Replay(map[], s.sent), OnEvent(s.snaps, e).1;
      |msgs| <= 1 && Replay(map[], Do(s, Deliver(e)).sent) == if msgs == [] then t else Show(t, msgs[0])
  {
    var msgs := OnEvent(s.snaps, e).1;
    if msgs == [] {
      assert s.sent + msgs == s.sent;
    } else {
      assert msgs == [msgs[0]];
      ReplayOne(map[], s.sent, msgs[0]);
    }
  }

  /** The client's table after one event, and what it should be. */
  lemma EventStep(snaps: Snapshots, t: Table, e: Event)
    requires t.Keys == snaps.Keys
    ensures
      var (snaps', msgs) := OnEvent(snaps, e);
      var t' := if msgs == [] then t else Show(t, msgs[0]);
      && t'.Keys == snaps'.Keys
      && (t == View(snaps) ==> (t' == View(snaps') <==> CleanStep(snaps, Deliver(e))))
  {
    match e {
      case Joined(s) =>
        if s.id !in snaps {
          var snaps' := OnEvent(snaps, e).0;
          assert View(snaps')[s.id] == Totals(s.up, s.down);
          assert t == View(snaps) ==> View(snaps') == t[s.id := Totals(s.up, s.down)];
        }
      case Left(id, _, _, _) => assert View(snaps - {id}) == View(snaps) - {id};
      case Unknown =>
    }
  }

  lemma DeliverStep(s: Server, e: Event)
    requires SameIds(s)
    ensures SameIds(Do(s, Deliver(e)))
    ensures InSync(s) ==> (InSync(Do(s, Deliver(e))) <==> CleanStep(s.snaps, Deliver(e)))
  {
    DeliverReplay(s, e);
    EventStep(s.snaps, Replay(map[], s.sent), e);
  }

  /** Dropping the stale ids leaves the active ones. */
  lemma StaleIsRest(t: Table, known: set<Id>, ids: set<Id>)
    requires t.Keys == known + ids
    ensures (map id | id in t && id !in known - ids :: t[id]) == Limit(t, ids)
    ensures Limit(t, ids).Keys == ids
  {
  }

  lemma TickMessages(t: Table, sent: seq<Message>, msgs: seq<Message>, closings: seq<Message>)
    requires Replay(map[], sent) == t
    ensures Replay(map[], sent + (msgs + closings)) == Replay(Replay(t, msgs), closings)
  {
    ReplayConcat(map[], sent, msgs + closings);
    ReplayConcat(t, msgs, closings);
  }

  lemma TickReplay(s: Server, active: seq<Sample>, closings: seq<Message>)
    requires SameIds(s) && Possible(s.snaps, Tick(active, closings))
    ensures Replay(map[], Do(s, Tick(active, closings)).sent) ==
      Limit(Replay(Replay(map[], s.sent), OnSamples(s.snaps, active).1), Ids(active))
    ensures Replay(map[], Do(s, Tick(active, closings)).sent).Keys == Ids(active)
    ensures Do(s, Tick(active, closings)).snaps.Keys == Ids(active)
  {
    var t := Replay(map[], s.sent);
    var (tracked, msgs) := OnSamples(s.snaps, active);
    TickMessages(t, s.sent, msgs, closings);
    OnSamplesTable(s.snaps, t, active);
    OnSamplesKeys(s.snaps, active);
    ReplayStale(Replay(t, msgs), closings, s.snaps.Keys - Ids(active));
    StaleIsRest(Replay(t, msgs), s.snaps.Keys, Ids(active));
    KeepKeys(tracked, Ids(active));
  }

  lemma KeepKeys(snaps: Snapshots, ids: set<Id>)
    requires ids <= snaps.Keys
    ensures Keep(snaps, ids).Keys == ids
  {
  }

  function Limit(t: Table, ids: set<Id>): Table { map id | id in t && id in ids :: t[id] }

  lemma ReplayStale(t: Table, closings: seq<Message>, stale: set<Id>)
    requires Closings(closings, stale)
    ensures Replay(t, closings) == map id | id in t && id !in stale :: t[id]
  {
    ReplayClosings(t, closings);
    assert forall id :: id in stale <==> exists i :: 0 <= i < |closings| && closings[i].id == id;
  }

  /** What one active connection looks like after the tick, on both sides. */
  lemma TickAt(s: Server, active: seq<Sample>, closings: seq<Message>, k: nat)
    requires SameIds(s) && Possible(s.snaps, Tick(active, closings)) && k < |active|
    ensures
      var d := Do(s, Tick(active, closings));
      var t := Replay(map[], d.sent);
      var id := active[k].id;
      && id in Ids(active) && id in d.snaps && id in t
      && d.snaps[id].uplink == active[k].up && d.snaps[id].downlink == active[k].down
      && t[id] == Shown(s.snaps, Replay(map[], s.sent), active[k])
  {
    TickReplay(s, active, closings);
    OnSamplesHere(s.snaps, Replay(map[], s.sent), active, k);
    assert active[k].id in Ids(active);
  }

  lemma SyncedAt(s: Server, active: seq<Sample>, closings: seq<Message>, k: nat)
    requires SameIds(s) && InSync(s) && Possible(s.snaps, Tick(active, closings)) && k < |active|
    ensures
      var d := Do(s, Tick(active, closings));
      var id := active[k].id;
      && id in View(d.snaps) && id in Replay(map[], d.sent)
      && (CleanSample(s.snaps, active[k]) <==> Replay(map[], d.sent)[id] == View(d.snaps)[id])
  {
    TickAt(s, active, closings, k);
  }

  lemma TickStep(s: Server, active: seq<Sample>, closings: seq<Message>)
    requires SameIds(s) && Possible(s.snaps, Tick(active, closings))
    ensures SameIds(Do(s, Tick(active, closings)))
    ensures Do(s, Tick(active, closings)).snaps.Keys == Ids(active)
    ensures InSync(s) ==> (InSync(Do(s, Tick(active, closings))) <==> CleanStep(s.snaps, Tick(active, closings)))
  {
    TickReplay(s, active, closings);
    if InSync(s) {
      var d := Do(s, Tick(active, closings));
      var t, v := Replay(map[], d.sent), View(d.snaps);
      forall k | 0 <= k < |active|
        ensures active[k].id in v && active[k].id in t && (CleanSample(s.snaps, active[k]) <==> t[active[k].id] == v[active[k].id])
      {
        SyncedAt(s, active, closings, k);
      }
      if forall k :: 0 <= k < |active| ==> CleanSample(s.snaps, active[k]) {
        forall id | id in v ensures t[id] == v[id] {
          var k :| 0 <= k < |active| && active[k].id == id;
        }
        assert t == v;
      }
    }
  }

  const NEW_SERVER := Server(map[], [])

  /** The opening batch acts like a first tick: the history in it changes nothing. */
  lemma OpenIsTick(active: seq<Sample>, closed: seq<ClosedInfo>)
    requires Distinct(active)
    ensures Possible(map[], Tick(active, []))
    ensures Open(active, closed).snaps == Do(NEW_SERVER, Tick(active, [])).snaps
    ensures Replay(map[], Open(active, closed).sent) == Replay(map[], Do(NEW_SERVER, Tick(active, [])).sent)
  {
    var news := OnSamples(map[], active).1;
    OnSamplesKeys(map[], active);
    assert Closings([], {} - Ids(active));
    assert [] + (news + []) == news;
    assert Keep(OnSamples(map[], active).0, Ids(active)) == OnSamples(map[], active).0;
    ReplayConcat(map[], news, ClosedNews(closed));
    ClosedNewsInvisible(Replay(map[], news), closed);
  }

  lemma OpenStep(active: seq<Sample>, closed: seq<ClosedInfo>)
    requires Distinct(active)
    ensures SameIds(Open(active, closed))
    ensures InSync(Open(active, closed)) <==> forall k :: 0 <= k < |active| ==> CleanSample(map[], active[k])
  {
    OpenIsTick(active, closed);
    assert Replay(map[], []) == map[] && View(map[]) == map[];
    TickStep(NEW_SERVER, active, []);
  }

  lemma {:induction false} ClosedNewsInvisible(t: Table, closed: seq<ClosedInfo>)
    ensures Replay(t, ClosedNews(closed)) == t
  {
    if closed != [] {
      var n := |closed| - 1;
      ClosedNewsInvisible(t, closed[..n]);
      ReplayOne(t, ClosedNews(closed[..n]), New(closed[n].id, closed[n].up, closed[n].down, Some(ClosedMilli(closed[n]))));
    }
  }

  lemma DoStep(s: Server, step: Step)
    requires SameIds(s) && Possible(s.snaps, step)
    ensures SameIds(Do(s, step))
    ensures InSync(s) ==> (InSync(Do(s, step)) <==> CleanStep(s.snaps, step))
  {
    match step {
      case Deliver(e) => DeliverStep(s, e);
      case Tick(active, closings) => TickStep(s, active, closings);
    }
  }

  /** In every run the client and the server agree on which connections are live. */
  lemma {:induction false} ClientKnowsTheLiveConnections(active: seq<Sample>, closed: seq<ClosedInfo>, steps: seq<Step>)
    requires Distinct(active) && Run(Open(active, closed), steps)
    ensures SameIds(After(Open(active, closed), steps))
  {
    if steps == [] {
      OpenStep(active, closed);
    } else {
      var n := |steps| - 1;
      ClientKnowsTheLiveConnections(active, closed, steps[..n]);
      DoStep(After(Open(active, closed), steps[..n]), steps[n]);
    }
  }

  lemma {:induction false} RunPrefix(s: Server, steps: seq<Step>, k: nat)
    requires Run(s, steps) && k <= |steps|
    ensures Run(s, steps[..k])
    ensures k < |steps| ==> Possible(After(s, steps[..k]).snaps, steps[k])
    ensures k < |steps| ==> After(s, steps[..k + 1]) == Do(After(s, steps[..k]), steps[k])
  {
    if k == |steps| {
      assert steps[..k] == steps;
    } else {
      var n := |steps| - 1;
      if k == n {
        assert steps[..k + 1] == steps;
      } else {
        RunPrefix(s, steps[..n], k);
        assert steps[..n][..k] == steps[..k] && steps[..n][..k + 1] == steps[..k + 1];
      }
    }
  }

  /** Replica correctness, exactly: the client's table equals the server's snapshots at every point of
      the run if and only if every NEW showed the counters that were stored and no counter went backwards. */
  lemma {:induction false} ReplicaIff(active: seq<Sample>, closed: seq<ClosedInfo>, steps: seq<Step>)
    requires Distinct(active) && Run(Open(active, closed), steps)
    ensures
      var o := Open(active, closed);
      (forall k :: 0 <= k <= |steps| ==> InSync(After(o, steps[..k]))) <==>
      && (forall k :: 0 <= k < |active| ==> CleanSample(map[], active[k]))
      && (forall k :: 0 <= k < |steps| ==> CleanStep(After(o, steps[..k]).snaps, steps[k]))
  {
    var o := Open(active, closed);
    OpenStep(active, closed);
    assert After(o, steps[..0]) == o;
    forall k | 0 <= k < |steps|
      ensures InSync(After(o, steps[..k])) ==>
        (InSync(After(o, steps[..k + 1])) <==> CleanStep(After(o, steps[..k]).snaps, steps[k]))
    {
      RunPrefix(o, steps, k);
      ClientKnowsTheLiveConnections(active, closed, steps[..k]);
      DoStep(After(o, steps[..k]), steps[k]);
    }
    if (forall k :: 0 <= k < |active| ==> CleanSample(map[], active[k])) &&
       (forall k :: 0 <= k < |steps| ==> CleanStep(After(o, steps[..k]).snaps, steps[k]))
    {
      var k := 0;
      while k < |steps|
        invariant 0 <= k <= |steps|
        invariant forall j :: 0 <= j <= k ==> InSync(After(o, steps[..j]))
      {
        k := k + 1;
      }
    }
    if forall k :: 0 <= k <= |steps| ==> InSync(After(o, steps[..k])) {
      forall k | 0 <= k < |steps| ensures CleanStep(After(o, steps[..k]).snaps, steps[k]) {
        assert InSync(After(o, steps[..k])) && InSync(After(o, steps[..k + 1]));
      }
    }
  }

  /** The opening batch reads the totals to show before the counters to store, so a busy connection can be shown
      with less than is stored. */
  lemma OpeningNewCanLagBehind() returns (active: seq<Sample>)
    ensures Distinct(active) && ShownFirst(active) && Run(Open(active, []), []) && !InSync(After(Open(active, []), []))
  {
    active := [Sample(1, 5, 0, 0, 0)];
    OpenStep(active, []);
    assert !CleanSample(map[], active[0]);
  }

  /** A join stores the counters before it reads the totals to show, which can then be more. */
  lemma JoinedNewCanRunAhead() returns (join: Step)
    ensures Possible(map[], join) && StoredFirst(map[], join)
    ensures Run(Open([], []), [join]) && !InSync(After(Open([], []), [join]))
  {
    var s := Sample(1, 0, 0, 5, 0);
    join := Deliver(Joined(s));
    OpenStep([], []);
    var o := Open([], []);
    assert [join][..0] == [] && o == Server(map[], []) && Run(o, []);
    DeliverStep(o, join.e);
    assert !CleanStep(map[], join) by { assert !CleanSample(map[], s); }
  }

  // ----- how far ahead of the snapshots the client is -----

  /** Byte counters only grow, so the order of the two readings bounds the one by the other. */
  predicate ShownFirst(active: seq<Sample>) {
    forall k :: 0 <= k < |active| ==> active[k].shownUp <= active[k].up && active[k].shownDown <= active[k].down
  }

  predicate StoredFirst(snaps: Snapshots, step: Step) {
    match step
    case Deliver(Joined(s)) => s.id !in snaps ==> s.up <= s.shownUp && s.down <= s.shownDown
    case Deliver(_) => true
    case Tick(active, _) =>
      forall k :: 0 <= k < |active| && active[k].id !in snaps ==>
        active[k].up <= active[k].shownUp && active[k].down <= active[k].shownDown
  }

  /** By how much the totals shown in a NEW exceed the counters stored. */
  function Gap(s: Sample): Totals { Totals(s.shownUp - s.up, s.shownDown - s.down) }

  type Gaps = map<Id, Totals>

  function GapsOver(snaps: Snapshots, gaps: Gaps, samples: seq<Sample>): Gaps {
    if samples == [] then gaps
    else
      var n := |samples| - 1;
      var before := GapsOver(snaps, gaps, samples[..n]);
      if samples[n].id in snaps then before else before[samples[n].id := Gap(samples[n])]
  }

  /** A gap is set by a NEW and stays until the connection is closed. */
  function GapsNext(snaps: Snapshots, gaps: Gaps, step: Step): Gaps {
    match step
    case Deliver(Joined(s)) => if s.id in snaps then gaps else gaps[s.id := Gap(s)]
    case Deliver(Left(id, _, _, _)) => gaps - {id}
    case Deliver(Unknown) => gaps
    case Tick(active, _) =>
      var over := GapsOver(snaps, gaps, active);
      map id | id in over && id in Ids(active) :: over[id]
  }

  function GapsAfter(active: seq<Sample>, closed: seq<ClosedInfo>, steps: seq<Step>): Gaps {
    if steps == [] then GapsOver(map[], map[], active)
    else
      var n := |steps| - 1;
      GapsNext(After(Open(active, closed), steps[..n]).snaps, GapsAfter(active, closed, steps[..n]), steps[n])
  }

  function Plus(s: Snapshot, g: Totals): Totals { Totals(s.uplink + g.up, s.downlink + g.down) }

  /** The client is ahead of every snapshot by exactly the gap of the connection's last NEW. */
  ghost predicate AheadBy(s: Server, gaps: Gaps) { TableAhead(s.snaps, gaps, Replay(map[], s.sent)) }

  ghost predicate TableAhead(snaps: Snapshots, gaps: Gaps, t: Table) {
    forall id :: id in snaps ==> id in gaps && id in t && t[id] == Plus(snaps[id], gaps[id])
  }

  predicate SteadySample(snaps: Snapshots, s: Sample) {
    s.id in snaps ==> s.up >= snaps[s.id].uplink && s.down >= snaps[s.id].downlink
  }

  /** No counter of a known connection goes backwards. */
  predicate SteadyStep(snaps: Snapshots, step: Step) {
    step.Tick? ==> forall k :: 0 <= k < |step.active| ==> SteadySample(snaps, step.active[k])
  }

  lemma {:induction false} GapsElsewhere(snaps: Snapshots, gaps: Gaps, samples: seq<Sample>, id: Id)
    requires forall k :: 0 <= k < |samples| ==> samples[k].id != id || id in snaps
    ensures id in GapsOver(snaps, gaps, samples) <==> id in gaps
    ensures id in gaps ==> GapsOver(snaps, gaps, samples)[id] == gaps[id]
  {
    if samples != [] {
      var n := |samples| - 1;
      GapsElsewhere(snaps, gaps, samples[..n], id);
      assert samples[n].id != id || id in snaps;
    }
  }

  lemma {:induction false} GapsHere(snaps: Snapshots, gaps: Gaps, samples: seq<Sample>, k: nat)
    requires Distinct(samples) && k < |samples| && samples[k].id !in snaps
    ensures
      var id := samples[k].id;
      id in GapsOver(snaps, gaps, samples) && GapsOver(snaps, gaps, samples)[id] == Gap(samples[k])
  {
    var n := |samples| - 1;
    if k < n {
      GapsHere(snaps, gaps, samples[..n], k);
      assert samples[k].id != samples[n].id;
    }
  }

  lemma EventAhead(snaps: Snapshots, gaps: Gaps, t: Table, e: Event)
    requires TableAhead(snaps, gaps, t)
    ensures
      var (snaps', msgs) := OnEvent(snaps, e);
      TableAhead(snaps', GapsNext(snaps, gaps, Deliver(e)), if msgs == [] then t else Show(t, msgs[0]))
  {
  }

  lemma DeliverAhead(s: Server, gaps: Gaps, e: Event)
    requires AheadBy(s, gaps)
    ensures AheadBy(Do(s, Deliver(e)), GapsNext(s.snaps, gaps, Deliver(e)))
  {
    DeliverReplay(s, e);
    EventAhead(s.snaps, gaps, Replay(map[], s.sent), e);
  }

  lemma SampleAhead(s: Server, gaps: Gaps, active: seq<Sample>, closings: seq<Message>, k: nat)
    requires SameIds(s) && AheadBy(s, gaps) && Possible(s.snaps, Tick(active, closings)) && k < |active|
    ensures
      var d, gaps', id := Do(s, Tick(active, closings)), GapsNext(s.snaps, gaps, Tick(active, closings)), active[k].id;
      && id in d.snaps && id in gaps' && id in Replay(map[], d.sent)
      && (SteadySample(s.snaps, active[k]) <==> Replay(map[], d.sent)[id] == Plus(d.snaps[id], gaps'[id]))
  {
    TickAt(s, active, closings, k);
    var id := active[k].id;
    if id in s.snaps {
      GapsElsewhere(s.snaps, gaps, active, id);
    } else {
      GapsHere(s.snaps, gaps, active, k);
    }
  }

  lemma AheadOnActive(before: Snapshots, snaps: Snapshots, gaps: Gaps, t: Table, active: seq<Sample>)
    requires snaps.Keys == Ids(active)
    requires forall k :: 0 <= k < |active| ==>
      var id := active[k].id;
      && id in snaps && id in gaps && id in t
      && (SteadySample(before, active[k]) <==> t[id] == Plus(snaps[id], gaps[id]))
    ensures TableAhead(snaps, gaps, t) <==> forall k :: 0 <= k < |active| ==> SteadySample(before, active[k])
  {
    if forall k :: 0 <= k < |active| ==> SteadySample(before, active[k]) {
      forall id | id in snaps ensures id in gaps && id in t && t[id] == Plus(snaps[id], gaps[id]) {
        var k :| 0 <= k < |active| && active[k].id == id;
      }
    } else {
      var k :| 0 <= k < |active| && !SteadySample(before, active[k]);
      assert active[k].id in snaps;
    }
  }

  lemma TickAhead(s: Server, gaps: Gaps, active: seq<Sample>, closings: seq<Message>)
    requires SameIds(s) && AheadBy(s, gaps) && Possible(s.snaps, Tick(active, closings))
    ensures AheadBy(Do(s, Tick(active, closings)), GapsNext(s.snaps, gaps, Tick(active, closings))) <==>
      forall k :: 0 <= k < |active| ==> SteadySample(s.snaps, active[k])
  {
    var d, gaps' := Do(s, Tick(active, closings)), GapsNext(s.snaps, gaps, Tick(active, closings));
    TickReplay(s, active, closings);
    forall k | 0 <= k < |active|
      ensures
        var id := active[k].id;
        && id in d.snaps && id in gaps' && id in Replay(map[], d.sent)
        && (SteadySample(s.snaps, active[k]) <==> Replay(map[], d.sent)[id] == Plus(d.snaps[id], gaps'[id]))
    {
      SampleAhead(s, gaps, active, closings, k);
    }
    AheadOnActive(s.snaps, d.snaps, gaps', Replay(map[], d.sent), active);
  }

  lemma StepAhead(s: Server, gaps: Gaps, step: Step)
    requires SameIds(s) && AheadBy(s, gaps) && Possible(s.snaps, step)
    ensures AheadBy(Do(s, step), GapsNext(s.snaps, gaps, step)) <==> SteadyStep(s.snaps, step)
  {
    match step {
      case Deliver(e) => DeliverAhead(s, gaps, e);
      case Tick(active, closings) => TickAhead(s, gaps, active, closings);
    }
  }

  lemma OpenAhead(active: seq<Sample>, closed: seq<ClosedInfo>)
    requires Distinct(active)
    ensures AheadBy(Open(active, closed), GapsOver(map[], map[], active))
  {
    OpenIsTick(active, closed);
    assert Replay(map[], []) == map[];
    StepAhead(NEW_SERVER, map[], Tick(active, []));
  }

  ghost predicate AheadAfter(active: seq<Sample>, closed: seq<ClosedInfo>, steps: seq<Step>) {
    AheadBy(After(Open(active, closed), steps), GapsAfter(active, closed, steps))
  }

  predicate SteadyAt(active: seq<Sample>, closed: seq<ClosedInfo>, steps: seq<Step>, k: nat)
    requires k < |steps|
  {
    SteadyStep(After(Open(active, closed), steps[..k]).snaps, steps[k])
  }

  lemma AheadNext(active: seq<Sample>, closed: seq<ClosedInfo>, steps: seq<Step>, k: nat)
    requires Distinct(active) && Run(Open(active, closed), steps) && k < |steps| && AheadAfter(active, closed, steps[..k])
    ensures AheadAfter(active, closed, steps[..k + 1]) <==> SteadyAt(active, closed, steps, k)
  {
    var o := Open(active, closed);
    RunPrefix(o, steps, k);
    ClientKnowsTheLiveConnections(active, closed, steps[..k]);
    assert steps[..k + 1][..k] == steps[..k];
    StepAhead(After(o, steps[..k]), GapsAfter(active, closed, steps[..k]), steps[k]);
  }

  lemma {:induction false} SteadyKeepsAhead(active: seq<Sample>, closed: seq<ClosedInfo>, steps: seq<Step>, k: nat)
    requires Distinct(active) && Run(Open(active, closed), steps) && k <= |steps|
    requires forall j :: 0 <= j < k ==> SteadyAt(active, closed, steps, j)
    ensures AheadAfter(active, closed, steps[..k])
  {
    if k == 0 {
      OpenAhead(active, closed);
      assert steps[..0] == [];
    } else {
      SteadyKeepsAhead(active, closed, steps, k - 1);
      AheadNext(active, closed, steps, k - 1);
    }
  }

  /** However late a NEW reads the counters: the client differs from the snapshots by exactly the gap of each
      connection's last NEW, at every point of the run, if and only if no counter goes backwards. */
  lemma AheadByTheLastNewIff(active: seq<Sample>, closed: seq<ClosedInfo>, steps: seq<Step>)
    requires Distinct(active) && Run(Open(active, closed), steps)
    ensures
      (forall k :: 0 <= k <= |steps| ==> AheadAfter(active, closed, steps[..k])) <==>
      (forall k :: 0 <= k < |steps| ==> SteadyAt(active, closed, steps, k))
  {
    if forall k :: 0 <= k < |steps| ==> SteadyAt(active, closed, steps, k) {
      forall k | 0 <= k <= |steps| ensures AheadAfter(active, closed, steps[..k]) {
        SteadyKeepsAhead(active, closed, steps, k);
      }
    }
    if forall k :: 0 <= k <= |steps| ==> AheadAfter(active, closed, steps[..k]) {
      forall k | 0 <= k < |steps| ensures SteadyAt(active, closed, steps, k) {
        AheadNext(active, closed, steps, k);
      }
    }
  }

  /** The connections live without a break since the opening batch. */
  function OldNext(kept: set<Id>, step: Step): set<Id> {
    match step
    case Deliver(Left(id, _, _, _)) => kept - {id}
    case Deliver(_) => kept
    case Tick(active, _) => kept * Ids(active)
  }

  function OldAfter(active: seq<Sample>, steps: seq<Step>): set<Id> {
    if steps == [] then Ids(active) else OldNext(OldAfter(active, steps[..|steps| - 1]), steps[|steps| - 1])
  }

  predicate Signed(gap: Totals, isOld: bool) { if isOld then gap.up <= 0 && gap.down <= 0 else gap.up >= 0 && gap.down >= 0 }

  ghost predicate AllSigned(gaps: Gaps, kept: set<Id>) { forall id :: id in gaps ==> Signed(gaps[id], id in kept) }

  lemma TickSigns(snaps: Snapshots, gaps: Gaps, kept: set<Id>, active: seq<Sample>, closings: seq<Message>)
    requires AllSigned(gaps, kept) && kept <= snaps.Keys && Distinct(active) && StoredFirst(snaps, Tick(active, closings))
    ensures AllSigned(GapsNext(snaps, gaps, Tick(active, closings)), kept * Ids(active))
  {
    var next := GapsNext(snaps, gaps, Tick(active, closings));
    forall id | id in next ensures Signed(next[id], id in kept * Ids(active)) {
      if id in snaps {
        GapsElsewhere(snaps, gaps, active, id);
      } else {
        var k :| 0 <= k < |active| && active[k].id == id;
        GapsHere(snaps, gaps, active, k);
      }
    }
  }

  lemma StepSigns(s: Server, gaps: Gaps, kept: set<Id>, step: Step)
    requires AllSigned(gaps, kept) && kept <= s.snaps.Keys && SameIds(s) && Possible(s.snaps, step) && StoredFirst(s.snaps, step)
    ensures AllSigned(GapsNext(s.snaps, gaps, step), OldNext(kept, step)) && OldNext(kept, step) <= Do(s, step).snaps.Keys
  {
    match step {
      case Deliver(_) =>
      case Tick(active, closings) =>
        TickSigns(s.snaps, gaps, kept, active, closings);
        TickReplay(s, active, closings);
    }
  }

  lemma OpenSigns(active: seq<Sample>)
    requires Distinct(active) && ShownFirst(active)
    ensures AllSigned(GapsOver(map[], map[], active), Ids(active))
  {
    var gaps := GapsOver(map[], map[], active);
    forall id | id in gaps ensures Signed(gaps[id], id in Ids(active)) {
      if id in Ids(active) {
        var k :| 0 <= k < |active| && active[k].id == id;
        GapsHere(map[], map[], active, k);
      } else {
        assert forall k :: 0 <= k < |active| ==> active[k].id in Ids(active);
        GapsElsewhere(map[], map[], active, id);
      }
    }
  }

  lemma {:induction false} GapsAreSigned(active: seq<Sample>, closed: seq<ClosedInfo>, steps: seq<Step>)
    requires Distinct(active) && ShownFirst(active) && Run(Open(active, closed), steps)
    requires forall k :: 0 <= k < |steps| ==> StoredFirst(After(Open(active, closed), steps[..k]).snaps, steps[k])
    ensures AllSigned(GapsAfter(active, closed, steps), OldAfter(active, steps))
    ensures OldAfter(active, steps) <= After(Open(active, closed), steps).snaps.Keys
  {
    var o := Open(active, closed);
    if steps == [] {
      OpenSigns(active);
      OnSamplesKeys(map[], active);
    } else {
      var before := steps[..|steps| - 1];
      assert forall k :: 0 <= k < |before| ==> before[..k] == steps[..k];
      GapsAreSigned(active, closed, before);
      ClientKnowsTheLiveConnections(active, closed, before);
      StepSigns(After(o, before), GapsAfter(active, closed, before), OldAfter(active, before), steps[|steps| - 1]);
    }
  }

  /** While counters only grow, the client shows no more than the snapshot for a connection that was in the opening
      batch, and no less for every later one, by just the gap of its last NEW. */
  lemma OpeningLagsLaterLead(active: seq<Sample>, closed: seq<ClosedInfo>, steps: seq<Step>, id: Id)
    requires Distinct(active) && ShownFirst(active) && Run(Open(active, closed), steps)
    requires forall k :: 0 <= k < |steps| ==>
      var snaps := After(Open(active, closed), steps[..k]).snaps;
      SteadyAt(active, closed, steps, k) && StoredFirst(snaps, steps[k])
    requires id in After(Open(active, closed), steps).snaps
    ensures
      var s := After(Open(active, closed), steps);
      var t, snap := Replay(map[], s.sent), s.snaps[id];
      && id in t && id in GapsAfter(active, closed, steps)
      && t[id] == Plus(snap, GapsAfter(active, closed, steps)[id])
      && if id in OldAfter(active, steps) then t[id].up <= snap.uplink && t[id].down <= snap.downlink
         else t[id].up >= snap.uplink && t[id].down >= snap.downlink
  {
    GapsAreSigned(active, closed, steps);
    SteadyKeepsAhead(active, closed, steps, |steps|);
    assert steps[..|steps|] == steps;
  }

  /** Right after a tick the snapshots are the manager's active connections with the counters just read,
      whatever was late, lost or duplicated before; a client in step shows exactly those. */
  lemma TickCatchesUp(open: seq<Sample>, closed: seq<ClosedInfo>, steps: seq<Step>, active: seq<Sample>, closings: seq<Message>)
    requires Distinct(open) && Run(Open(open, closed), steps)
    requires Possible(After(Open(open, closed), steps).snaps, Tick(active, closings))
    ensures
      var s := After(Open(open, closed), steps);
      var d := Do(s, Tick(active, closings));
      var t := Replay(map[], d.sent);
      && t.Keys == d.snaps.Keys == Ids(active)
      && (forall k :: 0 <= k < |active| ==>
            && active[k].id in d.snaps
            && d.snaps[active[k].id].uplink == active[k].up && d.snaps[active[k].id].downlink == active[k].down)
      && (InSync(s) && CleanStep(s.snaps, Tick(active, closings)) ==>
            forall k :: 0 <= k < |active| ==> active[k].id in t && t[active[k].id] == Totals(active[k].up, active[k].down))
  {
    var s := After(Open(open, closed), steps);
    ClientKnowsTheLiveConnections(open, closed, steps);
    TickStep(s, active, closings);
    forall k | 0 <= k < |active|
      ensures
        var d := Do(s, Tick(active, closings));
        && active[k].id in d.snaps && active[k].id in Ids(active)
        && d.snaps[active[k].id].uplink == active[k].up && d.snaps[active[k].id].downlink == active[k].down
    {
      TickAt(s, active, closings, k);
    }
  }

  // ----- idle connections -----

  predicate IsTraffic(m: Message) { m.Update? && (m.upDelta != 0 || m.downDelta != 0) }

  predicate IsZero(m: Message) { m.Update? && m.upDelta == 0 && m.downDelta == 0 }

  /** Whether the last message sent about id is a non-zero UPDATE. */
  predicate LastWasTraffic(sent: seq<Message>, id: Id) {
    sent != [] &&
    var m := sent[|sent| - 1];
    if m.id == id then IsTraffic(m) else LastWasTraffic(sent[..|sent| - 1], id)
  }

  /** Every UPDATE is about a connection the client has, and every zero one directly follows traffic. */
  predicate Tidy(sent: seq<Message>) {
    sent == [] ||
    var m, before := sent[|sent| - 1], sent[..|sent| - 1];
    && Tidy(before)
    && (m.Update? ==> m.id in Replay(map[], before))
    && (IsZero(m) ==> LastWasTraffic(before, m.id))
  }

  ghost predicate Tracks(s: Server) {
    && SameIds(s) && Tidy(s.sent)
    && forall id :: id in s.snaps ==> s.snaps[id].hadTraffic == LastWasTraffic(s.sent, id)
  }

  lemma SendOne(s: Server, snaps': Snapshots, m: Message)
    requires Tracks(s)
    requires snaps'.Keys == Show(Replay(map[], s.sent), m).Keys
    requires m.Update? ==> m.id in s.snaps
    requires IsZero(m) ==> s.snaps[m.id].hadTraffic
    requires forall id :: id in snaps' && id != m.id ==> id in s.snaps && snaps'[id] == s.snaps[id]
    requires m.id in snaps' ==> snaps'[m.id].hadTraffic == IsTraffic(m)
    ensures Tracks(Server(snaps', s.sent + [m]))
  {
    assert (s.sent + [m])[..|s.sent|] == s.sent;
  }

  lemma SampleTracks(s: Server, sample: Sample)
    requires Tracks(s)
    ensures Tracks(Server(OnSample(s.snaps, sample).0, s.sent + OnSample(s.snaps, sample).1))
  {
    var (snaps', msgs) := OnSample(s.snaps, sample);
    if msgs == [] {
      assert s.sent + msgs == s.sent;
    } else {
      SendOne(s, snaps', msgs[0]);
      assert msgs == [msgs[0]];
    }
  }

  lemma {:induction false} SamplesTrack(s: Server, samples: seq<Sample>)
    requires Tracks(s)
    ensures Tracks(Server(OnSamples(s.snaps, samples).0, s.sent + OnSamples(s.snaps, samples).1))
  {
    if samples == [] {
      assert s.sent + [] == s.sent;
    } else {
      var n := |samples| - 1;
      var (mid, msgs) := OnSamples(s.snaps, samples[..n]);
      SamplesTrack(s, samples[..n]);
      SampleTracks(Server(mid, s.sent + msgs), samples[n]);
      assert s.sent + (msgs + OnSample(mid, samples[n]).1) == s.sent + msgs + OnSample(mid, samples[n]).1;
    }
  }

  lemma CloseOne(s: Server, m: Message)
    requires Tracks(s) && m.Closed?
    ensures Tracks(Server(s.snaps - {m.id}, s.sent + [m]))
  {
    SendOne(s, s.snaps - {m.id}, m);
  }

  function Unnamed(snaps: Snapshots, closings: seq<Message>): Snapshots {
    map id | id in snaps && !Named(closings, id) :: snaps[id]
  }

  lemma UnnamedSnoc(snaps: Snapshots, closings: seq<Message>)
    requires closings != []
    ensures Unnamed(snaps, closings) == Unnamed(snaps, closings[..|closings| - 1]) - {closings[|closings| - 1].id}
  {
    NamedSnoc(closings);
  }

  lemma {:induction false} ClosingsTrack(s: Server, closings: seq<Message>)
    requires Tracks(s) && forall i :: 0 <= i < |closings| ==> closings[i].Closed?
    ensures Tracks(Server(Unnamed(s.snaps, closings), s.sent + closings))
  {
    if closings == [] {
      assert s.sent + [] == s.sent && Unnamed(s.snaps, []) == s.snaps;
    } else {
      var before, m := closings[..|closings| - 1], closings[|closings| - 1];
      ClosingsTrack(s, before);
      CloseOne(Server(Unnamed(s.snaps, before), s.sent + before), m);
      UnnamedSnoc(s.snaps, closings);
      assert s.sent + closings == s.sent + before + [m];
    }
  }

  predicate Named(msgs: seq<Message>, id: Id) { exists i :: 0 <= i < |msgs| && msgs[i].id == id }

  lemma NamedSnoc(msgs: seq<Message>)
    requires msgs != []
    ensures forall id :: Named(msgs, id) <==> Named(msgs[..|msgs| - 1], id) || id == msgs[|msgs| - 1].id
  {
    forall id | Named(msgs[..|msgs| - 1], id) ensures Named(msgs, id) {
      var k :| 0 <= k < |msgs| - 1 && msgs[..|msgs| - 1][k].id == id;
      assert msgs[k].id == id;
    }
    forall id | Named(msgs, id) && id != msgs[|msgs| - 1].id ensures Named(msgs[..|msgs| - 1], id) {
      var k :| 0 <= k < |msgs| && msgs[k].id == id;
      assert msgs[..|msgs| - 1][k].id == id;
    }
  }

  lemma EventTracks(s: Server, e: Event)
    requires Tracks(s)
    ensures Tracks(Do(s, Deliver(e)))
  {
    var (snaps', msgs) := OnEvent(s.snaps, e);
    if msgs == [] {
      assert s.sent + msgs == s.sent;
    } else {
      SendOne(s, snaps', msgs[0]);
      assert msgs == [msgs[0]];
    }
  }

  lemma StaleAreNamed(closings: seq<Message>, stale: set<Id>, snaps: Snapshots, ids: set<Id>)
    requires Closings(closings, stale) && stale == snaps.Keys - ids
    ensures (map id | id in snaps && !Named(closings, id) :: snaps[id]) == Keep(snaps, ids)
  {
    assert forall id :: Named(closings, id) <==> id in stale;
  }

  lemma TickTracks(s: Server, active: seq<Sample>, closings: seq<Message>)
    requires Tracks(s) && Possible(s.snaps, Tick(active, closings))
    ensures Tracks(Do(s, Tick(active, closings)))
  {
    var (tracked, msgs) := OnSamples(s.snaps, active);
    SamplesTrack(s, active);
    ClosingsTrack(Server(tracked, s.sent + msgs), closings);
    OnSamplesKeys(s.snaps, active);
    SameStale(s.snaps.Keys, Ids(active));
    StaleAreNamed(closings, s.snaps.Keys - Ids(active), tracked, Ids(active));
    assert s.sent + (msgs + closings) == s.sent + msgs + closings;
  }

  lemma SameStale(known: set<Id>, ids: set<Id>)
    ensures (known + ids) - ids == known - ids
  {
  }

  lemma DoTracks(s: Server, step: Step)
    requires Tracks(s) && Possible(s.snaps, step)
    ensures Tracks(Do(s, step))
  {
    match step {
      case Deliver(e) => EventTracks(s, e);
      case Tick(active, closings) => TickTracks(s, active, closings);
    }
  }

  lemma {:induction false} OpeningIsQuiet(active: seq<Sample>)
    requires Distinct(active)
    ensures forall id :: id in OnSamples(map[], active).0 ==> !OnSamples(map[], active).0[id].hadTraffic
    ensures forall k :: 0 <= k < |OnSamples(map[], active).1| ==> OnSamples(map[], active).1[k].New?
  {
    if active != [] {
      var n := |active| - 1;
      OpeningIsQuiet(active[..n]);
      OnSamplesKeys(map[], active[..n]);
    }
  }

  lemma {:induction false} NewsOnly(msgs: seq<Message>)
    requires forall k :: 0 <= k < |msgs| ==> msgs[k].New?
    ensures Tidy(msgs) && forall id :: !LastWasTraffic(msgs, id)
  {
    if msgs != [] {
      NewsOnly(msgs[..|msgs| - 1]);
    }
  }

  lemma {:induction false} ClosedNewsAreNews(closed: seq<ClosedInfo>)
    ensures forall k :: 0 <= k < |ClosedNews(closed)| ==> ClosedNews(closed)[k].New?
  {
    if closed != [] {
      ClosedNewsAreNews(closed[..|closed| - 1]);
    }
  }

  lemma {:induction false} RunTracks(active: seq<Sample>, closed: seq<ClosedInfo>, steps: seq<Step>)
    requires Distinct(active) && Run(Open(active, closed), steps)
    ensures Tracks(After(Open(active, closed), steps))
  {
    if steps == [] {
      OpenStep(active, closed);
      OpeningIsQuiet(active);
      ClosedNewsAreNews(closed);
      NewsOnly(Open(active, closed).sent);
    } else {
      var n := |steps| - 1;
      RunTracks(active, closed, steps[..n]);
      DoTracks(After(Open(active, closed), steps[..n]), steps[n]);
    }
  }

  lemma {:induction false} TrafficWitness(sent: seq<Message>, id: Id) returns (j: nat)
    requires LastWasTraffic(sent, id)
    ensures j < |sent| && sent[j].id == id && IsTraffic(sent[j])
    ensures forall i :: j < i < |sent| ==> sent[i].id != id
  {
    var n := |sent| - 1;
    if sent[n].id == id {
      j := n;
    } else {
      j := TrafficWitness(sent[..n], id);
    }
  }

  lemma {:induction false} TidyAt(sent: seq<Message>, k: nat)
    requires Tidy(sent) && k < |sent|
    ensures sent[k].Update? ==> sent[k].id in Replay(map[], sent[..k])
    ensures IsZero(sent[k]) ==> LastWasTraffic(sent[..k], sent[k].id)
  {
    var n := |sent| - 1;
    if k < n {
      TidyAt(sent[..n], k);
      assert sent[..n][..k] == sent[..k];
    }
  }

  function Zeros(sent: seq<Message>, id: Id): nat {
    if sent == [] then 0
    else Zeros(sent[..|sent| - 1], id) + if IsZero(sent[|sent| - 1]) && sent[|sent| - 1].id == id then 1 else 0
  }

  function Traffics(sent: seq<Message>, id: Id): nat {
    if sent == [] then 0
    else Traffics(sent[..|sent| - 1], id) + if IsTraffic(sent[|sent| - 1]) && sent[|sent| - 1].id == id then 1 else 0
  }

  lemma {:induction false} ZerosAreCovered(sent: seq<Message>, id: Id)
    requires Tidy(sent)
    ensures Zeros(sent, id) + (if LastWasTraffic(sent, id) then 1 else 0) <= Traffics(sent, id)
  {
    if sent != [] {
      ZerosAreCovered(sent[..|sent| - 1], id);
    }
  }

  /** In every run, even one whose counters go backwards: an UPDATE is only sent for a connection the
      client shows, and a zero UPDATE directly follows a non-zero one among the messages about its
      connection.  So an idle connection costs at most one trailing message, however many ticks pass. */
  lemma IdleConnectionsFallSilent(active: seq<Sample>, closed: seq<ClosedInfo>, steps: seq<Step>, k: nat)
    requires Distinct(active) && Run(Open(active, closed), steps)
    requires k < |After(Open(active, closed), steps).sent|
    ensures
      var sent := After(Open(active, closed), steps).sent;
      && (sent[k].Update? ==> sent[k].id in Replay(map[], sent[..k]))
      && (IsZero(sent[k]) ==>
            exists j :: 0 <= j < k && sent[j].id == sent[k].id && IsTraffic(sent[j]) &&
                        forall i :: j < i < k ==> sent[i].id != sent[k].id)
      && forall id :: Zeros(sent, id) <= Traffics(sent, id)
  {
    var sent := After(Open(active, closed), steps).sent;
    RunTracks(active, closed, steps);
    TidyAt(sent, k);
    if IsZero(sent[k]) {
      var j := TrafficWitness(sent[..k], sent[k].id);
      assert sent[..k][j] == sent[j];
      assert forall i :: j < i < k ==> sent[..k][i] == sent[i];
    }
    forall id ensures Zeros(sent, id) <= Traffics(sent, id) {
      ZerosAreCovered(sent, id);
    }
  }

  // ----- what a tick says about each connection -----

  /** The messages about one connection, in order. */
  function About(msgs: seq<Message>, id: Id): seq<Message> {
    if msgs == [] then []
    else About(msgs[..|msgs| - 1], id) + if msgs[|msgs| - 1].id == id then [msgs[|msgs| - 1]] else []
  }

  lemma {:induction false} AboutConcat(a: seq<Message>, b: seq<Message>, id: Id)
    ensures About(a + b, id) == About(a, id) + About(b, id)
  {
    if b == [] {
      assert a + b == a;
    } else {
      var n := |b| - 1;
      assert (a + b)[..|a| + n] == a + b[..n];
      AboutConcat(a, b[..n], id);
    }
  }

  lemma OneAbout(snaps: Snapshots, s: Sample, id: Id)
    ensures About(OnSample(snaps, s).1, id) == if s.id == id then OnSample(snaps, s).1 else []
    ensures id != s.id ==> (id in OnSample(snaps, s).0 <==> id in snaps) && (id in snaps ==> OnSample(snaps, s).0[id] == snaps[id])
  {
    var msgs := OnSample(snaps, s).1;
    if msgs != [] {
      assert msgs[..0] == [] && msgs == [msgs[0]];
    }
  }

  /** Samples of other connections say nothing about this one, and leave its snapshot. */
  lemma {:induction false} OthersSilent(snaps: Snapshots, samples: seq<Sample>, id: Id)
    requires forall k :: 0 <= k < |samples| ==> samples[k].id != id
    ensures About(OnSamples(snaps, samples).1, id) == []
    ensures id in OnSamples(snaps, samples).0 <==> id in snaps
    ensures id in snaps ==> OnSamples(snaps, samples).0[id] == snaps[id]
  {
    if samples != [] {
      var n := |samples| - 1;
      OthersSilent(snaps, samples[..n], id);
      SnocAbout(snaps, samples, id);
      OneAbout(OnSamples(snaps, samples[..n]).0, samples[n], id);
    }
  }

  lemma SampleAlone(snaps: Snapshots, other: Snapshots, s: Sample)
    requires (s.id in snaps <==> s.id in other) && (s.id in snaps ==> snaps[s.id] == other[s.id])
    ensures OnSample(snaps, s).1 == OnSample(other, s).1
  {
  }

  lemma SnocAbout(snaps: Snapshots, samples: seq<Sample>, id: Id)
    requires samples != []
    ensures
      var mid, last := OnSamples(snaps, samples[..|samples| - 1]), samples[|samples| - 1];
      About(OnSamples(snaps, samples).1, id) == About(mid.1, id) + if last.id == id then OnSample(mid.0, last).1 else []
  {
    var mid, last := OnSamples(snaps, samples[..|samples| - 1]), samples[|samples| - 1];
    OneAbout(mid.0, last, id);
    AboutConcat(mid.1, OnSample(mid.0, last).1, id);
  }

  lemma {:induction false} TickAbout(snaps: Snapshots, samples: seq<Sample>, k: nat)
    requires Distinct(samples) && k < |samples|
    ensures About(OnSamples(snaps, samples).1, samples[k].id) == OnSample(snaps, samples[k]).1
  {
    var n, id := |samples| - 1, samples[k].id;
    SnocAbout(snaps, samples, id);
    if k == n {
      OthersSilent(snaps, samples[..n], id);
      SampleAlone(OnSamples(snaps, samples[..n]).0, snaps, samples[n]);
      assert [] + OnSample(snaps, samples[n]).1 == OnSample(snaps, samples[n]).1;
    } else {
      TickAbout(snaps, samples[..n], k);
      assert samples[n].id != id && samples[..n][k] == samples[k];
      assert OnSample(snaps, samples[k]).1 + [] == OnSample(snaps, samples[k]).1;
    }
  }

  /** What a tick has to say about an active connection: a NEW if it is not known; if its counters grew, an UPDATE by just
      what they grew; if they stand still or fell, a zero UPDATE exactly if the last message about it was a non-zero
      one, and otherwise nothing. */
  predicate Says(s: Server, a: Sample, said: seq<Message>) {
    if a.id !in s.snaps then said == [New(a.id, a.shownUp, a.shownDown, None)]
    else
      var up, down := a.up - s.snaps[a.id].uplink, a.down - s.snaps[a.id].downlink;
      if up >= 0 && down >= 0 && (up > 0 || down > 0) then said == [Update(a.id, up, down)]
      else said == if LastWasTraffic(s.sent, a.id) then [Update(a.id, 0, 0)] else []
  }

  lemma SampleSays(s: Server, a: Sample)
    requires a.id in s.snaps ==> s.snaps[a.id].hadTraffic == LastWasTraffic(s.sent, a.id)
    ensures Says(s, a, OnSample(s.snaps, a).1)
  {
    if a.id in s.snaps {
      SubIsExact(a.up, s.snaps[a.id].uplink);
      SubIsExact(a.down, s.snaps[a.id].downlink);
    }
  }

  /** A tick says just that about each active connection, in every run. */
  lemma WhatATickSays(open: seq<Sample>, closed: seq<ClosedInfo>, steps: seq<Step>, active: seq<Sample>, k: nat)
    requires Distinct(open) && Run(Open(open, closed), steps) && Distinct(active) && k < |active|
    ensures
      var s := After(Open(open, closed), steps);
      Says(s, active[k], About(OnSamples(s.snaps, active).1, active[k].id))
  {
    var s := After(Open(open, closed), steps);
    RunTracks(open, closed, steps);
    TickAbout(s.snaps, active, k);
    SampleSays(s, active[k]);
  }
}
