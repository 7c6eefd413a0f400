/**
  Starting the DNS servers in dependency order, and diagnosing why no order exists.

  A round starts every server whose dependencies have started; a round that starts
  nothing hands over to the diagnosis, which walks unstarted dependencies until it
  meets an unregistered tag or closes a cycle.
 */
module TransportStart {
  import opened Wrappers

  /** Tags are only compared for equality, so they are numbered; 0 is the empty tag. */
  type Tag = nat
  const NO_TAG: Tag := 0

  /** A DNS server object: "serial" tells apart objects made at different times,
      startFails is the outcome of the server's own Start call. */
  datatype Transport = Transport(serial: nat, tag: Tag, deps: seq<Tag>, fakeIP: bool, startFails: bool)

  datatype StartError =
    | StartFailed(tag: Tag)
    | Circular(chain: seq<Tag>, again: Tag)
    | NotFound(missing: Tag, server: Tag)

  datatype Outcome = Success | Failure(error: StartError)

  predicate DistinctTags(ts: seq<Transport>) {
    forall i, j :: 0 <= i < j < |ts| ==> ts[i].tag != ts[j].tag
  }

  /** The list and the tag map hold the same servers. */
  predicate Registered(ts: seq<Transport>, byTag: map<Tag, Transport>) {
    && DistinctTags(ts)
    && (forall i :: 0 <= i < |ts| ==> ts[i].tag in byTag && byTag[ts[i].tag] == ts[i])
    && (forall tag :: tag in byTag ==> byTag[tag].tag == tag && byTag[tag] in ts)
  }

  function TagSet(order: seq<Tag>): set<Tag> { set tag | tag in order }

  // ----- the dependency graph -----

  predicate Edge(byTag: map<Tag, Transport>, a: Tag, b: Tag) { a in byTag && b in byTag[a].deps }

  predicate Path(byTag: map<Tag, Transport>, p: seq<Tag>) {
    forall i :: 0 <= i < |p| - 1 ==> Edge(byTag, p[i], p[i + 1])
  }

  ghost predicate Cyclic(byTag: map<Tag, Transport>) {
    exists p: seq<Tag> :: |p| >= 2 && p[0] == p[|p| - 1] && Path(byTag, p)
  }

  predicate Complete(byTag: map<Tag, Transport>) {
    forall tag, d :: tag in byTag && d in byTag[tag].deps ==> d in byTag
  }

  predicate AllStart(byTag: map<Tag, Transport>) { forall tag :: tag in byTag ==> !byTag[tag].startFails }

  /** Each tag once, registered, after all of its dependencies, and started without error. */
  predicate GoodOrder(byTag: map<Tag, Transport>, order: seq<Tag>) {
    && (forall i, j :: 0 <= i < j < |order| ==> order[i] != order[j])
    && (forall i :: 0 <= i < |order| ==>
          order[i] in byTag && forall d :: d in byTag[order[i]].deps ==> d in order[..i])
  }

  // ----- the program's own form -----

  method AllStarted(deps: seq<Tag>, started: set<Tag>) returns (ready: bool)
    ensures ready <==> forall d :: d in deps ==> d in started
  {
    for i := 0 to |deps|
      invariant forall k :: 0 <= k < i ==> deps[k] in started
    {
      if deps[i] !in started {
        return false;
      }
    }
    return true;
  }

  method FindUnstartedDep(deps: seq<Tag>, started: set<Tag>) returns (d: Tag)
    requires exists k :: 0 <= k < |deps| && deps[k] !in started
    ensures d in deps && d !in started
  {
    for i := 0 to |deps|
      invariant forall k :: 0 <= k < i ==> deps[k] in started
    {
      if deps[i] !in started {
        return deps[i];
      }
    }
    assert false;
  }

  method FindUnstarted(ts: seq<Transport>, started: set<Tag>) returns (t: Transport)
    requires exists k :: 0 <= k < |ts| && ts[k].tag !in started
    ensures t in ts && t.tag !in started
  {
    for i := 0 to |ts|
      invariant forall k :: 0 <= k < i ==> ts[k].tag in started
    {
      if ts[i].tag !in started {
        return ts[i];
      }
    }
    assert false;
  }

  predicate Stuck(ts: seq<Transport>, started: set<Tag>) {
    forall t :: t in ts && t.tag !in started ==> exists k :: 0 <= k < |t.deps| && t.deps[k] !in started
  }

  /** A diagnosis is sound: the chain is a path of unstarted servers, and the complaint is real. */
  predicate SoundDiagnosis(byTag: map<Tag, Transport>, started: set<Tag>, e: StartError) {
    match e
    case StartFailed(_) => false
    case Circular(chain, again) =>
      && chain != [] && Path(byTag, chain + [again]) && again in chain
      && forall tag :: tag in chain ==> tag in byTag && tag !in started
    case NotFound(missing, server) =>
      Edge(byTag, server, missing) && missing !in byTag && server !in started
  }

  predicate Chain(byTag: map<Tag, Transport>, started: set<Tag>, chain: seq<Tag>) {
    && chain != [] && Path(byTag, chain)
    && (forall i, j :: 0 <= i < j < |chain| ==> chain[i] != chain[j])
    && (forall i :: 0 <= i < |chain| ==> chain[i] in byTag && chain[i] !in started)
  }

  method LintTransport(ts: seq<Transport>, byTag: map<Tag, Transport>, started: set<Tag>, chain: seq<Tag>, current: Transport)
    returns (e: StartError)
    requires Registered(ts, byTag) && Stuck(ts, started)
    requires Chain(byTag, started, chain) && current == byTag[chain[|chain| - 1]]
    ensures SoundDiagnosis(byTag, started, e)
    decreases |byTag| - |chain|
  {
    assert current in ts && current.tag !in started;
    var problem := FindUnstartedDep(current.deps, started);
    var longer := chain + [problem];
    forall i | 0 <= i < |longer| - 1 ensures Edge(byTag, longer[i], longer[i + 1]) {
      if i < |chain| - 1 {
        assert Edge(byTag, chain[i], chain[i + 1]);
      }
    }
    if problem in chain {
      return Circular(chain, problem);
    }
    if problem !in byTag {
      return NotFound(problem, current.tag);
    }
    ChainBound(byTag, started, longer);
    e := LintTransport(ts, byTag, started, longer, byTag[problem]);
  }

  predicate NoneFailed(byTag: map<Tag, Transport>, order: seq<Tag>) {
    forall i :: 0 <= i < |order| && order[i] in byTag ==> !byTag[order[i]].startFails
  }

  /** One pass over the list: start whatever has become ready; stop at the first failing Start. */
  method StartRound(ts: seq<Transport>, byTag: map<Tag, Transport>, order0: seq<Tag>)
    returns (order: seq<Tag>, failed: Option<Tag>)
    requires Registered(ts, byTag) && GoodOrder(byTag, order0) && NoneFailed(byTag, order0)
    ensures GoodOrder(byTag, order) && |order| >= |order0|
    ensures failed.None? ==> NoneFailed(byTag, order)
    ensures failed.None? && |order| == |order0| ==> order == order0 && Stuck(ts, TagSet(order))
    ensures failed.Some? ==>
      && order != [] && order[|order| - 1] == failed.value && NoneFailed(byTag, order[..|order| - 1])
      && failed.value in byTag && byTag[failed.value].startFails
  {
    order := order0;
    var started := TagSet(order);
    for i := 0 to |ts|
      invariant started == TagSet(order)
      invariant GoodOrder(byTag, order) && NoneFailed(byTag, order)
      invariant |order| >= |order0|
      invariant |order| == |order0| ==> order == order0 && Stuck(ts[..i], started)
    {
      var t := ts[i];
      if t.tag in started {
        continue;
      }
      var ready := AllStarted(t.deps, started);
      if !ready {
        continue;
      }
      OrderSnoc(byTag, order, t);
      started := started + {t.tag};
      order := order + [t.tag];
      if t.startFails {
        assert order[..|order| - 1] + [t.tag] == order;
        return order, Some(t.tag);
      }
    }
    assert ts[..|ts|] == ts;
    return order, None;
  }

  method StartTransports(ts: seq<Transport>, byTag: map<Tag, Transport>) returns (outcome: Outcome, order: seq<Tag>)
    requires Registered(ts, byTag)
    ensures outcome == Success <==> Complete(byTag) && !Cyclic(byTag) && AllStart(byTag)
    ensures GoodOrder(byTag, order)
    ensures outcome == Success ==> |order| == |ts| && TagSet(order) == byTag.Keys
    ensures outcome.Failure? && !outcome.error.StartFailed? ==>
      NoneFailed(byTag, order) && SoundDiagnosis(byTag, TagSet(order), outcome.error)
    ensures outcome.Failure? && outcome.error.StartFailed? ==>
      && order != [] && order[|order| - 1] == outcome.error.tag && NoneFailed(byTag, order[..|order| - 1])
      && outcome.error.tag in byTag && byTag[outcome.error.tag].startFails
  {
    order := [];
    while true
      invariant GoodOrder(byTag, order) && NoneFailed(byTag, order)
      decreases |byTag| - |order|
    {
      var next, failed := StartRound(ts, byTag, order);
      OrderBound(byTag, ts, next);
      if failed.Some? {
        return Failure(StartFailed(failed.value)), next;
      }
      StartedSize(next, TagSet(next));
      if |TagSet(next)| == |ts| {
        OrderFull(byTag, ts, next);
        return Success, next;
      }
      if |next| > |order| {
        order := next;
        continue;
      }
      var current := FindUnstartedOne(ts, byTag, next);
      var e := LintTransport(ts, byTag, TagSet(next), [current.tag], current);
      DiagnosisRefutes(byTag, TagSet(next), e);
      return Failure(e), next;
    }
  }

  method FindUnstartedOne(ts: seq<Transport>, byTag: map<Tag, Transport>, order: seq<Tag>) returns (t: Transport)
    requires Registered(ts, byTag) && GoodOrder(byTag, order) && |order| < |ts|
    ensures t in ts && t.tag in byTag && byTag[t.tag] == t && t.tag !in TagSet(order)
  {
    MissingOne(byTag, ts, order);
    t := FindUnstarted(ts, TagSet(order));
  }

  // ----- lemmas -----

  lemma ChainBound(byTag: map<Tag, Transport>, started: set<Tag>, chain: seq<Tag>)
    requires Chain(byTag, started, chain)
    ensures |chain| <= |byTag|
  {
    DistinctWithin(chain, byTag.Keys);
  }

  lemma {:induction false} DistinctWithin(s: seq<Tag>, bound: set<Tag>)
    requires forall i, j :: 0 <= i < j < |s| ==> s[i] != s[j]
    requires forall i :: 0 <= i < |s| ==> s[i] in bound
    ensures |s| <= |bound|
    ensures |s| == |bound| ==> forall x :: x in bound ==> x in s
  {
    if s == [] {
      assert bound == {} <==> |bound| == 0;
    } else {
      var n := |s| - 1;
      DistinctWithin(s[..n], bound - {s[n]});
      if |s| == |bound| {
        forall x | x in bound ensures x in s {
          assert x == s[n] || x in s[..n];
        }
      }
    }
  }

  lemma {:induction false} TagsOf(ts: seq<Transport>) returns (tags: set<Tag>)
    requires DistinctTags(ts)
    ensures |tags| == |ts| && forall tag :: tag in tags <==> exists k :: 0 <= k < |ts| && ts[k].tag == tag
  {
    if ts == [] {
      tags := {};
    } else {
      var n := |ts| - 1;
      var rest := TagsOf(ts[..n]);
      tags := rest + {ts[n].tag};
      forall k | 0 <= k < |ts| ensures ts[k].tag in tags {
        if k < n { assert ts[..n][k].tag in rest; }
      }
      assert ts[n].tag !in rest;
    }
  }

  lemma RegisteredSize(byTag: map<Tag, Transport>, ts: seq<Transport>)
    requires Registered(ts, byTag)
    ensures |byTag| == |ts|
  {
    var tags := TagsOf(ts);
    assert tags == byTag.Keys;
  }

  lemma OrderSnoc(byTag: map<Tag, Transport>, order: seq<Tag>, t: Transport)
    requires GoodOrder(byTag, order) && t.tag in byTag && byTag[t.tag] == t && t.tag !in order
    requires forall d :: d in t.deps ==> d in order
    ensures GoodOrder(byTag, order + [t.tag])
  {
    var longer := order + [t.tag];
    assert longer[..|order|] == order;
    forall i | 0 <= i < |order| ensures longer[..i] == order[..i] {
    }
  }

  lemma {:induction false} StartedSize(order: seq<Tag>, started: set<Tag>)
    requires forall i, j :: 0 <= i < j < |order| ==> order[i] != order[j]
    requires started == TagSet(order)
    ensures |started| == |order|
  {
    if order != [] {
      var n := |order| - 1;
      StartedSize(order[..n], started - {order[n]});
    }
  }

  lemma OrderBound(byTag: map<Tag, Transport>, ts: seq<Transport>, order: seq<Tag>)
    requires Registered(ts, byTag) && GoodOrder(byTag, order)
    ensures |order| <= |byTag| == |ts|
  {
    RegisteredSize(byTag, ts);
    DistinctWithin(order, byTag.Keys);
  }

  lemma OrderFull(byTag: map<Tag, Transport>, ts: seq<Transport>, order: seq<Tag>)
    requires Registered(ts, byTag) && GoodOrder(byTag, order) && NoneFailed(byTag, order) && |order| == |ts|
    ensures TagSet(order) == byTag.Keys
    ensures Complete(byTag) && !Cyclic(byTag) && AllStart(byTag)
  {
    RegisteredSize(byTag, ts);
    DistinctWithin(order, byTag.Keys);
    assert forall tag :: tag in byTag ==> tag in order;
    AcyclicByOrder(byTag, order);
  }

  lemma MissingOne(byTag: map<Tag, Transport>, ts: seq<Transport>, order: seq<Tag>)
    requires Registered(ts, byTag) && GoodOrder(byTag, order) && |order| < |ts|
    ensures exists k :: 0 <= k < |ts| && ts[k].tag !in order
  {
    if forall k :: 0 <= k < |ts| ==> ts[k].tag in order {
      RegisteredSize(byTag, ts);
      var started := TagSet(order);
      StartedSize(order, started);
      assert byTag.Keys <= started;
      SubsetSize(byTag.Keys, started);
    }
  }

  lemma {:induction false} SubsetSize(a: set<Tag>, b: set<Tag>)
    requires a <= b
    ensures |a| <= |b|
  {
    if a != {} {
      var x :| x in a;
      SubsetSize(a - {x}, b - {x});
    }
  }

  /** Along a dependency edge the position in a good order strictly falls. */
  lemma EdgeDescends(byTag: map<Tag, Transport>, order: seq<Tag>, k: nat, b: Tag) returns (j: nat)
    requires GoodOrder(byTag, order) && k < |order| && Edge(byTag, order[k], b)
    ensures j < k && order[j] == b
  {
    assert b in order[..k];
    j :| 0 <= j < k && order[j] == b;
  }

  lemma {:induction false} PathDescends(byTag: map<Tag, Transport>, order: seq<Tag>, p: seq<Tag>, k: nat) returns (j: nat)
    requires GoodOrder(byTag, order) && |p| >= 2 && Path(byTag, p)
    requires k < |order| && order[k] == p[0]
    ensures j < k && order[j] == p[|p| - 1]
  {
    assert Edge(byTag, p[0], p[1]);
    j := EdgeDescends(byTag, order, k, p[1]);
    if |p| > 2 {
      var rest := p[1..];
      forall i | 0 <= i < |rest| - 1 ensures Edge(byTag, rest[i], rest[i + 1]) {
        assert Edge(byTag, p[i + 1], p[i + 2]);
      }
      j := PathDescends(byTag, order, rest, j);
    }
  }

  /** A complete good order exists only for a graph without cycles and without missing servers. */
  lemma AcyclicByOrder(byTag: map<Tag, Transport>, order: seq<Tag>)
    requires GoodOrder(byTag, order) && (forall tag :: tag in byTag ==> tag in order)
    ensures !Cyclic(byTag) && Complete(byTag)
  {
    if Cyclic(byTag) {
      var p: seq<Tag> :| |p| >= 2 && p[0] == p[|p| - 1] && Path(byTag, p);
      assert Edge(byTag, p[0], p[1]);
      var k :| 0 <= k < |order| && order[k] == p[0];
      var j := PathDescends(byTag, order, p, k);
    }
    forall tag, d | tag in byTag && d in byTag[tag].deps ensures d in byTag {
      var k :| 0 <= k < |order| && order[k] == tag;
      var j := EdgeDescends(byTag, order, k, d);
    }
  }

  /** A sound diagnosis shows that no order exists. */
  lemma DiagnosisRefutes(byTag: map<Tag, Transport>, started: set<Tag>, e: StartError)
    requires SoundDiagnosis(byTag, started, e)
    ensures e.Circular? ==> Cyclic(byTag)
    ensures e.NotFound? ==> !Complete(byTag)
  {
    match e {
      case Circular(chain, again) =>
        var k :| 0 <= k < |chain| && chain[k] == again;
        var all := chain + [again];
        var loop := all[k..];
        assert |loop| >= 2 && loop[0] == loop[|loop| - 1];
        forall i | 0 <= i < |loop| - 1 ensures Edge(byTag, loop[i], loop[i + 1]) {
          assert Edge(byTag, all[k + i], all[k + i + 1]);
        }
        assert Path(byTag, loop);
      case NotFound(missing, server) =>
      case StartFailed(_) =>
    }
  }
}
