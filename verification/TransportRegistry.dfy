/**
  The registry of DNS servers: a list, a map by tag, a reverse dependency map and the
  default server, changed by Create, by Remove and by the fallback of Start.
 */
module TransportRegistry {
  import opened Wrappers
  import opened TransportStart

  type Dependents = map<Tag, seq<Tag>>

  datatype Registry = Registry(
    defaultTag: Tag,
    started: bool,
    transports: seq<Transport>,
    byTag: map<Tag, Transport>,
    dependBy: Dependents,
    default: Option<Transport>,
    fakeIP: Option<Transport>)

  datatype Result =
    | Ok
    | InvalidTag | BuildFailed | StageFailed | CloseFailed | DefaultIsFakeIP | SecondFakeIP
    | NotRegistered | DefaultNotFakeIP | StillNeeded(users: seq<Tag>)
    | Panicked

  function EmptyRegistry(defaultTag: Tag): Registry {
    Registry(defaultTag, false, [], map[], map[], None, None)
  }

  /** Reading a missing key gives the empty list. */
  function Depend(m: Dependents, d: Tag): seq<Tag> { if d in m then m[d] else [] }

  function IndexOf(ts: seq<Transport>, t: Transport): (k: int)
    ensures -1 <= k < |ts|
    ensures k >= 0 ==> ts[k] == t
    ensures k == -1 <==> t !in ts
  {
    if ts == [] then -1
    else if ts[0] == t then 0
    else var k := IndexOf(ts[1..], t); if k == -1 then -1 else k + 1
  }

  function Without(tags: seq<Tag>, tag: Tag): seq<Tag> {
    if tags == [] then []
    else
      var n := |tags| - 1;
      Without(tags[..n], tag) + if tags[n] != tag then [tags[n]] else []
  }

  function AddDependents(m: Dependents, deps: seq<Tag>, tag: Tag): Dependents {
    if deps == [] then m
    else
      var n := |deps| - 1;
      var before := AddDependents(m, deps[..n], tag);
      before[deps[n] := Depend(before, deps[n]) + [tag]]
  }

  function DropOne(m: Dependents, d: Tag, tag: Tag): Dependents {
    if |Depend(m, d)| == 1 then m - {d} else m[d := Without(Depend(m, d), tag)]
  }

  function DropDependent(m: Dependents, deps: seq<Tag>, tag: Tag): Dependents {
    if deps == [] then m
    else DropOne(DropDependent(m, deps[..|deps| - 1], tag), deps[|deps| - 1], tag)
  }

  /** The list without the server the map has under this tag. */
  function Unlisted(r: Registry, tag: Tag): seq<Transport> {
    if tag in r.byTag && IndexOf(r.transports, r.byTag[tag]) != -1
    then RemoveAt(r.transports, IndexOf(r.transports, r.byTag[tag]))
    else r.transports
  }

  /** List, map and reverse dependencies after a new server has been entered. */
  function Enlist(r: Registry, tag: Tag, t: Transport): Registry {
    r.(transports := Unlisted(r, tag) + [t], byTag := r.byTag[tag := t],
       dependBy := AddDependents(r.dependBy, t.deps, tag))
  }

  /** The end of Create, after the server has been entered: default and fakeip election. */
  function Elect(r: Registry, tag: Tag, t: Transport): (Registry, Result) {
    var elected := tag == r.defaultTag || (r.defaultTag == NO_TAG && r.default.None?);
    if elected && t.fakeIP then (r, DefaultIsFakeIP)
    else
      var r2 := if elected then r.(default := Some(t)) else r;
      if t.fakeIP && r.fakeIP.Some? then (r2, SecondFakeIP)
      else if t.fakeIP then (r2.(fakeIP := Some(t)), Ok)
      else (r2, Ok)
  }

  /** Create: "built" is what the constructor returned, the other two are outcomes of the calls made. */
  function CreateStep(r: Registry, tag: Tag, built: Option<Transport>, stagesOk: bool, closeOk: bool): (Registry, Result) {
    if tag == NO_TAG then (r, InvalidTag)
    else if built.None? then (r, BuildFailed)
    else if r.started && !stagesOk then (r, StageFailed)
    else if tag in r.byTag && r.started && !closeOk then (r, CloseFailed)
    else if tag in r.byTag && IndexOf(r.transports, r.byTag[tag]) == -1 then (r, Panicked)
    else Elect(Enlist(r, tag, built.value), tag, built.value)
  }

  function RemoveAt(ts: seq<Transport>, k: int): seq<Transport>
    requires 0 <= k < |ts|
  {
    ts[..k] + ts[k + 1..]
  }

  /** The end of Remove, after the server has left list and map. */
  function Resign(r: Registry, t: Transport, tag: Tag): (Registry, Result) {
    if r.default == Some(t) && r.transports != [] && !r.transports[0].fakeIP then (r, DefaultNotFakeIP)
    else
      var r2 := if r.default != Some(t) then r
                else r.(default := if r.transports != [] then Some(r.transports[0]) else None);
      if Depend(r.dependBy, tag) != [] then (r2, StillNeeded(Depend(r.dependBy, tag)))
      else (r2.(dependBy := DropDependent(r.dependBy, t.deps, tag)), Ok)
  }

  /** Remove, as written: the server leaves list and map before any check is made. */
  function RemoveStep(r: Registry, tag: Tag): (Registry, Result) {
    if tag !in r.byTag then (r, NotRegistered)
    else if IndexOf(r.transports, r.byTag[tag]) == -1 then (r.(byTag := r.byTag - {tag}), Panicked)
    else Resign(r.(transports := Unlisted(r, tag), byTag := r.byTag - {tag}), r.byTag[tag], tag)
  }

  /** The part of Start that installs a fallback when there is no default. */
  function FallbackStep(r: Registry, fallback: Transport): Registry {
    if r.default.None? && r.defaultTag == NO_TAG then
      r.(transports := r.transports + [fallback], byTag := r.byTag[fallback.tag := fallback], default := Some(fallback))
    else r
  }

  // ----- the program's own form -----

  class TransportManager {
    const defaultTag: Tag
    var started: bool
    var transports: seq<Transport>
    var transportByTag: map<Tag, Transport>
    var dependByTag: map<Tag, seq<Tag>>
    var defaultTransport: Option<Transport>
    var fakeIPTransport: Option<Transport>

    ghost function Abs(): Registry
      reads this
    {
      Registry(defaultTag, started, transports, transportByTag, dependByTag, defaultTransport, fakeIPTransport)
    }

    constructor (defaultTag: Tag)
      ensures Abs() == EmptyRegistry(defaultTag)
    {
      this.defaultTag := defaultTag;
      started, transports, transportByTag, dependByTag := false, [], map[], map[];
      defaultTransport, fakeIPTransport := None, None;
    }

    method Create(tag: Tag, built: Option<Transport>, stagesOk: bool, closeOk: bool) returns (r: Result)
      modifies this
      ensures (Abs(), r) == CreateStep(old(Abs()), tag, built, stagesOk, closeOk)
    {
      if tag == NO_TAG {
        return InvalidTag;
      }
      if built.None? {
        return BuildFailed;
      }
      var transport := built.value;
      if started && !stagesOk {
        return StageFailed;
      }
      if tag in transportByTag {
        var existing := transportByTag[tag];
        if started && !closeOk {
          return CloseFailed;
        }
        var index := Find(existing);
        if index == -1 {
          return Panicked;
        }
        transports := transports[..index] + transports[index + 1..];
      }
      assert transports == Unlisted(old(Abs()), tag);
      transports := transports + [transport];
      transportByTag := transportByTag[tag := transport];
      RecordDependencies(tag, transport);
      assert Abs() == Enlist(old(Abs()), tag, transport);
      r := ElectDefault(tag, transport);
    }

    method RecordDependencies(tag: Tag, transport: Transport)
      modifies this`dependByTag
      ensures dependByTag == AddDependents(old(dependByTag), transport.deps, tag)
    {
      var i := 0;
      while i < |transport.deps|
        invariant 0 <= i <= |transport.deps|
        invariant dependByTag == AddDependents(old(dependByTag), transport.deps[..i], tag)
      {
        assert transport.deps[..i + 1][..i] == transport.deps[..i];
        var d := transport.deps[i];
        dependByTag := dependByTag[d := (if d in dependByTag then dependByTag[d] else []) + [tag]];
        i := i + 1;
      }
      assert transport.deps[..i] == transport.deps;
    }

    method ElectDefault(tag: Tag, transport: Transport) returns (r: Result)
      modifies this`defaultTransport, this`fakeIPTransport
      ensures (Abs(), r) == Elect(old(Abs()), tag, transport)
    {
      if tag == defaultTag || (defaultTag == NO_TAG && defaultTransport.None?) {
        if transport.fakeIP {
          return DefaultIsFakeIP;
        }
        defaultTransport := Some(transport);
      }
      if transport.fakeIP {
        if fakeIPTransport.Some? {
          return SecondFakeIP;
        }
        fakeIPTransport := Some(transport);
      }
      return Ok;
    }

    method Find(t: Transport) returns (index: int)
      ensures index == IndexOf(transports, t)
    {
      index := 0;
      while index < |transports|
        invariant 0 <= index <= |transports|
        invariant IndexOf(transports, t) ==
          if IndexOf(transports[index..], t) == -1 then -1 else index + IndexOf(transports[index..], t)
      {
        if transports[index] == t {
          return;
        }
        assert transports[index..][1..] == transports[index + 1..];
        index := index + 1;
      }
      return -1;
    }

    method Remove(tag: Tag) returns (r: Result)
      modifies this
      ensures (Abs(), r) == RemoveStep(old(Abs()), tag)
    {
      if tag !in transportByTag {
        return NotRegistered;
      }
      var transport := transportByTag[tag];
      transportByTag := transportByTag - {tag};
      var index := Find(transport);
      if index == -1 {
        return Panicked;
      }
      transports := transports[..index] + transports[index + 1..];
      r := ResignDefault(transport, tag);
    }

    method ResignDefault(transport: Transport, tag: Tag) returns (r: Result)
      modifies this`defaultTransport, this`dependByTag
      ensures (Abs(), r) == Resign(old(Abs()), transport, tag)
    {
      if defaultTransport == Some(transport) {
        if |transports| > 0 {
          var nextTransport := transports[0];
          if !nextTransport.fakeIP {
            return DefaultNotFakeIP;
          }
          defaultTransport := Some(nextTransport);
        } else {
          defaultTransport := None;
        }
      }
      var dependBy := if tag in dependByTag then dependByTag[tag] else [];
      if |dependBy| > 0 {
        return StillNeeded(dependBy);
      }
      ForgetDependencies(transport, tag);
      return Ok;
    }

    method ForgetDependencies(transport: Transport, tag: Tag)
      modifies this`dependByTag
      ensures dependByTag == DropDependent(old(dependByTag), transport.deps, tag)
    {
      var i := 0;
      while i < |transport.deps|
        invariant 0 <= i <= |transport.deps|
        invariant dependByTag == DropDependent(old(dependByTag), transport.deps[..i], tag)
      {
        assert transport.deps[..i + 1][..i] == transport.deps[..i];
        var d := transport.deps[i];
        if d in dependByTag && |dependByTag[d]| == 1 {
          dependByTag := dependByTag - {d};
        } else {
          var kept := Filter(if d in dependByTag then dependByTag[d] else [], tag);
          dependByTag := dependByTag[d := kept];
        }
        i := i + 1;
      }
      assert transport.deps[..i] == transport.deps;
    }

    method Filter(tags: seq<Tag>, tag: Tag) returns (kept: seq<Tag>)
      ensures kept == Without(tags, tag)
    {
      kept := [];
      var i := 0;
      while i < |tags|
        invariant 0 <= i <= |tags|
        invariant kept == Without(tags[..i], tag)
      {
        assert tags[..i + 1][..i] == tags[..i];
        if tags[i] != tag {
          kept := kept + [tags[i]];
        }
        i := i + 1;
      }
      assert tags[..i] == tags;
    }

    /** Start at the start stage: with a coherent registry and a fallback tag that is free the start
        loop gets what it needs, and its verdict is about the registry as it is after the fallback. */
    method StartServers(fallback: Option<Transport>) returns (missingDefault: bool, outcome: Option<Outcome>, order: seq<Tag>)
      requires Coherent(Abs())
      requires defaultTransport.None? && defaultTag == NO_TAG && fallback.Some? ==> fallback.value.tag !in transportByTag
      modifies this
      ensures missingDefault <==> old(defaultTransport).None? && (defaultTag != NO_TAG || fallback.None?)
      ensures missingDefault ==> Abs() == old(Abs()).(started := true) && outcome == None
      ensures old(defaultTransport).Some? ==> Abs() == old(Abs()).(started := true)
      ensures old(defaultTransport).None? && !missingDefault ==>
        && Abs() == FallbackStep(old(Abs()), fallback.value).(started := true)
        && defaultTransport == fallback && transports == old(transports) + [fallback.value]
        && transportByTag == old(transportByTag)[fallback.value.tag := fallback.value]
      ensures !missingDefault ==>
        && Coherent(Abs()) && outcome.Some?
        && (outcome.value == Success <==>
              Complete(transportByTag) && !Cyclic(transportByTag) && AllStart(transportByTag))
        && GoodOrder(transportByTag, order)
    {
      started := true;
      order := [];
      if defaultTag != NO_TAG && defaultTransport.None? {
        return true, None, [];
      }
      if defaultTransport.None? {
        if fallback.None? {
          return true, None, [];
        }
        FallbackCoherence(Abs(), fallback.value);
        transports := transports + [fallback.value];
        transportByTag := transportByTag[fallback.value.tag := fallback.value];
        defaultTransport := Some(fallback.value);
      }
      var verdict;
      verdict, order := StartTransports(transports, transportByTag);
      return false, Some(verdict), order;
    }
  }

  // ----- coherence -----

  ghost predicate Coherent(r: Registry) { Registered(r.transports, r.byTag) }

  lemma RemoveAtCoherent(ts: seq<Transport>, byTag: map<Tag, Transport>, k: nat)
    requires Registered(ts, byTag) && k < |ts|
    ensures Registered(RemoveAt(ts, k), byTag - {ts[k].tag})
    ensures forall t :: t in RemoveAt(ts, k) <==> t in ts && t.tag != ts[k].tag
  {
    var rest := RemoveAt(ts, k);
    forall i | 0 <= i < |rest| ensures rest[i] == ts[if i < k then i else i + 1] {
    }
    forall t | t in ts && t.tag != ts[k].tag ensures t in rest {
      var j :| 0 <= j < |ts| && ts[j] == t;
      assert rest[if j < k then j else j - 1] == t;
    }
  }

  lemma UnlistedCoherent(r: Registry, tag: Tag)
    requires Coherent(r) && tag in r.byTag
    ensures IndexOf(r.transports, r.byTag[tag]) != -1
    ensures Registered(Unlisted(r, tag), r.byTag - {tag})
    ensures forall t :: t in Unlisted(r, tag) <==> t in r.transports && t.tag != tag
  {
    RemoveAtCoherent(r.transports, r.byTag, IndexOf(r.transports, r.byTag[tag]));
  }

  lemma AppendCoherent(ts: seq<Transport>, byTag: map<Tag, Transport>, t: Transport)
    requires Registered(ts, byTag) && t.tag !in byTag
    ensures Registered(ts + [t], byTag[t.tag := t])
  {
  }

  lemma EnlistCoherent(r: Registry, t: Transport)
    requires Coherent(r)
    ensures Coherent(Enlist(r, t.tag, t))
    ensures forall u :: u in Enlist(r, t.tag, t).transports <==> (u in r.transports && u.tag != t.tag) || u == t
  {
    if t.tag in r.byTag {
      UnlistedCoherent(r, t.tag);
      AppendCoherent(Unlisted(r, t.tag), r.byTag - {t.tag}, t);
      assert (r.byTag - {t.tag})[t.tag := t] == r.byTag[t.tag := t];
    } else {
      AppendCoherent(r.transports, r.byTag, t);
    }
  }

  lemma ElectFrame(r: Registry, tag: Tag, t: Transport)
    ensures
      var r' := Elect(r, tag, t).0;
      r'.transports == r.transports && r'.byTag == r.byTag && r'.dependBy == r.dependBy && r'.defaultTag == r.defaultTag
    ensures Elect(r, tag, t).1 != Panicked
  {
  }

  lemma ResignFrame(r: Registry, t: Transport, tag: Tag)
    ensures
      var (r', res) := Resign(r, t, tag);
      && r'.transports == r.transports && r'.byTag == r.byTag && r'.defaultTag == r.defaultTag && res != Panicked
      && r'.dependBy == if res == Ok then DropDependent(r.dependBy, t.deps, tag) else r.dependBy
  {
  }

  /** Every Create, whatever it returns, keeps list and map in step, and never panics. */
  lemma CreateCoherence(r: Registry, tag: Tag, built: Option<Transport>, stagesOk: bool, closeOk: bool)
    requires Coherent(r) && (built.Some? ==> built.value.tag == tag)
    ensures Coherent(CreateStep(r, tag, built, stagesOk, closeOk).0)
    ensures CreateStep(r, tag, built, stagesOk, closeOk).1 != Panicked
  {
    if tag in r.byTag {
      UnlistedCoherent(r, tag);
    }
    if built.Some? {
      EnlistCoherent(r, built.value);
      ElectFrame(Enlist(r, tag, built.value), tag, built.value);
    }
  }

  /** Every Remove, refused or not, takes exactly the named server out of both list and map. */
  lemma RemoveCoherence(r: Registry, tag: Tag)
    requires Coherent(r)
    ensures
      var (r', res) := RemoveStep(r, tag);
      && Coherent(r') && res != Panicked
      && r'.byTag == r.byTag - {tag}
      && (forall t :: t in r'.transports <==> t in r.transports && t.tag != tag)
      && r'.dependBy == if res == Ok then DropDependent(r.dependBy, r.byTag[tag].deps, tag) else r.dependBy
  {
    if tag in r.byTag {
      UnlistedCoherent(r, tag);
      ResignFrame(r.(transports := Unlisted(r, tag), byTag := r.byTag - {tag}), r.byTag[tag], tag);
    } else {
      assert r.byTag - {tag} == r.byTag;
    }
  }

  /** The fallback is installed without looking at the map: coherence survives exactly when its tag is free. */
  lemma FallbackCoherence(r: Registry, fallback: Transport)
    requires Coherent(r) && r.default.None? && r.defaultTag == NO_TAG
    ensures Coherent(FallbackStep(r, fallback)) <==> fallback.tag !in r.byTag
  {
    if fallback.tag !in r.byTag {
      AppendCoherent(r.transports, r.byTag, fallback);
    } else {
      var old0 := r.byTag[fallback.tag];
      var i :| 0 <= i < |r.transports| && r.transports[i] == old0;
      var ts := FallbackStep(r, fallback).transports;
      assert ts[i].tag == ts[|r.transports|].tag;
    }
  }

  // ----- reverse dependencies -----

  predicate RepeatFree(deps: seq<Tag>) { forall i, j :: 0 <= i < j < |deps| ==> deps[i] != deps[j] }

  function Count(deps: seq<Tag>, d: Tag): nat {
    if deps == [] then 0 else Count(deps[..|deps| - 1], d) + if deps[|deps| - 1] == d then 1 else 0
  }

  /** Every live server is recorded under each server it depends on. */
  ghost predicate Recorded(r: Registry) {
    forall t, d :: t in r.transports && d in t.deps ==> t.tag in Depend(r.dependBy, d)
  }

  lemma {:induction false} AddDependentsKeeps(m: Dependents, deps: seq<Tag>, tag: Tag, d: Tag)
    ensures forall x :: x in Depend(m, d) ==> x in Depend(AddDependents(m, deps, tag), d)
    ensures d in deps ==> tag in Depend(AddDependents(m, deps, tag), d)
  {
    if deps != [] {
      AddDependentsKeeps(m, deps[..|deps| - 1], tag, d);
    }
  }

  lemma {:induction false} WithoutMembers(tags: seq<Tag>, tag: Tag)
    ensures forall x :: x in Without(tags, tag) <==> x in tags && x != tag
    ensures tag !in tags ==> Without(tags, tag) == tags
  {
    if tags != [] {
      WithoutMembers(tags[..|tags| - 1], tag);
      assert tags == tags[..|tags| - 1] + [tags[|tags| - 1]];
    }
  }

  /** What n rounds of the clean-up loop leave of one entry. */
  function Passes(entry: seq<Tag>, tag: Tag, n: nat): seq<Tag> {
    if n == 0 then entry
    else
      var e := Passes(entry, tag, n - 1);
      if |e| == 1 then [] else Without(e, tag)
  }

  lemma {:induction false} DropDependentAt(m: Dependents, deps: seq<Tag>, tag: Tag, d: Tag)
    ensures Depend(DropDependent(m, deps, tag), d) == Passes(Depend(m, d), tag, Count(deps, d))
  {
    if deps != [] {
      DropDependentAt(m, deps[..|deps| - 1], tag, d);
    }
  }

  /** From the second round on the loop only waits for a singleton, which it drops whoever it names. */
  lemma {:induction false} PassesSettle(entry: seq<Tag>, tag: Tag, n: nat)
    requires tag in entry && n >= 1
    ensures Passes(entry, tag, n) ==
      if n >= 2 && |Without(entry, tag)| == 1 then [] else Without(entry, tag)
  {
    if n == 1 {
      FirstPass(entry, tag);
    } else {
      PassesSettle(entry, tag, n - 1);
      WithoutTwice(entry, tag);
    }
  }

  lemma FirstPass(entry: seq<Tag>, tag: Tag)
    requires tag in entry
    ensures Passes(entry, tag, 1) == Without(entry, tag)
  {
    assert Passes(entry, tag, 0) == entry;
    if |entry| == 1 {
      assert entry == [tag] && entry[..0] == [];
    }
  }

  lemma WithoutTwice(entry: seq<Tag>, tag: Tag)
    ensures Without(Without(entry, tag), tag) == Without(entry, tag) && Without([], tag) == []
  {
    WithoutMembers(entry, tag);
    WithoutMembers(Without(entry, tag), tag);
  }

  lemma {:induction false} CountMember(deps: seq<Tag>, d: Tag)
    ensures Count(deps, d) >= 1 <==> d in deps
    ensures RepeatFree(deps) ==> Count(deps, d) <= 1
  {
    if deps != [] {
      CountMember(deps[..|deps| - 1], d);
      assert deps == deps[..|deps| - 1] + [deps[|deps| - 1]];
    }
  }

  /** Another name in the entry is lost exactly when it stands alone after the first of two rounds. */
  lemma PassesKeep(entry: seq<Tag>, tag: Tag, n: nat, other: Tag)
    requires other in entry && other != tag && (n >= 1 ==> tag in entry)
    ensures other in Passes(entry, tag, n) <==> !(n >= 2 && Without(entry, tag) == [other])
  {
    WithoutMembers(entry, tag);
    if n >= 1 {
      PassesSettle(entry, tag, n);
      assert |Without(entry, tag)| == 1 ==> Without(entry, tag) == [Without(entry, tag)[0]];
    }
  }

  /** Removing "gone" forgets t under d: gone lists d more than once, and t is the only other entry. */
  predicate ForgetsUnder(r: Registry, gone: Transport, t: Transport, d: Tag) {
    d in t.deps && Count(gone.deps, d) >= 2 && Without(Depend(r.dependBy, d), gone.tag) == [t.tag]
  }

  ghost predicate Forgets(r: Registry, gone: Transport) {
    exists d, t :: t in r.transports && t.tag != gone.tag && ForgetsUnder(r, gone, t, d)
  }

  lemma RecordAfterRemove(r: Registry, gone: Transport, t: Transport, d: Tag)
    requires Recorded(r) && gone in r.transports
    requires t in r.transports && t.tag != gone.tag && d in t.deps
    ensures t.tag in Depend(DropDependent(r.dependBy, gone.deps, gone.tag), d) <==> !ForgetsUnder(r, gone, t, d)
  {
    DropDependentAt(r.dependBy, gone.deps, gone.tag, d);
    CountMember(gone.deps, d);
    PassesKeep(Depend(r.dependBy, d), gone.tag, Count(gone.deps, d), t.tag);
  }

  lemma RecordsAfter(r: Registry, gone: Transport, r': Registry)
    requires Recorded(r) && gone in r.transports
    requires forall t :: t in r'.transports <==> t in r.transports && t.tag != gone.tag
    requires r'.dependBy == DropDependent(r.dependBy, gone.deps, gone.tag)
    ensures Recorded(r') <==> !Forgets(r, gone)
  {
    forall t, d | t in r.transports && t.tag != gone.tag && d in t.deps
      ensures t.tag in Depend(r'.dependBy, d) <==> !ForgetsUnder(r, gone, t, d)
    {
      RecordAfterRemove(r, gone, t, d);
    }
    if Forgets(r, gone) {
      var d, t :| t in r.transports && t.tag != gone.tag && ForgetsUnder(r, gone, t, d);
      assert t in r'.transports;
    }
  }

  /** A successful Remove keeps the records of the servers that stay, exactly when it does not forget one. */
  lemma RemoveKeepsRecordsIff(r: Registry, tag: Tag)
    requires Coherent(r) && Recorded(r) && RemoveStep(r, tag).1 == Ok
    ensures Recorded(RemoveStep(r, tag).0) <==> !Forgets(r, r.byTag[tag])
  {
    RemoveCoherence(r, tag);
    RecordsAfter(r, r.byTag[tag], RemoveStep(r, tag).0);
  }

  // ----- runs -----

  datatype Op =
    | Create(tag: Tag, built: Option<Transport>, stagesOk: bool, closeOk: bool)
    | Remove(tag: Tag)
    | Fallback(fallback: Transport)
    | MarkStarted

  function Do(r: Registry, op: Op): (Registry, Result) {
    match op
    case Create(tag, built, stagesOk, closeOk) => CreateStep(r, tag, built, stagesOk, closeOk)
    case Remove(tag) => RemoveStep(r, tag)
    case Fallback(fallback) => (FallbackStep(r, fallback), Ok)
    case MarkStarted => (r.(started := true), Ok)
  }

  function After(r: Registry, ops: seq<Op>): Registry {
    if ops == [] then r else Do(After(r, ops[..|ops| - 1]), ops[|ops| - 1]).0
  }

  /** Constructors keep the tag they are given. */
  predicate KeepsTag(op: Op) { op.Create? && op.built.Some? ==> op.built.value.tag == op.tag }

  /** The fallback is the plain local server. */
  predicate PlainFallback(op: Op) { op.Fallback? ==> !op.fallback.fakeIP }

  /** No server lists a dependency twice, and the local server, which is entered without records, has none. */
  predicate ListsOnce(op: Op) {
    (op.Create? && op.built.Some? ==> RepeatFree(op.built.value.deps)) && (op.Fallback? ==> op.fallback.deps == [])
  }

  /** All Create calls succeed; Remove calls may end in an error. */
  predicate ErrorFree(r: Registry, ops: seq<Op>) {
    ops == [] ||
    (ErrorFree(r, ops[..|ops| - 1]) &&
     (ops[|ops| - 1].Create? ==> Do(After(r, ops[..|ops| - 1]), ops[|ops| - 1]).1 == Ok))
  }

  /** List and map in step, and without a default where any server could be one there is no server. */
  ghost predicate InStep(r: Registry) { Coherent(r) && (r.defaultTag == NO_TAG && r.default.None? ==> r.transports == []) }

  ghost predicate AllRecorded(r: Registry) { Recorded(r) && forall t :: t in r.transports ==> RepeatFree(t.deps) }

  lemma OpKeepsStep(r: Registry, op: Op)
    requires InStep(r) && KeepsTag(op)
    ensures Do(r, op).1 != Panicked
    ensures (op.Create? ==> Do(r, op).1 == Ok) ==> InStep(Do(r, op).0)
  {
    match op {
      case Create(tag, built, stagesOk, closeOk) =>
        CreateCoherence(r, tag, built, stagesOk, closeOk);
        if built.Some? {
          ElectFrame(Enlist(r, tag, built.value), tag, built.value);
        }
      case Remove(tag) =>
        RemoveCoherence(r, tag);
        if tag in r.byTag {
          ResignFrame(r.(transports := Unlisted(r, tag), byTag := r.byTag - {tag}), r.byTag[tag], tag);
        }
      case Fallback(fallback) =>
        if r.default.None? && r.defaultTag == NO_TAG {
          FallbackCoherence(r, fallback);
        }
      case MarkStarted =>
    }
  }

  lemma {:induction false} RunKeepsStep(defaultTag: Tag, ops: seq<Op>)
    requires forall i :: 0 <= i < |ops| ==> KeepsTag(ops[i])
    requires ErrorFree(EmptyRegistry(defaultTag), ops)
    ensures InStep(After(EmptyRegistry(defaultTag), ops))
  {
    if ops != [] {
      RunKeepsStep(defaultTag, ops[..|ops| - 1]);
      OpKeepsStep(After(EmptyRegistry(defaultTag), ops[..|ops| - 1]), ops[|ops| - 1]);
    }
  }

  /** List and map stay in bijection over every error-free run, no panic is reachable, and the fallback never
      meets its own tag; whatever dependencies the servers list, and however often. */
  lemma RegistryStaysCoherent(defaultTag: Tag, ops: seq<Op>, op: Op)
    requires forall i :: 0 <= i < |ops| ==> KeepsTag(ops[i])
    requires ErrorFree(EmptyRegistry(defaultTag), ops) && KeepsTag(op)
    ensures
      var r := After(EmptyRegistry(defaultTag), ops);
      && Coherent(r) && Do(r, op).1 != Panicked
      && (r.defaultTag == NO_TAG && r.default.None? ==> r.byTag == map[])
  {
    RunKeepsStep(defaultTag, ops);
    OpKeepsStep(After(EmptyRegistry(defaultTag), ops), op);
  }

  lemma NoForgetting(r: Registry, gone: Transport)
    requires RepeatFree(gone.deps)
    ensures !Forgets(r, gone)
  {
    if Forgets(r, gone) {
      var d, t :| t in r.transports && t.tag != gone.tag && ForgetsUnder(r, gone, t, d);
      CountMember(gone.deps, d);
    }
  }

  lemma CreateRecords(r: Registry, op: Op)
    requires Coherent(r) && AllRecorded(r) && op.Create? && KeepsTag(op) && ListsOnce(op) && Do(r, op).1 == Ok
    ensures AllRecorded(Do(r, op).0)
  {
    var t, r' := op.built.value, Do(r, op).0;
    EnlistCoherent(r, t);
    ElectFrame(Enlist(r, t.tag, t), t.tag, t);
    forall u, d | u in r'.transports && d in u.deps ensures u.tag in Depend(r'.dependBy, d) {
      AddDependentsKeeps(r.dependBy, t.deps, op.tag, d);
      assert u == t || u in r.transports;
    }
  }

  lemma OpKeepsRecords(r: Registry, op: Op)
    requires InStep(r) && AllRecorded(r) && KeepsTag(op) && ListsOnce(op) && (op.Create? ==> Do(r, op).1 == Ok)
    ensures AllRecorded(Do(r, op).0)
  {
    match op {
      case Create(_, _, _, _) => CreateRecords(r, op);
      case Remove(tag) =>
        RemoveCoherence(r, tag);
        if Do(r, op).1 == Ok {
          NoForgetting(r, r.byTag[tag]);
          RemoveKeepsRecordsIff(r, tag);
        }
      case _ =>
    }
  }

  lemma {:induction false} RunKeepsRecords(defaultTag: Tag, ops: seq<Op>)
    requires forall i :: 0 <= i < |ops| ==> KeepsTag(ops[i]) && ListsOnce(ops[i])
    requires ErrorFree(EmptyRegistry(defaultTag), ops)
    ensures AllRecorded(After(EmptyRegistry(defaultTag), ops))
  {
    if ops != [] {
      RunKeepsRecords(defaultTag, ops[..|ops| - 1]);
      RunKeepsStep(defaultTag, ops[..|ops| - 1]);
      OpKeepsRecords(After(EmptyRegistry(defaultTag), ops[..|ops| - 1]), ops[|ops| - 1]);
    }
  }

  /** With lists free of repeats Remove never succeeds while a live server depends on the one named. */
  lemma RemoveNeverStrands(defaultTag: Tag, ops: seq<Op>, tag: Tag)
    requires forall i :: 0 <= i < |ops| ==> KeepsTag(ops[i]) && ListsOnce(ops[i])
    requires ErrorFree(EmptyRegistry(defaultTag), ops)
    ensures
      var r := After(EmptyRegistry(defaultTag), ops);
      RemoveStep(r, tag).1 == Ok ==> forall t :: t in r.transports ==> tag !in t.deps
  {
    RunKeepsRecords(defaultTag, ops);
    RunKeepsStep(defaultTag, ops);
    RemoveCoherence(After(EmptyRegistry(defaultTag), ops), tag);
  }

  /** When Remove refuses, the named server is out of the registry all the same. */
  lemma RefusedRemoveUnregisters(defaultTag: Tag, ops: seq<Op>, tag: Tag)
    requires forall i :: 0 <= i < |ops| ==> KeepsTag(ops[i])
    requires ErrorFree(EmptyRegistry(defaultTag), ops)
    ensures
      var r := After(EmptyRegistry(defaultTag), ops);
      var (r', res) := RemoveStep(r, tag);
      && (res == NotRegistered <==> tag !in r.byTag)
      && tag !in r'.byTag && r'.byTag == r.byTag - {tag}
      && forall t :: t in r'.transports <==> t in r.transports && t.tag != tag
  {
    RunKeepsStep(defaultTag, ops);
    RemoveCoherence(After(EmptyRegistry(defaultTag), ops), tag);
  }

  const SA := Transport(1, 1, [3, 3], false, false)
  const SB := Transport(2, 2, [3], false, false)
  const SD := Transport(3, 3, [], false, false)

  /** Servers 1 and 2 depend on 3, and server 1 lists it twice. */
  const TWICE := Registry(9, false, [SA, SB, SD], map[1 := SA, 2 := SB, 3 := SD], map[3 := [1, 1, 2]], None, None)

  lemma OneMore(r: Registry, ops: seq<Op>, op: Op)
    requires ErrorFree(r, ops) && (op.Create? ==> Do(After(r, ops), op).1 == Ok)
    ensures After(r, ops + [op]) == Do(After(r, ops), op).0 && ErrorFree(r, ops + [op])
  {
    assert (ops + [op])[..|ops|] == ops;
  }

  function Made(t: Transport): Op { Create(t.tag, Some(t), true, true) }

  lemma AddOne(m: Dependents, deps: seq<Tag>, d: Tag, tag: Tag)
    ensures
      var before := AddDependents(m, deps, tag);
      AddDependents(m, deps + [d], tag) == before[d := Depend(before, d) + [tag]]
  {
    assert (deps + [d])[..|deps|] == deps;
  }

  lemma TwiceRecorded()
    ensures AddDependents(map[], SA.deps, 1) == map[3 := [1, 1]]
    ensures AddDependents(map[3 := [1, 1]], SB.deps, 2) == map[3 := [1, 1, 2]]
    ensures AddDependents(map[3 := [1, 1, 2]], SD.deps, 3) == map[3 := [1, 1, 2]]
  {
    var none: Dependents, two: Dependents := map[], map[3 := [1, 1]];
    var empty: seq<Tag> := [];
    assert AddDependents(none, empty, 1) == none && AddDependents(two, empty, 2) == two;
    AddOne(none, empty, 3, 1);
    var one := AddDependents(none, empty + [3], 1);
    assert Depend(none, 3) == [] && [] + [1 as Tag] == [1] && one == map[3 := [1]];
    AddOne(none, empty + [3], 3, 1);
    assert SA.deps == empty + [3] + [3] && Depend(one, 3) + [1] == [1, 1];
    AddOne(two, empty, 3, 2);
    assert SB.deps == empty + [3] && Depend(two, 3) + [2] == [1, 1, 2];
  }

  /** Creating the three servers one after the other gives just this registry. */
  lemma TwiceIsReachable() returns (ops: seq<Op>)
    ensures ErrorFree(EmptyRegistry(9), ops) && After(EmptyRegistry(9), ops) == TWICE
  {
    var r := EmptyRegistry(9);
    var ops1 := [Made(SA)];
    var ops2 := ops1 + [Made(SB)];
    ops := ops2 + [Made(SD)];
    assert [] + [Made(SA)] == ops1;
    TwiceRecorded();
    OneMore(r, [], Made(SA));
    assert After(r, ops1) == Registry(9, false, [SA], map[1 := SA], map[3 := [1, 1]], None, None);
    OneMore(r, ops1, Made(SB));
    assert After(r, ops2) == Registry(9, false, [SA, SB], map[1 := SA, 2 := SB], map[3 := [1, 1, 2]], None, None);
    OneMore(r, ops2, Made(SD));
  }

  lemma TwiceDropped()
    ensures DropDependent(TWICE.dependBy, SA.deps, 1) == map[]
  {
    var entry: seq<Tag> := [1, 1, 2];
    assert entry[..2] == [1, 1] && [1, 1][..1] == [1] && [1][..0] == [];
    assert Without([1], 1) == [] && Without([1, 1], 1) == [] && Without(entry, 1) == [2];
    assert [3, 3][..1] == [3] && [3][..0] == [];
    assert DropDependent(TWICE.dependBy, [], 1) == TWICE.dependBy;
    assert DropDependent(TWICE.dependBy, [3], 1) == map[3 := [2]];
  }

  lemma TwiceIsFine()
    ensures Coherent(TWICE) && Recorded(TWICE)
  {
    assert TWICE.transports[0] == SA && TWICE.transports[1] == SB && TWICE.transports[2] == SD;
    assert 1 in TWICE.dependBy[3] by { assert TWICE.dependBy[3][0] == 1; }
    assert 2 in TWICE.dependBy[3] by { assert TWICE.dependBy[3][2] == 2; }
  }

  lemma RemoveUnrecorded(r: Registry, tag: Tag)
    requires Coherent(r) && tag in r.byTag && r.default == None && Depend(r.dependBy, tag) == []
    ensures RemoveStep(r, tag).1 == Ok && RemoveStep(r, tag).0.default == None
  {
    UnlistedCoherent(r, tag);
  }

  /** A dependency listed twice is enough to break the record: after removing server 1 the live server 2
      is forgotten, and server 3 can then be removed without complaint although 2 depends on it. */
  lemma RepeatedDependencyForgets() returns (r1: Registry)
    ensures Coherent(TWICE) && Recorded(TWICE)
    ensures RemoveStep(TWICE, 1) == (r1, Ok) && RemoveStep(r1, 3).1 == Ok
    ensures SB in r1.transports && 3 in SB.deps && 2 !in Depend(r1.dependBy, 3)
  {
    TwiceIsFine();
    RemoveUnrecorded(TWICE, 1);
    r1 := RemoveStep(TWICE, 1).0;
    RemoveCoherence(TWICE, 1);
    TwiceDropped();
    assert SB in TWICE.transports by { assert TWICE.transports[1] == SB; }
    RemoveUnrecorded(r1, 3);
  }

  // ----- the default server -----

  predicate DefaultIsReal(r: Registry) { r.default.Some? ==> !r.default.value.fakeIP }

  predicate CreateOrStart(op: Op) { !op.Remove? }

  /** In runs of Create (failing or not) and Start the default server is never a fakeip server. */
  lemma {:induction false} DefaultNeverFakeIP(defaultTag: Tag, ops: seq<Op>)
    requires forall i :: 0 <= i < |ops| ==> CreateOrStart(ops[i]) && PlainFallback(ops[i])
    ensures DefaultIsReal(After(EmptyRegistry(defaultTag), ops))
  {
    if ops != [] {
      DefaultNeverFakeIP(defaultTag, ops[..|ops| - 1]);
    }
  }

  /** The server whose Create or fallback came first. */
  function FirstServer(ops: seq<Op>): Option<Transport> {
    if ops == [] then None
    else
      var before, op := FirstServer(ops[..|ops| - 1]), ops[|ops| - 1];
      if before.Some? then before
      else if op.Create? then op.built
      else if op.Fallback? then Some(op.fallback) else None
  }

  /** Over every error-free run of Create and Start the default is, under a named tag, the server registered with that
      tag, replacements included, and none while there is none; without a named tag, whichever server came first. */
  lemma {:induction false} DefaultOfRun(defaultTag: Tag, ops: seq<Op>)
    requires forall i :: 0 <= i < |ops| ==> CreateOrStart(ops[i]) && KeepsTag(ops[i])
    requires ErrorFree(EmptyRegistry(defaultTag), ops)
    ensures
      var r := After(EmptyRegistry(defaultTag), ops);
      && r.defaultTag == defaultTag
      && (defaultTag != NO_TAG ==> r.default == if defaultTag in r.byTag then Some(r.byTag[defaultTag]) else None)
      && (defaultTag == NO_TAG ==> r.default == FirstServer(ops))
  {
    if ops != [] {
      var before, op := ops[..|ops| - 1], ops[|ops| - 1];
      var r := After(EmptyRegistry(defaultTag), before);
      DefaultOfRun(defaultTag, before);
      if op.Create? {
        ElectFrame(Enlist(r, op.tag, op.built.value), op.tag, op.built.value);
      }
    }
  }

  /** Over such runs at most one fakeip server is ever registered, and it is the one on record. */
  lemma {:induction false} OneFakeIP(defaultTag: Tag, ops: seq<Op>)
    requires forall i :: 0 <= i < |ops| ==> CreateOrStart(ops[i]) && KeepsTag(ops[i]) && PlainFallback(ops[i])
    requires ErrorFree(EmptyRegistry(defaultTag), ops)
    ensures
      var r := After(EmptyRegistry(defaultTag), ops);
      forall t :: t in r.transports && t.fakeIP ==> r.fakeIP == Some(t)
  {
    if ops != [] {
      var before, op := ops[..|ops| - 1], ops[|ops| - 1];
      var r := After(EmptyRegistry(defaultTag), before);
      OneFakeIP(defaultTag, before);
      RunKeepsStep(defaultTag, before);
      if op.Create? {
        EnlistCoherent(r, op.built.value);
        ElectFrame(Enlist(r, op.tag, op.built.value), op.tag, op.built.value);
      }
    }
  }

  /** Create fails before it registers anything. */
  predicate FailsEarly(r: Registry, tag: Tag, built: Option<Transport>, stagesOk: bool, closeOk: bool) {
    tag == NO_TAG || built.None? || (r.started && (!stagesOk || (tag in r.byTag && !closeOk)))
  }

  /** Why it does, and that nothing has changed then; else the server is entered, last in the list. */
  lemma CreateEntersUnless(r: Registry, tag: Tag, built: Option<Transport>, stagesOk: bool, closeOk: bool)
    requires Coherent(r)
    ensures
      var (r', res) := CreateStep(r, tag, built, stagesOk, closeOk);
      && (res == InvalidTag <==> tag == NO_TAG)
      && (res == BuildFailed <==> tag != NO_TAG && built.None?)
      && (res == StageFailed <==> tag != NO_TAG && built.Some? && r.started && !stagesOk)
      && (res == CloseFailed <==> tag != NO_TAG && built.Some? && r.started && stagesOk && tag in r.byTag && !closeOk)
      && (FailsEarly(r, tag, built, stagesOk, closeOk) ==> r' == r)
      && (!FailsEarly(r, tag, built, stagesOk, closeOk) ==>
            && (r', res) == Elect(Enlist(r, tag, built.value), tag, built.value)
            && r'.byTag == r.byTag[tag := built.value]
            && r'.transports != [] && r'.transports[|r'.transports| - 1] == built.value)
  {
    if tag in r.byTag {
      UnlistedCoherent(r, tag);
    }
    if built.Some? {
      ElectFrame(Enlist(r, tag, built.value), tag, built.value);
    }
  }

  /** A server entered becomes the default if its tag is named, or no tag is and there is no default; the two fakeip
      errors come after it was entered. */
  lemma ElectByResult(r: Registry, tag: Tag, t: Transport)
    ensures
      var (r', res) := Elect(r, tag, t);
      var chosen := tag == r.defaultTag || (r.defaultTag == NO_TAG && r.default == None);
      && (res == DefaultIsFakeIP <==> chosen && t.fakeIP)
      && (res == SecondFakeIP <==> !chosen && t.fakeIP && r.fakeIP.Some?)
      && res in {DefaultIsFakeIP, SecondFakeIP, Ok}
      && r'.default == (if chosen && !t.fakeIP then Some(t) else r.default)
      && r'.fakeIP == (if res == Ok && t.fakeIP then Some(t) else r.fakeIP)
  {
  }

  /** Every result of Remove, when it comes, and who is the default afterwards; the other servers keep their order. */
  lemma RemoveByResult(r: Registry, tag: Tag)
    requires Coherent(r)
    ensures
      var (r', res) := RemoveStep(r, tag);
      && (res == NotRegistered <==> tag !in r.byTag)
      && (tag in r.byTag ==>
            var was, rest := r.byTag[tag], r'.transports;
            var users := if tag in r.dependBy then r.dependBy[tag] else [];
            && (exists k :: 0 <= k < |r.transports| && r.transports[k] == was && rest == r.transports[..k] + r.transports[k + 1..])
            && (res == DefaultNotFakeIP <==> r.default == Some(was) && rest != [] && !rest[0].fakeIP)
            && (res.StillNeeded? <==> res != DefaultNotFakeIP && users != []) && (res.StillNeeded? ==> res.users == users)
            && (res == Ok <==> res != DefaultNotFakeIP && users == [])
            && r'.default == (if r.default != Some(was) || res == DefaultNotFakeIP then r.default
                              else if rest == [] then None else Some(rest[0])))
  {
    if tag in r.byTag {
      UnlistedCoherent(r, tag);
      var k := IndexOf(r.transports, r.byTag[tag]);
      assert r.transports[k] == r.byTag[tag];
      ResignFrame(r.(transports := Unlisted(r, tag), byTag := r.byTag - {tag}), r.byTag[tag], tag);
    }
  }

  /** Remove elects a fakeip server as default exactly when it removes the default and a fakeip server
      is then first in the list: the test in the source is the opposite of its message. */
  lemma RemoveElectsFakeIPIff(r: Registry, tag: Tag)
    requires Coherent(r) && DefaultIsReal(r)
    ensures
      DefaultIsReal(RemoveStep(r, tag).0) <==>
      !(tag in r.byTag && r.default == Some(r.byTag[tag]) &&
        Unlisted(r, tag) != [] && Unlisted(r, tag)[0].fakeIP)
  {
    if tag in r.byTag {
      UnlistedCoherent(r, tag);
    }
  }

  const PLAIN := Transport(1, 1, [], false, false)
  const FAKE := Transport(2, 2, [], true, false)
  const NEWER := Transport(3, 1, [], false, false)

  lemma PlainIsMade()
    ensures ErrorFree(EmptyRegistry(NO_TAG), [Made(PLAIN)])
    ensures After(EmptyRegistry(NO_TAG), [Made(PLAIN)]) == Registry(NO_TAG, false, [PLAIN], map[1 := PLAIN], map[], Some(PLAIN), None)
  {
    assert [] + [Made(PLAIN)] == [Made(PLAIN)];
    OneMore(EmptyRegistry(NO_TAG), [], Made(PLAIN));
  }

  /** Two Creates and a Remove are enough to make a fakeip server the default. */
  lemma FakeIPDefaultIsReachable() returns (ops: seq<Op>)
    ensures (forall i :: 0 <= i < |ops| ==> KeepsTag(ops[i]) && ListsOnce(ops[i])) && ErrorFree(EmptyRegistry(NO_TAG), ops)
    ensures After(EmptyRegistry(NO_TAG), ops).default == Some(FAKE)
  {
    var r, ops1 := EmptyRegistry(NO_TAG), [Made(PLAIN)];
    var ops2 := ops1 + [Made(FAKE)];
    ops := ops2 + [Op.Remove(1)];
    PlainIsMade();
    OneMore(r, ops1, Made(FAKE));
    OneMore(r, ops2, Op.Remove(1));
    assert After(r, ops2) == Registry(NO_TAG, false, [PLAIN, FAKE], map[1 := PLAIN, 2 := FAKE], map[], Some(PLAIN), Some(FAKE));
    assert IndexOf([PLAIN, FAKE], PLAIN) == 0;
    assert RemoveAt([PLAIN, FAKE], 0) == [FAKE];
  }

  predicate DefaultIsLive(r: Registry) { r.default.Some? ==> r.default.value in r.transports }

  /** Replacing a server leaves a stale default exactly when it was the default without being named as one. */
  lemma ReplacingTheDefault(r: Registry, tag: Tag, built: Option<Transport>, stagesOk: bool, closeOk: bool)
    requires Coherent(r) && DefaultIsLive(r)
    requires built.Some? && built.value.tag == tag && built.value !in r.transports
    requires CreateStep(r, tag, built, stagesOk, closeOk).1 == Ok
    ensures
      DefaultIsLive(CreateStep(r, tag, built, stagesOk, closeOk).0) <==>
      !(r.default.Some? && r.default.value.tag == tag && r.defaultTag != tag)
  {
    EnlistCoherent(r, built.value);
    ElectFrame(Enlist(r, tag, built.value), tag, built.value);
  }

  /** Creating the same tag twice is enough to leave a default that is no longer registered. */
  lemma StaleDefaultIsReachable() returns (ops: seq<Op>)
    ensures (forall i :: 0 <= i < |ops| ==> KeepsTag(ops[i]) && ListsOnce(ops[i])) && ErrorFree(EmptyRegistry(NO_TAG), ops)
    ensures !DefaultIsLive(After(EmptyRegistry(NO_TAG), ops))
  {
    var r, ops1 := EmptyRegistry(NO_TAG), [Made(PLAIN)];
    ops := ops1 + [Made(NEWER)];
    PlainIsMade();
    OneMore(r, ops1, Made(NEWER));
    assert IndexOf([PLAIN], PLAIN) == 0 && RemoveAt([PLAIN], 0) == [];
    assert After(r, ops).transports == [NEWER] && After(r, ops).default == Some(PLAIN);
  }
}
