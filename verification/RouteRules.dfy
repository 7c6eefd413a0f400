/**
  The route rule engine: matchRule walks the rules, threading the connection's metadata through
  every rule that matches, until one is terminal; routeConnection and routePacketConnection then
  choose the outbound.  Matching, sniffing and resolving are opaque steps on the metadata.
 */
module RouteRules {
  import opened Wrappers

  type Tag = nat
  const NO_TAG: Tag := 0

  datatype Network = TCP | UDP | ICMP

  /** A destination; it is valid when it has an address or a name. */
  datatype Dest = Dest(addr: Option<nat>, fqdn: Option<nat>, port: nat) {
    predicate Valid() { addr.Some? || fqdn.Some? }
  }

  datatype Meta = Meta(
    inbound: Tag,
    network: Network,
    destination: Dest,
    addresses: seq<nat>,
    original: Dest,
    networkStrategy: Option<nat>,
    networkType: seq<nat>,
    fallbackType: seq<nat>,
    fallbackDelay: int,
    udpUnmapped: bool,
    udpConnect: bool,
    udpTimeout: int,
    tlsFragment: bool,
    tlsFragmentDelay: int,
    tlsRecordFragment: bool,
    rest: nat)

  datatype RouteOpts = RouteOpts(
    overrideAddress: Dest,
    overridePort: nat,
    networkStrategy: Option<nat>,
    networkType: seq<nat>,
    fallbackType: seq<nat>,
    fallbackDelay: int,
    udpUnmapped: bool,
    udpConnect: bool,
    udpTimeout: int,
    tlsFragment: bool,
    tlsFragmentDelay: int,
    tlsRecordFragment: bool)

  datatype RejectMethod = RejectDefault | RejectDrop | RejectReply

  datatype Action =
    | Route(outbound: Tag, opts: RouteOpts)
    | RouteOptions(opts: RouteOpts)
    | Bypass(outbound: Tag)
    | Direct
    | Reject(how: RejectMethod)
    | HijackDNS
    | Sniff(n: nat)
    | ResolveNames(n: nat)

  datatype Rule = Rule(matches: Meta -> bool, action: Action)

  /** The opaque steps, each of which may end the walk with an error. */
  datatype Env = Env(sniff: (nat, Meta) -> (Meta, Option<nat>), resolve: (nat, Meta) -> (Meta, Option<nat>))

  datatype Flags = Flags(preMatch: bool, supportBypass: bool)

  // ----- one rule -----

  function Redirect(m: Meta, o: RouteOpts): Meta {
    var overrides := o.overrideAddress.Valid() || o.overridePort > 0;
    var d1 := if o.overrideAddress.Valid()
              then Dest(o.overrideAddress.addr, o.overrideAddress.fqdn, m.destination.port) else m.destination;
    m.(original := if overrides && !m.original.Valid() then m.destination else m.original,
       destination := if o.overridePort > 0 then d1.(port := o.overridePort) else d1,
       addresses := if o.overrideAddress.Valid() then [] else m.addresses)
  }

  function SetNetwork(m: Meta, o: RouteOpts): Meta {
    m.(networkStrategy := if o.networkStrategy.Some? then o.networkStrategy else m.networkStrategy,
       networkType := if o.networkType != [] then o.networkType else m.networkType,
       fallbackType := if o.fallbackType != [] then o.fallbackType else m.fallbackType,
       fallbackDelay := if o.fallbackDelay != 0 then o.fallbackDelay else m.fallbackDelay)
  }

  function SetTransport(m: Meta, o: RouteOpts): Meta {
    m.(udpUnmapped := m.udpUnmapped || o.udpUnmapped,
       udpConnect := m.udpConnect || o.udpConnect,
       udpTimeout := if o.udpTimeout > 0 then o.udpTimeout else m.udpTimeout,
       tlsFragment := m.tlsFragment || o.tlsFragment,
       tlsFragmentDelay := if o.tlsFragment then o.tlsFragmentDelay else m.tlsFragmentDelay,
       tlsRecordFragment := m.tlsRecordFragment || o.tlsRecordFragment)
  }

  function Override(m: Meta, o: RouteOpts): Meta { SetTransport(SetNetwork(Redirect(m, o), o), o) }

  predicate Overrides(o: RouteOpts) { o.overrideAddress.Valid() || o.overridePort > 0 }

  const NO_DEST := Dest(None, None, 0)

  /** The options of two rules in one: the later ones where they say something, else the earlier. */
  function Then(a: RouteOpts, b: RouteOpts): RouteOpts {
    RouteOpts(
      if b.overrideAddress.Valid() then b.overrideAddress else a.overrideAddress,
      if b.overridePort > 0 then b.overridePort else a.overridePort,
      if b.networkStrategy.Some? then b.networkStrategy else a.networkStrategy,
      if b.networkType != [] then b.networkType else a.networkType,
      if b.fallbackType != [] then b.fallbackType else a.fallbackType,
      if b.fallbackDelay != 0 then b.fallbackDelay else a.fallbackDelay,
      a.udpUnmapped || b.udpUnmapped,
      a.udpConnect || b.udpConnect,
      if b.udpTimeout > 0 then b.udpTimeout else a.udpTimeout,
      a.tlsFragment || b.tlsFragment,
      if b.tlsFragment then b.tlsFragmentDelay else a.tlsFragmentDelay,
      a.tlsRecordFragment || b.tlsRecordFragment)
  }

  lemma DestinationsCompose(m: Meta, a: RouteOpts, b: RouteOpts)
    ensures
      var twice, once := Override(Override(m, a), b), Override(m, Then(a, b));
      && twice.destination == once.destination && twice.addresses == once.addresses
      && twice.inbound == once.inbound && twice.network == once.network && twice.rest == once.rest
      && (twice.original == once.original <==>
            m.original.Valid() || m.destination.Valid() || !Overrides(a) || !Overrides(b) ||
            Redirect(m, a).destination == m.destination)
  {
  }

  lemma NetworksCompose(m: Meta, a: RouteOpts, b: RouteOpts)
    ensures
      var twice, once := Override(Override(m, a), b), Override(m, Then(a, b));
      && twice.networkStrategy == once.networkStrategy && twice.networkType == once.networkType
      && twice.fallbackType == once.fallbackType && twice.fallbackDelay == once.fallbackDelay
  {
  }

  lemma TransportsCompose(m: Meta, a: RouteOpts, b: RouteOpts)
    ensures
      var twice, once := Override(Override(m, a), b), Override(m, Then(a, b));
      && twice.udpUnmapped == once.udpUnmapped && twice.udpConnect == once.udpConnect && twice.udpTimeout == once.udpTimeout
      && twice.tlsFragment == once.tlsFragment && twice.tlsFragmentDelay == once.tlsFragmentDelay
      && twice.tlsRecordFragment == once.tlsRecordFragment
  {
  }

  /** The options of two matching rules act like one rule's, except that an original destination that was not
      known is taken from between the two when the connection came without any destination. */
  lemma OptionsComposeIff(m: Meta, a: RouteOpts, b: RouteOpts)
    ensures Override(Override(m, a), b).(original := NO_DEST) == Override(m, Then(a, b)).(original := NO_DEST)
    ensures Override(Override(m, a), b) == Override(m, Then(a, b)) <==>
      m.original.Valid() || m.destination.Valid() || !Overrides(a) || !Overrides(b) ||
      Redirect(m, a).destination == m.destination
  {
    DestinationsCompose(m, a, b);
    NetworksCompose(m, a, b);
    TransportsCompose(m, a, b);
    var twice, once := Override(Override(m, a), b), Override(m, Then(a, b));
    assert twice.(original := NO_DEST) == once.(original := NO_DEST);
    assert twice == once <==> twice.original == once.original;
  }

  /** What options do to the metadata: an address override replaces host and addresses but not the port, a port override
      the port; the first override of a connection remembers where it went; everything else named replaces what was
      there, flags are only ever raised, and nothing unnamed changes. */
  lemma OptionsReplaceWhatTheyName(m: Meta, o: RouteOpts)
    ensures
      var r := Override(m, o);
      && (if o.overrideAddress.Valid()
          then r.destination.addr == o.overrideAddress.addr && r.destination.fqdn == o.overrideAddress.fqdn && r.addresses == []
          else r.destination.addr == m.destination.addr && r.destination.fqdn == m.destination.fqdn && r.addresses == m.addresses)
      && (r.destination.port == if o.overridePort > 0 then o.overridePort else m.destination.port)
      && (r.original == if Overrides(o) && !m.original.Valid() then m.destination else m.original)
      && r.inbound == m.inbound && r.network == m.network && r.rest == m.rest
    ensures
      var r := Override(m, o);
      && (o.networkStrategy.Some? ==> r.networkStrategy == o.networkStrategy) && (o.networkStrategy.None? ==> r.networkStrategy == m.networkStrategy)
      && (o.networkType != [] ==> r.networkType == o.networkType) && (o.networkType == [] ==> r.networkType == m.networkType)
      && (o.fallbackType != [] ==> r.fallbackType == o.fallbackType) && (o.fallbackType == [] ==> r.fallbackType == m.fallbackType)
      && (o.fallbackDelay != 0 ==> r.fallbackDelay == o.fallbackDelay) && (o.fallbackDelay == 0 ==> r.fallbackDelay == m.fallbackDelay)
    ensures
      var r := Override(m, o);
      && (r.udpUnmapped <==> m.udpUnmapped || o.udpUnmapped) && (r.udpConnect <==> m.udpConnect || o.udpConnect)
      && (r.tlsFragment <==> m.tlsFragment || o.tlsFragment) && (r.tlsRecordFragment <==> m.tlsRecordFragment || o.tlsRecordFragment)
      && (o.udpTimeout > 0 ==> r.udpTimeout == o.udpTimeout) && (o.udpTimeout <= 0 ==> r.udpTimeout == m.udpTimeout)
      && (r.tlsFragmentDelay == if o.tlsFragment then o.tlsFragmentDelay else m.tlsFragmentDelay)
  {
  }

  /** What a matched rule does to the metadata before the walk decides whether to stop. */
  function Effect(env: Env, f: Flags, a: Action, m: Meta): (Meta, Option<nat>) {
    match a
    case Route(_, o) => (Override(m, o), None)
    case RouteOptions(o) => (Override(m, o), None)
    case Sniff(n) => if f.preMatch then (m, None) else env.sniff(n, m)
    case ResolveNames(n) => env.resolve(n, m)
    case _ => (m, None)
  }

  /** Whether the walk stops at a matched rule; bypass rules that name no outbound are skipped when
      the caller cannot bypass, and "direct" rules never stop it. */
  predicate Terminal(f: Flags, a: Action, network: Network) {
    match a
    case Route(_, _) => true
    case Reject(_) => true
    case HijackDNS => true
    case Bypass(outbound) => f.supportBypass || outbound != NO_TAG
    case Sniff(_) => f.preMatch && network != ICMP
    case _ => false
  }

  // ----- the walk -----

  datatype Walked = Walked(index: Option<nat>, meta: Meta, error: Option<nat>)

  function Walk(env: Env, f: Flags, rules: seq<Rule>, i: nat, m: Meta): Walked
    decreases |rules| - i
  {
    if i >= |rules| then Walked(None, m, None)
    else if !rules[i].matches(m) then Walk(env, f, rules, i + 1, m)
    else
      var (m', error) := Effect(env, f, rules[i].action, m);
      if error.Some? then Walked(None, m', error)
      else if Terminal(f, rules[i].action, m'.network) then Walked(Some(i), m', None)
      else Walk(env, f, rules, i + 1, m')
  }

  /** The metadata as rule k sees it, when no step before failed. */
  function Threaded(env: Env, f: Flags, rules: seq<Rule>, i: nat, k: nat, m: Meta): Meta
    requires k <= |rules|
    decreases k - i
  {
    if i >= k then m
    else if rules[i].matches(m) then Threaded(env, f, rules, i + 1, k, Effect(env, f, rules[i].action, m).0)
    else Threaded(env, f, rules, i + 1, k, m)
  }

  predicate Fails(env: Env, f: Flags, r: Rule, m: Meta) {
    r.matches(m) && Effect(env, f, r.action, m).1.Some?
  }

  predicate StopsAt(env: Env, f: Flags, r: Rule, m: Meta) {
    r.matches(m) && Effect(env, f, r.action, m).1.None? && Terminal(f, r.action, Effect(env, f, r.action, m).0.network)
  }

  /** The selected rule is the first terminal one to match the metadata as threaded through the rules before
      it; an error is that of the first failing step; otherwise no rule stops and every effect is applied. */
  lemma {:induction false} WalkFindsTheFirst(env: Env, f: Flags, rules: seq<Rule>, i: nat, m: Meta)
    requires i <= |rules|
    ensures
      var w := Walk(env, f, rules, i, m);
      if w.index.Some? then
        && w.error == None && i <= w.index.value < |rules|
        && StopsAt(env, f, rules[w.index.value], Threaded(env, f, rules, i, w.index.value, m))
        && w.meta == Effect(env, f, rules[w.index.value].action, Threaded(env, f, rules, i, w.index.value, m)).0
        && forall k :: i <= k < w.index.value ==>
             !StopsAt(env, f, rules[k], Threaded(env, f, rules, i, k, m)) && !Fails(env, f, rules[k], Threaded(env, f, rules, i, k, m))
      else if w.error.None? then
        && w.meta == Threaded(env, f, rules, i, |rules|, m)
        && forall k :: i <= k < |rules| ==>
             !StopsAt(env, f, rules[k], Threaded(env, f, rules, i, k, m)) && !Fails(env, f, rules[k], Threaded(env, f, rules, i, k, m))
      else
        exists k :: i <= k < |rules| && Fails(env, f, rules[k], Threaded(env, f, rules, i, k, m)) &&
          forall j :: i <= j < k ==>
            !StopsAt(env, f, rules[j], Threaded(env, f, rules, i, j, m)) && !Fails(env, f, rules[j], Threaded(env, f, rules, i, j, m))
    decreases |rules| - i
  {
    if i < |rules| {
      var next := if rules[i].matches(m) then Effect(env, f, rules[i].action, m).0 else m;
      assert Threaded(env, f, rules, i, i, m) == m;
      assert forall k :: i < k <= |rules| ==>
        Threaded(env, f, rules, i, k, m) == Threaded(env, f, rules, i + 1, k, next);
      if Fails(env, f, rules[i], m) {
        assert Fails(env, f, rules[i], Threaded(env, f, rules, i, i, m));
      } else if !StopsAt(env, f, rules[i], m) {
        WalkFindsTheFirst(env, f, rules, i + 1, next);
      }
    }
  }

  /** A rule the walk passes although it matches is one of those that only change the metadata, a "direct" rule, a
      sniff of a ping before the connection exists, or a bypass without outbound that the caller cannot follow. */
  predicate LetsPass(f: Flags, a: Action, network: Network) {
    || a.RouteOptions? || a.ResolveNames? || a.Direct?
    || (a.Sniff? && (!f.preMatch || network == ICMP))
    || (a == Bypass(NO_TAG) && !f.supportBypass)
  }

  /** The rule selected is the first matching one that does not let pass, and no step before it failed; what it selects
      sees every change made on the way, its own included. */
  lemma SelectedIsFirstToHold(env: Env, f: Flags, rules: seq<Rule>, m: Meta)
    ensures
      var w := Walk(env, f, rules, 0, m);
      && (w.index.Some? ==>
            && w.index.value < |rules| && w.error.None?
            && rules[w.index.value].matches(Threaded(env, f, rules, 0, w.index.value, m))
            && !LetsPass(f, rules[w.index.value].action, w.meta.network))
      && (w.error.None? ==>
            forall k :: 0 <= k < (if w.index.Some? then w.index.value else |rules|) ==>
              !rules[k].matches(Threaded(env, f, rules, 0, k, m)) ||
              LetsPass(f, rules[k].action, Effect(env, f, rules[k].action, Threaded(env, f, rules, 0, k, m)).0.network))
  {
    WalkFindsTheFirst(env, f, rules, 0, m);
    var w := Walk(env, f, rules, 0, m);
    if w.error.None? {
      forall k | 0 <= k < (if w.index.Some? then w.index.value else |rules|)
        ensures !rules[k].matches(Threaded(env, f, rules, 0, k, m)) ||
          LetsPass(f, rules[k].action, Effect(env, f, rules[k].action, Threaded(env, f, rules, 0, k, m)).0.network)
      {
        var seen := Threaded(env, f, rules, 0, k, m);
        assert !StopsAt(env, f, rules[k], seen) && !Fails(env, f, rules[k], seen);
      }
    }
  }

  /** What each kind of rule does to the metadata. */
  lemma EffectsByKind(env: Env, f: Flags, a: Action, m: Meta)
    ensures a.Sniff? && !f.preMatch ==> Effect(env, f, a, m) == env.sniff(a.n, m)
    ensures a.ResolveNames? ==> Effect(env, f, a, m) == env.resolve(a.n, m)
    ensures a.Route? || a.RouteOptions? ==> Effect(env, f, a, m) == (Override(m, a.opts), None)
    ensures a.Bypass? || a.Direct? || a.Reject? || a.HijackDNS? || (a.Sniff? && f.preMatch) ==> Effect(env, f, a, m) == (m, None)
  {
  }

  // ----- choosing the outbound -----

  datatype Outbound = Outbound(tag: Tag, networks: set<Network>)

  datatype Outbounds = Outbounds(byTag: map<Tag, Outbound>, default: Outbound)

  datatype Routed =
    | Dispatch(outbound: Option<Outbound>, index: Option<nat>, meta: Meta)
    | MatchFailed(error: nat)
    | NotFound(tag: Tag)
    | Unsupported(tag: Tag)
    | ReplyUnsupported
    | Rejected(how: RejectMethod)
    | Hijacked(meta: Meta)

  function ToOutbound(outs: Outbounds, tag: Tag, network: Network, index: Option<nat>, m: Meta): Routed {
    if tag !in outs.byTag then NotFound(tag)
    else if network !in outs.byTag[tag].networks then Unsupported(outs.byTag[tag].tag)
    else Dispatch(Some(outs.byTag[tag]), index, m)
  }

  /** What the consumer does with a finished walk.  The nil outbound of an empty bypass, or of a rule
      kind it does not know, goes on to dispatch. */
  function Choose(outs: Outbounds, rules: seq<Rule>, w: Walked, network: Network): Routed
    requires w.index.Some? ==> w.index.value < |rules|
  {
    if w.error.Some? then MatchFailed(w.error.value)
    else if w.index.None? then
      if network !in outs.default.networks then Unsupported(outs.default.tag) else Dispatch(Some(outs.default), None, w.meta)
    else
      match rules[w.index.value].action
      case Route(tag, _) => ToOutbound(outs, tag, network, w.index, w.meta)
      case Bypass(tag) =>
        if tag == NO_TAG then Dispatch(None, w.index, w.meta) else ToOutbound(outs, tag, network, w.index, w.meta)
      case Reject(how) => if how == RejectReply then ReplyUnsupported else Rejected(how)
      case HijackDNS => Hijacked(w.meta)
      case _ => Dispatch(None, w.index, w.meta)
  }

  lemma {:induction false} WalkBounds(env: Env, f: Flags, rules: seq<Rule>, i: nat, m: Meta)
    ensures
      var w := Walk(env, f, rules, i, m);
      w.index.Some? ==>
        && i <= w.index.value < |rules| && w.error == None
        && Terminal(f, rules[w.index.value].action, w.meta.network)
    decreases |rules| - i
  {
    if i < |rules| {
      WalkBounds(env, f, rules, i + 1, if rules[i].matches(m) then Effect(env, f, rules[i].action, m).0 else m);
    }
  }

  /** Outside pre-matching a connection reaches dispatch without an outbound exactly when the caller supports
      bypassing and the walk selects a bypass rule that names none. */
  lemma DispatchIsNilIff(env: Env, f: Flags, outs: Outbounds, rules: seq<Rule>, m: Meta, network: Network)
    requires !f.preMatch
    ensures
      var w := Walk(env, f, rules, 0, m);
      && (w.index.Some? ==> w.index.value < |rules|)
      && var r := Choose(outs, rules, w, network);
         && (r.Dispatch? && r.outbound == None <==>
               f.supportBypass && w.index.Some? && rules[w.index.value].action == Bypass(NO_TAG))
         && (r.Dispatch? && r.outbound.Some? ==> network in r.outbound.value.networks)
  {
    WalkBounds(env, f, rules, 0, m);
  }

  /** The outbound a rule names, if it names one. */
  predicate NamesOutbound(a: Action, tag: Tag) { (a.Route? && a.outbound == tag) || (a.Bypass? && a.outbound == tag && tag != NO_TAG) }

  /** A connection sent to a named outbound gets there if it is registered and supports the network, and is refused with
      the matching error otherwise. */
  ghost predicate GoesTo(outs: Outbounds, tag: Tag, network: Network, index: Option<nat>, m: Meta, r: Routed) {
    && (tag !in outs.byTag ==> r == NotFound(tag))
    && (tag in outs.byTag && network !in outs.byTag[tag].networks ==> r == Unsupported(outs.byTag[tag].tag))
    && (tag in outs.byTag && network in outs.byTag[tag].networks ==> r == Dispatch(Some(outs.byTag[tag]), index, m))
  }

  /** Where a connection goes after the walk: to the outbound its rule names, without a rule to the default; refused or
      handed to DNS exactly by rules that say so; failed exactly when the walk did. */
  ghost predicate FollowsTheRule(outs: Outbounds, rules: seq<Rule>, w: Walked, network: Network, r: Routed)
    requires w.index.Some? ==> w.index.value < |rules|
  {
    && (w.error.Some? <==> r.MatchFailed?) && (r.MatchFailed? ==> w.error == Some(r.error))
    && (w.error.None? ==>
          if w.index.None? then
            && (network in outs.default.networks ==> r == Dispatch(Some(outs.default), None, w.meta))
            && (network !in outs.default.networks ==> r == Unsupported(outs.default.tag))
          else
            var a := rules[w.index.value].action;
            && (forall tag :: NamesOutbound(a, tag) ==> GoesTo(outs, tag, network, w.index, w.meta, r))
            && (r.Rejected? <==> a.Reject? && a.how != RejectReply) && (r.Rejected? ==> a == Reject(r.how))
            && (r == ReplyUnsupported <==> a == Reject(RejectReply))
            && (r.Hijacked? <==> a.HijackDNS?) && (r.Hijacked? ==> r.meta == w.meta))
  }

  lemma ConnectionFollowsItsRule(outs: Outbounds, rules: seq<Rule>, w: Walked, network: Network)
    requires w.index.Some? ==> w.index.value < |rules|
    ensures FollowsTheRule(outs, rules, w, network, Choose(outs, rules, w, network))
  {
  }

  // ----- the program's own form -----

  class Router {
    const env: Env
    const rules: seq<Rule>
    const outs: Outbounds
    var bindings: map<Tag, Tag>

    constructor (env: Env, rules: seq<Rule>, outs: Outbounds)
      ensures this.env == env && this.rules == rules && this.outs == outs && bindings == map[]
    {
      this.env, this.rules, this.outs, bindings := env, rules, outs, map[];
    }

    method ApplyRedirect(m0: Meta, o: RouteOpts) returns (m: Meta)
      ensures m == Redirect(m0, o)
    {
      m := m0;
      if (o.overrideAddress.Valid() || o.overridePort > 0) && !m.original.Valid() {
        m := m.(original := m.destination);
      }
      if o.overrideAddress.Valid() {
        m := m.(destination := Dest(o.overrideAddress.addr, o.overrideAddress.fqdn, m.destination.port));
        m := m.(addresses := []);
      }
      if o.overridePort > 0 {
        m := m.(destination := Dest(m.destination.addr, m.destination.fqdn, o.overridePort));
      }
    }

    method ApplyNetwork(m0: Meta, o: RouteOpts) returns (m: Meta)
      ensures m == SetNetwork(m0, o)
    {
      m := m0;
      if o.networkStrategy.Some? {
        m := m.(networkStrategy := o.networkStrategy);
      }
      if |o.networkType| > 0 {
        m := m.(networkType := o.networkType);
      }
      if |o.fallbackType| > 0 {
        m := m.(fallbackType := o.fallbackType);
      }
      if o.fallbackDelay != 0 {
        m := m.(fallbackDelay := o.fallbackDelay);
      }
    }

    method ApplyTransport(m0: Meta, o: RouteOpts) returns (m: Meta)
      ensures m == SetTransport(m0, o)
    {
      m := m0;
      if o.udpUnmapped {
        m := m.(udpUnmapped := true);
      }
      if o.udpConnect {
        m := m.(udpConnect := true);
      }
      if o.udpTimeout > 0 {
        m := m.(udpTimeout := o.udpTimeout);
      }
      if o.tlsFragment {
        m := m.(tlsFragment := true, tlsFragmentDelay := o.tlsFragmentDelay);
      }
      if o.tlsRecordFragment {
        m := m.(tlsRecordFragment := true);
      }
    }

    method ApplyRouteOptions(m0: Meta, o: RouteOpts) returns (m: Meta)
      ensures m == Override(m0, o)
    {
      m := ApplyRedirect(m0, o);
      m := ApplyNetwork(m, o);
      m := ApplyTransport(m, o);
    }

    method MatchRule(m0: Meta, f: Flags) returns (w: Walked)
      ensures w == Walk(env, f, rules, 0, m0)
    {
      var m := m0;
      var i := 0;
      while i < |rules|
        invariant 0 <= i <= |rules|
        invariant Walk(env, f, rules, i, m) == Walk(env, f, rules, 0, m0)
      {
        var rule := rules[i];
        if !rule.matches(m) {
          i := i + 1;
          continue;
        }
        match rule.action {
          case Route(_, o) => m := ApplyRouteOptions(m, o);
          case RouteOptions(o) => m := ApplyRouteOptions(m, o);
          case Sniff(n) =>
            if !f.preMatch {
              var (m', error) := env.sniff(n, m);
              m := m';
              if error.Some? {
                return Walked(None, m, error);
              }
            } else if m.network != ICMP {
              return Walked(Some(i), m, None);
            }
          case ResolveNames(n) =>
            var (m', error) := env.resolve(n, m);
            m := m';
            if error.Some? {
              return Walked(None, m, error);
            }
          case _ =>
        }
        if rule.action.Route? || rule.action.Reject? || rule.action.HijackDNS? {
          return Walked(Some(i), m, None);
        }
        if rule.action.Bypass? && (f.supportBypass || rule.action.outbound != NO_TAG) {
          return Walked(Some(i), m, None);
        }
        i := i + 1;
      }
      return Walked(None, m, None);
    }

    method UseOutbound(tag: Tag, network: Network, index: Option<nat>, m: Meta) returns (r: Routed)
      ensures r == ToOutbound(outs, tag, network, index, m) && GoesTo(outs, tag, network, index, m, r)
    {
      if tag !in outs.byTag {
        return NotFound(tag);
      }
      if network !in outs.byTag[tag].networks {
        return Unsupported(outs.byTag[tag].tag);
      }
      return Dispatch(Some(outs.byTag[tag]), index, m);
    }

    /** routeConnection and routePacketConnection: an inbound bound to an outbound skips the rules. */
    method RouteConnection(m0: Meta, network: Network) returns (r: Routed)
      ensures m0.inbound in bindings ==>
        r == ToOutbound(outs, bindings[m0.inbound], network, None, m0.(network := network))
      ensures m0.inbound !in bindings ==>
        var w := Walk(env, Flags(false, false), rules, 0, m0.(network := network));
        (w.index.Some? ==> w.index.value < |rules|) && r == Choose(outs, rules, w, network)
      ensures m0.inbound in bindings ==> GoesTo(outs, bindings[m0.inbound], network, None, m0.(network := network), r)
      ensures m0.inbound !in bindings ==>
        var w := Walk(env, Flags(false, false), rules, 0, m0.(network := network));
        (w.index.Some? ==> w.index.value < |rules|) && FollowsTheRule(outs, rules, w, network, r)
      ensures r.Dispatch? ==> r.outbound.Some? && network in r.outbound.value.networks
    {
      var m := m0.(network := network);
      if m.inbound in bindings {
        r := UseOutbound(bindings[m.inbound], network, None, m);
        return;
      }
      DispatchIsNilIff(env, Flags(false, false), outs, rules, m, network);
      var w := MatchRule(m, Flags(false, false));
      if w.error.Some? {
        return MatchFailed(w.error.value);
      }
      if w.index.Some? {
        var i := w.index.value;
        match rules[i].action {
          case Route(tag, _) =>
            r := UseOutbound(tag, network, w.index, w.meta);
            return;
          case Bypass(tag) =>
            if tag != NO_TAG {
              r := UseOutbound(tag, network, w.index, w.meta);
              return;
            }
          case Reject(how) =>
            if how == RejectReply {
              return ReplyUnsupported;
            }
            return Rejected(how);
          case HijackDNS =>
            return Hijacked(w.meta);
          case _ =>
        }
        return Dispatch(None, w.index, w.meta);
      }
      if network !in outs.default.networks {
        return Unsupported(outs.default.tag);
      }
      return Dispatch(Some(outs.default), None, w.meta);
    }
  }

  // ----- more about the walk -----

  /** A rule with the "direct" action is inert wherever it stands: without it the same rule is selected
      with the same metadata. */
  lemma {:induction false} DirectRulesAreInert(env: Env, f: Flags, before: seq<Rule>, direct: Rule, after: seq<Rule>, m: Meta)
    requires direct.action == Direct
    ensures
      var w := Walk(env, f, before + [direct] + after, 0, m);
      var v := Walk(env, f, before + after, 0, m);
      && w.meta == v.meta && w.error == v.error
      && (w.index.None? <==> v.index.None?)
      && (v.index.Some? ==> w.index.value == if v.index.value < |before| then v.index.value else v.index.value + 1)
    decreases |before|
  {
    var longer, shorter := before + [direct] + after, before + after;
    if before == [] {
      assert longer[1..] == shorter[0..];
      WalkShift(env, f, longer, 1, shorter, 0, m);
    } else {
      var (head, tail) := (before[0], before[1..]);
      var next := if head.matches(m) then Effect(env, f, head.action, m).0 else m;
      assert longer[1..] == (tail + [direct] + after)[0..];
      assert shorter[1..] == (tail + after)[0..];
      WalkShift(env, f, longer, 1, tail + [direct] + after, 0, next);
      WalkShift(env, f, shorter, 1, tail + after, 0, next);
      WalkBounds(env, f, tail + after, 0, next);
      DirectRulesAreInert(env, f, tail, direct, after, next);
    }
  }

  lemma {:induction false} WalkShift(env: Env, f: Flags, a: seq<Rule>, i: nat, b: seq<Rule>, j: nat, m: Meta)
    requires i <= |a| && j <= |b| && a[i..] == b[j..]
    ensures
      var w, v := Walk(env, f, a, i, m), Walk(env, f, b, j, m);
      && w.meta == v.meta && w.error == v.error
      && (w.index.None? <==> v.index.None?)
      && (w.index.Some? ==> w.index.value >= i && v.index.value == w.index.value - i + j)
    decreases |a| - i
  {
    if i < |a| {
      assert a[i] == a[i..][0] && b[j] == b[j..][0];
      assert a[i..][1..] == a[i + 1..] && b[j..][1..] == b[j + 1..];
      WalkShift(env, f, a, i + 1, b, j + 1, if a[i].matches(m) then Effect(env, f, a[i].action, m).0 else m);
    } else {
      assert |a[i..]| == 0 && |b[j..]| == 0;
    }
  }

  /** The original destination, once known, survives every override after it. */
  lemma {:induction false} OriginalDestinationSticks(env: Env, f: Flags, rules: seq<Rule>, i: nat, m: Meta)
    requires forall n, x :: env.sniff(n, x).0.original == x.original && env.resolve(n, x).0.original == x.original
    requires m.original.Valid()
    ensures Walk(env, f, rules, i, m).meta.original == m.original
    decreases |rules| - i
  {
    if i < |rules| {
      OriginalDestinationSticks(env, f, rules, i + 1, if rules[i].matches(m) then Effect(env, f, rules[i].action, m).0 else m);
    }
  }
}
