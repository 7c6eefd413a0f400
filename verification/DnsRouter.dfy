/**
  The DNS rule engine: matchDNS walks the rules from a given index, and the retry loops of
  Exchange and Lookup come back to it when an address-limited rule's answer is rejected.
 */
module DnsRouter {
  import opened Wrappers
  import opened TransportStart

  type Addr = nat
  type Subnet = nat

  datatype Strategy = AsIs | PreferIPv4 | PreferIPv6 | IPv4Only | IPv6Only

  /** What a query carries to the client; a subnet is None when it is not valid. */
  datatype Options = Options(strategy: Strategy, disableCache: bool, rewriteTTL: Option<nat>, subnet: Option<Subnet>)

  datatype RejectMethod = RejectDefault | RejectDrop | RejectReply

  datatype Action =
    | Route(server: Tag, options: Options)
    | RouteOptions(options: Options)
    | Reject(how: RejectMethod)
    | Predefined(rcode: nat, addrs: seq<Addr>)

  /** Query metadata; matching may look at anything, including addresses seen in a rejected answer. */
  datatype Meta = Meta(domain: nat, queryType: nat, addresses: seq<Addr>)

  datatype Rule = Rule(matches: Meta -> bool, addressLimit: bool, accepts: Meta -> bool, action: Action)

  /** Legacy options a server may bring along. */
  datatype Legacy = Legacy(strategy: Strategy, subnet: Option<Subnet>)

  datatype Config = Config(
    rules: seq<Rule>,
    byTag: map<Tag, Transport>,
    legacy: map<Tag, Legacy>,
    default: Option<Transport>,
    defaultStrategy: Strategy)

  // ----- options -----

  /** Options named by an action override the ones gathered so far. */
  function Override(o: Options, a: Options): Options {
    Options(
      if a.strategy != AsIs then a.strategy else o.strategy,
      o.disableCache || a.disableCache,
      if a.rewriteTTL.Some? then a.rewriteTTL else o.rewriteTTL,
      if a.subnet.Some? then a.subnet else o.subnet)
  }

  function AddLegacy(cfg: Config, o: Options, tag: Tag): Options {
    if tag in cfg.legacy then
      o.(strategy := if o.strategy == AsIs then cfg.legacy[tag].strategy else o.strategy,
         subnet := if o.subnet.None? then cfg.legacy[tag].subnet else o.subnet)
    else o
  }

  function RouteTo(cfg: Config, o: Options, t: Transport, a: Options): Options {
    var o1 := Override(o, a);
    AddLegacy(cfg, o1.(disableCache := o1.disableCache || t.fakeIP), t.tag)
  }

  datatype Field = StrategyField | CacheField | TTLField | SubnetField

  /** Does a set of options say anything about this field? */
  predicate Names(a: Options, f: Field) {
    match f
    case StrategyField => a.strategy != AsIs
    case CacheField => a.disableCache
    case TTLField => a.rewriteTTL.Some?
    case SubnetField => a.subnet.Some?
  }

  predicate SameIn(f: Field, a: Options, b: Options) {
    match f
    case StrategyField => a.strategy == b.strategy
    case CacheField => a.disableCache == b.disableCache
    case TTLField => a.rewriteTTL == b.rewriteTTL
    case SubnetField => a.subnet == b.subnet
  }

  const PLAIN := Options(AsIs, false, None, None)

  lemma DifferInAField(a: Options, b: Options) returns (f: Field)
    requires a != b
    ensures !SameIn(f, a, b)
  {
    f := if a.strategy != b.strategy then StrategyField else if a.disableCache != b.disableCache then CacheField
         else if a.rewriteTTL != b.rewriteTTL then TTLField else SubnetField;
  }

  /** A named option wins and an unnamed one is kept, so a disabled cache stays disabled; options applied one
      after the other act like their combination, and twice like once. */
  lemma OverrideLaws(o: Options, a: Options, b: Options)
    ensures forall f :: SameIn(f, Override(o, a), if Names(a, f) then a else o)
    ensures o.disableCache ==> Override(o, a).disableCache
    ensures Override(Override(o, a), b) == Override(o, Override(a, b))
    ensures Override(o, a) == o <==> forall f :: Names(a, f) ==> SameIn(f, a, o)
  {
    forall f ensures SameIn(f, Override(o, a), if Names(a, f) then a else o) {
      match f { case _ => }
    }
    if Override(o, a) == o {
      assert forall f :: Names(a, f) ==> SameIn(f, Override(o, a), a);
    } else {
      var f := DifferInAField(Override(o, a), o);
      assert Names(a, f) && !SameIn(f, a, o);
    }
  }

  /** A server's legacy options only fill gaps: they act as options that everything named overrides. */
  lemma LegacyFillsGaps(cfg: Config, o: Options, tag: Tag)
    ensures forall f :: Names(o, f) ==> SameIn(f, AddLegacy(cfg, o, tag), o)
    ensures tag in cfg.legacy ==>
      AddLegacy(cfg, o, tag) == Override(Options(cfg.legacy[tag].strategy, false, None, cfg.legacy[tag].subnet), o)
    ensures tag !in cfg.legacy ==> AddLegacy(cfg, o, tag) == Override(PLAIN, o)
    ensures AddLegacy(cfg, AddLegacy(cfg, o, tag), tag) == AddLegacy(cfg, o, tag)
  {
    forall f | Names(o, f) ensures SameIn(f, AddLegacy(cfg, o, tag), o) {
      match f { case _ => }
    }
  }

  // ----- matchDNS, as a search -----

  predicate Considered(r: Rule, addressQuery: bool) { r.addressLimit ==> addressQuery }

  predicate Hits(r: Rule, addressQuery: bool, m: Meta) { Considered(r, addressQuery) && r.matches(m) }

  predicate Usable(cfg: Config, tag: Tag, allowFakeIP: bool) {
    tag in cfg.byTag && (cfg.byTag[tag].fakeIP ==> allowFakeIP)
  }

  /** Does the search end at this rule? */
  predicate Stops(cfg: Config, allowFakeIP: bool, addressQuery: bool, m: Meta, r: Rule) {
    Hits(r, addressQuery, m) &&
    match r.action
    case Route(server, _) => Usable(cfg, server, allowFakeIP)
    case RouteOptions(_) => false
    case Reject(_) => true
    case Predefined(_, _) => true
  }

  function Step(addressQuery: bool, m: Meta, o: Options, r: Rule): Options {
    if Hits(r, addressQuery, m) && r.action.RouteOptions? then Override(o, r.action.options) else o
  }

  /** Where a search ended: at a rule, or past the last one. */
  datatype Match = Match(transport: Option<Transport>, index: int, options: Options)

  function EndAt(cfg: Config, o: Options, k: nat): Match
    requires k < |cfg.rules|
  {
    match cfg.rules[k].action
    case Route(server, a) =>
      if server in cfg.byTag then Match(Some(cfg.byTag[server]), k, RouteTo(cfg, o, cfg.byTag[server], a))
      else Match(None, k, o)
    case _ => Match(None, k, o)
  }

  function FindRule(cfg: Config, allowFakeIP: bool, i: nat, addressQuery: bool, m: Meta, o: Options): Match
    decreases |cfg.rules| - i
  {
    if i >= |cfg.rules| then Match(cfg.default, -1, o)
    else if Stops(cfg, allowFakeIP, addressQuery, m, cfg.rules[i]) then EndAt(cfg, o, i)
    else FindRule(cfg, allowFakeIP, i + 1, addressQuery, m, Step(addressQuery, m, o, cfg.rules[i]))
  }

  /** The options after walking over rules[i..j]. */
  function Gather(cfg: Config, addressQuery: bool, m: Meta, o: Options, i: nat, j: nat): Options
    requires j <= |cfg.rules|
    decreases j - i
  {
    if i >= j then o else Gather(cfg, addressQuery, m, Step(addressQuery, m, o, cfg.rules[i]), i + 1, j)
  }

  /** The search finds the first rule at or after "from" at which it may stop, with the options of the
      route-options rules it walked over; without such a rule it is the default server's. */
  lemma {:induction false} FindRuleIsFirst(cfg: Config, allowFakeIP: bool, from: nat, addressQuery: bool, m: Meta, o: Options)
    ensures
      var r := FindRule(cfg, allowFakeIP, from, addressQuery, m, o);
      if r.index == -1 then
        && (forall k :: from <= k < |cfg.rules| ==> !Stops(cfg, allowFakeIP, addressQuery, m, cfg.rules[k]))
        && r == Match(cfg.default, -1, Gather(cfg, addressQuery, m, o, from, |cfg.rules|))
      else
        && from <= r.index < |cfg.rules|
        && Stops(cfg, allowFakeIP, addressQuery, m, cfg.rules[r.index])
        && (forall k :: from <= k < r.index ==> !Stops(cfg, allowFakeIP, addressQuery, m, cfg.rules[k]))
        && r == EndAt(cfg, Gather(cfg, addressQuery, m, o, from, r.index), r.index)
    decreases |cfg.rules| - from
  {
    if from < |cfg.rules| && !Stops(cfg, allowFakeIP, addressQuery, m, cfg.rules[from]) {
      FindRuleIsFirst(cfg, allowFakeIP, from + 1, addressQuery, m, Step(addressQuery, m, o, cfg.rules[from]));
    }
  }

  /** Does a route-options rule that hits name this field at k, or anywhere in rules[i..j]? */
  predicate NamedAt(cfg: Config, addressQuery: bool, m: Meta, k: nat, f: Field) {
    k < |cfg.rules| && Hits(cfg.rules[k], addressQuery, m) && cfg.rules[k].action.RouteOptions? &&
    Names(cfg.rules[k].action.options, f)
  }

  predicate NamedBetween(cfg: Config, addressQuery: bool, m: Meta, i: nat, j: nat, f: Field) {
    exists k: nat :: i <= k < j && NamedAt(cfg, addressQuery, m, k, f)
  }

  lemma StepNames(cfg: Config, addressQuery: bool, m: Meta, o: Options, k: nat, f: Field)
    requires k < |cfg.rules|
    ensures
      SameIn(f, Step(addressQuery, m, o, cfg.rules[k]),
             if NamedAt(cfg, addressQuery, m, k, f) then cfg.rules[k].action.options else o)
  {
    if cfg.rules[k].action.RouteOptions? {
      OverrideLaws(o, cfg.rules[k].action.options, PLAIN);
    }
  }

  /** Each field of the gathered options is that of the last rule to name it, or else the one started from. */
  lemma {:induction false} GatherIsLastNamed(cfg: Config, addressQuery: bool, m: Meta, o: Options, i: nat, j: nat, f: Field)
    requires j <= |cfg.rules|
    ensures !NamedBetween(cfg, addressQuery, m, i, j, f) ==> SameIn(f, Gather(cfg, addressQuery, m, o, i, j), o)
    ensures forall k: nat :: i <= k < j && NamedAt(cfg, addressQuery, m, k, f) && !NamedBetween(cfg, addressQuery, m, k + 1, j, f) ==>
      SameIn(f, Gather(cfg, addressQuery, m, o, i, j), cfg.rules[k].action.options)
    decreases j - i
  {
    if i < j {
      StepNames(cfg, addressQuery, m, o, i, f);
      GatherIsLastNamed(cfg, addressQuery, m, Step(addressQuery, m, o, cfg.rules[i]), i + 1, j, f);
    }
  }

  /** Two searches over the same rules gather the same field exactly when they start alike in it or a rule names it. */
  lemma {:induction false} GatherAgreesIff(cfg: Config, addressQuery: bool, m: Meta, o: Options, p: Options, i: nat, j: nat, f: Field)
    requires j <= |cfg.rules|
    ensures SameIn(f, Gather(cfg, addressQuery, m, o, i, j), Gather(cfg, addressQuery, m, p, i, j)) <==>
      SameIn(f, o, p) || NamedBetween(cfg, addressQuery, m, i, j, f)
    decreases j - i
  {
    if i < j {
      StepNames(cfg, addressQuery, m, o, i, f);
      StepNames(cfg, addressQuery, m, p, i, f);
      var o', p' := Step(addressQuery, m, o, cfg.rules[i]), Step(addressQuery, m, p, cfg.rules[i]);
      GatherAgreesIff(cfg, addressQuery, m, o', p', i + 1, j, f);
    }
  }

  // ----- the client, as the router sees it -----

  datatype Fresh = Broken(error: nat) | Answer(ok: bool, addrs: seq<Addr>)

  datatype Cached = Cached(ok: bool, addrs: seq<Addr>)

  /** What the surroundings hold ready for one client call: the cache, the rejection cache and the server. */
  datatype Upstream = Upstream(cached: Option<Cached>, rejectedBefore: bool, server: Fresh)

  datatype Reply = Served(addrs: seq<Addr>) | ServedCode | Refused | RefusedCached | Failed(error: nat)

  function AnswerOf(ok: bool, addrs: seq<Addr>): Reply { if ok then Served(addrs) else ServedCode }

  /** One call of the client: with the cache disabled neither cache is looked at; the checker runs on a fresh answer
      only, and leaves the addresses it saw behind. */
  function Ask(o: Options, u: Upstream, checker: Option<Rule>, m: Meta): (Reply, Meta) {
    if !o.disableCache && u.cached.Some? then (AnswerOf(u.cached.value.ok, u.cached.value.addrs), m)
    else if !o.disableCache && checker.Some? && u.rejectedBefore then (RefusedCached, m)
    else
      match u.server
      case Broken(e) => (Failed(e), m)
      case Answer(ok, addrs) =>
        if checker.None? then (AnswerOf(ok, addrs), m)
        else if !ok || addrs == [] then (Refused, m)
        else
          var seen := m.(addresses := addrs);
          (if checker.value.accepts(seen) then Served(addrs) else Refused, seen)
  }

  /** One client call that was made. */
  datatype Call = Call(rule: int, transport: Transport, options: Options, reply: Reply)

  datatype Result =
    | Answered(reply: Reply)
    | RefusedResponse
    | DropError
    | RejectedError
    | PredefinedResponse(rcode: nat, addrs: seq<Addr>)
    | NilTransport

  function Finalize(cfg: Config, o: Options): Options {
    if o.strategy == AsIs then o.(strategy := cfg.defaultStrategy) else o
  }

  /** Which replies send the loop back to the rules; for a Lookup every error does, a cached code included. */
  datatype Mode = ForExchange | ForLookup

  predicate Retries(mode: Mode, limited: bool, reply: Reply) {
    limited && (reply.Refused? || reply.RefusedCached? || (mode == ForLookup && (reply.Failed? || reply.ServedCode?)))
  }

  /** Rejecting with "reply" is not handled by Exchange: the loop goes on with a nil server. */
  function Rejection(mode: Mode, how: RejectMethod): Result {
    if mode == ForLookup then RejectedError
    else match how
      case RejectDefault => RefusedResponse
      case RejectDrop => DropError
      case RejectReply => NilTransport
  }

  function CheckerOf(cfg: Config, index: int): Option<Rule>
    requires -1 <= index < |cfg.rules|
  {
    if index != -1 && cfg.rules[index].addressLimit then Some(cfg.rules[index]) else None
  }

  /** One pass ends the loop, or sends it on behind the rule at "index". */
  datatype Pass = Done(result: Result, calls: seq<Call>) | Again(call: Call, meta: Meta, index: nat)

  function OnePass(cfg: Config, mode: Mode, addressQuery: bool, o: Options, m: Meta, from: nat, u: Upstream): (p: Pass)
    ensures p.Again? ==> from <= p.index < |cfg.rules|
  {
    var found := FindRule(cfg, mode.ForExchange?, from, addressQuery, m, o);
    FindRuleIsFirst(cfg, mode.ForExchange?, from, addressQuery, m, o);
    if found.index != -1 && cfg.rules[found.index].action.Reject? then
      Done(Rejection(mode, cfg.rules[found.index].action.how), [])
    else if found.index != -1 && cfg.rules[found.index].action.Predefined? then
      Done(PredefinedResponse(cfg.rules[found.index].action.rcode, cfg.rules[found.index].action.addrs), [])
    else if found.transport.None? then Done(NilTransport, [])
    else
      var checker := CheckerOf(cfg, found.index);
      var (reply, m') := Ask(found.options, u, checker, m);
      var call := Call(found.index, found.transport.value, Finalize(cfg, found.options), reply);
      if Retries(mode, checker.Some?, reply) then Again(call, m', found.index)
      else Done(Answered(reply), [call])
  }

  /** The retry loop as a recursion: search, ask, and on a retry search on behind the rule just tried.
      Every pass starts from the caller's options.  "env" answers the n-th client call. */
  function Resolve(cfg: Config, mode: Mode, addressQuery: bool, o: Options, m: Meta, from: nat, n: nat, env: nat -> Upstream)
    : (r: (Result, seq<Call>))
    decreases |cfg.rules| - from
  {
    match OnePass(cfg, mode, addressQuery, o, m, from, env(n))
    case Done(result, calls) => (result, calls)
    case Again(call, m', index) =>
      var rest := Resolve(cfg, mode, addressQuery, o, m', index + 1, n + 1, env);
      (rest.0, [call] + rest.1)
  }

  // ----- the program's own form -----

  class Router {
    const cfg: Config

    constructor (cfg: Config)
      ensures this.cfg == cfg
    {
      this.cfg := cfg;
    }

    method OverrideOptions(o: Options, a: Options, noCache: bool) returns (r: Options)
      ensures r == Override(o, a).(disableCache := o.disableCache || a.disableCache || noCache)
    {
      r := o;
      if a.strategy != AsIs {
        r := r.(strategy := a.strategy);
      }
      if noCache || a.disableCache {
        r := r.(disableCache := true);
      }
      if a.rewriteTTL.Some? {
        r := r.(rewriteTTL := a.rewriteTTL);
      }
      if a.subnet.Some? {
        r := r.(subnet := a.subnet);
      }
    }

    method LegacyOptions(o: Options, tag: Tag) returns (r: Options)
      ensures r == AddLegacy(cfg, o, tag)
    {
      r := o;
      if tag in cfg.legacy {
        if r.strategy == AsIs {
          r := r.(strategy := cfg.legacy[tag].strategy);
        }
        if r.subnet.None? {
          r := r.(subnet := cfg.legacy[tag].subnet);
        }
      }
    }

    method MatchDNS(allowFakeIP: bool, ruleIndex: int, addressQuery: bool, m: Meta, options: Options) returns (r: Match)
      requires ruleIndex >= -1
      ensures r == FindRule(cfg, allowFakeIP, ruleIndex + 1, addressQuery, m, options)
      ensures r.index == -1 ==> r.transport == cfg.default
      ensures r.index != -1 ==> ruleIndex < r.index < |cfg.rules| && !cfg.rules[r.index].action.RouteOptions?
      ensures r.index != -1 && !cfg.rules[r.index].action.Route? ==> r.transport == None
      ensures r.index != -1 && cfg.rules[r.index].action.Route? ==>
        && r.transport.Some? && AsksOwnServer(cfg, r.index, r.transport.value)
        && (r.transport.value.fakeIP ==> allowFakeIP && r.options.disableCache)
    {
      FindRuleIsFirst(cfg, allowFakeIP, ruleIndex + 1, addressQuery, m, options);
      var current: nat := 0;
      if ruleIndex != -1 {
        current := ruleIndex + 1;
      }
      var o := options;
      while current < |cfg.rules|
        invariant FindRule(cfg, allowFakeIP, current, addressQuery, m, o) ==
                  FindRule(cfg, allowFakeIP, ruleIndex + 1, addressQuery, m, options)
        decreases |cfg.rules| - current
      {
        var rule := cfg.rules[current];
        current := current + 1;
        if rule.addressLimit && !addressQuery {
          continue;
        }
        if !rule.matches(m) {
          continue;
        }
        match rule.action {
          case Route(server, a) =>
            if server !in cfg.byTag {
              continue;
            }
            var transport := cfg.byTag[server];
            if transport.fakeIP && !allowFakeIP {
              continue;
            }
            o := OverrideOptions(o, a, transport.fakeIP);
            o := LegacyOptions(o, transport.tag);
            return Match(Some(transport), current - 1, o);
          case RouteOptions(a) =>
            o := OverrideOptions(o, a, false);
          case Reject(_) =>
            return Match(None, current - 1, o);
          case Predefined(_, _) =>
            return Match(None, current - 1, o);
        }
      }
      return Match(cfg.default, -1, o);
    }

    method Try(mode: Mode, addressQuery: bool, options: Options, m: Meta, ruleIndex: int, u: Upstream) returns (p: Pass)
      requires ruleIndex >= -1
      ensures p == OnePass(cfg, mode, addressQuery, options, m, ruleIndex + 1, u)
    {
      FindRuleIsFirst(cfg, mode.ForExchange?, ruleIndex + 1, addressQuery, m, options);
      var found := MatchDNS(mode.ForExchange?, ruleIndex, addressQuery, m, options);
      if found.index != -1 {
        match cfg.rules[found.index].action {
          case Reject(how) =>
            if mode == ForLookup {
              return Done(RejectedError, []);
            }
            match how {
              case RejectDefault => return Done(RefusedResponse, []);
              case RejectDrop => return Done(DropError, []);
              case RejectReply => return Done(NilTransport, []);
            }
          case Predefined(rcode, addrs) =>
            return Done(PredefinedResponse(rcode, addrs), []);
          case _ =>
        }
      }
      if found.transport.None? {
        return Done(NilTransport, []);
      }
      var checker := CheckerOf(cfg, found.index);
      var dnsOptions := found.options;
      if dnsOptions.strategy == AsIs {
        dnsOptions := dnsOptions.(strategy := cfg.defaultStrategy);
      }
      var (reply, m') := Ask(dnsOptions, u, checker, m);
      var call := Call(found.index, found.transport.value, dnsOptions, reply);
      if Retries(mode, checker.Some?, reply) {
        return Again(call, m', found.index);
      }
      return Done(Answered(reply), [call]);
    }

    /** The retry loop of Exchange and Lookup; they differ in fakeip, rejection and retry rules. */
    method RetryLoop(mode: Mode, addressQuery: bool, options: Options, m0: Meta, env: nat -> Upstream)
      returns (result: Result, calls: seq<Call>)
      ensures (result, calls) == Resolve(cfg, mode, addressQuery, options, m0, 0, 0, env)
    {
      var ruleIndex, m := -1, m0;
      calls := [];
      while true
        invariant -1 <= ruleIndex < |cfg.rules|
        invariant Collect(cfg, mode, addressQuery, options, m, ruleIndex + 1, env, calls) ==
                  Collect(cfg, mode, addressQuery, options, m0, 0, env, [])
        decreases |cfg.rules| - ruleIndex
      {
        var pass := Try(mode, addressQuery, options, m, ruleIndex, env(|calls|));
        if pass.Done? {
          CollectFromStart(cfg, mode, addressQuery, options, m0, env);
          return pass.result, calls + pass.calls;
        }
        calls, m, ruleIndex := calls + [pass.call], pass.meta, pass.index;
      }
    }
  }

  /** The recursion again, carrying the calls made so far. */
  function Collect(cfg: Config, mode: Mode, addressQuery: bool, o: Options, m: Meta, from: nat, env: nat -> Upstream, made: seq<Call>)
    : (r: (Result, seq<Call>))
    decreases |cfg.rules| - from
  {
    match OnePass(cfg, mode, addressQuery, o, m, from, env(|made|))
    case Done(result, calls) => (result, made + calls)
    case Again(call, m', index) => Collect(cfg, mode, addressQuery, o, m', index + 1, env, made + [call])
  }

  lemma {:induction false} CollectIsResolve(cfg: Config, mode: Mode, addressQuery: bool, o: Options, m: Meta, from: nat, env: nat -> Upstream, made: seq<Call>)
    ensures
      var r := Resolve(cfg, mode, addressQuery, o, m, from, |made|, env);
      Collect(cfg, mode, addressQuery, o, m, from, env, made) == (r.0, made + r.1)
    decreases |cfg.rules| - from
  {
    var pass := OnePass(cfg, mode, addressQuery, o, m, from, env(|made|));
    if pass.Again? {
      CollectIsResolve(cfg, mode, addressQuery, o, pass.meta, pass.index + 1, env, made + [pass.call]);
      Regroup(made, pass.call, Resolve(cfg, mode, addressQuery, o, pass.meta, pass.index + 1, |made| + 1, env).1);
    }
  }

  lemma Regroup(a: seq<Call>, c: Call, b: seq<Call>)
    ensures (a + [c]) + b == a + ([c] + b) && |a + [c]| == |a| + 1
  {
  }

  lemma CollectFromStart(cfg: Config, mode: Mode, addressQuery: bool, o: Options, m: Meta, env: nat -> Upstream)
    ensures Collect(cfg, mode, addressQuery, o, m, 0, env, []) == Resolve(cfg, mode, addressQuery, o, m, 0, 0, env)
  {
    CollectIsResolve(cfg, mode, addressQuery, o, m, 0, env, []);
    var calls := Resolve(cfg, mode, addressQuery, o, m, 0, 0, env).1;
    assert [] + calls == calls;
  }

  // ----- what the retry loops guarantee -----

  function Limited(cfg: Config, from: nat): nat
    decreases |cfg.rules| - from
  {
    if from >= |cfg.rules| then 0 else (if cfg.rules[from].addressLimit then 1 else 0) + Limited(cfg, from + 1)
  }

  lemma {:induction false} LimitedBetween(cfg: Config, i: nat, j: nat)
    requires i <= j < |cfg.rules| && cfg.rules[j].addressLimit
    ensures Limited(cfg, j + 1) + 1 <= Limited(cfg, i)
    decreases j - i
  {
    if i < j {
      LimitedBetween(cfg, i + 1, j);
    }
  }

  /** Calls made from rule "from" on: each but the last by an address-limited rule, and rejected. */
  predicate Trace(cfg: Config, mode: Mode, from: nat, calls: seq<Call>)
    decreases |calls|
  {
    calls == [] ||
    var c := calls[0];
    && (c.rule == -1 || from <= c.rule < |cfg.rules|)
    && (|calls| == 1 ||
        (c.rule != -1 && cfg.rules[c.rule].addressLimit && Retries(mode, true, c.reply) &&
         Trace(cfg, mode, c.rule + 1, calls[1..])))
  }

  function Made(p: Pass): seq<Call> { if p.Again? then [p.call] else p.calls }

  /** The server a route rule names, as registered. */
  predicate AsksOwnServer(cfg: Config, rule: int, t: Transport) {
    0 <= rule < |cfg.rules| && cfg.rules[rule].action.Route? &&
    cfg.rules[rule].action.server in cfg.byTag && t == cfg.byTag[cfg.rules[rule].action.server]
  }

  /** A rule's server is asked, a fakeip one by Exchange only and uncached; without a rule the default is asked. */
  predicate ByTheBook(cfg: Config, mode: Mode, c: Call) {
    && (c.rule != -1 ==> AsksOwnServer(cfg, c.rule, c.transport))
    && (c.rule != -1 && c.transport.fakeIP ==> mode == ForExchange && c.options.disableCache)
    && (c.rule == -1 ==> cfg.default == Some(c.transport))
  }

  lemma PassCalls(cfg: Config, mode: Mode, addressQuery: bool, o: Options, m: Meta, from: nat, u: Upstream)
    ensures
      var p := OnePass(cfg, mode, addressQuery, o, m, from, u);
      var calls := Made(p);
      && |calls| <= 1 && (p.Again? ==> p.call.rule == p.index && cfg.rules[p.index].addressLimit && Retries(mode, true, p.call.reply))
      && (p.Done? && p.result.Answered? ==> |calls| == 1 && p.result.reply == calls[0].reply)
      && (forall i :: 0 <= i < |calls| ==>
            (calls[i].rule == -1 || from <= calls[i].rule < |cfg.rules|) && ByTheBook(cfg, mode, calls[i]))
  {
    FindRuleIsFirst(cfg, mode.ForExchange?, from, addressQuery, m, o);
  }

  lemma TraceCons(cfg: Config, mode: Mode, from: nat, c: Call, rest: seq<Call>)
    requires from <= c.rule < |cfg.rules| && cfg.rules[c.rule].addressLimit && Retries(mode, true, c.reply)
    requires Trace(cfg, mode, (c.rule + 1) as nat, rest)
    ensures Trace(cfg, mode, from, [c] + rest)
  {
    assert ([c] + rest)[1..] == rest;
  }

  lemma {:induction false} ResolveTrace(cfg: Config, mode: Mode, addressQuery: bool, o: Options, m: Meta, from: nat, n: nat, env: nat -> Upstream)
    ensures
      var calls := Resolve(cfg, mode, addressQuery, o, m, from, n, env).1;
      Trace(cfg, mode, from, calls) && |calls| <= Limited(cfg, from) + 1
    decreases |cfg.rules| - from
  {
    var pass := OnePass(cfg, mode, addressQuery, o, m, from, env(n));
    PassCalls(cfg, mode, addressQuery, o, m, from, env(n));
    if pass.Again? {
      LimitedBetween(cfg, from, pass.index);
      ResolveTrace(cfg, mode, addressQuery, o, pass.meta, pass.index + 1, n + 1, env);
      var rest := Resolve(cfg, mode, addressQuery, o, pass.meta, pass.index + 1, n + 1, env).1;
      TraceCons(cfg, mode, from, pass.call, rest);
    }
  }

  lemma {:induction false} TraceClimbs(cfg: Config, mode: Mode, from: nat, calls: seq<Call>)
    requires Trace(cfg, mode, from, calls)
    ensures forall i :: 0 <= i < |calls| ==> calls[i].rule == -1 || from <= calls[i].rule < |cfg.rules|
    ensures forall i :: 0 <= i < |calls| - 1 ==>
      calls[i].rule != -1 && cfg.rules[calls[i].rule].addressLimit && Retries(mode, true, calls[i].reply)
    ensures forall i, j :: 0 <= i < j < |calls| && calls[j].rule != -1 ==> calls[i].rule < calls[j].rule
    decreases |calls|
  {
    if |calls| > 1 {
      var rest := calls[1..];
      TraceClimbs(cfg, mode, calls[0].rule + 1, rest);
      assert forall i :: 1 <= i < |calls| ==> calls[i] == rest[i - 1];
    }
  }

  /** The rule on which the loop ends, or -1 for the default server. */
  function LastIndex(cfg: Config, mode: Mode, addressQuery: bool, o: Options, m: Meta, from: nat, n: nat, env: nat -> Upstream): (r: int)
    ensures r == -1 || from <= r < |cfg.rules|
    decreases |cfg.rules| - from
  {
    FindRuleIsFirst(cfg, mode.ForExchange?, from, addressQuery, m, o);
    match OnePass(cfg, mode, addressQuery, o, m, from, env(n))
    case Done(_, _) => FindRule(cfg, mode.ForExchange?, from, addressQuery, m, o).index
    case Again(_, m', index) => LastIndex(cfg, mode, addressQuery, o, m', index + 1, n + 1, env)
  }

  /** An answer is the last reply, it comes from the rule the loop ended at, and does not send the loop on. */
  predicate AnswersWell(cfg: Config, mode: Mode, result: Result, calls: seq<Call>, last: int) {
    result.Answered? ==>
      && calls != [] && calls[|calls| - 1].rule == last && calls[|calls| - 1].reply == result.reply
      && !Retries(mode, 0 <= last < |cfg.rules| && cfg.rules[last].addressLimit, result.reply)
  }

  lemma AnswerOfPass(cfg: Config, mode: Mode, addressQuery: bool, o: Options, m: Meta, from: nat, u: Upstream)
    ensures
      var p := OnePass(cfg, mode, addressQuery, o, m, from, u);
      p.Done? ==> AnswersWell(cfg, mode, p.result, p.calls, FindRule(cfg, mode.ForExchange?, from, addressQuery, m, o).index)
  {
    FindRuleIsFirst(cfg, mode.ForExchange?, from, addressQuery, m, o);
  }

  lemma AnswersCons(cfg: Config, mode: Mode, result: Result, c: Call, calls: seq<Call>, last: int)
    requires AnswersWell(cfg, mode, result, calls, last)
    ensures AnswersWell(cfg, mode, result, [c] + calls, last)
  {
  }

  lemma {:induction false} AnswerIsAccepted(cfg: Config, mode: Mode, addressQuery: bool, o: Options, m: Meta, from: nat, n: nat, env: nat -> Upstream)
    ensures
      var r := Resolve(cfg, mode, addressQuery, o, m, from, n, env);
      AnswersWell(cfg, mode, r.0, r.1, LastIndex(cfg, mode, addressQuery, o, m, from, n, env))
    decreases |cfg.rules| - from
  {
    match OnePass(cfg, mode, addressQuery, o, m, from, env(n)) {
      case Done(_, _) => AnswerOfPass(cfg, mode, addressQuery, o, m, from, env(n));
      case Again(call, m', index) =>
        var rest := Resolve(cfg, mode, addressQuery, o, m', index + 1, n + 1, env);
        AnswerIsAccepted(cfg, mode, addressQuery, o, m', index + 1, n + 1, env);
        AnswersCons(cfg, mode, rest.0, call, rest.1, LastIndex(cfg, mode, addressQuery, o, m', index + 1, n + 1, env));
    }
  }

  /** The reply was refused; or, to a Lookup, was any error. */
  predicate SentBack(mode: Mode, reply: Reply) {
    reply == Refused || reply == RefusedCached || (mode == ForLookup && !reply.Served?)
  }

  /** The rules tried are address-limited rules in strictly increasing order, each rejected once and never
      tried again, followed by at most one call that is accepted; at most one call per address-limited
      rule plus one is made. */
  lemma RetriesMoveForward(cfg: Config, mode: Mode, addressQuery: bool, o: Options, m: Meta, env: nat -> Upstream)
    ensures
      var (result, calls) := Resolve(cfg, mode, addressQuery, o, m, 0, 0, env);
      && |calls| <= Limited(cfg, 0) + 1
      && (forall i, j :: 0 <= i < j < |calls| && calls[j].rule != -1 ==> calls[i].rule < calls[j].rule)
      && (forall i :: 0 <= i < |calls| - 1 ==>
            0 <= calls[i].rule < |cfg.rules| && cfg.rules[calls[i].rule].addressLimit && SentBack(mode, calls[i].reply))
      && (result.Answered? ==>
            && calls != [] && result.reply == calls[|calls| - 1].reply
            && (0 <= calls[|calls| - 1].rule < |cfg.rules| && cfg.rules[calls[|calls| - 1].rule].addressLimit ==>
                  !SentBack(mode, result.reply)))
  {
    ResolveTrace(cfg, mode, addressQuery, o, m, 0, 0, env);
    AnswerIsAccepted(cfg, mode, addressQuery, o, m, 0, 0, env);
    TraceClimbs(cfg, mode, 0, Resolve(cfg, mode, addressQuery, o, m, 0, 0, env).1);
  }

  predicate AllByTheBook(cfg: Config, mode: Mode, calls: seq<Call>) {
    forall i :: 0 <= i < |calls| ==> ByTheBook(cfg, mode, calls[i])
  }

  lemma BookCons(cfg: Config, mode: Mode, c: Call, rest: seq<Call>)
    requires ByTheBook(cfg, mode, c) && AllByTheBook(cfg, mode, rest)
    ensures AllByTheBook(cfg, mode, [c] + rest)
  {
    forall i | 0 <= i < |[c] + rest| ensures ByTheBook(cfg, mode, ([c] + rest)[i]) {
      if i > 0 {
        assert ([c] + rest)[i] == rest[i - 1];
      }
    }
  }

  lemma {:induction false} CallsByTheBook(cfg: Config, mode: Mode, addressQuery: bool, o: Options, m: Meta, from: nat, n: nat, env: nat -> Upstream)
    ensures AllByTheBook(cfg, mode, Resolve(cfg, mode, addressQuery, o, m, from, n, env).1)
    decreases |cfg.rules| - from
  {
    var pass := OnePass(cfg, mode, addressQuery, o, m, from, env(n));
    PassCalls(cfg, mode, addressQuery, o, m, from, env(n));
    var calls := Resolve(cfg, mode, addressQuery, o, m, from, n, env).1;
    if pass.Again? {
      var rest := Resolve(cfg, mode, addressQuery, o, pass.meta, pass.index + 1, n + 1, env).1;
      CallsByTheBook(cfg, mode, addressQuery, o, pass.meta, pass.index + 1, n + 1, env);
      assert ByTheBook(cfg, mode, Made(pass)[0]);
      BookCons(cfg, mode, pass.call, rest);
    } else {
      assert calls == Made(pass);
    }
  }

  /** Lookup never asks a fakeip server, as long as the default server is none. */
  lemma LookupAvoidsFakeIP(cfg: Config, addressQuery: bool, o: Options, m: Meta, from: nat, n: nat, env: nat -> Upstream)
    requires cfg.default.Some? ==> !cfg.default.value.fakeIP
    ensures
      var calls := Resolve(cfg, ForLookup, addressQuery, o, m, from, n, env).1;
      forall i :: 0 <= i < |calls| ==> !calls[i].transport.fakeIP
  {
    CallsByTheBook(cfg, ForLookup, addressQuery, o, m, from, n, env);
  }

  /** A fakeip server picked by a rule is always asked with the cache disabled. */
  lemma FakeIPIsAskedUncached(cfg: Config, mode: Mode, addressQuery: bool, o: Options, m: Meta, from: nat, n: nat, env: nat -> Upstream)
    ensures
      var calls := Resolve(cfg, mode, addressQuery, o, m, from, n, env).1;
      forall i :: 0 <= i < |calls| && calls[i].rule != -1 && calls[i].transport.fakeIP ==> calls[i].options.disableCache
  {
    CallsByTheBook(cfg, mode, addressQuery, o, m, from, n, env);
  }

  /** A call made by a rule goes to the server that rule names. */
  lemma RuledCallsGoToTheirServer(cfg: Config, mode: Mode, addressQuery: bool, o: Options, m: Meta, from: nat, n: nat, env: nat -> Upstream)
    ensures
      var calls := Resolve(cfg, mode, addressQuery, o, m, from, n, env).1;
      forall i :: 0 <= i < |calls| && calls[i].rule != -1 ==> AsksOwnServer(cfg, calls[i].rule, calls[i].transport)
  {
    CallsByTheBook(cfg, mode, addressQuery, o, m, from, n, env);
  }

  /** A call made by no rule goes to the default server. */
  lemma UnruledCallsGoToDefault(cfg: Config, mode: Mode, addressQuery: bool, o: Options, m: Meta, from: nat, n: nat, env: nat -> Upstream)
    ensures
      var calls := Resolve(cfg, mode, addressQuery, o, m, from, n, env).1;
      forall i :: 0 <= i < |calls| && calls[i].rule == -1 ==> cfg.default == Some(calls[i].transport)
  {
    CallsByTheBook(cfg, mode, addressQuery, o, m, from, n, env);
  }

  /** The client is called on a nil server exactly when the loop ends on a rule that rejects with "reply"
      during an Exchange, or at a missing default server. */
  lemma {:induction false} NilServerIff(cfg: Config, mode: Mode, addressQuery: bool, o: Options, m: Meta, from: nat, n: nat, env: nat -> Upstream)
    ensures
      var last := LastIndex(cfg, mode, addressQuery, o, m, from, n, env);
      && (Resolve(cfg, mode, addressQuery, o, m, from, n, env).0 == NilTransport <==>
            if last == -1 then cfg.default.None?
            else mode == ForExchange && cfg.rules[last].action == Reject(RejectReply))
    decreases |cfg.rules| - from
  {
    var found := FindRule(cfg, mode.ForExchange?, from, addressQuery, m, o);
    FindRuleIsFirst(cfg, mode.ForExchange?, from, addressQuery, m, o);
    var pass := OnePass(cfg, mode, addressQuery, o, m, from, env(n));
    if pass.Again? {
      NilServerIff(cfg, mode, addressQuery, o, pass.meta, pass.index + 1, n + 1, env);
    }
  }

  /** The metadata that rule k is matched against: that of the pass that gets to it. */
  function MetaAt(cfg: Config, mode: Mode, addressQuery: bool, o: Options, m: Meta, from: nat, n: nat, env: nat -> Upstream, k: nat): Meta
    decreases |cfg.rules| - from
  {
    match OnePass(cfg, mode, addressQuery, o, m, from, env(n))
    case Done(_, _) => m
    case Again(_, m', index) =>
      if k <= index then m else MetaAt(cfg, mode, addressQuery, o, m', index + 1, n + 1, env, k)
  }

  /** Rule k was tried, and its answer sent the loop on. */
  predicate TriedInVain(mode: Mode, calls: seq<Call>, k: int) {
    exists i :: 0 <= i < |calls| && calls[i].rule == k && Retries(mode, true, calls[i].reply)
  }

  /** Every rule before the end either does not stop the search on the metadata of its pass, or was tried in vain. */
  ghost predicate Passed(cfg: Config, mode: Mode, addressQuery: bool, o: Options, m: Meta, from: nat, n: nat, env: nat -> Upstream,
                         end: nat, calls: seq<Call>)
    requires end <= |cfg.rules|
  {
    forall k: nat :: from <= k < end ==> PassedAt(cfg, mode, addressQuery, MetaAt(cfg, mode, addressQuery, o, m, from, n, env, k), calls, k)
  }

  predicate PassedAt(cfg: Config, mode: Mode, addressQuery: bool, m: Meta, calls: seq<Call>, k: nat)
    requires k < |cfg.rules|
  {
    TriedInVain(mode, calls, k) || !Stops(cfg, mode.ForExchange?, addressQuery, m, cfg.rules[k])
  }

  lemma TriedCons(mode: Mode, c: Call, rest: seq<Call>)
    ensures forall k: nat :: TriedInVain(mode, rest, k) ==> TriedInVain(mode, [c] + rest, k)
    ensures Retries(mode, true, c.reply) ==> TriedInVain(mode, [c] + rest, c.rule)
  {
    assert ([c] + rest)[0] == c;
    forall k: nat | TriedInVain(mode, rest, k) ensures TriedInVain(mode, [c] + rest, k) {
      var i :| 0 <= i < |rest| && rest[i].rule == k && Retries(mode, true, rest[i].reply);
      assert ([c] + rest)[i + 1] == rest[i];
    }
  }

  lemma PassedCons(cfg: Config, mode: Mode, addressQuery: bool, o: Options, m: Meta, from: nat, n: nat, env: nat -> Upstream,
                   end: nat, rest: seq<Call>)
    requires OnePass(cfg, mode, addressQuery, o, m, from, env(n)).Again?
    requires
      var p := OnePass(cfg, mode, addressQuery, o, m, from, env(n));
      p.index < end <= |cfg.rules| && Passed(cfg, mode, addressQuery, o, p.meta, p.index + 1, n + 1, env, end, rest)
    ensures Passed(cfg, mode, addressQuery, o, m, from, n, env, end, [OnePass(cfg, mode, addressQuery, o, m, from, env(n)).call] + rest)
  {
    var p := OnePass(cfg, mode, addressQuery, o, m, from, env(n));
    PassIsFirst(cfg, mode, addressQuery, o, m, from, env(n));
    TriedCons(mode, p.call, rest);
    forall k: nat | from <= k < end
      ensures PassedAt(cfg, mode, addressQuery, MetaAt(cfg, mode, addressQuery, o, m, from, n, env, k), [p.call] + rest, k)
    {
      if k > p.index {
        assert PassedAt(cfg, mode, addressQuery, MetaAt(cfg, mode, addressQuery, o, p.meta, p.index + 1, n + 1, env, k), rest, k);
      }
    }
  }

  lemma PassIsFirst(cfg: Config, mode: Mode, addressQuery: bool, o: Options, m: Meta, from: nat, u: Upstream)
    ensures
      var p := OnePass(cfg, mode, addressQuery, o, m, from, u);
      p.Again? ==>
        && p.call.rule == p.index && Retries(mode, true, p.call.reply)
        && forall k: nat :: from <= k < p.index ==> !Stops(cfg, mode.ForExchange?, addressQuery, m, cfg.rules[k])
  {
    FindRuleIsFirst(cfg, mode.ForExchange?, from, addressQuery, m, o);
  }

  /** The search ends at rule "last", or past the last rule, and all before were passed. */
  ghost predicate EndsAt(cfg: Config, mode: Mode, addressQuery: bool, o: Options, m: Meta, from: nat, n: nat, env: nat -> Upstream,
                         last: int, calls: seq<Call>)
    requires -1 <= last < |cfg.rules|
  {
    && Passed(cfg, mode, addressQuery, o, m, from, n, env, if last == -1 then |cfg.rules| else last, calls)
    && (last != -1 ==>
          Stops(cfg, mode.ForExchange?, addressQuery, MetaAt(cfg, mode, addressQuery, o, m, from, n, env, last), cfg.rules[last]))
  }

  lemma DoneEndsAt(cfg: Config, mode: Mode, addressQuery: bool, o: Options, m: Meta, from: nat, n: nat, env: nat -> Upstream, calls: seq<Call>)
    requires OnePass(cfg, mode, addressQuery, o, m, from, env(n)).Done?
    ensures
      var last := FindRule(cfg, mode.ForExchange?, from, addressQuery, m, o).index;
      -1 <= last < |cfg.rules| && EndsAt(cfg, mode, addressQuery, o, m, from, n, env, last, calls)
  {
    FindRuleIsFirst(cfg, mode.ForExchange?, from, addressQuery, m, o);
  }

  lemma AgainEndsAt(cfg: Config, mode: Mode, addressQuery: bool, o: Options, m: Meta, from: nat, n: nat, env: nat -> Upstream,
                    last: int, rest: seq<Call>)
    requires OnePass(cfg, mode, addressQuery, o, m, from, env(n)).Again?
    requires
      var p := OnePass(cfg, mode, addressQuery, o, m, from, env(n));
      && (last == -1 || p.index < last < |cfg.rules|)
      && EndsAt(cfg, mode, addressQuery, o, p.meta, p.index + 1, n + 1, env, last, rest)
    ensures EndsAt(cfg, mode, addressQuery, o, m, from, n, env, last, [OnePass(cfg, mode, addressQuery, o, m, from, env(n)).call] + rest)
  {
    PassedCons(cfg, mode, addressQuery, o, m, from, n, env, if last == -1 then |cfg.rules| else last, rest);
  }

  /** The loop ends at the first rule that stops the search on the metadata of its pass and whose answer does not
      send it on: every rule before either did not stop it or was tried in vain; without such a rule it ends at
      the default server. */
  lemma {:induction false} ResolveIsFirstAccepted(cfg: Config, mode: Mode, addressQuery: bool, o: Options, m: Meta, from: nat, n: nat, env: nat -> Upstream)
    ensures
      var calls := Resolve(cfg, mode, addressQuery, o, m, from, n, env).1;
      EndsAt(cfg, mode, addressQuery, o, m, from, n, env, LastIndex(cfg, mode, addressQuery, o, m, from, n, env), calls)
    decreases |cfg.rules| - from
  {
    var last := LastIndex(cfg, mode, addressQuery, o, m, from, n, env);
    match OnePass(cfg, mode, addressQuery, o, m, from, env(n)) {
      case Done(_, calls) => DoneEndsAt(cfg, mode, addressQuery, o, m, from, n, env, calls);
      case Again(_, m', index) =>
        ResolveIsFirstAccepted(cfg, mode, addressQuery, o, m', index + 1, n + 1, env);
        AgainEndsAt(cfg, mode, addressQuery, o, m, from, n, env, last,
                    Resolve(cfg, mode, addressQuery, o, m', index + 1, n + 1, env).1);
    }
  }

  /** Why a rule is passed by: it does not match, it is address-limited and this is no address query, it only sets
      options, or its server is unknown or a fakeip one that a Lookup must not ask. */
  predicate Ignored(cfg: Config, mode: Mode, addressQuery: bool, m: Meta, r: Rule) {
    || !r.matches(m) || (r.addressLimit && !addressQuery) || r.action.RouteOptions?
    || (r.action.Route? && (r.action.server !in cfg.byTag || (mode == ForLookup && cfg.byTag[r.action.server].fakeIP)))
  }

  /** Every rule before the one the loop ends at was ignored, or tried in vain; that one was not ignored. */
  lemma NoRuleIsSkipped(cfg: Config, mode: Mode, addressQuery: bool, o: Options, m: Meta, env: nat -> Upstream)
    ensures
      var calls, last := Resolve(cfg, mode, addressQuery, o, m, 0, 0, env).1, LastIndex(cfg, mode, addressQuery, o, m, 0, 0, env);
      && (forall k: nat :: k < (if last == -1 then |cfg.rules| else last) ==>
            TriedInVain(mode, calls, k) ||
            Ignored(cfg, mode, addressQuery, MetaAt(cfg, mode, addressQuery, o, m, 0, 0, env, k), cfg.rules[k]))
      && (last != -1 ==> !Ignored(cfg, mode, addressQuery, MetaAt(cfg, mode, addressQuery, o, m, 0, 0, env, last), cfg.rules[last]))
  {
    ResolveIsFirstAccepted(cfg, mode, addressQuery, o, m, 0, 0, env);
    var calls, last := Resolve(cfg, mode, addressQuery, o, m, 0, 0, env).1, LastIndex(cfg, mode, addressQuery, o, m, 0, 0, env);
    forall k: nat | k < (if last == -1 then |cfg.rules| else last)
      ensures TriedInVain(mode, calls, k) ||
        Ignored(cfg, mode, addressQuery, MetaAt(cfg, mode, addressQuery, o, m, 0, 0, env, k), cfg.rules[k])
    {
      assert PassedAt(cfg, mode, addressQuery, MetaAt(cfg, mode, addressQuery, o, m, 0, 0, env, k), calls, k);
    }
  }

  /** What a call is told, by the caches (unless disabled) or the server, judged by the check of its own rule; whether it
      is sent back to the rules; and the addresses a refused answer leaves behind for them. */
  lemma ReplyOfCall(cfg: Config, mode: Mode, addressQuery: bool, o: Options, m: Meta, from: nat, u: Upstream)
    requires Made(OnePass(cfg, mode, addressQuery, o, m, from, u)) != []
    ensures
      var p := OnePass(cfg, mode, addressQuery, o, m, from, u);
      var c := Made(p)[0];
      var limited := 0 <= c.rule < |cfg.rules| && cfg.rules[c.rule].addressLimit;
      var looked := !c.options.disableCache;
      && (looked && u.cached.Some? ==> c.reply == if u.cached.value.ok then Served(u.cached.value.addrs) else ServedCode)
      && (c.reply == RefusedCached <==> looked && u.cached.None? && u.rejectedBefore && limited)
      && (!(looked && u.cached.Some?) && c.reply != RefusedCached ==>
            match u.server
            case Broken(e) => c.reply == Failed(e)
            case Answer(ok, addrs) =>
              if limited
              then c.reply == if ok && addrs != [] && cfg.rules[c.rule].accepts(m.(addresses := addrs)) then Served(addrs) else Refused
              else c.reply == if ok then Served(addrs) else ServedCode)
      && (p.Again? <==> limited && SentBack(mode, c.reply))
      && (p.Again? ==>
            var seen := c.reply == Refused && u.server.Answer? && u.server.ok && u.server.addrs != [];
            p.meta == if seen then m.(addresses := u.server.addrs) else m)
  {
    FindRuleIsFirst(cfg, mode.ForExchange?, from, addressQuery, m, o);
  }

  /** What a loop without an answer ends with is what its last rule says. */
  lemma {:induction false} ResultIsOfTheLastRule(cfg: Config, mode: Mode, addressQuery: bool, o: Options, m: Meta, from: nat, n: nat, env: nat -> Upstream)
    ensures
      var result, last := Resolve(cfg, mode, addressQuery, o, m, from, n, env).0, LastIndex(cfg, mode, addressQuery, o, m, from, n, env);
      if last == -1 then result == NilTransport || result.Answered?
      else
        match cfg.rules[last].action
        case Predefined(rcode, addrs) => result == PredefinedResponse(rcode, addrs)
        case Reject(how) =>
          if mode == ForLookup then result == RejectedError
          else result == if how == RejectDefault then RefusedResponse else if how == RejectDrop then DropError else NilTransport
        case Route(_, _) => result.Answered?
        case RouteOptions(_) => false
    decreases |cfg.rules| - from
  {
    match OnePass(cfg, mode, addressQuery, o, m, from, env(n)) {
      case Done(_, _) => FindRuleIsFirst(cfg, mode.ForExchange?, from, addressQuery, m, o);
      case Again(_, m', index) => ResultIsOfTheLastRule(cfg, mode, addressQuery, o, m', index + 1, n + 1, env);
    }
  }

  // ----- options and retries -----

  /** What is left to the server and to the default once the rules have had their say. */
  function Filled(cfg: Config, c: Call, o: Options): Options {
    Finalize(cfg, if c.rule == -1 then o else AddLegacy(cfg, o, c.transport.tag))
  }

  /** The route that made the call says something about this field. */
  predicate NamedByRoute(cfg: Config, c: Call, f: Field) {
    0 <= c.rule < |cfg.rules| && cfg.rules[c.rule].action.Route? &&
    (Names(cfg.rules[c.rule].action.options, f) || (f == CacheField && c.transport.fakeIP))
  }

  function EndOf(cfg: Config, c: Call): nat
    requires -1 <= c.rule < |cfg.rules|
  {
    if c.rule == -1 then |cfg.rules| else c.rule
  }

  lemma RouteAgreesIff(cfg: Config, g: Options, h: Options, t: Transport, a: Options, f: Field)
    ensures
      SameIn(f, Finalize(cfg, RouteTo(cfg, g, t, a)), Finalize(cfg, RouteTo(cfg, h, t, a))) <==>
      Names(a, f) || (f == CacheField && t.fakeIP) ||
      SameIn(f, Finalize(cfg, AddLegacy(cfg, g, t.tag)), Finalize(cfg, AddLegacy(cfg, h, t.tag)))
  {
    match f { case _ => }
  }

  lemma FilledAgrees(cfg: Config, c: Call, g: Options, h: Options, f: Field)
    requires SameIn(f, g, h)
    ensures SameIn(f, Filled(cfg, c, g), Filled(cfg, c, h))
  {
    match f { case _ => }
  }

  /** The strategy a query goes out with: the route's if it names one, else the last one named on the way, else the
      server's own, else the default; and likewise a subnet, a rewrite TTL, and a disabled cache. */
  lemma OptionsByPriority(cfg: Config, mode: Mode, addressQuery: bool, o: Options, m: Meta, from: nat, u: Upstream)
    requires Made(OnePass(cfg, mode, addressQuery, o, m, from, u)) != []
    ensures
      var c := Made(OnePass(cfg, mode, addressQuery, o, m, from, u))[0];
      -1 <= c.rule < |cfg.rules| &&
      var g := Gather(cfg, addressQuery, m, o, from, EndOf(cfg, c));
      var route := if c.rule != -1 && cfg.rules[c.rule].action.Route? then cfg.rules[c.rule].action.options else PLAIN;
      var own := c.rule != -1 && c.transport.tag in cfg.legacy;
      && c.options.strategy == (if route.strategy != AsIs then route.strategy
                                else if g.strategy != AsIs then g.strategy
                                else if own && cfg.legacy[c.transport.tag].strategy != AsIs then cfg.legacy[c.transport.tag].strategy
                                else cfg.defaultStrategy)
      && c.options.subnet == (if route.subnet.Some? then route.subnet
                              else if g.subnet.Some? then g.subnet
                              else if own then cfg.legacy[c.transport.tag].subnet else None)
      && c.options.rewriteTTL == (if route.rewriteTTL.Some? then route.rewriteTTL else g.rewriteTTL)
      && (c.options.disableCache <==> route.disableCache || g.disableCache || (c.rule != -1 && c.transport.fakeIP))
  {
    CallOfPass(cfg, mode, addressQuery, o, m, from, u);
  }

  predicate SameServer(c: Call, d: Call) { c.rule == d.rule && c.transport == d.transport }

  /** The call a pass makes, if it makes one: which one does not depend on the options, and its options are those
      gathered, then the route's, the server's and the default. */
  lemma CallOfPass(cfg: Config, mode: Mode, addressQuery: bool, o: Options, m: Meta, from: nat, u: Upstream)
    ensures
      var made := Made(OnePass(cfg, mode, addressQuery, o, m, from, u));
      && |made| <= 1 && (|made| == 1 <==> |Made(OnePass(cfg, mode, addressQuery, PLAIN, m, from, u))| == 1)
      && (|made| == 1 ==>
            var c := made[0];
            && (c.rule == -1 || (0 <= c.rule < |cfg.rules| && cfg.rules[c.rule].action.Route?))
            && SameServer(c, Made(OnePass(cfg, mode, addressQuery, PLAIN, m, from, u))[0])
            && var g := Gather(cfg, addressQuery, m, o, from, EndOf(cfg, c));
               c.options == Finalize(cfg, if c.rule == -1 then g else RouteTo(cfg, g, c.transport, cfg.rules[c.rule].action.options)))
  {
    FindRuleIsFirst(cfg, mode.ForExchange?, from, addressQuery, m, o);
    FindRuleIsFirst(cfg, mode.ForExchange?, from, addressQuery, m, PLAIN);
  }

  lemma FilledAgreesIff(cfg: Config, addressQuery: bool, m: Meta, o: Options, kept: Options, from: nat, c: Call, f: Field)
    requires -1 <= c.rule < |cfg.rules|
    ensures
      var g, h := Gather(cfg, addressQuery, m, o, from, EndOf(cfg, c)), Gather(cfg, addressQuery, m, kept, from, EndOf(cfg, c));
      SameIn(f, Filled(cfg, c, g), Filled(cfg, c, h)) <==>
        NamedBetween(cfg, addressQuery, m, from, EndOf(cfg, c), f) || SameIn(f, Filled(cfg, c, o), Filled(cfg, c, kept))
  {
    var end := EndOf(cfg, c);
    var g, h := Gather(cfg, addressQuery, m, o, from, end), Gather(cfg, addressQuery, m, kept, from, end);
    if NamedBetween(cfg, addressQuery, m, from, end, f) {
      GatherAgreesIff(cfg, addressQuery, m, o, kept, from, end, f);
      FilledAgrees(cfg, c, g, h, f);
    } else {
      GatherIsLastNamed(cfg, addressQuery, m, o, from, end, f);
      GatherIsLastNamed(cfg, addressQuery, m, kept, from, end, f);
      FilledAgrees(cfg, c, g, o, f);
      FilledAgrees(cfg, c, h, kept, f);
    }
  }

  /** The same pass started from other options asks the same server for the same rule; a field of the options it
      asks with is the same exactly when a route-options rule passed on the way or the route names it, or the options
      started from come to the same once server and default have filled them. */
  lemma StartMattersIff(cfg: Config, mode: Mode, addressQuery: bool, o: Options, kept: Options, m: Meta, from: nat, u: Upstream, f: Field)
    ensures
      var now, had := Made(OnePass(cfg, mode, addressQuery, o, m, from, u)), Made(OnePass(cfg, mode, addressQuery, kept, m, from, u));
      && |now| == |had| <= 1
      && (|now| == 1 ==>
            var c := now[0];
            && -1 <= c.rule < |cfg.rules| && SameServer(c, had[0])
            && (SameIn(f, c.options, had[0].options) <==>
                  || NamedBetween(cfg, addressQuery, m, from, EndOf(cfg, c), f)
                  || NamedByRoute(cfg, c, f)
                  || SameIn(f, Filled(cfg, c, o), Filled(cfg, c, kept))))
  {
    CallOfPass(cfg, mode, addressQuery, o, m, from, u);
    CallOfPass(cfg, mode, addressQuery, kept, m, from, u);
    var made := Made(OnePass(cfg, mode, addressQuery, o, m, from, u));
    if |made| == 1 {
      var c := made[0];
      FilledAgreesIff(cfg, addressQuery, m, o, kept, from, c, f);
      if c.rule != -1 {
        RouteAgreesIff(cfg, Gather(cfg, addressQuery, m, o, from, c.rule), Gather(cfg, addressQuery, m, kept, from, c.rule),
                       c.transport, cfg.rules[c.rule].action.options, f);
      }
    }
  }

  /** What a retry forgets.  A pass searching from "from" starts over from the caller's options, not from those that
      the route-options rules before "from" set on the metadata m0 of the passes before.  A disabled cache is lost
      exactly when one of those rules disabled it and neither the caller, nor a rule passed since, nor the route
      or its fakeip server does. */
  lemma RetryLosesDisabledCacheIff(cfg: Config, mode: Mode, addressQuery: bool, o: Options, m0: Meta, m: Meta, from: nat, u: Upstream)
    requires from <= |cfg.rules|
    requires |Made(OnePass(cfg, mode, addressQuery, o, m, from, u))| == 1
    ensures
      var kept := Gather(cfg, addressQuery, m0, o, 0, from);
      var c, had := Made(OnePass(cfg, mode, addressQuery, o, m, from, u))[0], Made(OnePass(cfg, mode, addressQuery, kept, m, from, u));
      && |had| == 1 && -1 <= c.rule < |cfg.rules|
      && (had[0].options.disableCache && !c.options.disableCache <==>
            && NamedBetween(cfg, addressQuery, m0, 0, from, CacheField) && !o.disableCache
            && !NamedBetween(cfg, addressQuery, m, from, EndOf(cfg, c), CacheField) && !NamedByRoute(cfg, c, CacheField))
  {
    var kept := Gather(cfg, addressQuery, m0, o, 0, from);
    StartMattersIff(cfg, mode, addressQuery, o, kept, m, from, u, CacheField);
    GatherDisables(cfg, addressQuery, m0, o, 0, from);
    var c := Made(OnePass(cfg, mode, addressQuery, o, m, from, u))[0];
    CallOfPass(cfg, mode, addressQuery, o, m, from, u);
    GatherDisables(cfg, addressQuery, m, o, from, EndOf(cfg, c));
  }

  lemma {:induction false} GatherDisables(cfg: Config, addressQuery: bool, m: Meta, o: Options, i: nat, j: nat)
    requires j <= |cfg.rules|
    ensures Gather(cfg, addressQuery, m, o, i, j).disableCache <==>
      o.disableCache || NamedBetween(cfg, addressQuery, m, i, j, CacheField)
    decreases j - i
  {
    if i < j {
      StepNames(cfg, addressQuery, m, o, i, CacheField);
      GatherDisables(cfg, addressQuery, m, Step(addressQuery, m, o, cfg.rules[i]), i + 1, j);
    }
  }

  /** An empty success, which every check refuses. */
  const REFUSABLE := Upstream(None, false, Answer(true, []))
  const UPSTREAM := Transport(1, 1, [], false, false)

  /** A retry starts again from the caller's options: here the first call is made with the cache disabled by
      a route-options rule, and the call after its rejection is not. */
  lemma RetryForgetsRouteOptions() returns (cfg: Config, calls: seq<Call>)
    ensures calls == Resolve(cfg, ForExchange, true, PLAIN, Meta(0, 1, []), 0, 0, (k: nat) => REFUSABLE).1
    ensures |calls| == 2 && calls[0].options.disableCache && !calls[1].options.disableCache
  {
    var rules := [
      Rule((x: Meta) => true, false, (x: Meta) => true, RouteOptions(PLAIN.(disableCache := true))),
      Rule((x: Meta) => true, true, (x: Meta) => false, Route(1, PLAIN))];
    cfg := Config(rules, map[1 := UPSTREAM], map[], Some(UPSTREAM), PreferIPv4);
    var m, env := Meta(0, 1, []), (k: nat) => REFUSABLE;
    var o1 := PLAIN.(disableCache := true);
    assert Step(true, m, PLAIN, rules[0]) == o1;
    assert FindRule(cfg, true, 1, true, m, o1) == Match(Some(UPSTREAM), 1, o1);
    assert FindRule(cfg, true, 0, true, m, PLAIN) == Match(Some(UPSTREAM), 1, o1);
    assert FindRule(cfg, true, 2, true, m, PLAIN) == Match(Some(UPSTREAM), -1, PLAIN);
    var second := Resolve(cfg, ForExchange, true, PLAIN, m, 2, 1, env).1;
    assert |second| == 1;
    calls := Resolve(cfg, ForExchange, true, PLAIN, m, 0, 0, env).1;
    assert calls == [calls[0]] + second;
  }

  /** An Exchange that ends on a rule rejecting with "reply" goes to the client without a server. */
  lemma ReplyRejectionReachesTheClient() returns (cfg: Config)
    ensures cfg.default.Some?
    ensures Resolve(cfg, ForExchange, true, PLAIN, Meta(0, 1, []), 0, 0, (k: nat) => REFUSABLE) == (NilTransport, [])
  {
    cfg := Config([Rule((x: Meta) => true, false, (x: Meta) => true, Reject(RejectReply))], map[], map[], Some(UPSTREAM), PreferIPv4);
  }
}
