/**
  Properties that span the DNS registry, the DNS rules and the DNS client's cache.
 */
module DnsGuarantees {
  import opened Wrappers
  import Start = TransportStart
  import Registry = TransportRegistry
  import Rules = DnsRouter
  import Cache = DnsCache

  /** The rules see the registry as it is. */
  predicate Sees(cfg: Rules.Config, r: Registry.Registry) { cfg.byTag == r.byTag && cfg.default == r.default }

  /** The options the router hands to the client. */
  function ToClient(o: Rules.Options): Cache.Options {
    Cache.Options(
      match o.strategy {
        case AsIs => Cache.AsIs
        case PreferIPv4 => Cache.PreferIPv4
        case PreferIPv6 => Cache.PreferIPv6
        case IPv4Only => Cache.IPv4Only
        case IPv6Only => Cache.IPv6Only
      },
      o.disableCache,
      if o.rewriteTTL.Some? then Some(o.rewriteTTL.value % Cache.TWO_32) else None,
      o.subnet.Some?)
  }

  ghost predicate CreateStartRun(ops: seq<Registry.Op>) {
    forall i :: 0 <= i < |ops| ==> Registry.CreateOrStart(ops[i]) && Registry.PlainFallback(ops[i])
  }

  /** In every run of Create and Start, however many Create calls fail, a Lookup that is not given a server
      never asks a fakeip server. */
  lemma LookupNeverAsksFakeIP(defaultTag: Start.Tag, ops: seq<Registry.Op>, cfg: Rules.Config, o: Rules.Options,
                              m: Rules.Meta, env: nat -> Rules.Upstream)
    requires CreateStartRun(ops) && Sees(cfg, Registry.After(Registry.EmptyRegistry(defaultTag), ops))
    ensures
      var calls := Rules.Resolve(cfg, Rules.ForLookup, true, o, m, 0, 0, env).1;
      forall i :: 0 <= i < |calls| ==> !calls[i].transport.fakeIP
  {
    Registry.DefaultNeverFakeIP(defaultTag, ops);
    Rules.LookupAvoidsFakeIP(cfg, true, o, m, 0, 0, env);
  }

  /** In such runs no answer of a fakeip server ever reaches the cache: whatever it replies, the client call
      leaves every entry as it was. */
  lemma FakeIPAnswersAreNeverStored(defaultTag: Start.Tag, ops: seq<Registry.Op>, cfg: Rules.Config, mode: Rules.Mode,
                                    addressQuery: bool, o: Rules.Options, m: Rules.Meta, env: nat -> Rules.Upstream, k: nat,
                                    client: Cache.Config, entries: Cache.Entries, req: Cache.Request,
                                    check: Cache.Check, around: Cache.Env, reply: Cache.Upstream)
    requires CreateStartRun(ops) && Sees(cfg, Registry.After(Registry.EmptyRegistry(defaultTag), ops))
    requires k < |Rules.Resolve(cfg, mode, addressQuery, o, m, 0, 0, env).1|
    requires Rules.Resolve(cfg, mode, addressQuery, o, m, 0, 0, env).1[k].transport.fakeIP
    ensures
      var call := Rules.Resolve(cfg, mode, addressQuery, o, m, 0, 0, env).1[k];
      Cache.ExchangeStep(client, entries, req, call.transport.tag, ToClient(call.options), check, around, reply).0 == entries
  {
    var call := Rules.Resolve(cfg, mode, addressQuery, o, m, 0, 0, env).1[k];
    Registry.DefaultNeverFakeIP(defaultTag, ops);
    Rules.FakeIPIsAskedUncached(cfg, mode, addressQuery, o, m, 0, 0, env);
    Rules.UnruledCallsGoToDefault(cfg, mode, addressQuery, o, m, 0, 0, env);
    Cache.CacheOffTouchesNothing(client, entries, req, call.transport.tag, ToClient(call.options), check, around, reply);
  }

  /** Starting the servers after any error-free run of the registry, refused Removes included: no panic, no clash with
      the fallback, and apart from a missing default, success exactly when every dependency is registered, the
      dependencies have no cycle and no server fails to start. */
  method StartAfterAnyRun(manager: Registry.TransportManager, ghost ops: seq<Registry.Op>, fallback: Option<Start.Transport>)
    returns (missingDefault: bool, outcome: Option<Start.Outcome>, order: seq<Start.Tag>)
    requires forall i :: 0 <= i < |ops| ==> Registry.KeepsTag(ops[i])
    requires Registry.ErrorFree(Registry.EmptyRegistry(manager.defaultTag), ops)
    requires manager.Abs() == Registry.After(Registry.EmptyRegistry(manager.defaultTag), ops)
    modifies manager
    ensures missingDefault <==>
      old(manager.defaultTransport).None? && (manager.defaultTag != Start.NO_TAG || fallback.None?)
    ensures (forall i :: 0 <= i < |ops| ==> Registry.CreateOrStart(ops[i])) ==>
      (missingDefault <==>
        if manager.defaultTag != Start.NO_TAG then manager.defaultTag !in old(manager.transportByTag)
        else fallback.None? && Registry.FirstServer(ops).None?)
    ensures !missingDefault ==>
      var servers := if old(manager.defaultTransport).Some? then old(manager.transportByTag)
                     else map[fallback.value.tag := fallback.value];
      && manager.transportByTag == servers && outcome.Some? && Start.GoodOrder(servers, order)
      && (outcome.value == Start.Success <==> Start.Complete(servers) && !Start.Cyclic(servers) && Start.AllStart(servers))
  {
    Registry.RunKeepsStep(manager.defaultTag, ops);
    if forall i :: 0 <= i < |ops| ==> Registry.CreateOrStart(ops[i]) {
      Registry.DefaultOfRun(manager.defaultTag, ops);
    }
    if manager.defaultTransport.None? && manager.defaultTag == Start.NO_TAG {
      assert manager.transportByTag == map[] by { Registry.RegistryStaysCoherent(manager.defaultTag, ops, Registry.MarkStarted); }
    }
    missingDefault, outcome, order := manager.StartServers(fallback);
  }
}
