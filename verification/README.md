# Proofs about sing-box

A Dafny model of the stateful parts of sing-box (`sing-box-dev-next`), with proofs of what they guarantee over
whole executions. `dafny verify dfyconfig.toml` checks everything.

| module | models | main results |
|---|---|---|
| ServiceLifecycle | the daemon's status machine, any number of overlapping calls | no instance leaks or is closed twice; the closing window is exclusive; when FATAL is final; what STARTED means |
| ConnectionStream | one connection event subscription and its client | exact conditions for replica correctness; live set always agrees; idle connections fall silent |
| LogStream | the bounded log, its writers and the batching subscription loop | buffer contents; batching is invisible; when a subscriber ends with the right lines |
| TransportStart | starting DNS servers in dependency order, with the diagnosis when stuck | success exactly for complete acyclic graphs; sound diagnoses |
| TransportRegistry | the registry of DNS servers | list and map in bijection; exact conditions for reverse dependencies and default election |
| DnsCache | TTL choice, store, look-up with ageing, one whole exchange | a hit is the last stored reply, aged; nothing else is ever stored |
| QueryLock | the leader and waiter lock of the cache | safety, no deadlock, bounded steps, when flight is single |
| DnsRouter | matchDNS and the retry loops | first accepted match; retries move forward; what a retry forgets; fakeip is avoided or uncached |
| DnsGuarantees | registry, rules and cache together | fakeip answers are never looked up nor stored; Start after any run |
| RouteRules | matchRule and the choice of the outbound | first terminal rule on threaded metadata; dispatch is never without an outbound |
| BinaryCodec | SavedBinary and FakeIPMetadata encodings | round trips, rejection of every strict prefix |
| Relay | launching and closing a relayed connection | when onClose is called, with which error, both ends closed, in every interleaving |
| ClashModes | the Clash mode list | the list is a canonical form of the set of modes |

Objects that the program changes in place are classes whose methods are proved against step functions on values;
properties over runs are lemmas about those functions. Where threads interleave, each action is one atomic step (a
lock-held section, one operation on a shared map, channel or flag) and lemmas range over all action sequences.

Outcomes of calls the model does not see (starting and closing instances, transports and sockets, matching, sniffing,
resolving, clocks, counter reads, constructors) are arguments, so the results hold for all of them.
Tags, questions, addresses and uuids are numbered, since the program only compares them.

Where the code departs from what a reader may expect, the code is followed and the exact condition is proved:

- A NEW message reads the byte counters again, so the client can start off by what was counted in between (`ReplicaIff`),
  and stays off by just that (`AheadByTheLastNewIff`): behind in the opening batch, ahead later (`OpeningLagsLaterLead`).
- A log line is emitted after the lock is released: a subscriber can see it twice, or in the wrong place
  (`SubscriberIsRightIff`, `InOrderSubscriberIsRightIff`).
- FATAL can only be left by a reload that is already closing the old instance (`FatalIsFinalIffNoWindow`).
- Overlapping reloads can publish STARTED too early (`FinishIsHonestIff`).
- A refused `Remove` has already unregistered the server (`RefusedRemoveUnregisters`); its test on the next default
  is the opposite of its message (`RemoveElectsFakeIPIff`); replacing an unnamed default leaves a stale one
  (`ReplacingTheDefault`); a dependency listed twice loses records (`RemoveKeepsRecordsIff`).
- A negative TTL of 0 falls through to the record TTLs, unlike section 5 of RFC 2308 (`NegativeCachingFollowsRfcIff`).
- A cached answer is served without the address check of the rule that asks (`HitMeetsCheckIff`), and with the hints and
  TTLs of the query that stored it (`HitIsOwnAnswerIff`).
- With one cache per server, queries that waited for another server's leader can all go upstream (`LeadersAskOnce`,
  `WaitersForOtherServersAllAsk`).
- A DNS rule rejecting with "reply" sends an Exchange to a nil server (`NilServerIff`); a retry forgets
  options set by earlier route-options rules (`StartMattersIff`, `RetryLosesDisabledCacheIff`).
- Rules with the "direct" action never end the walk (`DirectRulesAreInert`).
- A field of 65536 bytes or more is framed with a wrapped length; a cut length panics (`FramesRoundTripIff`).
- A TCP relay reports the error of the direction that swaps the flag last (`ToldErrorIs`); a packet connection whose
  handshake cannot be reported never reports at all (`ClosedExactlyOnce`).

## Model

| member | source | states |
|---|---|---|
| ServiceLifecycle.StartedService.constructor | sing-box-dev-next/daemon/started_service.go:89 | a new service is IDLE, holds no instance and has built none |
| ServiceLifecycle.StartedService.StartOrReloadEnter | sing-box-dev-next/daemon/started_service.go:169-189 | the section up to the first unlock: refused exactly in STOPPING and FATAL; with an instance stored it goes to STOPPING and keeps it stored while the caller closes it; without one it installs a new instance |
| ServiceLifecycle.StartedService.StartOrReloadReenter | sing-box-dev-next/daemon/started_service.go:181-195 | after the old instance was closed the lock is retaken without looking at the status again; construction may fail into FATAL with the closed instance still stored |
| ServiceLifecycle.StartedService.InstallSection | sing-box-dev-next/daemon/started_service.go:183-195 | STARTING, then the new instance stored, or FATAL |
| ServiceLifecycle.StartedService.StartOrReloadFinish | sing-box-dev-next/daemon/started_service.go:196-207 | STARTED or FATAL, but only if the status is still STARTING |
| ServiceLifecycle.StartedService.CloseServiceSection | sing-box-dev-next/daemon/started_service.go:220-241 | allowed exactly in STARTING and STARTED; closes under the lock; FATAL with the instance kept exactly if there is one and its Close failed, else IDLE without one |
| ServiceLifecycle.StartedService.SetErrorSection | sing-box-dev-next/daemon/started_service.go:243-247 | FATAL from any status |
| ServiceLifecycle.NoInstanceLeaks | sing-box-dev-next/daemon/started_service.go:168-247 | over every interleaving of any number of calls: every instance ever built other than the stored one has had Close called, none twice; a STARTING or STARTED service stores an unclosed one; an IDLE service has closed them all |
| ServiceLifecycle.ClosingWindowIsExclusive | sing-box-dev-next/daemon/started_service.go:176-182 | at most one caller is ever in the unlocked closing window; while it is there the status is STOPPING or FATAL and the stored instance is the one it closes; STOPPING outside the lock means such a caller exists |
| ServiceLifecycle.WindowFreezesInstance | sing-box-dev-next/daemon/started_service.go:176-182 | no action of anybody else replaces, drops or closes the instance while a caller is in its window |
| ServiceLifecycle.FatalIsFinalIffNoWindow | sing-box-dev-next/daemon/started_service.go:168-247 | FATAL can be left exactly when a reload is still in its closing window |
| ServiceLifecycle.FatalStays | sing-box-dev-next/daemon/started_service.go:168-247 | after FATAL without such a reload nothing is built, stored or closed again, whatever is called |
| ServiceLifecycle.FatalWithOpenWindow | sing-box-dev-next/daemon/started_service.go:176-182 | a run that reports an error while a reload closes the old instance: FATAL with the window open |
| ServiceLifecycle.WindowLeavesFatal | sing-box-dev-next/daemon/started_service.go:181-183 | a reload in its window takes the service from FATAL back to STARTING |
| ServiceLifecycle.StatusHasCause | sing-box-dev-next/daemon/started_service.go:168-247 | over every interleaving: FATAL exactly if something went wrong (reported error, failed construction, Start or Close) since a reload last came back from its window; STARTED exactly if a Start succeeded in STARTING and nobody reloaded, closed or reported since; IDLE exactly if closed well or never used, and nobody reloaded or reported since |
| ServiceLifecycle.StartedMeansRunning | sing-box-dev-next/daemon/started_service.go:195-209 | with one reload in flight at a time STARTED means the stored, unclosed instance started successfully |
| ServiceLifecycle.FinishIsHonestIff | sing-box-dev-next/daemon/started_service.go:196-207 | with overlapping reloads the STARTED published by a finishing one is true of the stored instance exactly when a call in flight, waiting for the lock, has seen the Start of that instance succeed |
| ServiceLifecycle.OverlappingReloadsMislabel | sing-box-dev-next/daemon/started_service.go:168-209 | a run of two reloads that publishes STARTED for an instance that has not started |
| ConnectionStream.Subscription.BuildInitialConnectionState | sing-box-dev-next/daemon/started_service.go:776-802 | the opening batch: live connections as if sampled by a first tick, then the history, which leaves the live table alone |
| ConnectionStream.Subscription.ApplyConnectionEvent | sing-box-dev-next/daemon/started_service.go:804-842 | the snapshot change and the message, if any, for a joined, left or unknown event |
| ConnectionStream.Subscription.DrainEvents | sing-box-dev-next/daemon/started_service.go:734-755 | draining queued events into one batch is the same as delivering them one by one |
| ConnectionStream.Subscription.BuildTrafficUpdates | sing-box-dev-next/daemon/started_service.go:844-940 | a tick: the samples in order, then one CLOSED for each snapshot whose connection is gone, in any order |
| ConnectionStream.Subscription.CloseStale | sing-box-dev-next/daemon/started_service.go:911-937 | exactly the snapshots without an active connection are reported and forgotten, with the close time of the last matching history entry |
| ConnectionStream.SubIsExact | sing-box-dev-next/daemon/started_service.go:866-867 | int64 subtraction of two byte counters never wraps |
| ConnectionStream.ClientKnowsTheLiveConnections | sing-box-dev-next/daemon/started_service.go:708-940 | over every run, with any events late, repeated, reordered or missing, the client shows exactly the connections of the server snapshot map |
| ConnectionStream.ReplicaIff | sing-box-dev-next/daemon/started_service.go:708-940 | the client replica equals the snapshots with their counters at every point of a run if and only if each NEW showed the counters that were stored and no counter went backwards |
| ConnectionStream.OpeningNewCanLagBehind | sing-box-dev-next/daemon/started_service.go:776-788 | an opening batch, which reads the totals first, can show less than it stores |
| ConnectionStream.JoinedNewCanRunAhead | sing-box-dev-next/daemon/started_service.go:806-818 | a join, which stores first, can show more than it stores |
| ConnectionStream.OpeningLagsLaterLead | sing-box-dev-next/daemon/started_service.go:776-868 | in every run with growing counters the client shows no more than the snapshot for connections of the opening batch and no less for all later ones, by just the gap of the last NEW |
| ConnectionStream.AheadByTheLastNewIff | sing-box-dev-next/daemon/started_service.go:708-940 | however late a NEW reads the counters, the client differs from each snapshot by exactly the gap of the last NEW of that connection, at every point of a run, if and only if no counter goes backwards |
| ConnectionStream.TickCatchesUp | sing-box-dev-next/daemon/started_service.go:844-940 | right after a tick the snapshots are the active connections with the counters just read, and a client in step shows exactly those |
| ConnectionStream.OnSamplesHere | sing-box-dev-next/daemon/started_service.go:849-909 | what a sampled connection is stored as, and what a client shows for it, whatever the client showed before |
| ConnectionStream.WhatATickSays | sing-box-dev-next/daemon/started_service.go:849-909 | in every run, what a tick says about each active connection: NEW if unknown; an UPDATE by just what its counters grew; if they stand still or fell, a zero UPDATE exactly if the last message about it was a non-zero one, else nothing |
| ConnectionStream.ClosingTimes | sing-box-dev-next/daemon/started_service.go:819-836 | which time a CLOSED carries: event, else record, else now; for a stale one the latest history entry, else now |
| ConnectionStream.LatestIsLast | sing-box-dev-next/daemon/started_service.go:911-925 | of several history entries for a connection the last counts |
| ConnectionStream.HistoryAt | sing-box-dev-next/daemon/started_service.go:790-799 | the history part of the opening batch, entry by entry |
| ConnectionStream.IdleConnectionsFallSilent | sing-box-dev-next/daemon/started_service.go:849-908 | in every run, also with counters going backwards, an UPDATE is only sent for a connection the client shows, a zero UPDATE directly follows a non-zero one among the messages about its connection, and there are at most as many zero as non-zero ones |
| LogStream.LogBuffer.WriteMessage | sing-box-dev-next/daemon/started_service.go:1039-1045 | the locked part of a write: the buffer always holds the last lines since the last reset, up to the limit, and the entry now waits to be emitted |
| LogStream.LogBuffer.ResetLogs | sing-box-dev-next/daemon/started_service.go:107-110 | the locked part of a reset: the buffer is empty and the nil entry waits to be emitted |
| LogStream.LogBuffer.Emit | sing-box-dev-next/daemon/started_service.go:1046 | the waiting entry goes to the subscribers, outside the lock |
| LogStream.DrainRound | sing-box-dev-next/daemon/started_service.go:323-349 | a drained batch changes any client view as the entries one by one would, resets included |
| LogStream.BatchingIsInvisible | sing-box-dev-next/daemon/started_service.go:317-358 | however entries are cut into rounds, the client ends with the lines since the last reset, after the saved ones if there was none |
| LogStream.ClientTailIsBuffer | sing-box-dev-next/daemon/started_service.go:292-316 | saved lines plus every entry pushed later, in order, give a view whose last lines are the server buffer |
| LogStream.SubscriberIsRightIff | sing-box-dev-next/daemon/started_service.go:292-357 | over every interleaving of writers and resets, at any limit, once nobody is between push and emission: after a reset, or as many entries as the server keeps, a subscriber ends with the server lines exactly when what was emitted behind the last emitted reset and what was pushed behind the last pushed one end alike; otherwise exactly when nobody was between push and emission as it subscribed and pushes since were emitted in order |
| LogStream.InOrderSubscriberIsRightIff | sing-box-dev-next/daemon/started_service.go:292-357 | with emissions in push order, at any limit: exactly when nobody was between push and emission, or a reset was emitted since, or as many entries were emitted as the server keeps |
| LogStream.SubscribingDuringAWriteRepeatsIt | sing-box-dev-next/daemon/started_service.go:1038-1046 | a run in which a line pushed before and emitted after a subscription shows twice |
| LogStream.OvertakingWritesAreSwapped | sing-box-dev-next/daemon/started_service.go:1038-1046 | a run in which two overtaking writes are shown in the wrong order |
| TransportStart.StartTransports | sing-box-dev-next/dns/transport_manager.go:90-146 | success exactly when every dependency is registered, the dependency graph has no cycle and no Start call fails; the start order has each server once and after its dependencies; on success it has all of them; otherwise the error is sound |
| TransportStart.StartRound | sing-box-dev-next/dns/transport_manager.go:95-121 | a round starts only ready servers, and one that starts nothing leaves every unstarted server with an unstarted dependency |
| TransportStart.LintTransport | sing-box-dev-next/dns/transport_manager.go:124-143 | when stuck it terminates with a sound diagnosis: a path of unstarted servers whose last dependency is already on it, or an unregistered dependency of an unstarted server |
| TransportStart.AcyclicByOrder | sing-box-dev-next/dns/transport_manager.go:90-146 | a complete start order exists only without cycles and without missing servers |
| TransportStart.PathDescends | sing-box-dev-next/dns/transport_manager.go:99-107 | along dependency edges the position in the start order strictly falls |
| TransportStart.DiagnosisRefutes | sing-box-dev-next/dns/transport_manager.go:124-143 | a reported cycle is one, a reported missing server is missing |
| TransportRegistry.TransportManager.constructor | sing-box-dev-next/dns/transport_manager.go:37-46 | an empty registry |
| TransportRegistry.TransportManager.Create | sing-box-dev-next/dns/transport_manager.go:245-300 | the whole new registry and the result for each outcome of construction, stage start and close |
| TransportRegistry.TransportManager.RecordDependencies | sing-box-dev-next/dns/transport_manager.go:280-283 | the tag is appended under each dependency |
| TransportRegistry.TransportManager.ElectDefault | sing-box-dev-next/dns/transport_manager.go:284-299 | election of the default and of the fakeip server, with the errors that come after registration |
| TransportRegistry.TransportManager.Remove | sing-box-dev-next/dns/transport_manager.go:197-243 | the whole new registry and the result |
| TransportRegistry.TransportManager.ResignDefault | sing-box-dev-next/dns/transport_manager.go:213-238 | the inverted fakeip test on the next default, the refusal while depended on, the clean-up |
| TransportRegistry.TransportManager.ForgetDependencies | sing-box-dev-next/dns/transport_manager.go:229-238 | the clean-up loop with its length-1 delete |
| TransportRegistry.TransportManager.Find | sing-box-dev-next/dns/transport_manager.go:205-207 | position of the first identical server, or -1 |
| TransportRegistry.TransportManager.Filter | sing-box-dev-next/dns/transport_manager.go:234-236 | the entries other than the tag, in order |
| TransportRegistry.TransportManager.StartServers | sing-box-dev-next/dns/transport_manager.go:59-77 | default check, fallback, and the start loop on the registry as it is then: success exactly for complete, acyclic dependencies without failing Start |
| TransportRegistry.CreateCoherence | sing-box-dev-next/dns/transport_manager.go:263-279 | every Create, failed ones included, keeps list and tag map in bijection and does not panic |
| TransportRegistry.RemoveCoherence | sing-box-dev-next/dns/transport_manager.go:197-211 | every Remove, refused ones included, takes exactly the named server out of both |
| TransportRegistry.FallbackCoherence | sing-box-dev-next/dns/transport_manager.go:64-73 | installing the fallback keeps the bijection exactly when its tag is free |
| TransportRegistry.RegistryStaysCoherent | sing-box-dev-next/dns/transport_manager.go:52-300 | over every run with successful Creates and any Removes the bijection holds, no panic is reachable and the fallback tag is always free, whatever dependencies servers list and however often |
| TransportRegistry.RemoveKeepsRecordsIff | sing-box-dev-next/dns/transport_manager.go:229-238 | a successful Remove keeps the reverse dependency records of the servers that stay, exactly when it does not forget one: a dependency listed twice whose only other entry is a live dependent |
| TransportRegistry.PassesKeep | sing-box-dev-next/dns/transport_manager.go:230-237 | the exact fate of another name in an entry after n rounds of the clean-up |
| TransportRegistry.RemoveNeverStrands | sing-box-dev-next/dns/transport_manager.go:225-238 | with repeat-free dependency lists, over every run with successful Creates and any Removes, Remove never succeeds while a live server depends on the one named |
| TransportRegistry.RefusedRemoveUnregisters | sing-box-dev-next/dns/transport_manager.go:197-227 | over every such run, with any dependency lists, a refused Remove has taken the server out of list and map all the same |
| TransportRegistry.TwiceIsReachable | sing-box-dev-next/dns/transport_manager.go:245-300 | three Creates reach the registry in which a dependency is listed twice |
| TransportRegistry.RepeatedDependencyForgets | sing-box-dev-next/dns/transport_manager.go:229-238 | a dependency listed twice makes a later Remove strand a live server without an error |
| TransportRegistry.DefaultNeverFakeIP | sing-box-dev-next/dns/transport_manager.go:284-299 | over every run of Create and Start the default is never a fakeip server |
| TransportRegistry.RemoveElectsFakeIPIff | sing-box-dev-next/dns/transport_manager.go:213-223 | Remove makes a fakeip server the default exactly when it removes the default and a fakeip server is then first in the list |
| TransportRegistry.FakeIPDefaultIsReachable | sing-box-dev-next/dns/transport_manager.go:213-223 | two Creates and a Remove that make a fakeip server the default |
| TransportRegistry.ReplacingTheDefault | sing-box-dev-next/dns/transport_manager.go:263-292 | replacing a server leaves a stale default exactly when it was the default without being named as such |
| TransportRegistry.StaleDefaultIsReachable | sing-box-dev-next/dns/transport_manager.go:263-292 | two Creates that leave a default which is no longer registered |
| TransportRegistry.DefaultOfRun | sing-box-dev-next/dns/transport_manager.go:284-292 | over every error-free run of Create and Start the default is, under a named tag, the server registered with it (none while there is none), replacements included; without a named tag the server that came first |
| TransportRegistry.OneFakeIP | sing-box-dev-next/dns/transport_manager.go:293-298 | over such runs at most one fakeip server is registered, the one on record |
| TransportRegistry.CreateEntersUnless | sing-box-dev-next/dns/transport_manager.go:245-279 | when each early error comes, that nothing has changed then, and that otherwise the server is entered last |
| TransportRegistry.ElectByResult | sing-box-dev-next/dns/transport_manager.go:284-299 | who becomes default and fakeip server, and when each fakeip error comes |
| TransportRegistry.RemoveByResult | sing-box-dev-next/dns/transport_manager.go:197-243 | when each result of Remove comes, who is default afterwards, and that the others keep their order |
| DnsCache.ExtractNegativeTTL | sing-box-dev-next/dns/client.go:98-110 | the smaller of TTL and MINIMUM of the first SOA record, if there is one |
| DnsCache.MinTTL | sing-box-dev-next/dns/client.go:281-289 | the running minimum over the three sections |
| DnsCache.TimeToLive | sing-box-dev-next/dns/client.go:275-292 | negative TTL, else record minimum, else the rewrite value over both |
| DnsCache.TTLOfFollowsTheRule | sing-box-dev-next/dns/client.go:275-292 | that value is the unique one satisfying: rewrite value; or the positive min(SOA TTL, MINIMUM) of an answerless reply; or the least positive record TTL, 0 if there is none |
| DnsCache.NegativeTTLIsForAnswerless | sing-box-dev-next/dns/client.go:275-289 | authority records set no lifetime for a reply with answers; without, TTL and MINIMUM of the first SOA record bound it if positive |
| DnsCache.FirstSoaIsFirst | sing-box-dev-next/dns/client.go:98-110 | the SOA record used is the first of the section |
| DnsCache.NegativeCachingFollowsRfcIff | sing-box-dev-next/dns/client.go:276-289 | an answerless reply lives for min(SOA TTL, MINIMUM), as section 5 of RFC 2308 asks, exactly when that is positive or no record has a positive TTL |
| DnsCache.ZeroMinimumIsCached | sing-box-dev-next/dns/client.go:276-289 | a name error with MINIMUM 0 is given the TTL of its SOA record |
| DnsCache.RewriteTTLs | sing-box-dev-next/dns/client.go:293-297 | every record of the message, in place, gets the TTL and nothing else changes |
| DnsCache.Prepare | sing-box-dev-next/dns/client.go:256-297 | trimming, choosing and writing the TTL |
| DnsCache.TrimAnswers | sing-box-dev-next/dns/client.go:257-272 | each HTTPS answer loses the hints the strategy excludes |
| DnsCache.AcceptedBy | sing-box-dev-next/dns/client.go:240-247 | an answer passes without a check, or as a non-empty success whose addresses the check takes |
| DnsCache.MessageAddresses | sing-box-dev-next/dns/client.go:511-531 | addresses of the answers, hints included, in order |
| DnsCache.TrimTouchesHintsOnly | sing-box-dev-next/dns/client.go:257-272 | only answers of HTTPS queries, under a single-family strategy, and only in their hints |
| DnsCache.KeepParamsOfOne | sing-box-dev-next/dns/client.go:257-272 | which hint each strategy drops |
| DnsCache.KeepParamsConcat | sing-box-dev-next/dns/client.go:257-272 | hints are dropped one by one, in place |
| DnsCache.AddressesOfOne | sing-box-dev-next/dns/client.go:511-531 | the addresses of one record |
| DnsCache.AddressesConcat | sing-box-dev-next/dns/client.go:511-531 | addresses of several records, in order |
| DnsCache.FixedStatus | sing-box-dev-next/dns/client.go:556-568 | a reply with the code and no records |
| DnsCache.Client.StoreCache | sing-box-dev-next/dns/client.go:372-395 | nothing for TTL 0; else the entry under question, or question and server, with its expiry |
| DnsCache.Client.LoadResponse | sing-box-dev-next/dns/client.go:437-509 | what a look-up returns and removes; the hit is a fresh copy with aged TTLs and no cached message is written |
| DnsCache.AgedCopy | sing-box-dev-next/dns/client.go:476-508 | the aged copy |
| DnsCache.Client.Deliver | sing-box-dev-next/dns/client.go:239-313 | check, trim, rewrite, store and return one reply |
| DnsCache.Client.Query | sing-box-dev-next/dns/client.go:181-313 | loop and rejection-cache refusals, transport outcome, delivery |
| DnsCache.Client.Exchange | sing-box-dev-next/dns/client.go:112-313 | the whole exchange: cache and outcome as functions of the cache before and of what the surroundings decide |
| DnsCache.Client.QuestionCache | sing-box-dev-next/dns/client.go:426-435 | cached addresses or code |
| DnsCache.Client.LookupToExchange | sing-box-dev-next/dns/client.go:397-424 | cached result, else that of a plain exchange |
| DnsCache.AgedIsTimeLeft | sing-box-dev-next/dns/client.go:476-506 | ageing a uniformly stored message gives every record the seconds left modulo 2^32; no subtraction wraps exactly when no more is left than was granted |
| DnsCache.StoreThenLoadAges | sing-box-dev-next/dns/client.go:372-395 | store at s with lifetime T, look up at t: a hit exactly up to s + T, every TTL the whole seconds left, within T exactly while the clock has not gone back a second |
| DnsCache.HitIsLastStored | sing-box-dev-next/dns/client.go:437-509 | over every run of overlapping queries, with any evictions and clock readings, a hit is the last reply stored under its key, with only the TTLs aged |
| DnsCache.RunIsFaithful | sing-box-dev-next/dns/client.go:239-300 | only accepted successes and name errors with a positive TTL by the rule are ever stored, and each entry is the last one stored under its key |
| DnsCache.ExchangeIsItsEvents | sing-box-dev-next/dns/client.go:143-313 | an exchange is a look-up that hits, or a look-up and the delivery of its reply, so overlapping exchanges are runs of those events |
| DnsCache.CacheOffTouchesNothing | sing-box-dev-next/dns/client.go:142-143 | a query with the cache disabled neither reads nor changes it |
| DnsCache.WideSubnetNeverCaches | sing-box-dev-next/dns/client.go:119-142 | with a client-wide subnet no query is simple, so nothing is ever stored |
| DnsCache.OutcomeByCause | sing-box-dev-next/dns/client.go:112-313 | every outcome of an exchange and exactly when it comes |
| DnsCache.LookupIsAnExchange | sing-box-dev-next/dns/client.go:397-424 | a look-up of addresses is the exchange of its query, told as addresses or a code; its own look at the cache changes nothing |
| DnsCache.HitComesFromAReply | sing-box-dev-next/dns/client.go:173-178 | over every run a hit goes back to a checked success or name error given to the same question, with independent caches by the same server |
| DnsCache.StoredReplyHits | sing-box-dev-next/dns/client.go:298-300 | over every run such a reply is a hit, until its expiry and until purged, evicted, looked up too late or replaced, for every query sharing its entry: with the shared cache whichever server it asks |
| DnsCache.RemovedMisses | sing-box-dev-next/dns/client.go:372-395 | over every run what was purged or evicted is no hit until a new reply comes |
| DnsCache.HitMeetsCheckIff | sing-box-dev-next/dns/client.go:173-178 | over every run, a hit satisfies the check of the query it is served to exactly when the reply last stored under the key does; it satisfies the check it was stored under, HTTPS trimming apart |
| DnsCache.HitIsOwnAnswerIff | sing-box-dev-next/dns/client.go:173-178 | over every run, a hit is what the own options of the query would have made of the reply last stored exactly when its strategy trims that reply alike and the TTL it would choose is the one left |
| DnsCache.HitsSkipTheCheck | sing-box-dev-next/dns/client.go:173-178 | two queries: the second is served an address its own check refuses |
| QueryLock.CacheLock.LoadOrStore | sing-box-dev-next/dns/client.go:145-151 | the first query for a question enters a fresh channel, the others get the one entered |
| QueryLock.CacheLock.LoadResponse | sing-box-dev-next/dns/client.go:173-178 | a hit returns, a miss goes on |
| QueryLock.CacheLock.StoreResponse | sing-box-dev-next/dns/client.go:298-300 | storing a reply |
| QueryLock.CacheLock.DeleteEntry | sing-box-dev-next/dns/client.go:153-154 | first deferred step of a leader |
| QueryLock.CacheLock.CloseChannel | sing-box-dev-next/dns/client.go:155-156 | second deferred step |
| QueryLock.LockSafety | sing-box-dev-next/dns/client.go:143-172 | over all interleavings: an entry belongs to one live leader, a question has at most one, no channel is closed twice, each only by the leader that made it, and a waiter's channel is closed or still held by the one who must close it |
| QueryLock.NobodyIsStranded | sing-box-dev-next/dns/client.go:143-172 | an unfinished query can move, or the holder of its channel can |
| QueryLock.QueriesAreShort | sing-box-dev-next/dns/client.go:143-179 | a query takes at most seven lock and cache steps |
| QueryLock.QuiescentMeansUnlocked | sing-box-dev-next/dns/client.go:143-172 | when all queries are over the lock is empty and every channel was closed exactly once |
| QueryLock.ResumedWaiterHits | sing-box-dev-next/dns/client.go:173-178 | over all interleavings: once an answer is cached under its key and until that is evicted, a query that comes to look, resumed waiters included, ends with the answer cached then and never goes upstream, whatever happens in between and later |
| QueryLock.StoredIsCached | sing-box-dev-next/dns/client.go:298-300 | a stored reply is cached under the key of its query |
| QueryLock.CacheIsLastStored | sing-box-dev-next/dns/client.go:298-300 | over every run the cache holds, under each key, exactly the last answer received for it and meant to be stored, unless evicted since |
| QueryLock.AnswersHaveASource | sing-box-dev-next/dns/client.go:143-313 | a query ends with the answer it received if it asked, else with a cached one or after giving up |
| QueryLock.SingleFlight | sing-box-dev-next/dns/client.go:143-179 | as long as replies are stored and stay, a question goes upstream at most once however many queries interleave, with the shared cache, or with one cache per server if all are for the same server |
| QueryLock.LeadersAskOnce | sing-box-dev-next/dns/client.go:159-179 | with one cache per server, leaders ask each server for a question at most once |
| QueryLock.WaitersForOtherServersAllAsk | sing-box-dev-next/dns/client.go:159-179 | a run in which two queries that waited for a leader of another server both ask theirs |
| DnsRouter.OverrideLaws | sing-box-dev-next/dns/router.go:157-168 | a named option wins, an unnamed one is kept, a disabled cache stays disabled; options in a row act like their combination; nothing changes exactly when nothing named differs |
| DnsRouter.LegacyFillsGaps | sing-box-dev-next/dns/router.go:169-176 | legacy options of a server act as options that everything named overrides; filling twice changes nothing |
| DnsRouter.GatherIsLastNamed | sing-box-dev-next/dns/router.go:178-190 | each field of the options gathered on the way is that of the last route-options rule to name it, else the one started from |
| DnsRouter.Router.MatchDNS | sing-box-dev-next/dns/router.go:120-199 | the search, for any start index: at a route rule with the server it names, at a rejecting or predefined rule without one, past the last rule with the default |
| DnsRouter.FindRuleIsFirst | sing-box-dev-next/dns/router.go:120-199 | the search ends at the first rule it may stop at, with the options of the route-options rules walked over, else at the default server |
| DnsRouter.Router.Try | sing-box-dev-next/dns/router.go:252-302 | one pass of the retry loop |
| DnsRouter.Router.RetryLoop | sing-box-dev-next/dns/router.go:250-304 | the loop computes the recursion "search, ask, and after a rejection search on behind the rule tried" |
| DnsRouter.RetriesMoveForward | sing-box-dev-next/dns/router.go:250-304 | rules tried are address-limited, strictly increasing, each refused (or, for a Lookup, failed) once; at most one call per address-limited rule plus one; the result is the last reply |
| DnsRouter.ResolveIsFirstAccepted | sing-box-dev-next/dns/router.go:250-304 | the loop ends at the first rule that stops the search on the metadata of its pass and is not rejected: each rule before did not stop it or was tried in vain; without one, at the default server |
| DnsRouter.AnswerIsAccepted | sing-box-dev-next/dns/router.go:250-304 | an answer is the last reply, from the rule the loop ended at, and one that does not send it on |
| DnsRouter.NoRuleIsSkipped | sing-box-dev-next/dns/router.go:120-199 | every rule before the one the loop ends at did not match, is address-limited in a query that is none, only sets options, names a server that is unknown or fakeip for a Lookup, or was tried in vain |
| DnsRouter.ReplyOfCall | sing-box-dev-next/dns/router.go:277-302 | what each call is told by caches or server under the check of its own rule, when it is sent back to the rules, and the addresses it leaves |
| DnsRouter.ResultIsOfTheLastRule | sing-box-dev-next/dns/router.go:256-276 | a loop ends as its last rule says |
| DnsRouter.OptionsByPriority | sing-box-dev-next/dns/router.go:157-176 | each option a call goes out with: the route, else the last rule passed that names it, else the server, else the default |
| DnsRouter.LookupAvoidsFakeIP | sing-box-dev-next/dns/router.go:370-412 | Lookup asks no fakeip server while the default is none |
| DnsRouter.FakeIPIsAskedUncached | sing-box-dev-next/dns/router.go:153-159 | a fakeip server chosen by a rule is always asked with the cache disabled |
| DnsRouter.RuledCallsGoToTheirServer | sing-box-dev-next/dns/router.go:147-176 | over every loop a call made by a rule goes to the registered server that rule names |
| DnsRouter.UnruledCallsGoToDefault | sing-box-dev-next/dns/router.go:198 | a call made by no rule goes to the default server |
| DnsRouter.NilServerIff | sing-box-dev-next/dns/router.go:256-282 | the client is called on a nil server exactly when an Exchange ends on a rule rejecting with "reply", or the default is missing |
| DnsRouter.ReplyRejectionReachesTheClient | sing-box-dev-next/dns/router.go:256-282 | an Exchange that ends on such a rule |
| DnsRouter.StartMattersIff | sing-box-dev-next/dns/router.go:250-254 | for every field: a pass started from other options makes the same call, and its options agree in the field exactly when a rule passed or the route names it, or the starting options come to the same once server and default have filled them |
| DnsRouter.RetryLosesDisabledCacheIff | sing-box-dev-next/dns/router.go:250-254 | a retry loses a disabled cache exactly when a route-options rule before its start disabled it and neither the caller, nor a rule passed since, nor the route or its fakeip server does |
| DnsRouter.RetryForgetsRouteOptions | sing-box-dev-next/dns/router.go:250-254 | a run of two calls, the first refused as empty, that does lose it |
| DnsGuarantees.LookupNeverAsksFakeIP | sing-box-dev-next/dns/router.go:370-412 | over every run of Create and Start a Lookup without a chosen server never asks a fakeip server |
| DnsGuarantees.FakeIPAnswersAreNeverStored | sing-box-dev-next/dns/router.go:153-159 | over such runs no reply of a fakeip server changes the cache |
| DnsGuarantees.StartAfterAnyRun | sing-box-dev-next/dns/transport_manager.go:52-146 | Start after any error-free run, refused Removes included: no clash with the fallback, and success exactly when dependencies are complete and acyclic and no server fails |
| RouteRules.OptionsComposeIff | sing-box-dev-next/route/route.go:585-631 | the options of two matching rules act like one rule naming the later over the earlier, except for a first original destination of a connection without any destination |
| RouteRules.OptionsReplaceWhatTheyName | sing-box-dev-next/route/route.go:585-631 | what options do to each part of the metadata |
| RouteRules.EffectsByKind | sing-box-dev-next/route/route.go:576-655 | what each kind of rule does to the metadata |
| RouteRules.Router.ApplyRedirect | sing-box-dev-next/route/route.go:585-602 | the destination overrides, remembering the first original destination |
| RouteRules.Router.MatchRule | sing-box-dev-next/route/route.go:552-675 | the walk over the rules |
| RouteRules.WalkFindsTheFirst | sing-box-dev-next/route/route.go:552-675 | the selected rule is the first terminal one to match the metadata as threaded through the rules before it; an error is that of the first failing step |
| RouteRules.SelectedIsFirstToHold | sing-box-dev-next/route/route.go:552-675 | no rule before the selected one both matched and could hold the connection: which kinds let pass, and when |
| RouteRules.ConnectionFollowsItsRule | sing-box-dev-next/route/route.go:120-170 | a connection goes to the outbound its rule names if that is registered and supports the network, without a rule to the default; is refused or handed to DNS exactly by rules that say so; fails exactly if the walk did |
| RouteRules.Router.RouteConnection | sing-box-dev-next/route/route.go:97-186 | a bound inbound goes to the outbound it is bound to; otherwise the selected rule decides as above; dispatch always has an outbound that supports the network |
| RouteRules.Router.UseOutbound | sing-box-dev-next/route/route.go:128-137 | missing or unsupported outbounds are errors |
| RouteRules.DispatchIsNilIff | sing-box-dev-next/route/route.go:664-672 | without pre-matching dispatch sees no outbound exactly when the caller supports bypassing and a bypass rule without outbound is selected; so never from routeConnection or routePacketConnection |
| RouteRules.DirectRulesAreInert | sing-box-dev-next/route/route.go:656-672 | a rule with the direct action can be removed anywhere without changing what is selected or with which metadata |
| RouteRules.OriginalDestinationSticks | sing-box-dev-next/route/route.go:587-589 | a known original destination survives all later overrides |
| BinaryCodec.WriteUvarint | sing-box-dev-next/adapter/experimental.go:72 | base-128 encoding appended to the buffer |
| BinaryCodec.UvarintRoundTrip | sing-box-dev-next/adapter/experimental.go:102 | reading back the encoding of any 64-bit value found anywhere in the data |
| BinaryCodec.UvarintLocal | sing-box-dev-next/adapter/experimental.go:102 | a read depends on no later byte and fails when cut |
| BinaryCodec.UvarintBytes | sing-box-dev-next/adapter/experimental.go:72 | the bytes of a length: groups of seven bits, least first, high bit on all but the last |
| BinaryCodec.UvarintFits | sing-box-dev-next/adapter/experimental.go:102 | no value read exceeds 64 bits |
| BinaryCodec.Reader.ReadByte | sing-box-dev-next/adapter/experimental.go:96-101 | next byte or end of data |
| BinaryCodec.Reader.ReadFull | sing-box-dev-next/adapter/experimental.go:106-107 | the next n bytes, or an error and what there is |
| BinaryCodec.Reader.ReadUvarint | sing-box-dev-next/adapter/experimental.go:102 | the loop computes the decoding, overflow errors included |
| BinaryCodec.SavedBinary.MarshalBinary | sing-box-dev-next/adapter/experimental.go:66-93 | version, content, seconds and tag in order |
| BinaryCodec.SavedBinary.UnmarshalBinary | sing-box-dev-next/adapter/experimental.go:95-128 | succeeds exactly when the data decodes, and then holds the decoded value; the tag is untouched on failure |
| BinaryCodec.SavedBytes | sing-box-dev-next/adapter/experimental.go:66-93 | where each part of a record stands |
| BinaryCodec.TimeBytes | sing-box-dev-next/adapter/experimental.go:80 | the seconds as a 64-bit two's complement number in eight bytes |
| BinaryCodec.FirstByteWeighsMost | sing-box-dev-next/adapter/experimental.go:80 | big-endian order |
| BinaryCodec.VersionIsIgnored | sing-box-dev-next/adapter/experimental.go:96-101 | records that differ in the version byte decode alike |
| BinaryCodec.SavedRoundTrip | sing-box-dev-next/adapter/experimental.go:66-128 | decoding an encoding, whatever follows it, gives back content, seconds and tag for all lengths |
| BinaryCodec.TruncatedIsRejected | sing-box-dev-next/adapter/experimental.go:95-128 | every strict prefix of an encoding is rejected |
| BinaryCodec.SavedLocal | sing-box-dev-next/adapter/experimental.go:95-128 | any successful decoding uses exactly its first bytes: longer cuts decode alike, shorter ones fail |
| BinaryCodec.SameEncodingIff | sing-box-dev-next/adapter/experimental.go:66-93 | two values encode alike exactly when they agree up to the second |
| BinaryCodec.MarshalFrames | sing-box-dev-next/adapter/fakeip_metadata.go:20-32 | frames with their length modulo 65536 |
| BinaryCodec.FrameBytes | sing-box-dev-next/adapter/fakeip_metadata.go:28-29 | a frame: two bytes of length, high byte first, then the field |
| BinaryCodec.UnmarshalFrames | sing-box-dev-next/adapter/fakeip_metadata.go:34-50 | fields, an error for a cut field, a panic for a cut length |
| BinaryCodec.FramesRoundTripIff | sing-box-dev-next/adapter/fakeip_metadata.go:20-50 | the frames give back the fields exactly when every field is shorter than 65536 bytes |
| BinaryCodec.CutFramesAreRejected | sing-box-dev-next/adapter/fakeip_metadata.go:34-50 | every strict prefix of the frames is rejected |
| BinaryCodec.MarshalMetadata | sing-box-dev-next/adapter/fakeip_metadata.go:20-32 | the frames of the four encoded elements, or nothing if one cannot be encoded |
| BinaryCodec.FakeIPMetadata.UnmarshalBinary | sing-box-dev-next/adapter/fakeip_metadata.go:34-50 | complete exactly when the four frames are there and their elements decode, with these; a panic exactly for a cut length; earlier fields are set also when a later one fails |
| BinaryCodec.MetadataIsFrames | sing-box-dev-next/adapter/fakeip_metadata.go:34-50 | reading element by element is reading four frames and decoding each |
| BinaryCodec.MetadataRoundTripIff | sing-box-dev-next/adapter/fakeip_metadata.go:20-50 | given inverse element codecs the metadata comes back if every element is encoded in fewer than 65536 bytes, and given canonical ones only then |
| BinaryCodec.CutMetadataIsRejected | sing-box-dev-next/adapter/fakeip_metadata.go:34-50 | every strict prefix is rejected, whatever the element codecs accept |
| Relay.Session.constructor | sing-box-dev-next/route/conn.go:131 | nothing dialed, an unset flag, both ends open, nobody notified; TCP has two kicks ahead |
| Relay.Session.RemoteDialed | sing-box-dev-next/route/conn.go:94-119 | a failed dial closes and notifies |
| Relay.Session.HandshakeReported | sing-box-dev-next/route/conn.go:120-127 | a failed report closes both ends; TCP notifies, UDP (lines 205-211) does not |
| Relay.Session.KickWriteHandshake | sing-box-dev-next/route/conn.go:289-339 | a failing kick notifies unless the flag was set, closes both ends and stops the launch |
| Relay.Session.CopyReturned | sing-box-dev-next/route/conn.go:253 | a copier's payload loop is over |
| Relay.Session.Shutdown | sing-box-dev-next/route/conn.go:254-263 | after an error both ends close, else the destination is half-closed or closed |
| Relay.Session.SwapFlag | sing-box-dev-next/route/conn.go:264 | who notifies: the second finisher for TCP, the first for UDP |
| Relay.Session.CallOnClose | sing-box-dev-next/route/conn.go:265-267 | the onClose call with the copier's own error |
| Relay.Session.CloseEnds | sing-box-dev-next/route/conn.go:268 | both ends closed |
| Relay.ClosedExactlyOnce | sing-box-dev-next/route/conn.go:131-139 | over every interleaving of launch, kicks and copiers onClose is called at most once; at the end both ends are closed and it was called exactly once, except for a packet connection whose handshake could not be reported, for which it never is |
| Relay.WhenTheOwnerIsTold | sing-box-dev-next/route/conn.go:252-269 | once both ends are up, TCP notifies only after both copiers are past their copy or a kick failed; UDP as soon as one is |
| Relay.NeverStuck | sing-box-dev-next/route/conn.go:252-269 | no copier ever waits for the other |
| Relay.RelaysAreShort | sing-box-dev-next/route/conn.go:252-269 | a relay is over after at most sixteen steps |
| Relay.SideIsClosedIff | sing-box-dev-next/route/conn.go:252-269 | at every point of every run a side is closed exactly if a failure, a last step, or a copier that wrote to it and could not half-close it has closed it |
| Relay.ToldErrorIs | sing-box-dev-next/route/conn.go:252-269 | over all finished runs, what onClose is told: the failure of the launch or a kick, else whether the copier that swapped the flag second (TCP) or first (UDP) ended with an error |
| Relay.TcpReportsTheLastError | sing-box-dev-next/route/conn.go:264-267 | a run in which a TCP relay whose upload failed is reported as clean |
| ClashModes.ExtraClashMode | sing-box-dev-next/experimental/clashapi.go:53-66 | exactly the non-empty modes of default rules anywhere in the tree |
| ClashModes.UniqueNonEmpty | sing-box-dev-next/experimental/clashapi.go:34 | distinct, non-empty, nothing lost |
| ClashModes.SortModes | sing-box-dev-next/experimental/clashapi.go:44 | strictly ascending, same members |
| ClashModes.OwnModes | sing-box-dev-next/experimental/clashapi.go:39-43 | the modes that are not predefined |
| ClashModes.AppendPredefined | sing-box-dev-next/experimental/clashapi.go:45-49 | the predefined ones that occur, in their order |
| ClashModes.CalculateClashModeList | sing-box-dev-next/experimental/clashapi.go:30-51 | own modes strictly ascending, then the predefined ones; nothing missing, nothing else |
| ClashModes.ModeListNamesEachOnce | sing-box-dev-next/experimental/clashapi.go:30-51 | each configured mode once and nothing else |
| ClashModes.PredefinedAre | sing-box-dev-next/experimental/clashapi.go:45-49 | Rule, Global, Direct in this order, each exactly if configured |
| ClashModes.FirstDifferenceDecides | sing-box-dev-next/experimental/clashapi.go:44 | the order is that of a dictionary |
| ClashModes.OccursLaws | sing-box-dev-next/experimental/clashapi.go:53-81 | nesting and splitting rules makes no difference to what occurs |
| ClashModes.ModeListIsCanonical | sing-box-dev-next/experimental/clashapi.go:30-51 | that list is determined by the set of modes: order and nesting of rules do not matter |

## Left out

- The status, log and event subscribers: delivery is not modelled; ConnectionStream allows any loss, repetition and order instead; in LogStream an emission is the arrival at the subscriber, in any order but without loss. `waitForStarted` only listens to them.
- ConnectionStream: the wire form of a connection and its fields other than id, totals and close time.
- TransportStart: a Create running while the start loop is under way; the loop and the diagnosis see one registry.
- TransportRegistry: the Close calls on removed and replaced servers, `Close` of the whole manager, and start stages other than the one with dependencies.
- DnsCache: EDNS and client-subnet edits of messages (a request is "plain" when it brings no extra records of its own); `plain` and the subnet flags stand for the source's test.
- DnsCache: float rounding of the seconds left, exact below lifetimes of 2^24 seconds; the model divides exactly.
- DnsCache: sharing between the cached message and the one returned to the query that stored it, beyond the id that query writes into it.
- DnsCache: the rejection store; whether it rejects is an argument, and writing to it is not modelled. `Lookup` running its two queries in parallel, and `sortAddresses`, add no state.
- DnsRouter: Exchange and Lookup with a caller-chosen server (one call, no loop), the reverse mapping cache, logging. A Lookup's pair of queries counts as one client call with one list of checked addresses.
- RouteRules: what happens before the rules (process search, fakeip and reverse look-up of the destination, legacy inbound options, detours, magic addresses), buffers and packet buffers, trackers, and the rest of `PreMatch`.
- BinaryCodec: the element codecs of FakeIPMetadata, which are arguments; allocation of absurd lengths read from corrupt data, which the program does not survive. `varbin.WriteUvarint` is not part of this model's sources; it is taken to be the standard base-128 encoding.
- Relay: the dialing itself (only its outcome), deadlines, payload copying, and the list of tracked connections with `CloseAll`: easy members. `CloseOnHandshakeFailure` is not part of this model's sources; it is taken to close the connection and call onClose once.
- ClashModes: the library's sort is an insertion sort here; route and DNS rules share one tree type.
- The Rust server and the Python examples: what they show is configuration, queries and client scripts.
