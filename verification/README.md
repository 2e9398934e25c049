# sing-box: DNS engine and daemon, modelled and proved in Dafny

The project models the concurrent core of sing-box. `dafny verify dfyconfig.toml` checks it.

| file | what it is about |
|---|---|
| `DnsRules`, `DnsWalk`, `DnsWalkMachine` | the rule walk of `dns/router.go`: a resumable interpreter that launches exchanges, arms `race` rules, speculates, suspends and wakes up; first as a transition system, then as a class whose methods and loops refine it |
| `DnsReference` | the meaning of a rule list without any concurrency |
| `DnsWalkMeaning`, `DnsWalkTheorems`, `DnsWalkWake`, `DnsWalkChannel`, `DnsWalkSpeculation`, `DnsWalkSparing`, `DnsWalkShield`, `DnsWalkGap` | what every run of the walk keeps, and what follows |
| `DnsWalkVerdicts` | what a verdict means for the caller, said of the query alone |
| `DnsConfig`, `DnsValidated` | rule validation and legacy-mode resolution; accepted lists are the ones the walk theorems are about |
| `DnsModes` | what the mode resolution is for: the engine of a mode ignores nothing its rules ask for |
| `DnsUpdates` | rule-set updates of a running router, with every lookup, decision and store a step of its own |
| `DnsLegacy` | the legacy matching and retry loops |
| `DnsCache`, `DnsInflight`, `DnsSubnet` | the DNS client: cache with two backends, per-key lock, client subnets and cache keys |
| `DnsTransports` | dependency-ordered start-up of DNS transports |
| `ServiceLifecycle`, `ConnectionStream`, `TaildropReader` | the daemon: service lifecycle, connection events and their replay, Taildrop chunk reader |
| `SavedBinary` | the saved-binary codec |

## How concurrency is modelled

The walk reads a clock that moves at every observation of an exchange: a settle pass, the tests of one
visited rule, the readiness test of one armed rule, the await test of the resume loop. A `Schedule` says
at which tick each exchange completes and at which tick each receive from the wake channel ends; "for
every schedule" is "for every interleaving". Receiving is over-approximated: a block may end at any
later tick. The one-slot channel is modelled apart: from what the exchanges send and what the last drain
left, `ReceiveEnds` derives the tick at which a blocked receive ends, and `ChannelRuns` shows that the
schedule made of these ticks is one of those the walk runs under. Rule matching is an arbitrary
function of the rule index and the responses the rule binds; an exchange is an arbitrary function of
transport and options. The lifecycle and the in-flight lock are state machines in which every actor may
take its next step at any time.

Settling (dns/router.go:589, 783) and testing for completion (597, 634, 818) are separate
observations, as in the source. A tagged exchange that completes between the two is not in
`namedResponses` when the rule is matched. The state records that as `late` when the rule shows
(`DnsRules.Shows`): it decides, sets an option, or evaluates into a response that a later rule which shows
reads. At any other rule a lost response makes no difference to the verdict (`DnsReference.StepAgrees`).

## Where the code and its documentation differ

- `docs/configuration/dns/rule_action.md` says that the result depends on server speed only among race
  rules. `AcceptedOrder` is the exact condition: an accepted list keeps this under every matcher, outcome,
  server and schedule exactly when no rule that shows is the first to bind a tag.
  `LateMatchLosesAnswer` is a two-rule list that fails, `GapIsWrong` builds a failing query and schedule
  for every list that can fail, and `UnexposedMeaning` is the safe half. A single run of any list is
  right when it had no late match (`OrderedMeaning`).
- The persistent cache address leaves out the query class, and a flushed entry keeps whole seconds of its
  expiry. For a set of keys and a set of entries the two cache backends agree on every run, wherever
  flushes and clean-ups fall, exactly when no two of the keys differ in the class only, and expiry is off
  or every entry expires at a whole second (`BackendsAgreeIff`). A flushed entry is served as the entry
  itself will be a part of a second later (`FlushedIsAhead`).
- The router refuses a rule-set update after which its rules would need the other mode, but the rule set
  stores the update later. Two updates can be checked before either is stored, and together leave the
  rules invalid for the running mode (`TwoUpdatesBreakMode`). `ModeSafetyIff` says for which routers no
  interleaving does. An update checked before the start and stored after it has the same effect;
  `StartWindowIff` says when it has none.
- An interruption that comes before the new instance is stored has no effect (`EarlyInterruptLost`), and
  neither has one after an error was reported during the start; `InterruptWorksIff` is the exact condition.
- An IPv4-mapped client subnet is written as 16 bytes and read back as 4, so the cache key and the
  message disagree for exactly those subnets (`KeyCoherence`).
- A connection that closes between the two listings of the first message is shown as closed while the
  daemon still tracks it. `GreetReplays` says that this is the only way the two can differ, and
  `SubscriptionReplays` that the difference ends at the first tick or at the connection's closing notice.

## Behaviour without a documented promise

- A legacy retry rebuilds its options from the caller's and so forgets the route-options rules before the
  rejected rule (`RetryForgetsOptions`). `RetryKeepsOptionsIff` says for which attempts nothing is lost.
- Without a configured default the first DNS server that is not fakeip is the default, and stays it when a
  server with its tag is created again (`Create`).

## Model

| member | source | states |
|---|---|---|
| DnsRules.FoldFlags | dns/router.go:371-395 | over any sequence of route options a cache flag is on when the caller or any of them turns it on; the strategy stays the caller's |
| DnsRules.FoldLastWins | dns/router.go:371-395 | the TTL, the timeout and the client subnet with its removal are those of the last rule that sets them |
| DnsRules.FoldKeeps | dns/router.go:371-395 | what no rule sets stays the caller's |
| DnsWalk.IterateProgress | dns/router.go:780-810 | every iteration of the resume loop that does not end it has fewer rules left, or has launched the one speculative exchange, or has the decision pending, or is nearer to the last completion: the loop ends |
| DnsWalk.WalkFrame | dns/router.go:580-768 | a walk never goes back, launches nothing unless it advances or speculates, awaits only exchanges it launched that were unresolved, and drains only when rules are armed |
| DnsWalk.SweepWaits | dns/router.go:812-826 | after a sweep that commits nothing every armed rule was seen waiting for an unresolved exchange |
| DnsReference.ArriveRuns | dns/router.go:580-768 | running the interpreter from any rule it reaches gives the verdict of the whole list |
| DnsReference.StepAgrees | dns/router.go:586-768 | whether a response is settled matters only where a rule that shows reads it: environments that agree on those responses take the same step |
| DnsWalkVerdicts.ExchangesReach | dns/router.go:371-419 | in every run every exchange goes to the server its rule names, over fakeip only where allowed and then without the cache, with the caller's options folded with those of the applied rules and its own; its result is the outcome under the caller's strategy or else the router's; a verdict without an exchange is that of its action |
| DnsWalkVerdicts.DecidesAtFirst | dns/router.go:586-768 | the interpreter decides at the first rule that fires and is decisive; a route is not decisive exactly when its server is unknown, or fakeip where that is not allowed |
| DnsWalkVerdicts.WinsIff | dns/router.go:828-897 | a race rule wins exactly when it is reached, fires and would be decisive |
| DnsWalkVerdicts.RunDecides | dns/router.go:586-768 | a run without a late match decides at the first rule that fires and is decisive, or at a race rule that does and is |
| DnsWalkVerdicts.AtHand | dns/router.go:662-684 | where the interpreter arrives, it has the options of all rules that acted before and under each tag the response last evaluated into it |
| DnsWalkVerdicts.RouteMeans | dns/router.go:716-738 | a route that decides asks the server it names, with the options of all that acted before and its own |
| DnsWalkVerdicts.RespondMeans | dns/router.go:685-715 | a respond gives the response last evaluated into its tag with the server it came from, or says that there is none |
| DnsWalkVerdicts.DefaultMeans | dns/router.go:763-768 | when no rule decides, the default server is asked with the options of all that acted |
| DnsWalkMeaning.SettleInv | dns/router.go:533-554 | settling keeps the whole walk invariant and touches nothing but the settled part |
| DnsWalkMeaning.JudgeRight | dns/router.go:828-897 | an armed rule judged with all it binds settled decides exactly what the interpreter says that rule decides |
| DnsWalkTheorems.WalkKeeps | dns/router.go:580-768 | a walk keeps the invariant, or ends with a verdict that is right for the list |
| DnsWalkTheorems.IterateKeeps | dns/router.go:782-809 | an iteration of the resume loop keeps the invariant, or ends with a verdict that is right for the list |
| DnsWalkTheorems.ExchangeConcludes | dns/router.go:770-810 | every run of every well-scoped list ends as it should, under every schedule |
| DnsWalkTheorems.OrderedMeaning | dns/router.go:580-900 | without a late match at a rule that shows the verdict is the interpreter's, with no winning race rule before it, or that of a winning race rule |
| DnsWalkTheorems.ScheduleIndependence | dns/router.go:580-810 | without race rules every completion order and every speculative flag that causes no late match at a rule that shows gives the interpreter's verdict |
| DnsWalkTheorems.SchedulesAgree | dns/router.go:580-900 | when no race rule wins, any two schedules without a late match at a rule that shows give the same verdict, the interpreter's |
| DnsWalkTheorems.RacePriority | dns/router.go:585-630 | under every schedule, when a rule that is not a race rule decides, every race rule before it was judged, once, at a recorded tick at which everything it binds was resolved, its judgement there committed nothing, and none is still armed |
| DnsWalkTheorems.OptionSnapshots | dns/router.go:371-419 | every exchange uses the caller's options folded with the matched route-options rules below its own rule, then its own; no rule launches twice |
| DnsWalkTheorems.SnapshotFolds | dns/router.go:611-618 | the options in force at a rule are the caller's folded with the applied route-options rules below it, in rule order |
| DnsWalkWake.NoLostWakeup | dns/router.go:508-531 | whenever the loop blocks, something the suspension or an armed rule needs has a wake-up still to come, sent after the last drain, however late it is sent |
| DnsWalkWake.ReceiveEnds | dns/router.go:508-531 | with a one-slot channel and non-blocking sends, every blocked receive ends, at the first tick at which a message is in the slot, no later than the signal of something the loop needs |
| DnsWalkChannel.ChannelRuns | dns/router.go:508-531 | however exchanges complete and signal, a schedule whose every wake-up is the first tick with a message in the slot is one of those the walk runs under |
| DnsWalkWake.ArmedInOrder | dns/router.go:591-629 | in every reachable suspension the armed rules are race rules in strictly increasing order, each waiting, none judged before |
| DnsWalkWake.WaitsPointBack | dns/router.go:533-554 | waits point to earlier rules only, a speculative exchange is never an evaluated response, tagged or anonymous, and a tag's response is that of its one evaluate whatever the settle order |
| DnsWalkShield.UnexposedMeaning | dns/router.go:589-652 | a list in which every tag read by a rule that shows was waited for before has no late match and is right under every schedule |
| DnsWalkShield.TagFreeMeaning | dns/router.go:580-900 | a list that binds no tags means the same under every schedule, without any hypothesis |
| DnsWalkGap.GapIsWrong | dns/router.go:589-652 | for every list in which a rule that shows is the first to bind a launched tag, one query and one schedule, built from the chain of rules that carries the difference to the verdict, give a wrong verdict |
| DnsWalkGap.LateMatchLosesAnswer | dns/router.go:589-652 | evaluate then respond, without race rules, can end at the default server |
| DnsWalkGap.OrderSafeIff | dns/router.go:580-900 | a well-scoped list whose race rules end the walk is right under all matchers, outcomes, servers and schedules exactly when no rule that shows binds a launched tag that only race rules bind before it |
| DnsWalkGap.ExposedFirst | dns/router.go:580-900 | the same condition said of first binders alone: no rule that shows is the first to bind a launched tag |
| DnsWalkSpeculation.SpeculationTransparent | dns/router.go:726-738 | with or without the speculative flags of route rules, the same schedule gives the same verdict, transport, options and outcome |
| DnsWalkSparing.LaunchesInTurn | dns/router.go:662-738 | in every run a query that is not marked speculative is launched only after every race rule before it was judged and declined |
| DnsWalkSparing.SendsAhead | dns/router.go:716-738 | in every suspension a route marked speculative, whose server can be used, has a query under way; no evaluate marked so is waited at; a route that decides uses the query it sent ahead |
| DnsWalkMachine.RuleWalk.SettleFutures | dns/router.go:533-554 | the settle loop refines the settle step |
| DnsWalkMachine.RuleWalk.PendingFutures | dns/router.go:595-607 | the loop finds exactly the unresolved futures a rule binds, named ones first |
| DnsWalkMachine.RuleWalk.IsReady | dns/router.go:816-822 | true exactly when every future of an armed rule is resolved |
| DnsWalkMachine.RuleWalk.SweepArmed | dns/router.go:812-900 | the sweep loop, which removes while it iterates, refines the sweep step |
| DnsWalkMachine.RuleWalk.JudgeArmed | dns/router.go:828-897 | judging an armed rule refines the judge step |
| DnsWalkMachine.RuleWalk.ArmRule | dns/router.go:591-629 | arming refines the arm step, with its immediate sweep |
| DnsWalkMachine.RuleWalk.LaunchEvaluate | dns/router.go:662-684 | the evaluate action refines its step: missing server, drain, anonymous or tagged launch |
| DnsWalkMachine.RuleWalk.RespondNow | dns/router.go:685-715 | the respond action refines its step |
| DnsWalkMachine.RuleWalk.RouteNow | dns/router.go:716-738 | the route action refines its step, with the speculative launch and its reuse |
| DnsWalkMachine.RuleWalk.ActNow | dns/router.go:659-762 | the action switch refines the action step |
| DnsWalkMachine.RuleWalk.VisitRule | dns/router.go:586-654 | one iteration of the walk loop refines the visit step |
| DnsWalkMachine.RuleWalk.WalkRules | dns/router.go:580-768 | the walk loop refines the walk |
| DnsWalkMachine.RuleWalk.ResumeOnce | dns/router.go:782-809 | one iteration of the resume loop refines the iterate step |
| DnsWalkMachine.RuleWalk.ResumeExchange | dns/router.go:780-810 | the resume loop ends and refines the resume step |
| DnsWalkMachine.RuleWalk.ExchangeWithRules | dns/router.go:770-778 | the verdict is that of the transition system, and on a well-scoped list without a late match it is right for the list |
| DnsConfig.OrderIrrelevant | dns/router.go:1411-1442 | mode flags do not depend on the order of rules |
| DnsConfig.FlagsUnion | dns/router.go:1411-1416 | the flags of two groups of rules merge into those of their union, errors included |
| DnsConfig.NodesArePaths | dns/router.go:1443-1466 | the rules looked at are exactly those the paths of a rule tree lead to |
| DnsModes.ModeMeans | dns/router.go:1418-1429 | a list runs in legacy mode exactly when some rule asks for it and none for anything modern, and in the other mode exactly when a rule asks for something modern and none for a strategy, or none asks for either |
| DnsModes.LegacyDropsNothing | dns/router.go:1659-1675 | in a list that runs in legacy mode no rule races, evaluates, responds, speculates or matches a response or query type, and the legacy engine grants the options of every rule in full |
| DnsModes.WalkDropsNothing | dns/router.go:371-374 | in a list that starts in the other mode the walk grants the options of every rule in full, and addresses are matched only in a response or by a rule set that has more |
| DnsConfig.DefaultRequirements | dns/router.go:1468-1492 | the flags of a default rule are those of its conditions over the rule sets it names |
| DnsConfig.RuleRequirements | dns/router.go:1443-1466 | the recursive loop computes the OR over the rule tree, or reports a missing rule set |
| DnsConfig.ModeRequirements | dns/router.go:1431-1441 | the loop computes the OR over all rule trees |
| DnsConfig.ValidateDefault | dns/router.go:1622-1656 | accepts exactly the default rules that are valid on their own |
| DnsConfig.ValidateTree | dns/router.go:1596-1620 | accepts exactly the valid trees, and returns what they read: the anonymous response and the tags |
| DnsConfig.ValidateRules | dns/router.go:1512-1573 | accepts exactly the lists in which everything read is provided by a strictly earlier evaluate and no tag is defined twice |
| DnsConfig.CheckUpdate | dns/router.go:264-283 | a started router accepts exactly the updates that keep the list valid for the running mode |
| DnsConfig.ValidateUpdate | dns/router.go:234-283 | before start-up an update is accepted exactly when the router could start with it, and anything goes while closing |
| DnsUpdates.SafeMeans | dns/router.go:1411-1492 | the rules are valid for the running mode exactly when their own flags and the metadata of every lookup allow it |
| DnsUpdates.AtOnce | dns/router.go:234-283 | with all lookups at one moment the interleaved check decides as the update check on that store |
| DnsUpdates.ModeSafetyIff | route/rule/rule_set_local.go:131-155 | from the store a router started with, all interleavings of lookups, decisions and stores keep the rules valid for the running mode exactly unless that is not the legacy mode, nothing fixed disables the legacy mode, and two updated rule sets of different goroutines are named, of which one may come to need the legacy mode or a fixed one needs it |
| DnsUpdates.ModeSafety | route/rule/rule_set_updater.go:40-72 | in legacy mode, and when one goroutine updates every rule set the rules name, no run makes the list invalid for the running mode |
| DnsUpdates.TwoUpdatesBreakMode | dns/router.go:245-283 | two updates of the rule sets of one route rule, each accepted, that together need the legacy mode, and a run that stores both |
| DnsUpdates.StartWindowIff | dns/router.go:141-154 | updates checked before the start and stored after it keep the rules valid for the resolved mode exactly when no rule set, given query types or addresses, would alone start the router in the other mode |
| DnsValidated.BoundTagDefined | dns/router.go:1512-1573 | in an accepted list every bound tag is defined exactly once, by a strictly earlier evaluate |
| DnsValidated.BoundAnonymousDefined | dns/router.go:1536-1545 | in an accepted list a rule that matches or gives back the anonymous response has an earlier evaluate that provides it |
| DnsValidated.AcceptedScoped | route/rule/rule_dns.go:427-535 | accepted lists compile to well-scoped ones |
| DnsValidated.AcceptedMeaning | dns/router.go:580-900 | of every accepted list: the verdict is right without a late match at a rule that shows, and under every schedule race rules were judged before a later rule decided and no rule launched twice |
| DnsValidated.AcceptedOrder | route/rule/rule_dns.go:72-100 | an accepted list is right under all matchers, outcomes, servers and schedules exactly when no rule that shows is the first to bind a tag |
| DnsLegacy.LegacyExtends | dns/router.go:318-337 | legacy route options add the strategy and leave the optimistic cache alone, and otherwise agree with the others |
| DnsLegacy.MatchDns | dns/router.go:285-369 | stops at the first rule that ends the search, with the options of the route-options rules since the previous stop |
| DnsLegacy.ExchangeLegacy | dns/router.go:1124-1176 | the retry loop ends and answers with the least rule that ends the search and is not discarded, or the default transport, for every rule list |
| DnsLegacy.DecidesUnique | dns/router.go:1124-1176 | there is only one deciding rule |
| DnsLegacy.VerdictMeans | dns/router.go:1124-1176 | the deciding rule matched and may be used for this query; each reject method has its own verdict; a route goes to the server it names, to fakeip only where allowed and then without the cache, with its response checked exactly when it limits addresses; every earlier stop was a checked route whose response was rejected |
| DnsLegacy.FirstAttemptFolds | dns/router.go:285-369 | the first attempt uses every eligible route-options rule before it |
| DnsLegacy.RetryForgetsOptions | dns/router.go:1124-1176 | a retry does not |
| DnsLegacy.RetryKeepsOptionsIff | dns/router.go:1124-1176 | for every caller's options an attempt uses all eligible route-options rules before it exactly when every field set before the previous stop is set again since or by the rule itself |
| DnsTransports.FirstUnstarted | dns/transport_manager.go:129-131 | finds the first dependency that is not started |
| DnsTransports.Lint | dns/transport_manager.go:127-143 | the recursion ends, and reports a cycle or a missing dependency that is in the graph |
| DnsTransports.StartPass | dns/transport_manager.go:95-117 | a pass extends a dependency order, and a pass that starts nothing proves that nothing can start |
| DnsTransports.StartTransports | dns/transport_manager.go:90-146 | ends; each transport starts once, after its dependencies; without a start error it succeeds exactly when the graph is closed and acyclic |
| DnsTransports.CompleteOrderAcyclic | dns/transport_manager.go:118-120 | a complete dependency order is the same as a closed acyclic graph |
| DnsTransports.TransportManager.Create | dns/transport_manager.go:245-300 | before and after start-up: keeps list and map in agreement with unique tags, replaces a transport with the same tag, and keeps the default right: never fakeip, with the configured tag, and missing only while no server in the list could be it; nothing changes when the new one cannot start or the old one cannot close; a fakeip server that is due as the default or a second one is an error after the change |
| DnsTransports.TransportManager.Start | dns/transport_manager.go:90-146 | the start-up guarantee for the manager's own list |
| DnsInflight.StepKeeps | dns/client.go:253-338 | every step of every operation keeps holders, table and channels consistent |
| DnsInflight.OneOwner | dns/client.go:291-311 | a key has at most one owner, its entry is the open channel of that live owner, no channel is closed twice |
| DnsInflight.EndedReleased | dns/client.go:246-251 | a channel is closed exactly when no operation holds it |
| DnsInflight.NoStrandedWaiter | dns/client.go:295-303 | a waiter can wake, or a live operation that can go on holds its channel |
| DnsInflight.QuietTableEmpty | dns/client.go:381-417 | when nothing is under way the table is empty and every waiter can go on |
| DnsInflight.OneAsker | dns/client.go:291-311 | in every interleaving an exchange that looks or asks owns its key or was woken for it; until somebody is woken, one exchange at a time looks or asks for a key |
| DnsInflight.EnterMeans | dns/client.go:285-311 | an exchange gets its key when nobody owns it, and otherwise waits for the owner's channel or begins anew as one that may wait |
| DnsInflight.WaitsForOwner | dns/client.go:295-303 | an exchange waits for a different exchange that had its key, which holds the channel until it is closed |
| DnsInflight.WokenAfterAnswer | dns/client.go:295-303 | a waiter is woken only when the exchange it waited for has ended with an answer |
| DnsInflight.EndsAnswered | dns/client.go:313-338 | no exchange ends before its caller gave up or its answer is there |
| DnsInflight.FollowsEvents | dns/client.go:253-338 | in every run an exchange is where its last event left it |
| DnsCache.LeastPositiveUnique | dns/client.go:202-212 | the lifetime does not depend on the order of records |
| DnsCache.ExtractNegativeTTL | dns/client.go:181-193 | the smaller of TTL and minimum of the first SOA record of the authority section, or none when there is none (section 5 of RFC 2308) |
| DnsCache.ComputeTimeToLive | dns/client.go:195-213 | the negative TTL when there is no answer and an SOA record, and otherwise the least positive TTL |
| DnsCache.Response.NormalizeTTL | dns/client.go:215-224 | every record but OPT gets the TTL in place, and nothing else changes |
| DnsCache.Response.ApplyTTL | dns/client.go:632-637 | the response's TTLs become its lifetime or the rewritten TTL |
| DnsCache.Base36Injective | dns/client.go:98-107 | base-36 environment names are unambiguous |
| DnsCache.AddressIgnoresClass | dns/client.go:98-107 | two keys share a persistent address exactly when they differ at most in the query class |
| DnsCache.AddressLayout | dns/client.go:98-107 | the address is the name and type of the question under the transport's tag, with the subnet after a NUL and the environment in base 36 after an SOH |
| DnsCache.Base36Value | dns/client.go:103-105 | the digits stand for the environment in base 36 |
| DnsCache.ServeRight | dns/client.go:569-586 | up to the expiry a backend kept, a fresh hit never promises past it, or keeps its TTLs when expiry is off; a stale hit lives one second inside the optimistic window; nothing else is served |
| DnsCache.FlushedIsAhead | experimental/cachefile/dns_cache.go:19-51 | a flushed entry is served as the entry itself will be as much later as its expiry exceeds a whole second |
| DnsCache.FlushedAlikeIff | experimental/cachefile/dns_cache.go:54-75 | a flushed entry is always served like the queued one exactly when expiry is off or it expires at a whole second |
| DnsCache.FlushShows | experimental/cachefile/dns_cache.go:97-131 | no step of the flusher shows in any load when nothing is cut, even if the entry is queued again or cleaned up meanwhile |
| DnsCache.BackendsAgree | dns/client.go:555-613 | on every run of stores, loads, flush steps and clean-ups, over keys with distinct addresses and entries a flush loses nothing of, both backends, started in agreement, answer alike |
| DnsCache.BackendsAgreeIff | dns/client.go:98-107 | for any set of keys free of the separators of an address and any set of entries, every run in time order from empty backends gives the same answers from both exactly when no two keys differ in the class only, and expiry is off or every entry expires at a whole second |
| DnsCache.ClassesCollideOnDisk | dns/client.go:589-592 | for any two keys that differ in the class only, what is stored under one is served under the other from disk and not from memory |
| DnsCache.FlushCutsOnDisk | experimental/cachefile/dns_cache.go:54-75 | for every other entry a store, a flush and a load at its expiry tell the backends apart |
| DnsCache.Cache.StoreCache | dns/client.go:484-504 | only positive lifetimes are stored, in one backend, and everything stored stays sound when the records carry the lifetime, as both callers prepare them |
| DnsCache.Cache.FlushPending | experimental/cachefile/dns_cache.go:97-131 | a step of the flusher of an address refines the flush step and keeps everything sound |
| DnsCache.Cache.CleanupDNSCache | experimental/cachefile/dns_cache.go:164-221 | removes exactly the flushed entries beyond their window, and no load from then on can tell |
| DnsCache.Cache.LoadResponse | dns/client.go:555-613 | loads what the backend holds, removes from memory exactly what no later load could serve, and while time does not go back says nothing but the truth about a sound entry up to its kept expiry |
| DnsCache.Cache.FinishExchange | dns/client.go:340-365 | stores exactly the accepted definite answers of an unchanged environment: the next load of the key, in the new environment, finds the message with its lifetime, and no load of a key kept elsewhere notices |
| DnsCache.Cache.FinishRefresh | dns/client.go:655-680 | a background refresh stores under the same conditions and with the same effect on loads |
| DnsSubnet.SetIsRead | dns/extension_edns0_subnet.go:62-106 | what is written is what a reader finds, whatever the message held |
| DnsSubnet.SetTouchesOnlySubnet | dns/extension_edns0_subnet.go:62-106 | writing a subnet changes no other option and no other record |
| DnsSubnet.SubnetRoundTrip | dns/extension_edns0_subnet.go:12-106 | a subnet survives the message exactly when it is not IPv4-mapped |
| DnsSubnet.RemovedIsGone | dns/extension_edns0_subnet.go:37-60 | after removal no subnet can be read |
| DnsSubnet.KeyCoherence | dns/client.go:109-126 | the key's subnet is the outgoing message's exactly unless an IPv4-mapped subnet is written (section 7.3.1 of RFC 7871) |
| DnsSubnet.SubnetPriority | dns/client.go:109-120 | key and message use no subnet when it is to be removed, and otherwise the query's own, then the client's default, then the message's |
| DnsSubnet.ReadMeans | dns/extension_edns0_subnet.go:16-35 | a subnet option is read exactly when its address is an IPv4 or IPv6 one, in IPv4 form when mapped, and is invalid exactly when its length exceeds the address |
| DnsSubnet.ProbeUsesSameKey | dns/client.go:535-546 | the lookup's cache probe computes the exchange's key |
| DnsSubnet.PreparedTwice | dns/client.go:684-696 | preparing a prepared message changes no subnet |
| DnsSubnet.ClientSubnetFromMessage | dns/extension_edns0_subnet.go:16-35 | the loops read the first subnet option of the first record that has one |
| DnsSubnet.FindSubnet | dns/extension_edns0_subnet.go:63-79 | the search finds the first subnet option, and otherwise the last record if it is an OPT record |
| DnsSubnet.SetClientSubnet | dns/extension_edns0_subnet.go:62-106 | the result is new and carries the subnet; the caller's message and records are untouched |
| DnsSubnet.RemoveClientSubnet | dns/extension_edns0_subnet.go:37-60 | the message itself when it has no subnet, otherwise a new one without; the caller's is untouched |
| ServiceLifecycle.StepKeeps | daemon/started_service.go:250-351 | every critical section and every call between two keeps the lifecycle invariant |
| ServiceLifecycle.OneInstance | daemon/started_service.go:250-344 | in every interleaving at most one un-closed instance exists, none is closed twice, and STARTED means there is one |
| ServiceLifecycle.InterruptedNeverStarts | daemon/started_service.go:160-167 | a start whose instance was interrupted never publishes STARTED |
| ServiceLifecycle.PublishesIff | daemon/started_service.go:287-306 | a start publishes STARTED exactly when the instance started and was never interrupted |
| ServiceLifecycle.InterruptWorksIff | daemon/started_service.go:160-167 | an interruption takes effect exactly while the status is STARTING and the instance is stored and undecided, and otherwise changes nothing |
| ServiceLifecycle.RestartIsAnnounced | daemon/started_service.go:250-344 | between two STARTED there is a STOPPING followed by a STARTING |
| ServiceLifecycle.EarlyInterruptLost | daemon/started_service.go:160-167 | an interruption while the instance is being built is lost |
| ServiceLifecycle.CloseEffect | daemon/started_service.go:322-344 | whatever interruptions, errors and shutdowns come between: when CloseService gives the lifecycle mutex back, after three steps, the instance it found is closed, the service has none, and STOPPING and IDLE were told |
| ServiceLifecycle.CloseNothing | daemon/started_service.go:326-330 | without an instance CloseService closes nothing, and tells STOPPING and IDLE exactly after an interrupted start |
| ServiceLifecycle.StartEffect | daemon/started_service.go:250-309 | whatever comes between, StartOrReloadService ends refused because closed, with a build error, interrupted, with a start error, or running; in each case exactly these instances were closed and created and these statuses told |
| ServiceLifecycle.OldClosedFirst | daemon/started_service.go:259-271 | at every moment of a StartOrReloadService that has announced STARTING the old instance is closed |
| ServiceLifecycle.ClosedForGood | daemon/started_service.go:254-258 | once the service is shut down no StartOrReloadService does anything |
| ServiceLifecycle.ErrorShown | daemon/started_service.go:346-349 | a reported error is emitted at any time and takes the effect out of an interruption after it |
| ServiceLifecycle.StartedService.DoInterruptStart | daemon/started_service.go:160-167 | refines the interrupt step and keeps the invariant |
| ServiceLifecycle.StartedService.DoSetError | daemon/started_service.go:346-349 | refines the error step and keeps the invariant |
| ServiceLifecycle.StartedService.DoEnterStart | daemon/started_service.go:254-271 | refines the first section of a start or reload and keeps the invariant |
| ServiceLifecycle.StartedService.DoDecide | daemon/started_service.go:287-306 | refines the decision after the instance has started and keeps the invariant |
| ServiceLifecycle.StartedService.DoEnterClose | daemon/started_service.go:326-334 | refines the first section of closing and keeps the invariant |
| ConnectionStream.GreetReplays | daemon/started_service.go:877-903 | after the first message the client shows the daemon's snapshots, exactly when no connection is listed both as active and as closed |
| ConnectionStream.TickReplays | daemon/started_service.go:945-1041 | after a tick the client's open connections are the active ones, with the current counters if none fell |
| ConnectionStream.TickConservesIff | daemon/started_service.go:968-984 | a tick keeps the client's totals equal to the counters exactly when no counter fell |
| ConnectionStream.TickCloses | daemon/started_service.go:1011-1038 | after a tick a connection that is not active any more is shown closed, with the totals and time of its last record, or with the totals the client had and the time of the tick |
| ConnectionStream.HearCloses | daemon/started_service.go:917-943 | a closing notice shows the connection closed at the first time it gives, or now, with its last totals or those the client had; nothing else changes |
| ConnectionStream.GreetShowsEnded | daemon/started_service.go:890-903 | the first message shows the connections listed as closed with their last record |
| ConnectionStream.AnnouncesUnknown | daemon/started_service.go:905-966 | a connection is announced only when the daemon does not know it |
| ConnectionStream.TickRates | daemon/started_service.go:967-1009 | after a tick every active connection is shown with its growth since the last one, and a connection that went quiet with zero |
| ConnectionStream.StreamRates | daemon/started_service.go:945-1041 | the same on every run |
| ConnectionStream.SubscribeShows | daemon/started_service.go:877-903 | the first message gives the client the snapshots, their totals and no rates, except for connections listed both as active and as closed |
| ConnectionStream.StreamMirrors | daemon/started_service.go:789-869 | on every run the client's open connections are the daemon's snapshots |
| ConnectionStream.StreamFollows | daemon/started_service.go:789-869 | on every run agreement outside a set of lagging connections stays, and the set only shrinks |
| ConnectionStream.StreamConserves | daemon/started_service.go:945-1041 | while counters rise, NEW totals plus all deltas are the counters last read |
| ConnectionStream.SubscriptionReplays | daemon/started_service.go:789-869 | for a subscription from its first message on, open connections, totals and quiet rates agree except for connections that message listed twice, and these agree from the first tick or their closing notice on |
| ConnectionStream.SubscriptionSeparated | daemon/started_service.go:970-1009 | on every run two zero updates for one connection have a positive one between them |
| ConnectionStream.Encoder.BuildInitialConnectionState | daemon/started_service.go:877-903 | the two loops refine the first message |
| ConnectionStream.Encoder.ApplyConnectionEvent | daemon/started_service.go:905-943 | refines one notification: a known connection is not announced again, a closing always is |
| ConnectionStream.Encoder.DrainNotices | daemon/started_service.go:835-856 | the drained notifications are applied in order |
| ConnectionStream.Encoder.ReportConnection | daemon/started_service.go:950-1008 | refines the report of one active connection |
| ConnectionStream.Encoder.CloseStale | daemon/started_service.go:1011-1038 | closes exactly the snapshots that are not active, in some order of the map |
| ConnectionStream.Encoder.BuildTrafficUpdates | daemon/started_service.go:945-1041 | refines a tick |
| ConnectionStream.Connections.ApplyEvents | experimental/libbox/command_types.go:129-168 | the client's replay of one message |
| ConnectionStream.Connections.EvictClosedConnections | experimental/libbox/command_types.go:181-190 | removes exactly the closed connections that are too old |
| TaildropReader.ChunkReader.BeginFile | daemon/started_service_taildrop.go:252-255 | a file begins with nothing taken and nothing handed out, and with the bytes still buffered, if any |
| TaildropReader.ChunkReader.Fill | daemon/started_service_taildrop.go:258-274 | takes messages until there is data, the file is over or the stream is at fault; nothing is lost |
| TaildropReader.ChunkReader.Read | daemon/started_service_taildrop.go:257-284 | hands out the next bytes of the file, as many as there are buffered or room for; all bytes taken are handed out or buffered, and less than 1 MiB is unacknowledged |
| TaildropReader.ChunkReader.Acknowledge | daemon/started_service_taildrop.go:278-282 | acknowledges exactly when 1 MiB or more is outstanding; acknowledgements strictly increase, by at least the interval |
| TaildropReader.ChunkReader.FinishFile | daemon/started_service_taildrop.go:286-311 | succeeds exactly when everything was read, only the FileDone is left and the size is the declared one |
| TaildropReader.ChunkReader.FinishedFile | daemon/started_service_taildrop.go:286-311 | the bytes handed out for a finished file are its chunks up to its FileDone, and the next message begins the next file |
| TaildropReader.SendFiles | daemon/started_service_taildrop.go:210-238 | for every message sequence and every pattern of reads, each file reported complete is exactly that file, in order, with its declared size |
| TaildropReader.SendWholeFile | daemon/started_service_taildrop.go:210-238 | a peer that reads to the end succeeds exactly when the file's messages are well formed and add up to the declared size |
| SavedBinary.UvarintRoundTrip | adapter/experimental.go:121-124 | every 64-bit length is read back, whatever follows |
| SavedBinary.UvarintFits | adapter/experimental.go:121-124 | every length read fits 64 bits |
| SavedBinary.Int64RoundTrip | adapter/experimental.go:91-94 | every signed 64-bit time is read back |
| SavedBinary.RoundTrip | adapter/experimental.go:77-168 | decoding an encoded record gives it back to the second, whatever the target held and whatever follows |
| SavedBinary.EncodeInjective | adapter/experimental.go:77-112 | records with one encoding agree to the second |
| SavedBinary.EncodeLayout | adapter/experimental.go:77-112 | the bytes are version 2, content, time, entity tag and URL hash in this order, strings after their lengths in seven-bit groups, the time in two's complement, most significant byte first |
| SavedBinary.DecodeEarlier | adapter/experimental.go:152-154 | a record of an earlier version is read without a URL hash, which stays the target's |
| SavedBinary.TruncatedFails | adapter/experimental.go:114-168 | a record that was cut short, wherever, is refused |
| SavedBinary.HashUntouched | adapter/experimental.go:152-166 | data before version 2 and failed decodings leave the URL hash alone |
| SavedBinary.DecodeBounded | adapter/experimental.go:125-163 | no decoding allocates more than its input holds |
| SavedBinary.WriteUvarint | adapter/experimental.go:83-86 | the loop appends the encoding of the number |
| SavedBinary.Reader.ReadUvarint | adapter/experimental.go:121-124 | the loop reads the number, or reports overflow or end of input |
| SavedBinary.Saved.MarshalBinary | adapter/experimental.go:77-112 | writes the encoding of the record |
| SavedBinary.Saved.UnmarshalBinary | adapter/experimental.go:114-168 | refines decoding, fields read before an error included |

## Left out

- OrderedMeaning: assumes that the run had no late match at a rule that shows, because the source settles and tests in two observations; `AcceptedOrder` says for which lists the assumption can be dropped.
- ScheduleIndependence: makes the same assumption.
- SchedulesAgree: makes the same assumption about both schedules.
- AcceptedMeaning: makes the same assumption for the verdict; its other two parts hold under every schedule.
- NoLostWakeup: says nothing about the channel itself, which `ReceiveEnds` and `ChannelRuns` model.
- LoadResponse: the memory load reads and removes in two steps (dns/client.go:569-579), so it can drop an entry stored in between; the model does both at once.
- ModeSafetyIff: each goroutine has one update under way at a time, and every update begins after the start; a check while closing accepts anything and is not modelled.
- StartWindowIff: the lookups of the early check and of the start are taken at one moment, and one such update is under way.
- ServeRight: whole seconds are rounded down; the rounding of `Duration.Seconds` to a float is not modelled.
- BackendsAgree: without eviction by the LRU cache, which may only lose entries, without failed writes to the cache file, which may bring back an older entry, and without the time resolution of the LRU cache itself.
- BackendsAgreeIff: the same, and with keys free of the separators that `persistentName` inserts.
- StreamConserves: counters and listings are fixed within one handler call, so the two reads of a counter when a connection is announced agree.
- SubscriptionReplays: a connection that the first message lists both as active and as closed is not active at a later tick.
- UvarintFits: end of input inside a number and before it are one error.
- Caller cancellation and timeouts of the rule walk: every exchange completes.
- Rule matching inside `route/rule`, DNS packing, HTTPS hint filtering, EDNS trimming of responses, the rejection store and reverse mapping.
- `validateEvaluateFakeIPRules`, the warnings of the validator, and rule types other than default and logical.
- The lookup plumbing of the router and the legacy lookup loop, which repeats the retry loop per address family.
- `TransportManager.Remove`, `dependByTag`, `Close`, and the fallback server the start-up adds when there is no default.
- The attached service, which sets the service's instance once and outside the lifecycle (daemon/attached_service.go:19).
- `waitForStarted`, subscriptions other than connections, and the rest of the gRPC surface.
- A waiter that wakes does not own the lock, and a cached answer is not checked again; neither is claimed.
- EDNS options other than the subnet keep their place but not their meaning; a subnet held in an option of a local type is not recognised.
