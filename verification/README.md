# libglitchcore: routing, sessions and small protocols

This project models the parts of libglitchcore that decide where a flow goes and who owns a running
engine, and proves what its comments and tests promise of them.

**Routing.** A profile is a list of tiers, each with block, direct and proxy lists. A tier is sorted
by specificity, split into runs and lowered to first-match steps with guard steps between the name
and the address plane. mihomo gets the steps as rule lines with a sub-rule, xray as field rules with
a direct outbound per tier. `Routing`, `Mihomo` and `Xray` hold these transformations in the source's
form: loops are methods proved equal to functions. `Matchers` says what each spelling of a matcher is
read as and `Specificity` which of two entries is the more specific, both without the code's own tests
and keys. `Meaning` says what a tier means over the *set* of its entries and proves that lowering keeps
it; `Policy` says what a profile gives a flow without either engine's rules; `Agreement`, `Guarantees`,
`Monotone`, `NamedFlows`, `Ties`, `TiedFlows` and `LinkTargets` prove both engines against it, and
`Outbounds` what xray's configuration holds beside its rules. Domain, geo, CIDR and process matching is
one predicate shared by both engines, and lower-casing and address parsing are parameters (`Lexicon`), so
every result holds for all of them. Of the matching a result asks at most what the rules rely on
(`Sound`): the two default routes hold every address, `.` matches every name, an address matches as its
CIDR form does, and the list of local networks is not empty.

**Sessions.** Starts and stops of three engines race on one mutex and on a session generation moved
without it. `Session` makes every atomic access one action, but for two pairs no other access can tell
from one, so a run is any interleaving of any number of starts and stops; `SessionProofs` proves what
all runs keep, `SessionRuns` what runs come to, and `Controller` shows the locked code bodies, as methods
over the session's fields, to be moves of that protocol.

**Smaller cores.** The deferred status queue (`StatusQueue`), the half-closing rendezvous pipe
(`BridgePipe`, `BridgePipeProofs`, `BridgePipeClosing`, `BridgePipeRuns`), the movable read deadline
(`BridgeDeadline`), CIDR subtraction on bytes (`Prefixes`), unique proxy names (`ProxyNames`) and the
INI-to-UAPI translation (`Uapi`, `IniLines`, `UapiProofs`, `AwgTables`).

Where the code says more than its comments, the code is followed, and a lemma shows the case:

- A running instance is also torn down by its own start, when xray fails after marking it running
  (`OwnStartTearsDown`); `OnlyOwnersTearDown` therefore has three cases, not two.
- A `Write` and a `Read` under way when the pipe closes may still move a chunk: from their selects
  (`ChunkMovesAfterClose`), and from between their tests of the closed channels
  (`ChunkMovesPastItsTests`). `ClosedPipeMovesExactly` has the exact condition; a call made after the
  close never moves anything.
- A block entry can move a flow to the proxy instead of a block: when it is the first address entry of a
  direct-all profile under IPIfNonMatch and the flow never has an address
  (`OneBlockMovesAFlowToTheProxy`; `BlocksNeverUnblock` has the exact condition).
- Which of a tier's two direct outbounds a flow takes can depend on the order of a list
  (`TieIsDecidedByOrder`; `OrderDecidesExactlyTies` has the exact condition). The choice of block, direct
  or proxy never does, but where xray resolves names the order can then decide whether a name's dial goes
  out or is refused (`TieDecidesADial`; without a tie it never does, `OrderChangesNoDial`).
- In the INI loop the current peer is set exactly while the section is `peer`, so its nil test never
  fires (an invariant of `ReadConfig`).

`dafny verify dfyconfig.toml` checks the whole project.

## Model

| member | source | states |
|---|---|---|
| Matchers.PrefixGivesKind | internal/routing/routing.go:388-410 | In any case of the prefix and with any spaces, `geoip:` and `geosite:` give the category in lower case, `keyword:`, `regexp:`, `regex:` and `process:` the value itself |
| Matchers.PrefixGivesZone | internal/routing/routing.go:399-402 | `domain:` gives the zone as a suffix and `full:` as the one name, without the dots around it; nothing but dots is refused |
| Matchers.PrefixAloneIsRefused | internal/routing/routing.go:389-392 | A prefix with nothing behind it is refused, whatever the prefix |
| Matchers.BareNameGivesZone | internal/routing/routing.go:411-424 | A matcher without a known prefix is a suffix, without the dots around it |
| Matchers.AddressGivesItself | internal/routing/routing.go:385-387 | An address or network is itself, before any prefix is looked for |
| Matchers.RefusedExactly | internal/routing/routing.go:380-424 | A matcher is refused exactly when it is blank, or is no address and is a bare prefix or only dots where a zone is meant |
| Matchers.AcceptedAddressIsANetwork | internal/routing/routing.go:380-433 | Every accepted address has a CIDR form the parser reads, an address without a mask as the network of itself alone |
| Matchers.ListedExactly | internal/routing/routing.go:309-322 | A tier lists an entry exactly when a matcher of the list of its outcome is read as it |
| Matchers.AppInAnyCase | internal/routing/routing.go:28-47 | A process matcher names its app in any case of either |
| Matchers.PlanesReadTheFlow | internal/routing/routing.go:214-235 | An entry of the name, address or app plane reads only the flow's name, addresses or app |
| Matchers.SpacesOfAscii | internal/routing/routing.go:381 | The ASCII characters trimmed as spaces |
| Specificity.OrderIsSpecificity | internal/routing/routing.go:301-355 | The evaluation order is the order of specificity, both ways: app blocks first and other app entries last, then by kind, then more labels or the narrower network, then block, direct, proxy |
| Specificity.SubzoneComesFirst | internal/routing/routing.go:301-303 | A zone comes strictly after every zone below it, whatever their outcomes |
| Specificity.NarrowerNetworkComesFirst | internal/routing/routing.go:357-364 | Of two networks the narrower comes strictly first |
| Specificity.KindsComeInOrder | internal/routing/routing.go:301-308 | full, domain, address or network, keyword and regexp, categories, each strictly first; app blocks before and other app entries after them all |
| Specificity.OutcomesComeInOrder | internal/routing/routing.go:304-305 | At equal rank and breadth block comes before direct before proxy |
| Specificity.EntriesBySpecificity | internal/routing/routing.go:323-326 | A tier's entries never stand before one that precedes them |
| Specificity.MostSpecificDecides | internal/routing/routing.go:246-252 | The most specific match decides the first step, unless another plane's block matches and it is no block itself |
| Specificity.LeadingBlockDecides | internal/routing/routing.go:246-252 | A block nothing of its own plane precedes takes the flow, whatever the other plane says |
| Specificity.DeeperZoneDecides | internal/routing/routing.go:301-303 | Where a flow matches a zone and one below it, the one below decides |
| Routing.AppendClassified | internal/routing/routing.go:309-322 | The loop appends the accepted matchers of a list, in order, with the list's outcome |
| Routing.CollectEntries | internal/routing/routing.go:309-326 | The tier's entries, sorted and stable; EntriesBySpecificity says in which order |
| Routing.SortIsSorted | internal/routing/routing.go:323-326 | Sorting gives a permutation ordered by evaluation key |
| Routing.SortIsStable | internal/routing/routing.go:323-326 | Entries of equal key keep their listed order |
| Routing.GroupByPlane | internal/routing/routing.go:253-258 | Each plane's entries, in their sorted order |
| Routing.FindRunEnd | internal/routing/routing.go:261-266 | The run found is the longest of one plane and one outcome |
| Routing.BuildGuardSteps | internal/routing/routing.go:276-299 | The guard loop, with its merge into the last step, stops at the other plane's last block |
| Routing.FindLastBlock | internal/routing/routing.go:276-283 | Where the other plane's last block is, if there is one |
| Routing.MergeGuards | internal/routing/routing.go:284-299 | Entries join the last guard of their outcome or open one |
| Routing.LowerEntries | internal/routing/routing.go:253-274 | The run loop builds exactly the specified steps |
| Routing.BuildSteps | internal/routing/routing.go:253-326 | Steps of a tier from its lists |
| Routing.BuildAllSteps | internal/mihomoconfig/mihomoconfig.go:301-306 | The steps of all tiers, tier by tier |
| Routing.KeepPlainBlocks | internal/xrayconfig/routing.go:129-131 | Exactly the unguarded block steps, in order |
| Meaning.GuardsMeaning | internal/routing/routing.go:276-299 | Merged guard steps give what guarding by each entry in turn would |
| Meaning.StepsFollowTheList | internal/routing/routing.go:253-299 | First match over the steps is the first match over the entries, unless the other plane's first match blocks |
| Meaning.LoweringPreservesMeaning | internal/routing/routing.go:253-355 | For every tier and flow, first match over the lowered steps is the verdict defined on the set of entries |
| Meaning.StepsOfTierHoldBlocks | internal/routing/routing.go:253-299 | The unguarded block steps hold exactly the listed block entries |
| Algebra.StepsGiveThePlaneVerdict | internal/routing/routing.go:253-355 | The same verdict plane by plane: an app block, then a block leading the name or address plane, then the most specific site entry, then the app's own direct or proxy |
| Algebra.OrderAndRepetitionDoNotMatter | internal/routing/routing.go:253-355 | Reordering or repeating matchers in a list changes no flow's verdict, though the steps may differ |
| Algebra.BlockingIsMonotone | internal/routing/routing.go:253-355 | Adding matchers to a block list leaves each verdict as it was or makes it a block |
| Policy.ProcessRules | internal/routing/routing.go:28-47 | The per-app map over all tiers: a block beats a direct beats a proxy, whatever the tier order |
| Policy.BlockBeatsDirectBeatsProxy | internal/routing/routing.go:23-47 | An app is blocked wherever a tier blocks it and proxied only where no tier blocks it or sends it direct |
| Policy.AnyProcessProxy | internal/xrayconfig/routing.go:335-342 | Whether some app's surviving rule is proxy |
| Policy.AllStepsVerdict | internal/mihomoconfig/mihomoconfig.go:301-306 | First match over the concatenated steps is the first tier's verdict that is one |
| Policy.AllPlainBlocks | internal/xrayconfig/routing.go:129-131 | The unguarded block steps take a flow exactly when some block entry of some tier matches it |
| Mihomo.BuildConditions | internal/mihomoconfig/mihomoconfig.go:388-439 | One condition per entry, addresses in CIDR form |
| Mihomo.BuildStepLines | internal/mihomoconfig/mihomoconfig.go:370-402 | A line per entry, or one AND of two ORs for a guard step |
| Mihomo.BuildLocalLines | internal/mihomoconfig/mihomoconfig.go:311-318 | Named flows leave first, then the local networks go direct |
| Mihomo.BuildForceFlowRules | internal/mihomoconfig/mihomoconfig.go:350-366 | The sub-rule of the per-app flows |
| Mihomo.BuildRules | internal/mihomoconfig/mihomoconfig.go:282-321 | The whole rule list and sub-rule |
| Mihomo.StepsFirst | internal/mihomoconfig/mihomoconfig.go:370-439 | The lines of the steps decide exactly as the steps |
| Mihomo.AppFlows | internal/mihomoconfig/mihomoconfig.go:282-321 | Every app flow gets what the policy says |
| Mihomo.ForceFlows | internal/mihomoconfig/mihomoconfig.go:215-221 | Every per-app flow gets what the policy says, through the sub-rule where there is one |
| Mihomo.ForceFlowsStayInTheirLines | internal/mihomoconfig/mihomoconfig.go:291-300 | A per-app flow its proxy cannot carry, such as UDP where the proxy lacks it, is rejected and never passed on to the tiers; every other gets what the policy says |
| Mihomo.AddressConditionsAreNetworks | internal/mihomoconfig/mihomoconfig.go:388-439 | Every address condition is a network the parser reads |
| Xray.AddMatchers | internal/xrayconfig/routing.go:92-105 | Entries go to their plane's field; reports whether any was spelled |
| Xray.BuildStepRule | internal/xrayconfig/routing.go:108-126 | One rule per step, none when a side has nothing to spell |
| Xray.BuildTierRules | internal/xrayconfig/routing.go:247-267 | The rules of a tier with the outbound each step takes |
| Xray.BuildDirectFinalRules | internal/xrayconfig/routing.go:140-164 | The final rules, truncated at the last direct entry, with runs merged in place |
| Xray.CollectAddresses | internal/xrayconfig/routing.go:140-150 | The address entries in order and where the last direct one ends |
| Xray.MergeFinals | internal/xrayconfig/routing.go:151-164 | One final rule per run of direct or other entries |
| Xray.BuildForceRules | internal/xrayconfig/routing.go:225-246 | The per-app flows' own rules |
| Xray.BuildPlan | internal/xrayconfig/routing.go:247-267 | A tier's steps, whether it dials through its own outbound, and that outbound's rules |
| Xray.BuildPlans | internal/xrayconfig/routing.go:247-267 | The same for every tier |
| Xray.TierEntriesWait | internal/xrayconfig/routing.go:301-315 | Whether the catch-all must wait for a name to resolve |
| Xray.Config.constructor | internal/xrayconfig/xrayconfig.go:104-129 | A configuration with its proxy outbounds and no routing yet |
| Xray.Config.EnsureOutbound | internal/xrayconfig/routing.go:392-406 | Adds an outbound behind the others, and only under a tag not taken |
| Xray.Config.AddTiers | internal/xrayconfig/routing.go:247-267 | The rules and the outbounds of all tiers |
| Xray.Config.AddPlainOutbounds | internal/xrayconfig/routing.go:174-187 | The plain direct and block outbounds where the profile needs them |
| Xray.Config.ApplyRouting | internal/xrayconfig/routing.go:174-296 | The whole rule list and every outbound it adds |
| XrayMeaning.StepRuleApplies | internal/xrayconfig/routing.go:92-126 | A step becomes one rule that applies to exactly the flows the step takes |
| XrayMeaning.ClosingRoute | internal/xrayconfig/routing.go:269-296 | What the local-network and catch-all rules give a flow, also when they wait for addresses |
| Outbounds.NamedOutboundsExist | internal/xrayconfig/routing.go:174-296 | Every rule names the proxy or an outbound that exists |
| Outbounds.TierOutboundCarriesItsFinalRules | internal/xrayconfig/routing.go:381-390 | A tier's own outbound carries that tier's final rules and no other's |
| Outbounds.OutboundsExtend | internal/xrayconfig/routing.go:392-397 | The links' own outbounds stay in front, as they were |
| Outbounds.AddedTagsAreNew | internal/xrayconfig/routing.go:392-406 | No added outbound shares its tag with another, so where the links' own tags differ all do |
| Outbounds.FirstOutboundStaysAProxy | internal/xrayconfig/routing.go:189-200 | What no rule takes leaves through the first outbound, which routing leaves the proxy it was |
| Outbounds.HeldExactlyAsAsked | internal/xrayconfig/routing.go:174-187 | The configuration holds the links' outbounds and exactly the direct, block and tier outbounds the profile asks for |
| Outbounds.PlainOutboundsHaveNoFinalRules | internal/xrayconfig/routing.go:174-187 | The plain outbounds that are added refuse nothing |
| Outbounds.FieldsHoldTheirOwnMatchers | internal/xrayconfig/routing.go:92-105 | In every rule the domain, IP and process fields hold names, addresses and apps only |
| Agreement.DirectOutboundIsExact | internal/xrayconfig/routing.go:140-164 | A tier's direct outbound allows an address exactly when the first address entry matching it is direct |
| Agreement.TierDirectIsAllowed | internal/xrayconfig/routing.go:140-164 | An address routed to a tier's outbound is never refused by it |
| Agreement.XrayFollowsPolicy | internal/xrayconfig/routing.go:108-296 | Under AsIs every routed flow, and under every strategy every routed flow addressed by IP, gets after dialing what the policy says |
| Agreement.MihomoFollowsPolicy | internal/mihomoconfig/mihomoconfig.go:282-385 | Every routed flow gets what the policy says |
| Agreement.BackendsAgree | internal/mihomoconfig/mihomoconfig.go:282-385 | For every profile both engines give the same block, direct or proxy to every routed flow under AsIs, and to every one addressed by IP under all strategies |
| LinkTargets.TargetIsReadAsAProxy | internal/mihomoconfig/mihomoconfig.go:625-644 | Whatever the links call themselves, the target is read as the proxy or group built for them |
| LinkTargets.BackendsAgreeForLinks | internal/mihomoconfig/mihomoconfig.go:187-221 | The engines agree at the target of any list of links |
| LinkTargets.ConfigurationsAgree | internal/xrayconfig/xrayconfig.go:104-172 | The engines agree also on what xray's whole configuration, rules and outbounds, does with a flow |
| LinkTargets.PerAppFlowsFailClosedForLinks | internal/mihomoconfig/mihomoconfig.go:343-366 | A per-app flow fails closed at the target of any list of links |
| Guarantees.XrayUnderEveryStrategy | internal/xrayconfig/routing.go:174-315 | xray's choice under AsIs, IPOnDemand and IPIfNonMatch, for every set of resolved addresses |
| Guarantees.PerAppFlowsFailClosed | internal/xrayconfig/routing.go:225-246 | On both engines a per-app flow is blocked, direct or proxied exactly when the promise says |
| Guarantees.ExitEchoGoesThroughTheProxy | internal/xrayconfig/routing.go:219-221 | The core's own exit echo goes through the proxy in every profile and under every strategy, unless a kill switch takes it |
| Guarantees.LocalNetworksNeverTakeNames | internal/xrayconfig/routing.go:269-306 | A flow with a name takes the outbound it would take without the local-networks rules, under every strategy |
| Guarantees.OrderChangesNoFlow | internal/routing/routing.go:253-355 | Reordering or repeating matchers of any tier changes no flow's choice on either engine, nor its outcome after the dial where no name is resolved |
| TiedFlows.OrderChangesNoDial | internal/xrayconfig/routing.go:174-315 | Where no tier holds a tie, or the mode is direct-all, reordering or repeating matchers changes neither the outbound a flow takes nor what becomes of its dial, under every strategy, whatever the name resolves to and whichever address is dialed |
| TiedFlows.TieDecidesADial | internal/xrayconfig/routing.go:247-267 | In proxy-all under IPOnDemand a tie in the first tier gives two orders of its list, one matching and one name such that a dial to one of the name's addresses goes out in one order and is refused in the other |
| TiedFlows.OrderDecidesDialsExactlyByTies | internal/xrayconfig/routing.go:140-267 | For a profile of one tier under IPOnDemand no order changes any dial exactly when the mode is direct-all or the tier holds no tie |
| TiedFlows.SameDial | internal/xrayconfig/routing.go:140-164 | What an outbound does with an address never depends on the order of the lists |
| NamedFlows.TierDialIsExact | internal/xrayconfig/routing.go:381-390 | A tier's own outbound lets an address out exactly when the first address entry of the tier to hold it is direct |
| NamedFlows.NamesGoDirectByTheirEntriesOnly | internal/routing/routing.go:76-82 | In proxy-all, under every strategy, a name goes direct only by a tier's own entries: by name or app entries through the plain outbound, by address entries only to an address the tier lets out |
| Monotone.AddressesDoNotMatter | internal/xrayconfig/routing.go:308-315 | Tiers without address entries say the same of a flow whatever it resolves to |
| Monotone.BlocksNeverUnblock | internal/routing/routing.go:253-326 | Growing block lists moves an app flow only to a block, on mihomo always and on xray exactly where the flow does not fall through; a blocked flow stays blocked |
| Monotone.OneBlockMovesAFlowToTheProxy | internal/xrayconfig/routing.go:189-200 | One profile, one block entry and one flow that moves from direct to proxy |
| Ties.OrderDecidesExactlyTies | internal/xrayconfig/routing.go:247-267 | Which direct outbound a tier's flow takes is free of list order, for every flow and every sound matching, exactly when the tier holds no tie: a direct geosite and a direct geoip, neither of them also blocked, in a tier that lists neither `regexp:.` nor both default routes; the same with repetitions |
| Ties.NoTieNoOrder | internal/xrayconfig/routing.go:247-267 | Without a tie neither order nor repetition changes it |
| Ties.TieIsDecidedByOrder | internal/xrayconfig/routing.go:247-267 | For any tie, a sound matching, a flow and two orders of the tier's own list that send it to different direct outbounds, and an address of the flow that no address entry of the tier holds |
| Controller.EngineSession.constructor | internal/core/engine_session.go:22-28 | An engine at rest |
| Controller.EngineSession.MarkUp | internal/core/engine_session.go:50-53 | The instance runs for the session at the mark |
| Controller.EngineSession.StopLocked | internal/core/awg.go:383-393 | Teardown leaves the engine down and changes nothing else |
| Controller.CoreController.constructor | internal/core/controller.go:69-118 | The fields show the protocol's initial state |
| Controller.CoreController.ClearSessionState | internal/core/serverstate.go:63-69 | The generation moves by one and the new one is returned |
| Controller.CoreController.PrepareStartLocked | internal/core/engine_session.go:144-157 | The body is the moves of a start from taking the mutex to ended, already running, or clear |
| Controller.CoreController.StartLocked | internal/core/awg.go:309-342 | The whole locked start body is moves of the protocol and ends as the protocol says |
| Controller.CoreController.LaunchLocked | internal/core/xray.go:137-147 | From a clear engine: another engine running, a failed launch, a late failure rolled back, or up |
| Controller.CoreController.OtherRunning | internal/core/engine_mihomo.go:303-315 | Whether another engine runs |
| Controller.CoreController.StopInstanceLocked | internal/core/engine_session.go:208-217 | The locked stop body is the protocol's judgement and, unless superseded, its teardown |
| SessionProofs.CompletedStopIsFinal | internal/core/engine_session.go:144-217 | After a stop finished at generation g, its engine runs only an instance of generation at least g |
| SessionProofs.EarlierStartIsGone | internal/core/engine_session.go:206-217 | No start requested before a finished stop is left running |
| SessionProofs.AtMostOneEngineRuns | internal/core/awg.go:309-335 | No two engines run in any reachable state |
| SessionProofs.OnlyOwnersTearDown | internal/core/engine_session.go:144-217 | An instance goes down exactly by a later stop, a later start replacing it, or the rollback of its own xray start, under the mutex |
| SessionProofs.OwnStartTearsDown | internal/core/xray.go:371-381 | A run in which a start of xray tears its own running instance down |
| SessionProofs.PublishedMeansConnected | internal/core/engine_session.go:119-177 | A start passes the tail check exactly when its session is current, and at that check its engine runs its own instance and no other engine runs |
| SessionProofs.MarksAreForGood | internal/core/engine_session.go:60-70 | A start keeps its engine and its mark through the whole run |
| SessionProofs.LaterStopsPassTheMark | internal/core/serverstate.go:63-69 | A stop asked for after a start moves the generation past its mark |
| SessionProofs.StartsAreCounted | internal/core/engine_session.go:60-70 | The in-flight count is exactly the number of starts between request and end |
| SessionProofs.StopsAreTakenExactly | internal/core/engine_session.go:36-38 | A stop is taken exactly when its engine runs or a start of it is in flight |
| SessionProofs.HolderLetsGo | internal/core/engine_session.go:208-217 | The holder of the mutex can always move until it releases it |
| SessionProofs.RunsKeep | internal/core/engine_session.go:44-217 | The invariant of every reachable state |
| SessionRuns.StartAloneConnects | internal/core/engine_session.go:44-177 | From every reachable state with the mutex free and no other engine running, a start can come up in the session it was asked in, publish and end, replacing an older instance |
| SessionRuns.StartBesideAnotherIsRefused | internal/core/engine_session.go:144-177 | Beside a running engine a start can only be refused: it ends unpublished and ends its session |
| SessionRuns.StopAloneBringsDown | internal/core/engine_session.go:181-217 | From every reachable state with the mutex free, a stop can bring its running engine down at the next generation |
| SessionRuns.EveryTaskCanEnd | internal/core/engine_session.go:44-217 | From every reachable state every start and stop can be carried to its end |
| SessionRuns.AskingNeverWaits | internal/core/engine_session.go:34-70 | Whoever holds the mutex, a start can be asked for and counted, and a stop of an engaged engine can be asked for and end the session |
| SessionRuns.EndingNeverWaits | internal/core/engine_session.go:159-177 | A start that has let go of the mutex fails or ends without waiting for it |
| SessionRuns.StaleStartNeverComesUp | internal/core/engine_session.go:144-157 | A start whose session ended before it compared its mark stays down, however the run goes on |
| SessionRuns.FailedStartEndsItsSession | internal/core/engine_session.go:160-171 | After a start fails, every start of its mark or an older one that has not compared its mark stays down |
| SessionRuns.GenerationMovesExactly | internal/core/serverstate.go:63-69 | The generation moves by one exactly at a stop, a failed start or awg's start without a link |
| StatusQueue.OldestSheddable | internal/core/status_sink.go:69-76 | The first log or connection event, or none |
| StatusQueue.Deferred.constructor | internal/core/status_sink.go:42-46 | An empty queue nobody drains |
| StatusQueue.Deferred.Offer | internal/core/status_sink.go:50-65 | Queued exactly when the emitter must not call back or someone drains; the new contents, and whether a drainer starts |
| StatusQueue.Deferred.DropOldestDroppable | internal/core/status_sink.go:69-76 | The oldest sheddable event is gone and nothing else |
| StatusQueue.Deferred.Take | internal/core/status_sink.go:78-92 | The first event is taken, or the drain ends |
| StatusQueue.EventsAreQueuedExactly | internal/core/status_sink.go:50-65 | In every run an event is queued, behind all others, exactly when its emitter must not call back or a drainer has not ended; otherwise nothing changes |
| StatusQueue.ShedExactly | internal/core/status_sink.go:56-76 | An event is shed exactly by a queueing that finds 2048 pending, and it is the oldest log or connection event of those |
| StatusQueue.EverythingCanBeDelivered | internal/core/status_sink.go:78-92 | From every reachable state everything queued and not shed can be delivered, in order |
| StatusQueue.AtMostOneDrainer | internal/core/status_sink.go:50-92 | At most one goroutine drains |
| StatusQueue.EventsAreConserved | internal/core/status_sink.go:50-92 | Delivered, held and pending are the queue order without the shed events, and only log and connection events are shed |
| StatusQueue.DeliveryFollowsTheQueue | internal/core/status_sink.go:78-92 | Callbacks run in queue order; an event passed over was shed |
| StatusQueue.DirectDeliveryOvertakesNothing | internal/core/controller.go:134-151 | An event is handed back only when every earlier queued one was delivered or shed |
| StatusQueue.OverflowHoldsOneSheddable | internal/core/status_sink.go:56-76 | Past 2048 events at most one of them is sheddable |
| StatusQueue.PendingIsBeingDrained | internal/core/status_sink.go:59-92 | Pending events always have a drainer that can move |
| BridgePipeProofs.BytesAreConserved | internal/core/bridge_pipe.go:56-104 | Bytes copied by readers are the bytes counted by writers in mutex order plus at most one chunk in hand |
| BridgePipeProofs.WriteCountsWhatWasDelivered | internal/core/bridge_pipe.go:82-104 | A returned count is exactly the prefix delivered, at its place in the stream; no error means all of it |
| BridgePipeProofs.ReadReturnsTheStream | internal/core/bridge_pipe.go:66-70 | A read returns the stream at its place, within its room |
| BridgePipeRuns.ReadTakesAllThatFits | internal/core/bridge_pipe.go:66-70 | A read that meets a write copies as much of the rest of its buffer as it has room for |
| BridgePipeRuns.ExpiredReadFails | internal/core/bridge_pipe.go:63-64 | A read of an open pipe whose deadline has run out fails by it and copies nothing |
| BridgePipeRuns.OpenPipeCompletesWrites | internal/core/bridge_pipe.go:82-104 | While nothing is closed every write can return without error and with all of its buffer counted, whoever holds the mutex |
| BridgePipeProofs.EndOfFileTruncatesNothing | internal/core/bridge_pipe.go:56-80 | At end of file every counted byte was already copied, and the writing end is closed or half-closed |
| BridgePipeProofs.AnswerNeverBlocks | internal/core/bridge_pipe.go:66-70 | A reader can always hand its count to the one waiting writer |
| BridgePipeProofs.WaitingWriterIsAnswered | internal/core/bridge_pipe.go:91-94 | A waiting writer always has its one reader |
| BridgePipeProofs.OneWriterAtATime | internal/core/bridge_pipe.go:82-84 | Writers never interleave |
| BridgePipeProofs.CallsAfterCloseMoveNothing | internal/core/bridge_pipe.go:56-104 | A call made after a close moves no byte and fails by the end that was closed |
| BridgePipeClosing.ClosedPipeMovesExactly | internal/core/bridge_pipe.go:56-104 | After any close, some continuation of the run lets a write and a read meet exactly when each is in its select or past its tests of every channel closed so far |
| BridgePipeClosing.ChunkMovesAfterClose | internal/core/bridge_pipe.go:66-103 | A run in which both calls are in their selects when every channel closes and the byte still moves |
| BridgePipeClosing.ChunkMovesPastItsTests | internal/core/bridge_pipe.go:56-104 | A run in which neither call is in its select when the writing end closes and the byte still moves |
| BridgePipeClosing.EndOfFileIsFinal | internal/core/bridge_pipe.go:56-80 | After a reader is told end of file, however the run goes on, no later read gets a byte and no later write is counted |
| BridgePipeProofs.ClosingStrandsNoCall | internal/core/bridge_pipe.go:106-114 | Once anything is closed, a call that has not returned leaves some call able to step |
| BridgeDeadline.NoChannelIsClosedTwice | internal/core/bridge_flow.go:126-151 | No channel is closed twice in any interleaving |
| BridgeDeadline.OneLiveTimerForTheCurrentChannel | internal/core/bridge_flow.go:126-151 | A live timer is the one in the field and targets the current, open channel |
| BridgeDeadline.WaiterSeesTheLatestDeadline | internal/core/bridge_flow.go:153-157 | A waiter holds the current channel or a closed one |
| BridgeDeadline.WaitGivesTheCurrentChannel | internal/core/bridge_flow.go:153-157 | `wait` gives the current channel, open while a timer has yet to close it |
| BridgeDeadline.ReplacedOnlyIfClosed | internal/core/bridge_flow.go:133-145 | The channel is replaced only when closed, and by an open one |
| BridgeDeadline.SetTakesEffect | internal/core/bridge_flow.go:126-151 | `set` leaves the channel open without a timer, open with its own armed timer, or closed |
| BridgeDeadline.SetNeverWaitsForEver | internal/core/bridge_flow.go:129-131 | The wait for a fired timer always ends |
| BridgeDeadline.SetGetsToAct | internal/core/bridge_flow.go:126-151 | A `set` under way can always come to act on its deadline |
| BridgeDeadline.SetDeadlineRunsOut | internal/core/bridge_flow.go:126-157 | A set deadline can run out, and then every waiter's channel is closed |
| Prefixes.SiblingOf | internal/xrayconfig/socks.go:91-97 | Flipping one bit of one byte in place flips exactly the prefix's last bit |
| Prefixes.TestOverlap | internal/xrayconfig/socks.go:65-69 | Prefixes overlap exactly when they share a family and agree on the shorter one |
| Prefixes.PieceAt | internal/xrayconfig/socks.go:83-86 | A piece holds exactly the addresses that leave the hole at its last bit |
| Prefixes.PiecesAreDisjoint | internal/xrayconfig/socks.go:78-88 | No address lies in two pieces |
| Prefixes.PiecesCover | internal/xrayconfig/socks.go:78-88 | The pieces together are the base without the hole |
| Prefixes.PrefixesWithout | internal/xrayconfig/socks.go:78-88 | One prefix per bit, pairwise disjoint, together exactly the base without the hole |
| Prefixes.LocalSniffExclusions | internal/xrayconfig/socks.go:60-74 | Exactly the local networks without the pool, for any list and pool |
| ProxyNames.SearchEnds | internal/mihomoconfig/mihomoconfig.go:691-698 | Each try uses up one used name, so the search ends |
| ProxyNames.FreeFrom | internal/mihomoconfig/mihomoconfig.go:691-698 | The first number whose name is free |
| ProxyNames.UniqueName | internal/mihomoconfig/mihomoconfig.go:691-698 | The first free candidate, and the used set with it added |
| ProxyNames.TakenNameIsNumbered | internal/mihomoconfig/mihomoconfig.go:691-698 | A taken name gets the first free number from two on, in brackets |
| ProxyNames.LinkIsNamedByItsFragment | internal/mihomoconfig/mihomoconfig.go:662-688 | A link is named by its fragment, trimmed, with a space for each comma and plus sign, or by its place |
| ProxyNames.LinkIsNamedByItsPs | internal/mihomoconfig/mihomoconfig.go:666-673 | A vmess link is named by its remark, trimmed, with a space for each comma, or by its place |
| ProxyNames.PlainRemarkIsTheName | internal/mihomoconfig/mihomoconfig.go:646-688 | A remark that needs no change and is free is the link's name |
| ProxyNames.LinkNameHasNoComma | internal/mihomoconfig/mihomoconfig.go:662-688 | A link's name holds no comma |
| ProxyNames.BuildNames | internal/mihomoconfig/mihomoconfig.go:646-660 | The names of a link list |
| ProxyNames.OneNamePerLink | internal/mihomoconfig/mihomoconfig.go:646-660 | One name per link that is not blank, in order, the first candidate neither reserved nor taken |
| ProxyNames.NamesAreDistinct | internal/mihomoconfig/mihomoconfig.go:639-660 | Names are distinct, none reserved, none with a comma |
| ProxyNames.IndexByName | internal/core/engine_mihomo.go:459-462 | Each name maps to its last position |
| ProxyNames.NameLeadsBack | internal/core/engine_mihomo.go:459-477 | The name the group reports leads back to its own link |
| ProxyNames.TargetIsNoBuiltIn | internal/mihomoconfig/mihomoconfig.go:625-644 | The proxy target is never a name of mihomo's own: nothing without links, the one link's name, or the group |
| Uapi.KeyHex | internal/awgconfig/awgconfig.go:79-121 | A key is 64 lowercase hex characters or refused |
| IniLines.KeyIsItsBytes | internal/awgconfig/awgconfig.go:79-121 | A key is refused exactly when it does not stand for 32 bytes, and its hex reads back as those bytes |
| IniLines.SettingIsRead | internal/awgconfig/awgconfig.go:253-258 | A setting is its key in lower case and its value, up to the first equals sign and after it, without spaces around |
| IniLines.HeaderIsRead | internal/awgconfig/awgconfig.go:237-251 | A bracketed line opens the interface section, a peer, or a section that is ignored, in any case |
| IniLines.NothingIsRead | internal/awgconfig/awgconfig.go:233-256 | Blank lines, comments and lines that are neither header nor setting say nothing |
| IniLines.ControlIsRefused | internal/awgconfig/awgconfig.go:207-261 | A value with a control character other than a tab is refused in every section |
| IniLines.AddressesByCommas | internal/awgconfig/awgconfig.go:311-317 | A list is read part by part, trimmed, blanks left out |
| IniLines.SwitchIsRead | internal/awgconfig/awgconfig.go:155-169 | on, true and every number but zero are on; off and false are off; in any case |
| IniLines.RangeIsRead | internal/awgconfig/awgconfig.go:171-186 | A number, or two in order, within 32 bits |
| IniLines.OffInAnyCase | internal/awgconfig/awgconfig.go:306-309 | The keepalive is turned off by its word in any case |
| IniLines.ExtendedIsRead | internal/awgconfig/awgconfig.go:188-205 | An extended key's value is a key's hex, a switch spelled out, or a range as it is |
| Uapi.KeyMissing | internal/awgconfig/awgconfig.go:340-343 | The first peer without a public key |
| Uapi.ListAddresses | internal/awgconfig/awgconfig.go:311-317 | The comma-separated addresses, trimmed, blanks left out |
| UapiProofs.PeerSays | internal/awgconfig/awgconfig.go:291-318 | The peer after an item is what the items of its section say with that item added: last value wins, addresses accumulate |
| UapiProofs.DeviceSays | internal/awgconfig/awgconfig.go:265-285 | The same for the device and the items of its sections |
| Uapi.ApplyItem | internal/awgconfig/awgconfig.go:257-319 | What an item does in its section, or its error |
| Uapi.ApplyLine | internal/awgconfig/awgconfig.go:233-319 | What a line does to the section, the draft and the current peer |
| Uapi.ReadConfig | internal/awgconfig/awgconfig.go:232-320 | The line loop is the fold of the lines, stopped at the first fault |
| Uapi.WritePeers | internal/awgconfig/awgconfig.go:340-359 | The peers' lines, or the first peer without a key |
| Uapi.WriteDevice | internal/awgconfig/awgconfig.go:323-334 | The device's lines in the required order |
| Uapi.ParseToUAPI | internal/awgconfig/awgconfig.go:214-362 | The translation, errors included |
| UapiProofs.LinesComeBack | internal/awgconfig/awgconfig.go:322-361 | Settings without line breaks read back one by one |
| UapiProofs.TextReadsBack | internal/awgconfig/awgconfig.go:209-362 | The text read line by line is exactly the folded configuration |
| UapiProofs.PassFollowsSections | internal/awgconfig/awgconfig.go:232-320 | The single pass is what the sections say: fails exactly on a faulty item, last value wins, one peer per header from its own items |
| UapiProofs.TranslationIsExact | internal/awgconfig/awgconfig.go:209-362 | When a text is written, exactly, and that it reads back as what the sections say, with one peer per header |
| UapiProofs.PassReportsTheFirstFault | internal/awgconfig/awgconfig.go:232-320 | The pass stops at the first item at fault and reports that one |
| UapiProofs.RefusalIsExact | internal/awgconfig/awgconfig.go:209-362 | A failed translation reports the first faulty item, else the missing private key, else no peers, else the first peer without its key |
| AwgTables.TablesAreSound | internal/awgconfig/awgconfig.go:122-153 | No device key translates to a keyword of the protocol |

## Left out

- OrderChangesNoFlow: for a resolved name it states the choice of block, direct or proxy and not the dial, which a tie can change (TieDecidesADial); OrderChangesNoDial states the dial where no tier holds a tie.
- OrderDecidesDialsExactlyByTies: is for profiles of one tier without the IPv6 switch; with more tiers an earlier one may take every flow that would meet a later tier's tie.
- XrayFollowsPolicy: leaves out named flows under the two resolving strategies, whose choice XrayUnderEveryStrategy and whose dial NamesGoDirectByTheirEntriesOnly state.
- LinkTargets.RouteOf: reads PASS and PASS-RULE, which hand a flow to the next rule, as leaving unproxied; no target is either.
- ForceFlowsStayInTheirLines: is about per-app flows; what becomes of an app flow whose proxy cannot carry it is not stated.
- LocalSniffExclusions: the local networks and the pool are parameters rather than the built-in lists.
- Uapi.KeyHex: hex and base64 alphabets are one decoding parameter; the 32-byte rule is kept.
- The engines themselves (xray-core, mihomo, amneziawg-go, tun2socks) and how they match domains, geo lists and processes.
- The text of mihomo's rule lines and of xray's JSON, the regular expression of a process rule, the fake-pool reject rules, balancer tags and geo-asset checks.
- `Profile.Validate` and the option normalizers: checks settled branch by branch.
- Share-link builders, DNS assembly and the other readers of the INI: wide field mapping.
- The unlocked "already running" checks of the start handlers: the protocol allows every start they would refuse, so its runs include the program's.
- Lifetimes of the stats, liveness and selection loops, freshness of the external-IP result, and ownership of the copied TUN descriptor.
- Wrap-around of the 64-bit generation and the 32-bit count, and Go's reading of invalid UTF-8.
- Log scrubbing, the FFI and JNI surface, Windows services, TUN setup, real time and probing.
