# BlueChi: tables that agree

A model of BlueChi, the multi-node systemd controller, with proofs about it in Dafny 4.11.
One controller and many agents keep mutable tables and talk over peer connections that can be
lost and come back.  Most of what is proved here says that these tables agree with each other in
every reachable state.

Check everything with `dafny verify dfyconfig.toml`.

## How it is organised

| file | what it models |
|---|---|
| `CStrings.dfy`, `Sequences.dfy` | byte strings; finding, removing and counting in sequences |
| `ControllerState.dfy` | the controller's tables as values, and what every handler does to them |
| `SubscriptionIndex.dfy` | a node's index of subscriptions against the flat list of subscriptions |
| `UnitEvents.dfy` | what a monitor learns by replaying the events it was sent |
| `ProxyDependencies.dfy` | dependency counters against the proxy monitors that hold them |
| `ConnectionLog.dfy` | the messages sent on one connection against the tables |
| `ControllerRuns.dfy` | all of this over every run of the controller |
| `UnitDelivery.dfy` | whom an event and a disconnect must reach, over the flat list of subscriptions |
| `WildcardEntry.dfy` | a run in which the state of the unit `*` does not follow |
| `Node.dfy`, `Controller.dfy` | the controller's code, updating fields in place, proved equal to the above |
| `AgentUnits.dfy` | the agent's table of units and its handlers |
| `SubscriptionMirror.dfy`, `CacheFollowsAgent.dfy` | controller, FIFO connections and agents as one system |
| `CacheOutcome.dfy`, `CacheRaces.dfy` | what the controller ends up believing after take-backs and reconnections, exactly, and runs that mislead it |
| `StateOutcome.dfy`, `StaleState.dfy` | the same for the state it has cached, and a run that leaves it stale |
| `ProxyService.dfy` | the agent's proxies and the reply each of them owes |
| `ProxyMirror.dfy` | these proxies and the controller's monitors for them, with the signals of a connection between |
| `Jobs.dfy` | jobs on their way between clients, controller, agents and systemd |
| `Registration.dfy` | accepted connections, registered nodes, the counters and the system status |
| `AgentConnection.dfy`, `Liveness.dfy` | connecting, retrying, and heartbeats with times |
| `FleetRequest.dfy` | one request to all nodes |
| `References.dfy` | reference counts of monitors and subscriptions |
| `IntrusiveList.dfy` | the linked list macros on a heap |
| `Config.dfy` | layers of configuration |
| `PathEscape.dfy`, `Glob.dfy`, `DBusSignature.dfy` | path escaping, glob matching, and the signature parser of the bindings |

State that the C code updates in place is a class here.  Its methods are proved equal to
functions or relations on values, and the invariants are proved about those.  A table of C
structures is a sequence of values in a field; `IntrusiveList.dfy` shows on a heap of linked
items that the list macros do what the sequence operations say.  A run is a sequence of steps in
any order; a lost connection loses what was on it.

## What the code does, where it may surprise

Each of these is a lemma with the exact condition or a concrete run.

- A subscription to the unit `*` is told that `*` was loaded but never its state, so the last
  state it saw may differ from the cached one (`WildcardStateIsNotReported`).
- An agent keeps its subscriptions when a connection is lost.  After a reconnect it refuses to
  subscribe again and sends no virtual event, so the controller's cache says "not loaded" for a
  loaded unit exactly when the agent already had the subscription (`ReconnectionOutcome`).
- If an unsubscribe and a subscribe overtake the removal of a unit, the controller keeps it as
  loaded (`RenewalRace`).  The same happens when a subscription to all units is exchanged for
  one to the unit (`WildcardRace`).  What it ends with is known exactly (`SettlesExactly`,
  `RenewalOutcome`, `RemovalOutcome`), and it never misses a loaded unit because of a take-back
  (`LoadedIsNeverMissed`).
- The state of a unit that systemd loads again is reset at the agent and not reported, so the
  controller keeps the one from before, and tells it to new subscribers
  (`ReloadLeavesStaleState`).  It is right exactly if it was inactive and dead already, or a
  Subscribe is under way (`ReloadOutcome`); any other state is right in every run
  (`CachedStateIsAgents`).
- A proxy is exported on the connection it was created on only.  After a reconnect nothing the
  controller sends reaches it (`Stranded`, and a run in `StrandedWaits`).
- Proxies of two services for one unit share one monitor at the controller.  When the first of
  them goes, so does the monitor, and the unit is no longer counted as used
  (`FirstToGoTakesMonitor`).  The two sides agree exactly if the agent has no proxy for the unit
  or announced one since it last withdrew one (`MonitorsMirrorProxies`).
- One systemd job that answers several requests reports only one of them as done
  (`OneReleasePerSignal`).  Jobs of a node that disconnects are dropped without a signal.
- Every successful registration leaves an anonymous node without a connection on the
  controller's list (`LeftoversAreRegistrations`).
- A rejected `Register` leaves the agent in its connecting state until the next tick, because the
  error result converts to true (`RejectedWaitsForTick`).
- A file in a `conf.d` directory that does not parse is reported only if it is the last one
  (`RejectedFileUnnoticed`).  The comment in the code says that any error ends the loop.
- The signature parser returns a pair instead of a string for the empty signature
  (`PairExactly`), drops everything after the first type if that is a struct or an
  array (`ParsedAsIntended`), does not look at the brace after a dictionary value that is not basic
  (`ClosingBraceUnchecked`), and does not know arrays of arrays (`ArrayOfArrays`), which the D-Bus
  Specification, section "Type System", allows.

## Model

| member | source | states |
|---|---|---|
| ControllerRuns.InitialInv | src/controller/controller.c:275-289 | A controller with its configured nodes and nothing else satisfies every table invariant |
| ControllerRuns.NextInv | src/controller/node.c:1041-1136 | Subscribing, unsubscribing, agent events, proxies announced or withdrawn, connections made and lost: each step keeps all table invariants together |
| ControllerRuns.RunSafe | src/controller/node.c:1839-1943 | All table invariants hold in every state of every run |
| ControllerRuns.RunTablesAgree | src/controller/node.c:1839-2038 | In every run: each subscription is in a unit's list once per time it names the unit, on every node it matches; an entry exists exactly if somebody wants the unit; a dependency counts its proxy monitors; the messages of the current connection leave exactly these units subscribed and started |
| ControllerRuns.RunReplaysAgree | src/controller/node.c:463-573 | In every run, what a subscribed monitor was told since it joined gives the cached loaded bit, and a last state that is unset or the cached one |
| ControllerRuns.LostAgentLeavesNothing | src/controller/node.c:1041-1136 | After a disconnect no monitor believes a unit of that node is loaded, its proxy monitors are gone, and every other node's dependency counts dropped by exactly those |
| ControllerRuns.LostKeepsOthers | src/controller/node.c:1041-1136 | A disconnect takes the subscriptions of the lost node's proxies out of the flat list and out of every list of the other nodes' indexes, where an entry goes exactly if nobody else is on its list; the others keep their cached states, delivered events, proxy monitors and connections |
| ControllerRuns.LostIndexUnloaded | src/controller/node.c:1046-1103 | After a disconnect no unit of the node is cached as loaded |
| ControllerRuns.LocalStepInv | src/controller/node.c:463-573 | A change that only one node sees keeps the invariants of all |
| UnitDelivery.EventReaches | src/controller/node.c:365-413 | In every run: an agent's event is handed to every monitor with a subscription in the flat list that matches the node and names the unit or "*", to nobody else, and nothing else is handed out |
| UnitDelivery.LossReaches | src/controller/node.c:1041-1105 | In every run: when an agent is lost, exactly the monitors with a subscription in the flat list that covers a loaded unit of it are handed the unit's removal, and its inactive, "agent-offline" state exactly if the cached state was another known one; that is what each of them last hears, and nothing else is handed out |
| SubscriptionIndex.AddSubscriptionIndexes | src/controller/controller.c:127-145 | Adding a subscription keeps every node's index equal, list for list and in order, to the flat list filtered for node and unit |
| SubscriptionIndex.RemoveSubscriptionIndexes | src/controller/controller.c:147-163 | Removing one keeps it so, with wildcards and with units named twice |
| SubscriptionIndex.RemoveUndoesAdd | src/controller/controller.c:127-163 | Adding and removing a subscription restores the flat list and every list of every index |
| SubscriptionIndex.UnsubscribeUnitsRemoves | src/controller/node.c:1901-1943 | Unsubscribing takes out as many copies as the subscription names the unit, and only those |
| SubscriptionIndex.ExpectedCount | src/controller/node.c:1839-1875 | The filtered list holds a subscription once per occurrence of the unit in it |
| SubscriptionIndex.IndexHolds | src/controller/node.c:1839-1943 | Multiplicity in the index, and an entry exists if and only if somebody wants the unit |
| UnitEvents.ReplayDelivered | src/controller/node.c:365-413 | Getting one event several times through several subscriptions is as getting it once; a monitor outside the audience learns nothing |
| UnitEvents.SubscribeUnitsReplays | src/controller/node.c:1839-1899 | Subscribing keeps every monitor's view in agreement with the cache, the subscriber's included, whose view LateSubscriberKnows gives in full |
| UnitEvents.SubscribeUnitsElsewhere | src/controller/node.c:1877-1897 | No other monitor's view changes, and no view of another unit |
| UnitEvents.LateSubscriberKnows | src/controller/node.c:1877-1897 | After subscribing to a unit that is cached as loaded with a state, whichever it is, a monitor knows it as loaded with that state and substate, or "invalid" for none; a new subscriber to any other unit knows whether it is loaded and no state |
| UnitEvents.SubscribeUnitsHands | src/controller/node.c:1877-1897 | Everything handed out for a subscription goes to its monitor, is about its units, and is virtual |
| UnitEvents.SubscribeUnitsHandsOnce | src/controller/node.c:1877-1897 | And each time the subscription names a unit the monitor gets two events about it, one if there is no state, none if it is not loaded |
| UnitEvents.UnsubscribeUnitsReplays | src/controller/node.c:1901-1943 | Those who stay subscribed still agree with the cache |
| UnitEvents.AgentEventReplays | src/controller/node.c:463-573 | An agent's event changes the cache and the views of its audience alike; who that is over the flat list is EventReaches |
| UnitEvents.AnnouncedReplays | src/controller/node.c:1041-1105 | The virtual events of a disconnect keep views and cache together, in any order of units |
| UnitEvents.DisconnectReportsEverythingGone | src/controller/node.c:1041-1105 | After them no replay says loaded and no entry is cached as loaded |
| WildcardEntry.WildcardStateIsNotReported | src/controller/node.c:1877-1897 | A run of the controller, with an agent lost and connected again, that ends with the unit "*" cached as active while its subscriber last saw inactive |
| ProxyDependencies.AddDepCounts | src/controller/node.c:1989-2018 | Adding a dependency raises the count of that unit by one and no other |
| ProxyDependencies.RemoveDepCounts | src/controller/node.c:2020-2038 | Removing one lowers it by one, and removes the entry exactly with the last |
| ProxyDependencies.RemoveProxyConserves | src/controller/node.c:690-699 | Removing a proxy monitor keeps every count equal to the monitors that hold it, on all nodes |
| ProxyDependencies.ProxyRemovedConserves | src/controller/node.c:701-724 | So does ProxyRemoved, after which no monitor for the target is left on the node |
| ProxyDependencies.ProxyNewConserves | src/controller/node.c:625-688 | So does ProxyNew, replacing a duplicate, and refusing unknown or forbidden targets |
| ProxyDependencies.RemoveAllProxiesConserves | src/controller/node.c:1107-1112 | So does dropping all proxy monitors of a lost node |
| ConnectionLog.GreetingTells | src/controller/node.c:1829-1837 | What is sent on a new connection names exactly the index keys and the dependencies |
| ConnectionLog.ConnectedTold | src/controller/node.c:726-935 | A new connection starts with its log in agreement with the tables |
| ConnectionLog.ConnectedTellsOnce | src/controller/node.c:1829-1837 | Each key of the index is subscribed once on a new connection, each dependency is started once whatever its count, and nothing else is sent |
| ConnectionLog.SubscribeUnitsTold | src/controller/node.c:1839-1875 | Subscribing keeps the messages of the connection in agreement with the tables |
| ConnectionLog.SubscribeUnitsSends | src/controller/node.c:1839-1875 | Subscribing makes the missing entries and sends one Subscribe for each, in the order of the units, and nothing else |
| ConnectionLog.NewUnitsExactly | src/controller/node.c:1839-1875 | Those units are the ones of the subscription that had no entry, each once |
| ConnectionLog.UnsubscribeUnitsTold | src/controller/node.c:1901-1943 | So does unsubscribing |
| ConnectionLog.UnsubscribeUnitsSends | src/controller/node.c:1901-1943 | Unsubscribing drops the entries of the units it was alone on and sends one Unsubscribe for each, in the order in which its last copies go, and nothing else |
| ConnectionLog.LastUnitsExactly | src/controller/node.c:1901-1943 | Those units are the ones with nobody but this subscription on their lists, each once |
| ConnectionLog.ProxyNewTold | src/controller/node.c:625-688 | A new proxy keeps the messages of every connection in agreement with the tables |
| ConnectionLog.ProxyNewSends | src/controller/node.c:625-688 | An accepted proxy, after a duplicate is gone, sends the target's agent StartDep, whether or not there was a dependency, and Subscribe if the unit had no entry, and nothing else |
| ConnectionLog.RemoveProxySends | src/controller/node.c:690-699 | A proxy monitor that goes, a replaced duplicate included, sends the target's agent StopDep exactly with the last dependency, each agent it was subscribed at Unsubscribe for what it was alone on, and nothing else |
| ConnectionLog.AddDepTold | src/controller/node.c:1989-2018 | Adding one sends StartDep every time, and agrees with the tables |
| ConnectionLog.RemoveDepTold | src/controller/node.c:2020-2038 | Removing a dependency sends StopDep exactly with the last, and agrees with the tables |
| ConnectionLog.WantedFromBase | src/controller/node.c:1805-1827 | An agent that starts with old subscriptions ends with those wanted and at most the old ones besides |
| Nodes.Node.Subscribe | src/controller/node.c:1839-1899 | The loops over units and late events leave the node as the value-level subscription does |
| Nodes.Node.Unsubscribe | src/controller/node.c:1901-1943 | Likewise for the removal from each unit's list |
| Nodes.Node.UniqueSubscriptions | src/controller/node.c:365-413 | The set that is notified holds subscriptions listed for the unit or the wildcard only, and one for every monitor of the audience |
| Nodes.Node.Notify | src/controller/node.c:463-500 | Each chosen subscription's monitor gets the event: the deliveries reach exactly the audience |
| Nodes.Node.MatchUnitNew | src/controller/node.c:463-500 | Caches the unit as loaded and delivers to the audience |
| Nodes.Node.MatchUnitStateChanged | src/controller/node.c:502-540 | Caches the state and delivers |
| Nodes.Node.MatchUnitRemoved | src/controller/node.c:542-573 | Caches the unit as not loaded and delivers |
| Nodes.Node.AnnounceUnitOffline | src/controller/node.c:1046-1103 | For a loaded unit: a virtual inactive state if another was reported, then a virtual removal |
| Nodes.Node.AnnounceOffline | src/controller/node.c:1046-1103 | The loop announces each entry once, in the table's order |
| Nodes.Node.FindProxyDependency | src/controller/node.c:1978-1987 | The first dependency on the unit, or none |
| Nodes.Node.AddProxyDependency | src/controller/node.c:1989-2018 | Counts a dependency, and sends StartDep each time |
| Nodes.Node.RemoveProxyDependency | src/controller/node.c:2020-2038 | Uncounts it, sends StopDep and drops the entry with the last |
| Nodes.Node.FindProxyMonitor | src/controller/node.c:613-623 | The first monitor for node and unit, or none |
| Nodes.Node.SendAgentSubscribeAll | src/controller/node.c:1829-1837 | Sends one Subscribe for each key |
| Nodes.Node.StartProxyDependencyAll | src/controller/node.c:1958-1963 | Sends one StartDep for each dependency in list order |
| Nodes.Node.SetAgentBus | src/controller/node.c:726-935 | The node comes online with the greeting as the log of its connection |
| Nodes.Node.UnsetAgentBus | src/controller/node.c:937-963 | The node goes offline and keeps its tables |
| Controllers.Controller.FindNodeByName | src/controller/controller.c:165-175 | The node of that name, or none |
| Controllers.Controller.AddSubscription | src/controller/controller.c:127-145 | In place over all nodes for the node wildcard, over one node otherwise, nothing for an unknown one: equal to the value-level addition |
| Controllers.Controller.RemoveSubscription | src/controller/controller.c:147-163 | Likewise for removal |
| Controllers.Controller.DropDependency | src/controller/proxy_monitor.c:101-113 | Gives the dependency back to the target node |
| Controllers.Controller.RemoveProxyMonitor | src/controller/node.c:690-699 | Dependency, subscription and list place of one proxy monitor go together |
| Controllers.Controller.OnMatchProxyRemoved | src/controller/node.c:701-724 | Removes the monitor for the target if there is one |
| Controllers.Controller.OnMatchProxyNew | src/controller/node.c:625-688 | The two errors, the replaced duplicate, and the installed monitor |
| Controllers.Controller.RemoveAllProxyMonitors | src/controller/node.c:1107-1112 | The loop that removes while it walks leaves no monitor and gives every dependency back |
| Controllers.Controller.NodeDisconnect | src/controller/node.c:1041-1131 | Announcement, proxy monitors and connection of a disconnect in their order, keeping the invariants; the jobs dropped and the status checked are in Jobs and Registration |
| AgentUnits.SubscribeWants | src/agent/agent.c:1464-1511 | Subscribe adds the unit to what is wanted and succeeds exactly if it was not |
| AgentUnits.UnsubscribeWants | src/agent/agent.c:1513-1544 | Unsubscribe removes it and succeeds exactly if it was there |
| AgentUnits.UnitNewKeeps | src/agent/agent.c:2258-2299 | Entries stay under their unit's path, subscribed or loaded, and what is wanted does not change |
| AgentUnits.UnitRemovedKeeps | src/agent/agent.c:2301-2326 | Likewise, dropping the entry nobody needs |
| AgentUnits.UnitChangedKeeps | src/agent/agent.c:2197-2256 | Likewise for a property change |
| AgentUnits.NewIsReported | src/agent/agent.c:2258-2299 | A unit that systemd loads is reported if and only if it or "*" is wanted |
| AgentUnits.RemovedIsReported | src/agent/agent.c:2301-2326 | So is the removal of a unit the agent knows |
| AgentUnits.ChangeIsReported | src/agent/agent.c:2197-2256 | So is a change of the state or the substate of such a unit, with the new ones; what is no change is not reported |
| AgentUnits.SubscribeIsReported | src/agent/agent.c:1464-1511 | What an accepted Subscribe is answered with: the wildcard is always new, another unit if it is loaded, with its state if it has one; a refused one gets nothing |
| AgentUnits.NewInfo | src/agent/agent.c:2258-2299 | A unit that systemd loads becomes loaded, inactive and dead in the table, and no other unit changes |
| AgentUnits.RemovedInfo | src/agent/agent.c:2301-2326 | A removed one loses its state, and no other unit changes |
| AgentUnits.ChangedInfo | src/agent/agent.c:2197-2256 | A changed one of the table has the state systemd gave, and no other unit changes |
| AgentUnits.StartedAgent | src/agent/agent.c:2397-2461 | An agent that has just started knows each listed unit as loaded, with the state and substate it was listed with last, and wants nothing |
| AgentUnits.Agent.EnsureUnitInfo | src/agent/agent.c:772-798 | The entry of the unit, made if there is none |
| AgentUnits.Agent.UpdateUnitInfosFor | src/agent/agent.c:756-764 | Drops an entry that is neither loaded nor subscribed |
| AgentUnits.Agent.Subscribe | src/agent/agent.c:1464-1511 | The handler with its refusals and virtual events |
| AgentUnits.Agent.Unsubscribe | src/agent/agent.c:1513-1544 | The handler with its refusals |
| AgentUnits.Agent.MatchUnitNew | src/agent/agent.c:2258-2299 | Loaded, inactive and dead, and reported if wanted |
| AgentUnits.Agent.MatchUnitRemoved | src/agent/agent.c:2301-2326 | Unloaded, reported if wanted, dropped if not |
| AgentUnits.Agent.MatchUnitChanged | src/agent/agent.c:2197-2216 | A change is reported if it is one and the unit is wanted |
| AgentUnits.Agent.InitUnits | src/agent/agent.c:2397-2461 | The loop over the units systemd lists |
| SubscriptionMirror.SystemNextInv | src/agent/agent.c:116-135 | Controller steps, deliveries, systemd's events, lost and new connections keep each agent in step with what it was sent |
| SubscriptionMirror.SystemRunSafe | src/agent/agent.c:116-135 | So in every state of every run of the whole system |
| SubscriptionMirror.MirrorsIndex | src/controller/node.c:1805-1837 | When the queue to a connected agent is drained it wants every key of the index, nothing but these and what it wanted when the connection began, and exactly these if that was nothing |
| CacheFollowsAgent.FollowNext | src/controller/node.c:463-573 | Every step of the system keeps cache, events under way and agent in step |
| CacheFollowsAgent.CachedLoadedIsAgents | src/controller/node.c:463-573 | With both queues drained, a unit is cached as loaded exactly if it is loaded on the node, unless the agent had the subscription before this connection, or an Unsubscribe for the unit or the wildcard was sent on it |
| CacheOutcome.SettlesExactly | src/controller/node.c:463-573 | From any reachable state, once both queues run dry: the loaded bit the controller ends with, and that it is the agent's if and only if, for a loaded unit, the reports under way say so or a Subscribe the agent will accept is under way, and for any other, the reports do not say loaded |
| CacheOutcome.RenewalOutcome | src/controller/node.c:1839-1899 | In any reachable state, an entry made anew ends, once the queues run dry, with what the reports under way said or the truth; so it is right if and only if these do not make a unit loaded that is not |
| CacheOutcome.RemovalOutcome | src/agent/agent.c:2301-2326 | In any reachable state, once systemd removed a unit the agent knows and the queues ran dry, the controller has it as loaded if and only if the earlier reports said so and the agent wanted neither the unit nor the wildcard, so that the removal was not reported |
| CacheOutcome.LoadedIsNeverMissed | src/agent/agent.c:1464-1511 | In every run, with take-backs or not, a drained controller has a loaded unit of its index cached as loaded, unless the agent kept the subscription from before the connection |
| CacheOutcome.ReconnectionOutcome | src/agent/agent.c:1491-1493 | After a reconnect the cache learns that a unit is loaded exactly if it is and the agent did not hold the subscription already |
| CacheRaces.RenewalRace | src/agent/agent.c:1513-1544 | A run of the whole system that ends drained with a unit cached as loaded that is not; of the conditions of CachedLoadedIsAgents it breaks only the one about an Unsubscribe for the unit |
| CacheRaces.WildcardRace | src/agent/agent.c:1513-1544 | A run that ends so and breaks only the one about an Unsubscribe for the wildcard |
| StateOutcome.ShownSettlesExactly | src/controller/node.c:502-540 | From any reachable state, once both queues run dry: the state and substate the controller ends with, and, for a loaded unit, that they are the agent's if and only if the reports under way say so, or a Subscribe the agent will accept is under way and it has a state to tell |
| StateOutcome.ReloadOutcome | src/agent/agent.c:2281-2296 | In any reachable state, once systemd loaded a unit and the queues ran dry, the cached state is the agent's, inactive and dead, if and only if the reports said so already or a Subscribe the agent will accept is under way |
| StateOutcome.CachedStateIsAgents | src/agent/agent.c:2197-2256 | In every run, with take-backs or not, a drained controller has the agent's state and substate of a loaded unit of its index cached, if the agent has a state other than inactive and dead and did not keep the subscription from before the connection |
| StaleState.ReloadLeavesStaleState | src/controller/node.c:480-487 | A run of the whole system that ends drained with a loaded unit cached as active and running that is inactive and dead, and with a new subscriber told so |
| ProxyServices.AfterKeeps | src/agent/proxy.c:30-210 | Every happening keeps all that is said below |
| ProxyServices.RepliedExactlyOnce | src/agent/proxy.c:30-58 | Over every run a CreateProxy call gets at most one reply, and has exactly one once no listed proxy holds it |
| ProxyServices.AnsweredExactly | src/agent/proxy.c:30-58 | In every run a request has got a given answer if and only if something happened that calls for it: success if the target of its waiting proxy was shown active, failure if the target was shown failed, stopped or gone or could not be watched, "stopped" if the proxy was removed or the agent ended while it waited, refusal if the key was taken or there was no connection |
| ProxyServices.TargetIsAnswered | src/agent/proxy.c:30-184 | Each message about the target of a listed proxy: the one answer a waiting request gets, the one stop of the service of a ready proxy, and when there is neither |
| ProxyServices.CreateIsAnswered | src/agent/agent.c:1872-1916 | A request with a known key or without a connection is refused at once; any other makes a waiting proxy and gets no answer yet |
| ProxyServices.RemoveIsAnswered | src/agent/agent.c:1928-1957 | RemoveProxy answers a waiting request with "stopped" and stops no service |
| ProxyServices.EndIsAnswered | src/agent/agent.c:2719-2739 | The agent's end answers every waiting request with "stopped" and stops the service of every ready proxy, in list order |
| ProxyServices.AnnouncedById | src/agent/agent.c:2805-2816 | In every run, while connected, the controller was sent a ProxyNew with the number of each listed proxy |
| ProxyServices.StoppedAtMostOnce | src/agent/agent.c:2929-2954 | A local service is stopped at most once, after a success reply and never while its proxy is listed |
| ProxyServices.AnnouncedIsListed | src/agent/agent.c:2805-2816 | While connected, ProxyNew less ProxyRemoved on this connection is the number of listed proxies of the target |
| ProxyServices.EndsExactly | src/agent/proxy.c:69-189 | Which happenings take a proxy off the list, both ways: virtual events never do |
| ProxyServices.Stranded | src/agent/proxy.c:277-290 | After its connection is closed or replaced a proxy stays as it is, unanswered if it was waiting, until RemoveProxy or the end |
| ProxyServices.StrandedWaits | src/agent/proxy.c:277-290 | A run that ends with a waiting proxy on a connection that was replaced, its request unanswered |
| ProxyServices.ProxyAgent.FindProxy | src/agent/agent.c:1858-1870 | The first proxy with service, node and unit |
| ProxyServices.ProxyAgent.StopLocalService | src/agent/agent.c:2929-2954 | Stops unless told not to, and then not again |
| ProxyServices.ProxyAgent.RemoveProxy | src/agent/agent.c:491-528 | Signal, reply, stop and list place, in this order and under their conditions |
| ProxyServices.ProxyAgent.InitialState | src/agent/proxy.c:30-58 | Replies, drops the request, and removes the proxy on failure |
| ProxyServices.ProxyAgent.CreateProxy | src/agent/agent.c:1872-1916 | Refuses a second one and one without a connection, else lists it with its request |
| ProxyServices.ProxyAgent.RemoveProxyCalled | src/agent/agent.c:1928-1957 | Removes without stopping the service |
| ProxyServices.ProxyAgent.TargetChanged | src/agent/proxy.c:69-137 | Waiting and ready react differently to the same state |
| ProxyServices.ProxyAgent.TargetGone | src/agent/proxy.c:157-184 | A real removal fails a waiting proxy |
| ProxyServices.ProxyAgent.Reannounce | src/agent/agent.c:2805-2816 | The loop tells the controller of every proxy in order |
| ProxyServices.ProxyAgent.Stop | src/agent/agent.c:2719-2739 | Every proxy goes, and no signal is sent |
| ProxyMirror.BothNextInv | src/controller/node.c:625-724 | Steps of the agent, of the controller and of the connection between them keep the controller's monitors for the node equal to the known and allowed targets whose last handled signal is ProxyNew |
| ProxyMirror.MonitorsMirrorProxies | src/controller/node.c:613-724 | In every run, with every signal handled: at most one monitor for a unit on a target, none without a listed proxy, and, for a known and allowed target, one for a listed proxy if and only if the agent announced one since it last withdrew one |
| ProxyMirror.LoneProxiesAreMirrored | src/agent/agent.c:1858-1870 | If no two proxies for the unit were ever announced at a time on the connection, there are as many monitors as listed proxies |
| ProxyMirror.FirstToGoTakesMonitor | src/controller/node.c:665-671 | A run that ends with every signal handled, a listed proxy without a monitor, and no dependency counted for it |
| Jobs.AfterKeeps | src/controller/node.c:1616-1696 | Requests, answers, timeouts, restarts, lost and new connections keep the whereabouts of every id in order |
| Jobs.ListedJobHasOnePlace | src/agent/agent.c:1294-1326 | A listed job of a connected node is tracked by its agent or its end is on the way: exactly one, and on no other node; at most one once the agent dropped the connection |
| Jobs.RemovedOnceAfterNew | src/controller/controller.c:205-249 | JobRemoved at most once per id, only after JobNew, and not while the job is listed |
| Jobs.ResultIsSystemds | src/controller/controller.c:227-273 | In every run, a JobRemoved with a result was sent to the clients only if systemd removed a job with this result on the node the id was issued for, and that released the tracker of the id |
| Jobs.DoneIsPassedOn | src/controller/controller.c:227-273 | The end of a listed job takes it off the list and is passed on once with the result the agent gave; the end of any other job does neither |
| Jobs.ReleaseIsTold | src/agent/agent.c:2332-2359 | A release is told to a connected controller with systemd's result |
| Jobs.AnswerIsListed | src/controller/node.c:1616-1696 | An accepted request that still waits is listed and announced under its node; a refused one, or one that timed out, is not |
| Jobs.RequestIsSent | src/controller/node.c:1616-1696 | A request takes the next id, never issued before, and is sent and waited for exactly if the node is connected |
| Jobs.SystemdAnswers | src/agent/agent.c:2107-2137 | An accepted request is tracked under the path of its job, and the answer goes out on the connection of the request or not at all |
| Jobs.StaleDoneRemovesNothing | src/controller/controller.c:262-273 | The end of a job from an earlier connection removes no job and reaches no client |
| Jobs.OneReleasePerSignal | src/agent/agent.c:2332-2359 | One JobRemoved of systemd releases one tracker, so all are released exactly if at most one shares the path |
| Jobs.JobList.Add | src/controller/controller.c:205-225 | Announces and appends |
| Jobs.JobList.Finish | src/controller/controller.c:262-273 | Removes and reports the first job with the id, or does nothing |
| Jobs.JobList.DropNode | src/controller/node.c:1117-1130 | Drops the node's jobs and only these, in place, without a signal |
| Jobs.JobTrackers.Track | src/agent/agent.c:2107-2137 | The newest tracker comes first |
| Jobs.JobTrackers.Removed | src/agent/agent.c:2332-2359 | Releases the first tracker with the path |
| Registration.EachConnectionHeldOnce | src/controller/node.c:965-1031 | Over every run an open connection is held by exactly one node, a closed one by none |
| Registration.CountersAgree | src/controller/controller.c:1320-1347 | The counters are the number of nodes and of online nodes, and the last reported status is the current one |
| Registration.ReportedExactlyOnChange | src/controller/controller.c:1329-1347 | A status is reported exactly when it changes |
| Registration.RegisteredExactly | src/controller/node.c:965-1031 | When Register succeeds, which one node then holds the connection, and that nothing changes otherwise |
| Registration.RefusedExactly | src/controller/node.c:965-1031 | Which refusal a Register gets, each if and only if: the connection has a named node, no node has the name, the required context is not the peer's, or the node has a connection |
| Registration.StatusMeans | src/controller/controller.c:1320-1347 | In every run the status last reported says down if and only if no node is connected, up if and only if there are nodes and all are, degraded if and only if some are and some are not |
| Registration.ContextsArePeers | src/controller/node.c:745-760 | In every run an anonymous node holds the security context of the peer its connection came from, and named nodes keep names and required contexts |
| Registration.RequiredIsConfigured | src/controller/controller.c:400-424 | In every run a node requires the context its section gives, a node of AllowedNodeNames included and in whatever order the sections come, and none if it has no section |
| Registration.LeftoversAreRegistrations | src/controller/node.c:1023-1031 | Anonymous nodes without a connection are as many as successful registrations |
| Registration.ConfiguredOk | src/controller/controller.c:382-424 | The nodes made from the configuration satisfy the invariant, all offline |
| Registration.ConfiguredNames | src/controller/controller.c:382-424 | A node exists for each expected name and for each section marked as allowed, and for no other |
| Registration.LostKeeps | src/controller/node.c:1114-1135 | A disconnect of an anonymous or a named node keeps holders, counters and status in agreement |
| Registration.Nodes.constructor | src/controller/controller.c:382-424 | The loop over the expected names, skipping known ones, then that over the sections |
| Registration.Nodes.ApplySections | src/controller/controller.c:400-424 | The loop over the sections |
| Registration.Nodes.ApplySection | src/controller/controller.c:405-424 | Finds the node of a section, or makes it if it is allowed, and gives it the required context |
| Registration.Nodes.FindNode | src/controller/controller.c:165-175 | The node of that name |
| Registration.Nodes.AddNode | src/controller/controller.c:275-289 | Counts and lists a named node |
| Registration.Nodes.Accept | src/controller/controller.c:493-523 | A new connection is held by a new anonymous node |
| Registration.Nodes.CheckSystemStatus | src/controller/controller.c:1329-1347 | The four conditions for reporting |
| Registration.Nodes.MethodRegister | src/controller/node.c:965-1031 | The refusals in their order, then the move of the connection |
| Registration.Nodes.AnonymousDisconnected | src/controller/node.c:1114-1116 | The anonymous node is removed with its connection |
| Registration.Nodes.NamedDisconnected | src/controller/node.c:1117-1135 | The named node stays, offline and uncounted |
| AgentConnection.AfterKeeps | src/agent/agent.c:116-218 | Every event keeps the connection state in order |
| AgentConnection.ConnectedByLatestRegister | src/agent/agent.c:2741-2836 | Connected is entered only by a good reply to the last Register call, on the connection of that call |
| AgentConnection.ConnectedMeans | src/agent/agent.c:2741-2775 | Connected means an open, accepted connection, no retries and no disconnect times |
| AgentConnection.TickBeatsOrAttempts | src/agent/agent.c:170-218 | A tick sends a heartbeat on a live connection or tries to connect, never both, and twice exactly if a dead connection's address did not resolve |
| AgentConnection.HeardInTime | src/agent/agent.c:2363-2381 | In every run a connected agent has stored the time of the last good Register reply or heartbeat of the controller, found from the events alone |
| AgentConnection.TickGivesUpExactly | src/agent/agent.c:139-218 | A tick gives a connection up if and only if that time is further back than the threshold, and then tries to connect; otherwise it sends one heartbeat |
| AgentConnection.LossIsTimed | src/agent/agent.c:116-135 | In every run the disconnect times are those of the last loss, and zero while there is none |
| AgentConnection.OneTickAndReplyReconnect | src/agent/agent.c:170-218 | From any state that is not alive one tick that gets through and one good reply connect |
| AgentConnection.RejectedWaitsForTick | src/agent/agent.c:2741-2749 | After a rejected Register only a tick, a switch or the end moves the agent |
| AgentConnection.RetriesCountTicks | src/agent/agent.c:192-207 | The retry count grows with exactly the ticks that retry |
| AgentConnection.AgentLink.PeerBusClose | src/agent/agent.c:2909-2916 | Drops the call under way and the connection |
| AgentConnection.AgentLink.Connect | src/agent/agent.c:2838-2881 | Connecting, whether or not the bus opens |
| AgentConnection.AgentLink.Reconnect | src/agent/agent.c:2883-2907 | Changes nothing unless the address resolves |
| AgentConnection.AgentLink.OnDisconnected | src/agent/agent.c:116-135 | Sets the times and tries again at once |
| AgentConnection.AgentLink.CheckControllerLiveness | src/agent/agent.c:139-168 | Alive unless the controller was silent for longer than the threshold |
| AgentConnection.AgentLink.HeartbeatTimer | src/agent/agent.c:170-218 | The whole tick |
| AgentConnection.AgentLink.RegisterCallback | src/agent/agent.c:2821-2836 | Reply dropped, rejected or accepted |
| AgentConnection.AgentLink.MatchHeartbeat | src/agent/agent.c:2363-2381 | Stores the time of a heartbeat, unless a clock cannot be read |
| AgentConnection.AgentLink.Stop | src/agent/agent.c:2719-2733 | Closed and disconnected |
| Liveness.OnlineExactly | src/controller/controller.c:693-721 | A node stays online exactly if no check found its last heartbeat older than the threshold |
| Liveness.SteadyNodeStaysOnline | src/controller/node.c:591-611 | Heartbeats no further apart than the threshold never lead to a disconnect |
| Liveness.SilentNodeIsFound | src/controller/controller.c:723-759 | With checks at most a period apart, a silent node is offline by threshold plus period after its last heartbeat |
| Liveness.NodeWatches.CheckLiveness | src/controller/controller.c:693-721 | The four ways to pass, and the disconnect |
| Liveness.NodeWatches.TimerCallback | src/controller/controller.c:723-759 | Each node is checked once against one time, and exactly those still online are sent a heartbeat |
| FleetRequest.OneReplyWhenAllAnswered | src/controller/controller.c:840-936 | At most one reply, and one exactly when every call that was made is answered, at once if none was |
| FleetRequest.ReplyIsExpected | src/controller/controller.c:943-1010 | The reply holds each node's own answer in node order, or the first error, whatever the order of the answers |
| FleetRequest.SlotsAreCalls | src/controller/controller.c:911-922 | One slot for each call made, none for a node without an agent |
| FleetRequest.FleetRequests.constructor | src/controller/controller.c:899-936 | Slots fit into room for all nodes, and the request may be done at once |
| FleetRequest.FleetRequests.Callback | src/controller/controller.c:878-897 | The answer goes into the slot of its own request |
| FleetRequest.FleetRequests.EncodeReply | src/controller/controller.c:943-1010 | Entries in slot order, or the first failure |
| References.SubscriptionUnrefKeeps | src/controller/monitor.c:84-103 | A subscription is freed exactly when neither list nor running code refers to it, and then gives back its reference to the monitor |
| References.MonitorUnrefKeeps | src/controller/monitor.c:177-187 | A monitor is freed exactly when neither the controller, a live subscription, nor running code refers to it |
| References.Objects.CreateMonitor | src/controller/controller.c:1207-1246 | A new monitor ends with the one reference of the controller's list |
| References.Objects.Subscribe | src/controller/monitor.c:254-291 | A new subscription ends with one reference from each list and one to its monitor |
| References.Objects.FindSubscription | src/controller/monitor.c:364-375 | The first subscription with the id |
| References.Objects.Unsubscribe | src/controller/monitor.c:377-402 | Frees the subscription with that id and no other, or says there is none |
| References.Objects.Close | src/controller/monitor.c:207-229 | Frees all subscriptions of the monitor, each once, while the monitor stays alive |
| References.Objects.RemoveMonitor | src/controller/controller.c:1437-1440 | Off the list, and its reference dropped |
| References.Objects.MethodClose | src/controller/monitor.c:235-248 | Monitor and subscriptions are freed, nothing else changes, and all lookups are of live objects |
| References.Objects.ClientDisconnected | src/controller/controller.c:1442-1453 | Frees exactly the client's monitors and their subscriptions while the list is walked |
| IntrusiveList.Item.constructor | src/libbluechi/common/list.h:30-35 | An item without links |
| IntrusiveList.List.constructor | src/libbluechi/common/list.h:24-28 | An empty list |
| IntrusiveList.List.Prepend | src/libbluechi/common/list.h:38-46 | The item comes first |
| IntrusiveList.List.Append | src/libbluechi/common/list.h:49-54 | The item comes last |
| IntrusiveList.List.Remove | src/libbluechi/common/list.h:57-70 | The others stay in order, and the item has no links |
| IntrusiveList.List.FindHead | src/libbluechi/common/list.h:73-83 | From any item to the first; null from null |
| IntrusiveList.List.FindTail | src/libbluechi/common/list.h:86-96 | The last item, or null |
| IntrusiveList.List.InsertAfter | src/libbluechi/common/list.h:99-114 | Right after the given item, or first |
| IntrusiveList.List.InsertBefore | src/libbluechi/common/list.h:117-142 | Right before the given item, or last |
| IntrusiveList.List.Join | src/libbluechi/common/list.h:177-189 | The second list's items follow, and it is empty |
| IntrusiveList.List.Pop | src/libbluechi/common/list.h:191-198 | The first item, removed |
| IntrusiveList.List.ForeachSafe | src/libbluechi/common/list.h:148-149 | Removing the current item, the loop visits the original sequence and leaves exactly the kept items in order |
| IntrusiveList.List.ForeachOthers | src/libbluechi/common/list.h:156-167 | Visits all items but one, in order |
| IntrusiveList.List.LoopButOne | src/libbluechi/common/list.h:170-172 | Visits the items after it, then those before it |
| IntrusiveList.KeptSome | src/libbluechi/common/list.h:148-149 | What is kept is exactly what is not dropped |
| IntrusiveList.OtherListsUnchanged | src/libbluechi/common/list.h:49-70 | A removal from one list and an append to it leave a disjoint list as it is |
| Config.FileValue | src/libbluechi/common/cfg.c:66-86 | An option's value in a file is the concatenation of all its occurrences, unset if that is empty |
| Config.LastLayerWins | src/libbluechi/common/cfg.c:131-214 | When a load succeeds, and that every option then has the value of the last layer that sets it |
| Config.RejectedFileUnnoticed | src/libbluechi/common/cfg.c:245-285 | A load succeeds with a rejected file exactly if that is in the directory and not last; it contributes nothing |
| Config.RejectedFileExample | src/libbluechi/common/cfg.c:245-285 | A directory with a rejected file and then a good one loads |
| Config.DirectoryOutcome | src/libbluechi/common/cfg.c:245-285 | When a directory loads, and that its files are then overlaid in order |
| Config.EnvironmentSets | src/libbluechi/common/cfg.c:287-307 | Each of the three variables sets its own option if and only if it is there and not empty |
| Config.Configuration.SetValue | src/libbluechi/common/cfg.c:334-376 | Replaces the option; an empty value is none |
| Config.Configuration.Handle | src/libbluechi/common/cfg.c:66-86 | Continues an existing value |
| Config.Configuration.CopyOverwrite | src/libbluechi/common/cfg.c:111-123 | The union with the source preferred, whatever the order of the table |
| Config.Configuration.LoadFromFile | src/libbluechi/common/cfg.c:216-239 | All of a file or nothing of it |
| Config.Configuration.LoadFromDirectory | src/libbluechi/common/cfg.c:245-285 | The loop and its result code |
| Config.Configuration.LoadFromEnvironment | src/libbluechi/common/cfg.c:287-307 | The three variables, if not empty |
| Config.Configuration.LoadComplete | src/libbluechi/common/cfg.c:131-214 | The five steps and the errors that end them |
| PathEscape.BusPathEscape | src/libbluechi/bus/utils.c:268-295 | The loop over the buffer writes the escape, within three bytes per byte and the terminator |
| PathEscape.EscapeIsPathElement | src/libbluechi/bus/utils.c:268-295 | Never empty, only letters, digits and underscore, and it fits the buffer (D-Bus Specification, section "Valid Object Paths") |
| PathEscape.EscapedByte | src/libbluechi/bus/utils.c:268-295 | Letters, and digits except in front, stand for themselves; any other byte becomes an underscore and its two hexadecimal digits in lower case |
| PathEscape.EscapeConcat | src/libbluechi/bus/utils.c:268-295 | The escape is that of the bytes, one after the other, and one underscore for no byte |
| PathEscape.UnescapeEscape | src/libbluechi/bus/utils.c:268-295 | A decoder gets every byte string back, the empty one included |
| PathEscape.EscapeInjective | src/libbluechi/bus/utils.c:268-295 | Different strings have different escapes |
| PathEscape.UnitPathsAgree | src/libbluechi/bus/utils.c:245-258 | make_unit_path and assemble_object_path_string build the same path |
| PathEscape.UnitPathsDiffer | src/agent/agent.c:337-345 | Different units never share an entry of the agent's table |
| Glob.MatchesExactly | src/libbluechi/common/string-util.h:71-85 | A string matches exactly if it can be cut into one piece per pattern byte, each standing for it; null matches nothing |
| Glob.DoubleStar | src/libbluechi/common/string-util.h:71-85 | Two stars in a row are one, anywhere in a pattern |
| Glob.StarFreeLength | src/libbluechi/common/string-util.h:71-85 | Without a star: the same length, and each byte fits |
| Glob.StarMatchesAll | src/libbluechi/common/string-util.h:71-85 | A star alone matches everything |
| DBusSignature.RoundTrip | src/bindings/generator/src/dbus_typing.py:34-188 | Every supported type is read back from its signature whatever follows, with its Python name and its length |
| DBusSignature.WrittenInPython | src/bindings/generator/src/dbus_typing.py:34-188 | How lists, bytes, dictionaries, structures and tuples are written in Python |
| DBusSignature.ArrayExactly | src/bindings/generator/src/dbus_typing.py:54-137 | Exactly what the array mapper accepts, the name it gives and the count it returns |
| DBusSignature.StructExactly | src/bindings/generator/src/dbus_typing.py:139-188 | The same for the struct mapper |
| DBusSignature.ParsedAsIntended | src/bindings/generator/src/dbus_typing.py:34-52 | Several types are understood exactly if there is one, or more of which the first is basic; no type gives a pair, and otherwise all but the first are dropped |
| DBusSignature.PairExactly | src/bindings/generator/src/dbus_typing.py:43-44 | A pair instead of a type string comes back for the empty signature and no other |
| DBusSignature.ClosingBraceUnchecked | src/bindings/generator/src/dbus_typing.py:114-133 | Any character does for the brace after a dictionary value that is not basic |
| DBusSignature.ArrayOfArrays | src/bindings/generator/src/dbus_typing.py:54-137 | An array of arrays is rejected |
| DBusSignature.MapStructLoop | src/bindings/generator/src/dbus_typing.py:139-188 | The loop over the fields computes the recursive mapper |

## Left out

- sd-bus, sd-event, sockets and timers: connections are FIFO queues, handlers are steps, and times are parameters.
- Failing bus calls, running out of memory, and messages that cannot be parsed, except failing to open a bus, to send Register, or to resolve an address; the branches of node_set_agent_bus that return false after the bus is set are part of that.
- SELinux lookups: the peer's context is a parameter of an accepted connection.
- controller_stop and node_shutdown: the order in which the process tears itself down, and cancelled requests.
- UnitPropertiesChanged: it goes to the same monitors as a state change and is cached nowhere.
- The hash function of the de-duplication set is a function of the subscription's address and otherwise unknown; nothing is claimed about how often one monitor gets an event.
- The order in which a hash table is walked is any order.
- References held by proxy monitors and by their calls under way: only monitors and their subscriptions are counted.
- Monitor peers, and sending events to them: a list of names beside the owner.
- JobStateChanged, Job.Cancel and job metrics: the state of a job is informational, cancelling forwards a call.
- StartDep and StopDep on the agent: each starts or stops one helper unit through systemd.
- A proxy error for a proxy that is already ready, which the controller can only cause through a ProxyNew sent again: it would fail an assertion in the code.
- Job ids, subscription ids and times do not wrap around.
- 64-bit overflow of the heartbeat threshold when it is converted to microseconds.
- A node re-registering before the controller noticed the loss of its old connection is refused, so one agent has one connection at a time.
- CacheFollowsAgent.CachedLoadedIsAgents: assumes that systemd reports property changes only for units it has announced as loaded, and covers units the agent learned on this connection and was not told to drop; CacheOutcome has the exact outcome for the others, in any run.
- Jobs.ListedJobHasOnePlace: a disconnect forgets the requests of the node that are unanswered; in the source a late reply on a connection that the liveness check gave up can still list a job for a node that is offline.
- CacheOutcome.ReconnectionOutcome: a connection begins when the controller handles Register; signals the agent sent between its call and then are not delivered, while the source delivers them.
- ProxyMirror.MonitorsMirrorProxies: signals the agent sent on a connection that it has replaced are not handled any more.
- AgentUnits.Agent.InitUnits: the states systemd lists at start are taken as given.
- Nodes.Node.UniqueSubscriptions: states complete and sound delivery, since the set compares by monitor but hashes by address.
- Proxies, jobs and slots are values in a sequence, so aliases of one object are not modelled there; the heap proofs are those of IntrusiveList and References.
- Configuration: the INI syntax, which files a directory holds, and their sorting; a file is its entries or an error.
- DBusSignature: exceptions are one outcome without their text.
- UI and plumbing: bluechictl, bluechi-is-online, the proxy command, logging, metrics, pass-through methods, and small parsers.
