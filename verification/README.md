# Verification of the packet-handling components

This project models, in Dafny 4.11, the parts of the ThingsIX packet forwarder and router whose
correctness is hard to see from the code, and proves what they promise. It covers:

- the **SX1301 radio planner** and the BasicStation channel configuration built on it
  (`Stabbing`, `Planner`, `RouterConfig`);
- the **Semtech UDP downlink retry protocol** with its token cache, its gateway registry and the
  per-gateway statistics (`Frames`, `Retry`, `Overlap`, `Registry`, `UdpBackend`, `Stats`);
- the **presence and acknowledgement protocol** between forwarder and router
  (`RouterClient`, `Router`, `Presence`), the MQTT subscription loop (`Mqtt`), the broadcaster
  (`Broadcast`) and the reconciliation of the routing table (`Routes`);
- the **YAML gateway store** with its three indexes (`Store`);
- three exact codecs: ID6 identifiers (`Id6`), device address prefixes (`DevAddr`) and the mapper
  longitude (`Longitude`).

`dafny verify dfyconfig.toml` checks everything.

## How it is built

Components that update state are classes whose methods follow the code and are proved against a
step function on values: `View()` of the new state equals that function of the old one. The step
functions are composed into runs over arbitrary sequences of events, with explicit times where
timers matter, and the main results are statements about all runs. Go's 32-bit arithmetic wraps
explicitly, Go's map iteration is an arbitrary choice, and I/O is a parameter that says whether a
call succeeds.

## Results worth knowing

- The planner succeeds if and only if some two radio frequencies serve all channels; a failure
  exhibits three channels that need three radios. The order of the channels plays no part, so an
  unstable sort does not matter.
- The sweep of the router can remove a connected gateway that the session registered if and only if
  four minutes, the gap between online reports and the delivery delay together exceed five minutes.
- Across reconnects the client remembers what the router forgot. A connected gateway that the client
  told of at most four minutes before it joined the session can stay unregistered exactly until four
  minutes, a gap and a delay after that event; any other one at most a gap and a delay.
- "At most one OK per downlink report" is false in two ways. When packets are handled one after the
  other it fails exactly as `Retry.AtMostOneOkIff` says: for gateways that send the status name `OK`
  as an error, since the status table contains that name (`Retry.ErrorNamedOkGivesTwo`). But packets
  are handled on goroutines of their own (backend.go:224-246), and overlapping handlers can give a
  report with two OK entries without any such name (`Overlap.OverlapGivesTwoOks`), which counts two
  transmissions. `Overlap.ReportHasOneOkIff` is the exact condition for any overlap.
- Likewise the cache entries of a token are coherent, and no item is sent twice, when packets are
  handled one after the other. `Overlap` says exactly when a send in progress is found out of sync or
  its slice marked for an older frame, and that an item is tried again if and only if a retrying
  handler was overtaken by another between its reads and its attempt.
- The store's indexes agree if and only if the keys in the file have distinct network ids. `Add`
  checks the local id only, so adding a key that is already stored breaks the agreement;
  `Store.AddAgreesIffFresh` states the check that keeps it.
- The broker has every recorded subscription throughout if and only if no connection is lost while
  something is recorded and no unsubscribe goes uncounted (its confirmation late, or its state
  message unpublished). A gateway that returns after such an unsubscribe, before the next pass begins
  and thus before the unsubscribe is tried again, has no subscription until the handler of a new
  connection resets the record.
- An identifier text `P::S` makes the parser panic exactly when one side has more than four blocks.
  With more than four on both sides together the right side silently overwrites the left, which
  survives exactly when the overwritten blocks coincide. Between two `::` blocks can be dropped.

## Model

| member | source | states |
|---|---|---|
| Planner.FitsIsInterval | external/chirpstack/gateway-bridge/config/sx1301v1/sx1301v1.go:110-118 | for every 32-bit radio frequency, wrapping bounds included, the channel test is membership of one interval, and an unset radio fits no channel |
| Planner.FitsInNumbers | external/chirpstack/gateway-bridge/config/sx1301v1/sx1301v1.go:13-23 | for every modulation, frequency, width and radio: a radio takes the channel exactly when its centre is within 300 kHz (500 kHz wide), 375 kHz (250 kHz wide), 400 kHz (125 kHz wide) or 462.5 kHz less half the width (any other) |
| Planner.InBandInNumbers | external/chirpstack/gateway-bridge/config/sx1301v1/sx1301v1.go:13-17 | a channel is in band exactly when it is at most 925 kHz wide and 1.1 MHz away from both ends of the range |
| Planner.ScanDescribes | external/chirpstack/gateway-bridge/config/sx1301v1/sx1301v1.go:58-95 | the greedy pass over channels sorted by left-side centre computes the radios characterised without any order: least centre, least centre among those not reached, failure when one is reached by neither |
| Planner.PlacedCoversAll | external/chirpstack/gateway-bridge/config/sx1301v1/sx1301v1.go:52-121 | after a successful placement every channel is assigned, and to a radio that is set |
| Planner.FailureExhibitsThree | external/chirpstack/gateway-bridge/config/sx1301v1/sx1301v1.go:86-91 | a failed placement exhibits three channels of which no radio at any frequency takes two |
| Planner.PlacedIffPossible | external/chirpstack/gateway-bridge/config/sx1301v1/sx1301v1.go:52-121 | placement succeeds exactly when some pair of centre frequencies serves every channel, for any mix of bandwidths |
| Planner.SecondRadioOnlyWhenNeeded | external/chirpstack/gateway-bridge/config/sx1301v1/sx1301v1.go:75-84 | the second radio is unset exactly when one radio serves all channels, the first exactly when there are none, and two set radios are ascending |
| Planner.PlanIgnoresOrder | external/chirpstack/gateway-bridge/config/sx1301v1/sx1301v1.go:28-56 | permuting the channels changes neither the radios nor the outcome, whatever an unstable sort does |
| Planner.FailureNamesChannel | external/chirpstack/gateway-bridge/config/sx1301v1/sx1301v1.go:88-91 | the frequency in the error belongs to a channel that neither radio placed so far takes |
| Planner.Sort | external/chirpstack/gateway-bridge/config/sx1301v1/sx1301v1.go:28-56 | sorting in place through Less and Swap yields a sorted permutation |
| Planner.GetRadioFrequencies | external/chirpstack/gateway-bridge/config/sx1301v1/sx1301v1.go:52-96 | sorts the caller's channels in place and returns the plan they call for, for the order given and for the sorted one |
| Planner.GetRadioForChannel | external/chirpstack/gateway-bridge/config/sx1301v1/sx1301v1.go:99-124 | returns the first radio whose bandwidth contains the channel, or none |
| Stabbing.OnePointEnough | external/chirpstack/gateway-bridge/config/sx1301v1/sx1301v1.go:75-84 | the combinatorial core: the second point is unused exactly when one point meets all intervals |
| Stabbing.FailureWitness | external/chirpstack/gateway-bridge/config/sx1301v1/sx1301v1.go:86-91 | the combinatorial core: failure yields three intervals pairwise without a common point |
| RouterConfig.BuildChannels | external/chirpstack/gateway-bridge/backend/basicstation/structs/router_config.go:133-170 | the channel list is the multi-SF frequencies in order, then FSK, then LoRa-std, the latter two only when non-zero |
| RouterConfig.ConfigureConcentrator | external/chirpstack/gateway-bridge/backend/basicstation/structs/router_config.go:133-244 | succeeds exactly when two radios can serve the concentrator; then of the eight multi-SF slots a prefix is enabled whose radio plus offset are the configured frequencies ascending, each once, LoRa-std and FSK are reproduced, every offset is within the enabled radio, an enabled radio is within 400 kHz of the FSK frequency; the "get radio for channel" error never occurs |
| RouterConfig.EnterKeeps | external/chirpstack/gateway-bridge/backend/basicstation/structs/router_config.go:191-243 | entering one channel extends the slots that serve the channels entered so far |
| RouterConfig.MultiCount | external/chirpstack/gateway-bridge/backend/basicstation/structs/router_config.go:191-236 | the multi-SF frequencies of a channel list have the multiplicities of the channels themselves |
| RouterConfig.GetRouterConfig | external/chirpstack/gateway-bridge/backend/basicstation/structs/router_config.go:132-247 | all concentrators are configured so, and the whole call succeeds exactly when each of them can be served |
| Stats.DownlinkRaises | external/chirpstack/gateway-bridge/backend/stats/stats.go:49-76 | counting an acknowledgement raises every counter by the number of entries it ought to count, modulo 2^32 |
| Stats.ExportsConserve | external/chirpstack/gateway-bridge/backend/stats/stats.go:32-141 | over every run and for every counter, all exports plus the live value are what was to be counted, modulo 2^32 |
| Stats.ExportsEmpty | external/chirpstack/gateway-bridge/backend/stats/stats.go:78-141 | every export takes what was counted since the last and leaves nothing behind |
| Stats.AlwaysBalanced | external/chirpstack/gateway-bridge/backend/stats/stats.go:32-141 | in every state and every export the receive and transmit counts equal the sums of their breakdowns per frequency and per modulation, modulo 2^32 |
| Stats.SumSplits | external/chirpstack/gateway-bridge/backend/stats/stats.go:94-128 | the sum over a count map does not depend on the order of iteration |
| Stats.TransmissionsAreOks | external/chirpstack/gateway-bridge/backend/stats/stats.go:53-74 | transmissions counted equal OK statuses counted exactly when every OK met an encodable item of its frame |
| Stats.Collector.CountUplink | external/chirpstack/gateway-bridge/backend/stats/stats.go:32-47 | one uplink raises total, frequency and modulation counts, or nothing when its modulation cannot be encoded |
| Stats.Collector.CountDownlink | external/chirpstack/gateway-bridge/backend/stats/stats.go:49-76 | the loop over acknowledgement items counts what the specification counts, including the early end |
| Stats.Collector.ExportStats | external/chirpstack/gateway-bridge/backend/stats/stats.go:78-130 | exports the counts and starts again at zero |
| Retry.AlwaysCoherent | external/chirpstack/gateway-bridge/backend/semtechudp/backend.go:157-206 | in every state reached by sends, TX_ACKs, token reuse and expiry of any entry, each being one step, the entries of a token that are all present belong together, and "out of sync" never occurs |
| Retry.SuccessNames | external/chirpstack/gateway-bridge/backend/semtechudp/backend.go:393 | a TX_ACK with an empty error or the error "NONE" is handled like one without payload |
| Retry.SuccessIsReported | external/chirpstack/gateway-bridge/backend/semtechudp/backend.go:417-436 | a success with entries in sync is recorded as OK at the current item and reported |
| Retry.FailureIsRetried | external/chirpstack/gateway-bridge/backend/semtechudp/backend.go:393-415 | each failure name, written out, is recorded at the current item and the next item tried, with a packet exactly when the gateway of the frame is registered, or the whole reported when there is none |
| Retry.RejectedUnchanged | external/chirpstack/gateway-bridge/backend/semtechudp/backend.go:351-400 | any other name, and any TX_ACK for which an entry is missing, is rejected without a change |
| Retry.DownlinkIsCached | external/chirpstack/gateway-bridge/backend/semtechudp/backend.go:157-206 | a new frame replaces the three entries of its token and of no other, and its first item is tried |
| Retry.ExpiredIsRejected | external/chirpstack/gateway-bridge/backend/semtechudp/backend.go:351-381 | TX_ACKs are rejected whichever entry has expired |
| Retry.TokenIsCongruent | external/chirpstack/gateway-bridge/backend/semtechudp/backend.go:173-179 | in every run the downlink id of a cached frame is congruent to its token modulo 65536 |
| Retry.EachItemSentOnce | external/chirpstack/gateway-bridge/backend/semtechudp/backend.go:168-206 | when every packet is handled in one step, the items sent for a frame have strictly increasing indices and are no more than the frame has, under any duplicated, reordered or unknown TX_ACKs; for overlapping handlers see Overlap.RetriedIffOvertaken |
| Retry.EveryReportHasShape | external/chirpstack/gateway-bridge/backend/semtechudp/backend.go:392-436 | when every packet is handled in one step, every report consists of the errors the gateway gave, then OK or, at the last item only, a failure, then IGNORED; for overlapping handlers see Overlap.SliceIsLastWritten |
| Retry.AtMostOneOkIff | external/chirpstack/gateway-bridge/backend/semtechudp/backend.go:392-436 | when every packet is handled in one step, a report has at most one OK exactly when the errors named "OK" before the final TX_ACK, plus one when that names no error or "OK", are at most one; for overlapping handlers see Overlap.ReportHasOneOkIff |
| Retry.OnlyFinalIsOk | external/chirpstack/gateway-bridge/backend/semtechudp/backend.go:392-436 | an OK before the last tried item occurs exactly when the gateway gave "OK" as an error name for one of the earlier items |
| Retry.OksOfReport | external/chirpstack/gateway-bridge/backend/semtechudp/backend.go:392-436 | the OK entries of a report are those given as errors named "OK" and the final one |
| Retry.GivenIsNotOk | external/chirpstack/gateway-bridge/backend/semtechudp/backend.go:393-407 | in a run without such error names, every packet handled in one step, no earlier item is recorded as OK |
| Retry.ErrorNamedOkGivesTwo | external/chirpstack/gateway-bridge/backend/semtechudp/backend.go:393-407 | for every frame with two items there is a run whose report has two OK entries |
| Overlap.TornReads | external/chirpstack/gateway-bridge/backend/semtechudp/backend.go:176-179 | for a handler whose three reads fall anywhere among the three writes of a send, in every reachable cache: exactly when it finds entries out of sync, goes on to the slice of the new frame for an older one, or goes on at an item the new frame has not tried |
| Overlap.HalfWrittenSendIsOutOfSync | external/chirpstack/gateway-bridge/backend/semtechudp/backend.go:176-179 | a TX_ACK between the writes of a send is out of sync exactly when the frames differ in size (after the first write) or the old index lies beyond the new frame (after the second) |
| Overlap.HandleIsReadsThenWrites | external/chirpstack/gateway-bridge/backend/semtechudp/backend.go:351-439 | the undisturbed handler is its reads followed by its writes |
| Overlap.LateHandlerDisplaces | external/chirpstack/gateway-bridge/backend/semtechudp/backend.go:399-403 | in every run in which a handler outlives its frame, a newer one being sent under its token with any handlers of either in between: the next TX_ACK is reported for the older frame if and only if the late handler retries, and the cache is unchanged otherwise |
| Overlap.OverlapStaysInBounds | external/chirpstack/gateway-bridge/backend/semtechudp/backend.go:384-403 | within one frame no interleaving of handlers is ever out of sync or tries an item the frame does not have |
| Overlap.RetriedIffOvertaken | external/chirpstack/gateway-bridge/backend/semtechudp/backend.go:224-246 | however the handlers of one frame overlap, an item is tried twice, and the items out of order, exactly when a retrying handler was overtaken between its reads and its attempt; if none was, the packets that leave are in strictly increasing order |
| Overlap.RepeatsIffOvertaken | external/chirpstack/gateway-bridge/backend/semtechudp/backend.go:187-205 | while the gateway is registered and all items can be sent, the packets repeat an item, and are out of order, exactly then |
| Overlap.DuplicateTxAckRepeats | external/chirpstack/gateway-bridge/backend/semtechudp/backend.go:391-403 | two overlapping duplicates make every frame with two items try its second one twice, and send it twice when it can be sent |
| Overlap.SliceIsLastWritten | external/chirpstack/gateway-bridge/backend/semtechudp/backend.go:384-430 | whatever handlers overlap, each item carries the status last given to it, or IGNORED |
| Overlap.ReportHasOneOkIff | external/chirpstack/gateway-bridge/backend/semtechudp/backend.go:404-436 | whatever handlers overlap, a report is the slice as it then is, with at most one OK if and only if at most one item was last given a status by a TX_ACK without error or with the error "OK" |
| Overlap.OverlapGivesTwoOks | external/chirpstack/gateway-bridge/backend/semtechudp/backend.go:224-246 | for every frame with two items there is an overlapping run without errors named "OK" whose report has two OK entries |
| UdpBackend.ReportRaises | external/chirpstack/gateway-bridge/backend/semtechudp/backend.go:390-436 | every report raises the transmission count by the number of OK items up to the first that cannot be encoded, and by none when its final TX_ACK names an error |
| UdpBackend.OkReportCountsOnce | external/chirpstack/gateway-bridge/backend/semtechudp/backend.go:390-436 | a report adds exactly one transmission if and only if its final TX_ACK names no error, its first OK item can be encoded and a second one cannot |
| UdpBackend.WithoutOkNamesCountsOnce | external/chirpstack/gateway-bridge/backend/semtechudp/backend.go:417-436 | in runs without errors named "OK", every packet handled in one step, every report of a transmission adds exactly one, exactly when the item transmitted can be encoded |
| UdpBackend.OverlapCountsTwice | external/chirpstack/gateway-bridge/backend/semtechudp/backend.go:224-246 | with overlapping handlers such a run can end with a report that adds two |
| UdpBackend.Backend.SendDownlinkFrame | external/chirpstack/gateway-bridge/backend/semtechudp/backend.go:157-166 | a new downlink is the protocol's send step with a fresh, unshared acknowledgement slice |
| UdpBackend.Backend.SendItem | external/chirpstack/gateway-bridge/backend/semtechudp/backend.go:168-206 | caches the three entries before the gateway is looked up, and sends only to a registered gateway |
| UdpBackend.Backend.HandleTxAck | external/chirpstack/gateway-bridge/backend/semtechudp/backend.go:345-439 | handling a TX_ACK with in-place writes to the shared slice is the protocol's step, touches no other token, and changes the statistics of the answering gateway only |
| UdpBackend.Backend.Expire | external/chirpstack/gateway-bridge/backend/semtechudp/backend.go:176-179 | the end of a cache entry is the step of the protocol |
| Registry.Gateways.Set | external/chirpstack/gateway-bridge/backend/semtechudp/registry.go:56-77 | registers or refreshes one gateway, keeps the statistics of a known one, and reports it online |
| Registry.Gateways.Cleanup | external/chirpstack/gateway-bridge/backend/semtechudp/registry.go:80-99 | removes exactly the gateways unseen for 60 seconds with one offline report each, so that the registered gateways stay those last reported online |
| RouterClient.ForwardsNeverOutnumber | forwarder/router_client.go:352-418 | in a session acknowledgements forwarded for a downlink never outnumber the downlinks received for it |
| RouterClient.ForwardConsumesDownlink | forwarder/router_client.go:352-418 | every forwarded acknowledgement consumes an earlier downlink of the same session |
| RouterClient.ConsumedOnce | forwarder/router_client.go:355-357 | no downlink is consumed by two forwarded acknowledgements |
| RouterClient.ForwardedIffAwaited | forwarder/router_client.go:270-278 | in a session an acknowledgement is forwarded if and only if sending works and a downlink asked for it that was neither asked again nor acknowledged since, nor older than 30 seconds at a tick |
| RouterClient.AnswerInTimeIsForwarded | forwarder/router_client.go:352-368 | so every acknowledgement within 30 seconds of its downlink is forwarded |
| RouterClient.ClientRemembers | forwarder/router_client.go:310-396 | over all sessions the client remembers a gateway exactly when it told the router of it since its last offline report, with that time |
| RouterClient.SuppressedIffToldRecently | forwarder/router_client.go:369-396 | an online report is suppressed if and only if the router was told of the gateway at most 240 seconds ago and not of its going offline since; all other reports and wanted uplinks are sent |
| RouterClient.PendingIsYoung | forwarder/router_client.go:250-278 | with a tick at least every 30 seconds no pending downlink is older than 60 seconds |
| RouterClient.RouterClient.Connect | forwarder/router_client.go:207-211 | a new session has no pending downlinks but keeps the times of the last events |
| RouterClient.RouterClient.HandleUplink | forwarder/router_client.go:294-351 | a forwarded uplink or join becomes the gateway's last event |
| RouterClient.RouterClient.HandleStatus | forwarder/router_client.go:369-396 | online is suppressed within four minutes of the last event, offline forgets it |
| RouterClient.RouterClient.HandleTxAck | forwarder/router_client.go:352-368 | an acknowledgement is forwarded only for a pending downlink, which it removes |
| RouterClient.RouterClient.HandleDownlink | forwarder/router_client.go:410-418 | a downlink becomes pending from now on |
| RouterClient.RouterClient.HandleTick | forwarder/router_client.go:270-278 | exactly the pending downlinks older than 30 seconds are dropped |
| Presence.SweepKeepsHeardGateways | forwarder/router_client.go:370-382 | with enough room for gap and delay, no run, reconnects included, lets a sweep remove a gateway registered through the current session |
| Presence.PresenceIsExact | router/router.go:492-516 | a sweep can remove a connected gateway exactly when 240 seconds, gap and delay exceed 300 seconds |
| Presence.HeardIsFresh | router/router.go:480-485 | a gateway heard of is never unseen for longer than the silence of the client plus the delay |
| Presence.RegistrationIsExact | forwarder/router_client.go:370-376 | whatever the client remembers from earlier sessions, a connected gateway can be unknown to the router at a time if and only if that is no later than its deadline, given by the remembered time and the gap, plus the delay |
| Presence.ConnectedIsRegistered | router/router.go:465-490 | within the five-minute bound and without other forwarders, every connected gateway is registered once its deadline and the delay are over |
| Presence.ReconnectIsSilent | forwarder/router_client.go:71-74 | in every run after a reconnect, a remembered gateway without forwarded uplinks stays unknown for four minutes after the remembered event |
| Router.AlwaysAgree | router/router.go:418-516 | over every run, sweeps cut short included, the router's gateways and the desired subscriptions are the same |
| Router.ThreeLayersAgree | external/chirpstack/gateway-bridge/integration/mqtt/backend.go:463-519 | in every joint run of the router, whose actions issue the subscription calls, and the loop: gateways and desired set agree always, and after a pass that did everything the recorded set agrees with the gateways if and only if the desired set is the one the pass began with |
| Router.CallsOfAction | router/router.go:418-516 | the calls of a router action, sweeps in any order, change the desired set as the action does and nothing else |
| Router.ManagedByLastReporter | router/router.go:465-490 | a gateway is managed by the forwarder that most recently reported it online |
| Router.Router.GatewayOnline | router/router.go:465-490 | subscribes first and registers only if that succeeded, keeping the agreement |
| Router.Router.GatewayOffline | router/router.go:443-463 | unsubscribes first and removes only if that succeeded, whoever managed the gateway |
| Router.Router.AllGatewaysOffline | router/router.go:418-441 | removes only the forwarder's gateways, leaving none unless a subscription call fails |
| Router.Router.CleanupTimedOutGateways | router/router.go:492-516 | removes only gateways unseen for more than 300 seconds, leaving none unless a subscription call fails |
| Router.Router.SendDownlinkFrame | router/router.go:518-539 | a downlink goes to the managing forwarder of the addressed gateway and to no other |
| Mqtt.PassShrinksDifference | external/chirpstack/gateway-bridge/integration/mqtt/backend.go:463-519 | at every moment of a pass, while the desired set may change, the distance to the snapshot shrank by the number of successes |
| Mqtt.FullPassAgrees | external/chirpstack/gateway-bridge/integration/mqtt/backend.go:463-519 | the recorded set equals the snapshot exactly when everything found different was done, also after a reconnect reset |
| Mqtt.BrokerHasRecordedIff | external/chirpstack/gateway-bridge/integration/mqtt/backend.go:435-519 | the broker has every recorded subscription throughout a run exactly when no connection is lost while something is recorded and no unsubscribe is carried out uncounted, the reset after a reconnect waiting for the pass |
| Mqtt.RecordHasBrokerIff | external/chirpstack/gateway-bridge/integration/mqtt/backend.go:435-519 | the broker has nothing unrecorded throughout a run exactly when no subscribe is carried out uncounted and no record is reset while the broker has something |
| Mqtt.UncountedUnsubscribeLoses | external/chirpstack/gateway-bridge/integration/mqtt/backend.go:504-519 | after such an unsubscribe the gateway is recorded without the broker having it for exactly as long as no new connection resets the record and no later unsubscribe of it is counted |
| Mqtt.LostUntilReconnect | external/chirpstack/gateway-bridge/integration/mqtt/backend.go:470-517 | a gateway whose unsubscribe was not counted, desired again before the next pass begins and from then on, is not subscribed before the handler of a new connection |
| Mqtt.Backend.SetGatewaySubscription | external/chirpstack/gateway-bridge/integration/mqtt/backend.go:246-277 | changes the desired set for every gateway but the provided one |
| Mqtt.Backend.OnConnected | external/chirpstack/gateway-bridge/integration/mqtt/backend.go:435-449 | the handler of a new connection is its step: nothing recorded |
| Mqtt.Backend.SubscribePass | external/chirpstack/gateway-bridge/integration/mqtt/backend.go:463-519 | a pass is a run of the steps of the loop, after which exactly the gateways whose operations failed still differ between desired and recorded set, and the broker gained and lost exactly what was carried out; with no failure, begun with the broker as recorded, all three are equal |
| Mqtt.Backend.SubscribeNext | external/chirpstack/gateway-bridge/integration/mqtt/backend.go:485-500 | one subscription is one step, in any state of the desired set |
| Mqtt.Backend.UnsubscribeNext | external/chirpstack/gateway-bridge/integration/mqtt/backend.go:504-519 | one unsubscription is one step, in any state of the desired set |
| Broadcast.EveryListenerReceivesExactly | forwarder/broadcast/broadcast.go:39-76 | in every run a listener received exactly the messages taken while it was subscribed and ready, in order and once each |
| Broadcast.TakenInOrder | forwarder/broadcast/broadcast.go:78-89 | in every run the messages of the accepting actions, in order, are the taken ones followed by the waiting ones, and no more wait than the channel holds |
| Broadcast.Broadcaster.TryBroadcast | forwarder/broadcast/broadcast.go:82-89 | accepts a message exactly when the loop waits or the channel has room, and then hands it over or puts it last in the channel |
| Broadcast.Broadcaster.TakeMessage | forwarder/broadcast/broadcast.go:67-76 | offers the oldest message to all listeners, of which the ready ones receive it |
| Routes.StartsMinusStops | forwarder/routes.go:281-345 | over all rounds a router was started once more than stopped exactly when it is in the table, and no round both stops and starts it |
| Routes.RoutingTable.Refresh | forwarder/routes.go:267-351 | the table becomes the fetched routers with a plan in use; what is not wanted is stopped once, what is new started once even if listed twice, every other listing is an update |
| Routes.RoutingTable.StillWanted | forwarder/routes.go:282-292 | a router stays exactly when it is listed with a plan in use |
| Store.AgreeIffKeysDistinct | gateway/store_yaml_file.go:172-243 | after any interleaving of additions with lookups and write-backs of syncs, the three indexes hold the same gateways exactly when the stored keys have distinct network ids |
| Store.AddAgreesIffFresh | gateway/store_yaml_file.go:200-243 | an accepted addition keeps the indexes in agreement exactly when no stored gateway has the key's network id |
| Store.AddingStoredKeyDisagrees | gateway/store_yaml_file.go:218-240 | any stored key under a new local id is accepted and makes the indexes disagree |
| Store.SyncStoresDetails | gateway/store_yaml_file.go:172-198 | a gateway looked up can be written back after any other actions, and when onboarded all three indexes hold it with the details supplied |
| Store.ReloadRebuilds | gateway/store_yaml_file.go:292-348 | reloading the file at any time rebuilds the association of local ids with keys |
| Store.TranslationsInverse | forwarder/utils.go:44-61 | after every run, translating local to network ids and back is inverse for all identifiers if and only if the stored keys have distinct network ids |
| Store.YamlFileStore.LoadFromFile | gateway/store_yaml_file.go:325-343 | the indexes are rebuilt from the file in order |
| Store.YamlFileStore.Add | gateway/store_yaml_file.go:200-243 | a known local id or a failed write changes nothing; otherwise file and all three indexes gain the entry |
| Store.YamlFileStore.WriteBack | gateway/store_yaml_file.go:178-197 | the second half of a sync puts the onboarded gateway, or the one looked up when none can be made, into all three indexes; nothing changes when the registry did not answer |
| Store.YamlFileStore.SyncGatewayByLocalId | gateway/store_yaml_file.go:172-198 | a whole sync of an unknown gateway changes nothing, and of a known one is lookup and write-back |
| Id6.ParsePrinted | external/chirpstack/gateway-bridge/backend/basicstation/structs/eui64.go:20-60 | parsing the printed form of any identifier gives it back |
| Id6.ParseCompressed | external/chirpstack/gateway-bridge/backend/basicstation/structs/eui64.go:35-56 | `P::S` parses to P, zeros, S when each side has at most four blocks, and panics exactly otherwise |
| Id6.CompressedBlocks | external/chirpstack/gateway-bridge/backend/basicstation/structs/eui64.go:38-53 | block by block, with at most four on each side: S at the end, before it P, then what was there |
| Id6.LeftSurvivesIff | external/chirpstack/gateway-bridge/backend/basicstation/structs/eui64.go:38-53 | all of P survives exactly when there are at most four blocks in all or the overwritten ones coincide |
| Id6.PanicsIff | external/chirpstack/gateway-bridge/backend/basicstation/structs/eui64.go:35-56 | for every text: it panics or reports bad digits exactly as the first bad block the loop looks at decides, blocks being placed from the left before the first empty one and from the right after it |
| Id6.ParseOutcome | external/chirpstack/gateway-bridge/backend/basicstation/structs/eui64.go:37-55 | the same for every list of blocks, proper or not, from any position |
| Id6.MiddleBlockDropped | external/chirpstack/gateway-bridge/backend/basicstation/structs/eui64.go:38-40 | a block between two `::` is dropped |
| Id6.ParseBlockList | external/chirpstack/gateway-bridge/backend/basicstation/structs/eui64.go:42-54 | without `::` up to four blocks are written in order, and a fifth panics |
| Id6.BlockIsNumber | external/chirpstack/gateway-bridge/backend/basicstation/structs/eui64.go:43-50 | a block is accepted exactly when it has one to four hex digits, and means the number they write, high byte first |
| Id6.DigitMeaning | external/chirpstack/gateway-bridge/backend/basicstation/structs/eui64.go:44 | the hex digits in both cases and their values |
| Id6.PrintedDigits | external/chirpstack/gateway-bridge/backend/basicstation/structs/eui64.go:20-22 | each byte is printed as two digits, high one first, in order, with a colon after every second byte |
| Id6.DashedForm | external/chirpstack/gateway-bridge/backend/basicstation/structs/eui64.go:29-33 | sixteen hex digits in eight pairs with dashes are handed on without the dashes |
| Id6.RemainingBlocks | external/chirpstack/gateway-bridge/backend/basicstation/structs/eui64.go:62-70 | counts the blocks that are not empty |
| Id6.ParseStep | external/chirpstack/gateway-bridge/backend/basicstation/structs/eui64.go:37-55 | one turn of the loop strictly advances, also when it jumps, and stays within the list |
| Id6.TurnParses | external/chirpstack/gateway-bridge/backend/basicstation/structs/eui64.go:37-55 | a turn of the loop keeps what the whole parse comes to |
| Id6.ParseBlocks | external/chirpstack/gateway-bridge/backend/basicstation/structs/eui64.go:35-56 | the loop over the eight-byte array computes the specified outcome without leaving the array |
| DevAddr.MatchesByBits | forwarder/utils.go:232-260 | an address matches exactly when the top mask bits agree and every lower bit set in the prefix is set in it |
| DevAddr.NoMaskNoMatch | forwarder/utils.go:250-260 | a mask of zero or of more than 32 bits matches nothing |
| DevAddr.SetThenHas | forwarder/utils.go:232-248 | setting a prefix makes any address match it and keeps the lower bits the prefix leaves clear |
| DevAddr.MatchingPrefixesNest | forwarder/utils.go:250-260 | two aligned prefixes matched by one address are nested |
| Longitude.LongitudeRoundTrip | mapperpacket/packet.go:94-99 | every encoded longitude fits 29 bits and decodes exactly if and only if its tenfold is a signed 32-bit number, which all longitudes are |
| Longitude.FieldRoundTrip | mapperpacket/packet_test.go:63-87 | a field is re-encoded to itself exactly below 429496729 |
| Longitude.EncodingInjective | mapperpacket/packet_test.go:63-87 | two longitudes have the same field exactly when they are equal |

## Left out

- Planner.GetRadioFrequencies: requires channel frequencies at least 1.1 MHz away from 0 and 2^32 and channels no wider than their radio; the code also accepts others, for which its 32-bit sums can wrap.
- RouterConfig.GetRouterConfig: the same requirement on every configured channel; network id and join filters, data rates and region names are not part of this model.
- Planner.Sort: `sort.Sort` belongs to Go's library and is not part of this repository; an insertion sort through Less and Swap stands for it, and the results hold for every sorted permutation.
- Retry.AlwaysCoherent: each send and each TX_ACK is one step; overlapping ones are the subject of `Overlap`.
- Retry.EveryReportHasShape: the same.
- Retry.AtMostOneOkIff: the same.
- UdpBackend.WithoutOkNamesCountsOnce: the same; `UdpBackend.ReportRaises` and `UdpBackend.OkReportCountsOnce` hold of any report.
- Overlap.RetriedIffOvertaken: the time from the send of a frame to the next on its token, without handlers of older frames still under way, which `Overlap.LateHandlerDisplaces` covers one at a time; the writes of one handler are one step, since only its index write is seen by others within a frame; the order in which two handlers reach the send queue is not modelled.
- Overlap.ReportHasOneOkIff: the same time, handlers and steps as there.
- Overlap.TornReads: one send at a time; several sends on one token at once are not modelled.
- UdpBackend.Backend.HandleTxAck: a report is stated at the moment it is made; the reported slice stays shared with the cache, so a later duplicate TX_ACK changes it for its receiver.
- Retry: the status names besides OK and IGNORED are a fixed list of failures; the enumeration itself is library code that is not part of this model.
- RouterClient: SHA-256 of router id and downlink id is a free constructor, that is, taken to have no collisions.
- RouterClient.PendingIsYoung: the ticker is assumed to fire at least every 30 seconds.
- Presence: streams deliver in order and subscription calls succeed; clocks of forwarder and router are one clock; at a reconnect the router has dealt with the end of the old stream before the new one begins.
- Mqtt: the broker forgets subscriptions when the connection is lost; topics, last will and message contents are not modelled.
- Router.ThreeLayersAgree: a subscription call and the change of the router's map after it are one step, as the router's lock makes them for its own methods.
- Router: the path of `Events` on which a send to the forwarder fails leaves its gateways registered; only the step of a closed stream is modelled.
- Broadcast: closing the subscription channel to stop the loop; messages are numbers.
- Routes: fetched routers are present; an entry left empty by an invalid id is not modelled, nor is the life of a client after its start command.
- Store: key derivation is an arbitrary function of the key, YAML text is a list of entries, and a failed write leaves the file as it was.
- Store.AgreeIffKeysDistinct: starts from a file with distinct local ids, as `Add` produces; a file edited by hand need not have them.
- Id6: texts are sequences of bytes, so that a character outside ASCII counts as several; the dashed form is recognised, but its sixteen digits are parsed by library code that is not part of this model.
- Longitude: the 29-bit field is taken as a number; the bit extraction is library code that is not part of this model.
- DevAddr: NetID matching and join filters are library code that is not part of this model.
- Sockets, gRPC, websockets, HTTP, Postgres, metrics, configuration and the command line: I/O without a protocol of its own.
- Airtime, accounting, packet headers and net filters: each is a single lookup or copy without state of its own.
