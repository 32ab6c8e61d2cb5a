# Verified model of the TradeStation bridge

A Dafny 4.11 model of the two subsystems of this repository whose promises span many
functions, and proofs of those promises. `dafny verify dfyconfig.toml` checks all of it.

**Transport.** The publisher DLL (`Publisher.dfy`) is a class whose methods are the
exported calls, each one atomic step under the process-wide lock. What a drain finds
queued is an argument of the call; whether an attempt to format or send a frame is
accepted, refused or raises is answered by a `Fates` function, so every theorem holds for
every behaviour of the socket. `PublisherRuns.dfy` and `PublisherGuarantees.dfy` prove what
holds after any sequence of calls: the registry, the framing on the wire, re-announcement,
sequence numbers, and the report of points that reach nobody; `PublisherDrains.dfy` what a drain reads and sends,
`PublisherSessions.dfy` what a registration and a session begin with; `PublisherWire.dfy` says
exactly what each answer means on the wire, and `PublisherCases.dfy` has the runs that show
why its conditions are there. The hub (`Hub.dfy`) is the
subscription mirror, the wake scheduler and the decision part of its loop, and
`HubWrites.dfy` says, byte for byte, what it may write upstream. `Transport.dfy`
composes consumers, hub and any number of publishers as a state machine with messages in
flight, `TransportRuns.dfy` proves what every step keeps and `TransportGuarantees.dfy` what
follows (`TransportCases.dfy` shows why one condition is there); ZeroMQ enters it only through behaviours L1 to L3 of `contract/wire.md` and FIFO
channels, and a lost hub through the publisher's monitor (L4). The subscriber's receive
path and gap detector are `Provider.dfy` and `SequenceTracker.dfy`; `EndToEnd.dfy` joins
them to the publisher.

**Ingest and storage.** `Ingestion.dfy` is the replace-last buffer with its three ways to
close a bar; `IngestionRuns.dfy` refines it to one simple life per series, and
`IngestionGuarantees.dfy` and `IngestionTiming.dfy` prove what a consumer can rely on.
`BarWriter.dfy` is the Parquet writer: buffering, streaming, rewriting, sealing, poisoning,
with a fault for every file operation. `Merge.dfy` proves the merge expression to be an
upsert; `WriterRuns.dfy`, `WriterOutcomes.dfy`, `WriterIsolation.dfy`,
`WriterAccepted.dfy`, `WriterClock.dfy`, `WriterLifecycle.dfy`, `WriterTicks.dfy`,
`WriterSchedules.dfy` and `WriterPlacement.dfy` prove the bookkeeping, the outcome of seals
and failures, the isolation of partitions, what becomes of accepted bars, when a flush is
called for, the life of a partition, that ticks are never merged,
independence of the flush schedule, and agreement with the reader. `HistoryStore.dfy` is the reader, `Snapshot.dfy` the in-memory market
snapshot, `Imputation.dfy` the filling of missing bars.

**How to read it.** State that the source changes in place is a class, most with a
`State()`; each method ensures that the new state is a specification function of the old
one; theorems are lemmas about those functions over whole runs. The fields `log`
of `Publisher.Bridge` and of `IngestionRuntime`, `opens` and `landed` of a partition, and
`accepted`, `written` and `dropped` of the writer are history: they are not in the source
and nothing the source decides depends on them.

**Where the code and its own words differ.** The model follows the code; each difference
has its exact condition and an input.

- `contract/error_codes.md` gives -2 for an unexpected socket error and -4 for a payload
  that does not fit. EL_InitChart answers -3 when its own hello raises, and -2 when that
  hello does not fit (`cpp/src/ts2python.cpp:414`, `735-749`). `PublisherWire.InitFailures`
  and `InitAgainstTable` say exactly when, `PublisherCases.HelloAgainstTable` has the inputs.
- A rejected argument is meant to leave no gap. That holds for the -4 before the number is
  taken; the -4 for a payload that does not fit comes after it
  (`PublisherWire.RejectionsAndNumbers`, `PublisherCases.TooLongLeavesGap`).
- A failed body must not re-frame a later message, provided the terminating frame goes out.
  When that fails too, the next message carries the stray topic, and its answer does not
  say so: a chart counts as announced and a point as sent that no receiver can read
  (`PublisherWire.MessageExact`, `HelloCompletes`, `PublishConsumesOneNumber`;
  `PublisherCases.AnnouncedButNotComplete`, `AnsweredButNotDelivered`).
- A drain reads subscriptions before the monitor, so one that sees the hub go also drops a
  subscribe that arrived in the same drain. `TransportGuarantees.AgreementAfterDrain` gives
  the exact condition under which the publisher's set is right,
  `PublisherCases.HubLossDropsFreshSubscribe` and `TransportCases.FreshSubscribeDropped` have
  the inputs.
- One frame is meant never to end the consumer's stream
  (`bindings/python/src/tradestation_data/wire/el_subscriber.py:495`). A message of other
  than two frames does, because it is unpacked where only socket errors are caught
  (`EndToEnd.StreamSurvivesExactly`, `StrayHelloEndsStream`).
- A hello of another protocol version is thrown away without being counted as refused,
  unlike a point of another version (`Provider.RefusedExactly`, `OldVersionCountsOnce`).
- The protocol text says every frame is sequenced; a point whose `seq` is JSON null has the
  key it must have and is accepted without a number (`Provider.YieldedUntracked`,
  `NullPointYielded`).

## Model

| member | source | states |
|---|---|---|
| `SequenceTracking.SequenceTracker.constructor` | bindings/python/src/tradestation_data/wire/el_subscriber.py:134-148 | A new tracker knows no session and has lost nothing. |
| `SequenceTracking.SequenceTracker.Observe` | bindings/python/src/tradestation_data/wire/el_subscriber.py:161-227 | One message: the session is recorded for the topic, the expectation of that (session, topic) moves past the number unless it is a duplicate or replay, and a jump adds exactly the skipped numbers to the counter. |
| `SequenceTracking.StreamLossExact` | bindings/python/src/tradestation_data/wire/el_subscriber.py:189-216 | On one stream, whatever arrives in whatever order: what is added up equals the numbers between the first and the highest that never arrived, plus those that arrived only after a higher one. |
| `SequenceTracking.LossIsMissingIffInOrder` | bindings/python/src/tradestation_data/wire/el_subscriber.py:205-213 | The counter equals the number of messages that never arrived if and only if the stream was not reordered, which is what per-publisher order gives. |
| `SequenceTracking.ExpectationsAreMaxima` | bindings/python/src/tradestation_data/wire/el_subscriber.py:189-203 | After any trace the expectation of each stream is one past the highest number seen on it, and only seen streams have one. |
| `SequenceTracking.TrackerIsSumOfStreams` | bindings/python/src/tradestation_data/wire/el_subscriber.py:161-227 | After any interleaving of sessions and topics, `messages_lost` is the sum over (sid, topic) of that stream's own loss. |
| `SequenceTracking.InterleavingIrrelevant` | bindings/python/src/tradestation_data/wire/el_subscriber.py:161-227 | Two traces with the same per-stream projections report the same loss. |
| `SequenceTracking.ReplayIsInvisible` | bindings/python/src/tradestation_data/wire/el_subscriber.py:205-213 | A duplicate or replay inserted anywhere leaves the whole tracker, and so all later accounting, as if it had not come. |
| `SequenceTracking.SidsSeen` | bindings/python/src/tradestation_data/wire/el_subscriber.py:169-187 | The sessions on record for a topic are exactly those observed on it. |
| `Provider.TradeStationProvider.MessagesLost` | bindings/python/src/tradestation_data/wire/el_subscriber.py:381-393 | None exactly when nothing sequenced was ever observed, otherwise the tracker's counter. |
| `Provider.TradeStationProvider.OnFrame` | bindings/python/src/tradestation_data/wire/el_subscriber.py:446-508 | One frame: counted first, hellos never yielded, foreign topics dropped uncounted as refused, a point either yielded or counted as refused. |
| `Provider.TradeStationProvider.HandleHello` | bindings/python/src/tradestation_data/wire/el_subscriber.py:510-598 | A hello's number is accounted before its version is looked at; one that cannot be read is refused, one of another version is skipped, the rest are recorded under chart and session. |
| `Provider.TradeStationProvider.ParsePayload` | bindings/python/src/tradestation_data/wire/el_subscriber.py:621-668 | Sequence accounting comes before the version gate and before `seq` is required to be present. |
| `Provider.TradeStationProvider.Events` | bindings/python/src/tradestation_data/wire/el_subscriber.py:424-508 | The loop's state and yield over all messages; one that does not unpack into two frames raises out of it, uncounted, and nothing after it is received. |
| `Provider.RefusalNeverAffectsLoss` | bindings/python/src/tradestation_data/wire/el_subscriber.py:621-667 | The tracker after any frames is the tracker over the bare numbers they carry: neither version nor content can create or hide a gap. |
| `Provider.FramesConserved` | bindings/python/src/tradestation_data/wire/el_subscriber.py:446-508 | Every frame off the socket is exactly one of: yielded, refused, on a topic nobody asked for, or a hello that was not refused. |
| `Provider.AnnouncementsExact` | bindings/python/src/tradestation_data/wire/el_subscriber.py:562-598 | A chart is on record exactly if a readable current-version hello named it, each of its sessions exactly if such a hello carried that session, under the category of the last such hello. |
| `Provider.YieldedExactly` | bindings/python/src/tradestation_data/wire/el_subscriber.py:453-508 | Yielded are exactly the points of version 2 on a topic asked for that have a `seq` key, under the symbol they were published on. |
| `Provider.YieldedUntracked` | bindings/python/src/tradestation_data/wire/el_subscriber.py:630-668 | A yielded point escapes loss accounting exactly if its `seq` is null. |
| `Provider.NullPointYielded` | bindings/python/src/tradestation_data/wire/el_subscriber.py:630-668 | Such a point, yielded while loss cannot be detected at all. |
| `Provider.RefusedExactly` | bindings/python/src/tradestation_data/wire/el_subscriber.py:467-554 | A point counts as refused unless it is well formed; a hello exactly if it cannot be read, or is of this version and malformed. |
| `Provider.OldVersionCountsOnce` | bindings/python/src/tradestation_data/wire/el_subscriber.py:529-535 | One payload of version 1, refused as a point and not counted as a hello. |
| `Publisher.Bridge.ReserveSeq` | cpp/src/ts2python.cpp:118-127 | The next number of a topic, consumed at once. |
| `Publisher.Bridge.SymbolSubscribed` | cpp/src/ts2python.cpp:189-229 | True exactly when some subscription is a prefix of the topic. |
| `Publisher.Bridge.Find` | cpp/src/ts2python.cpp:231-243 | The first chart with this identity, or the registry size. |
| `Publisher.Bridge.EvictLeastRecent` | cpp/src/ts2python.cpp:250-255 | The scan for the least recently used chart, and its removal. |
| `Publisher.Bridge.RegisterChart` | cpp/src/ts2python.cpp:245-260 | Appends the chart as most recently used, evicting the least recently used one at the cap. |
| `Publisher.Bridge.Send` | cpp/src/ts2python.cpp:418-431 | One frame handed to the socket: it extends the open message or completes it, or nothing happens. |
| `Publisher.Bridge.CloseAbandonedMessage` | cpp/src/ts2python.cpp:385-392 | An empty terminating frame; its own failure is swallowed and leaves the message open. |
| `Publisher.Bridge.SendPair` | cpp/src/ts2python.cpp:418-430 | Topic then body; a body that is refused or raises is followed by the terminating frame. |
| `Publisher.Bridge.SendHello` | cpp/src/ts2python.cpp:401-434 | One hello under a fresh control-topic number; the chart counts as announced only if both frames went out. |
| `Publisher.Bridge.ForgetAnnouncements` | cpp/src/ts2python.cpp:570-572 | Every chart becomes unannounced, nothing else changes. |
| `Publisher.Bridge.DrainMonitor` | cpp/src/ts2python.cpp:457-497 | Each disconnect clears the subscriptions and every announcement. |
| `Publisher.Bridge.ReadSubscription` | cpp/src/ts2python.cpp:534-573 | One subscription message; a subscribe that covers the control topic invalidates every announcement. |
| `Publisher.Bridge.DrainSubscriptions` | cpp/src/ts2python.cpp:523-605 | Messages first, monitor second, then the announcement sweep, also after a failed read. |
| `Publisher.Bridge.InitialiseChart` | cpp/src/ts2python.cpp:710-739 | The part of EL_InitChart behind its drain, every return code included. |
| `Publisher.Bridge.ELInitChart` | cpp/src/ts2python.cpp:615-750 | The whole call: -4, -3, -8 and -9 in the order of the source, a new session on first connect. |
| `Publisher.Bridge.Bump` | cpp/src/ts2python.cpp:857 | The chart becomes the most recently used. |
| `Publisher.Bridge.SendPoint` | cpp/src/ts2python.cpp:859-905 | One point under a fresh number: 0, -4 when it cannot be formatted, -2 when it cannot be sent. |
| `Publisher.Bridge.NoteAudience` | cpp/src/ts2python.cpp:914-920 | The latch that makes a no-subscriber episode cost one -10. |
| `Publisher.Bridge.PublishPoint` | cpp/src/ts2python.cpp:840-920 | The part of EL_Publish behind its drain. |
| `Publisher.Bridge.ELPublish` | cpp/src/ts2python.cpp:795-926 | The whole call; the drain's result is ignored. |
| `Publisher.Bridge.ELShutdown` | cpp/src/ts2python.cpp:928-958 | Back to no socket and no registry. |
| `PublisherRuns.PairInv` | cpp/src/ts2python.cpp:418-430 | A two-frame send keeps the run invariant under every fate of its frames. |
| `PublisherRuns.DrainedInv` | cpp/src/ts2python.cpp:523-605 | A drain keeps the run invariant and, announce flags apart, the registry. |
| `PublisherRuns.RegisteredRegistry` | cpp/src/ts2python.cpp:245-260 | Registration keeps identities distinct, the cap, and distinct `last_used` stamps bounded by the use tick. |
| `PublisherRuns.ExecInv` | cpp/src/ts2python.cpp:615-958 | Every exported call keeps the run invariant. |
| `PublisherRuns.RunInv` | cpp/src/ts2python.cpp:615-958 | The run invariant holds after every sequence of exported calls, whatever the socket does. |
| `PublisherGuarantees.Reachable` | cpp/src/ts2python.cpp:145-260 | In every reachable state, whatever the socket has done: at most 24 charts, distinct identities and stamps; exactly one stray topic open for each terminating frame that failed since the last message, and every message a topic and its body behind exactly those; a hello of every announced chart has ended a message since the last covering subscribe or hub loss; wire numbers strictly increase within what was reserved; and every body carries the session id. |
| `PublisherGuarantees.DrainedSubs` | cpp/src/ts2python.cpp:523-593 | The subscription set after a drain: the messages applied in order, or nothing at all if the drain saw a disconnect, fresh subscribes included. |
| `PublisherDrains.HeardExactly` | cpp/src/ts2python.cpp:197-229 | A topic is heard exactly if some prefix of it is subscribed to. |
| `PublisherDrains.AnnouncedAfterReading` | cpp/src/ts2python.cpp:534-573 | After messages and monitor are read a chart is announced exactly if it was before, no message was a subscribe to a prefix of `__ts2py__`, and the hub was not lost; nothing else of it changes. |
| `PublisherDrains.ReadingIsRecorded` | cpp/src/ts2python.cpp:457-573 | The history misses nothing read: every subscribe, unsubscribe and loss of the hub, in order, messages first. |
| `PublisherDrains.QuietDrainSendsNothing` | cpp/src/ts2python.cpp:545-605 | A drain that reads no such subscribe and no disconnect, over charts all announced, makes no attempt, consumes no number and sends nothing. |
| `PublisherGuarantees.SweepIsPerChart` | cpp/src/ts2python.cpp:586-603 | One chart's failed hello does not stop the sweep: each ends announced exactly if it was or its own hello went out. |
| `PublisherGuarantees.FaultFreeDrainAnnouncesAll` | cpp/src/ts2python.cpp:586-605 | A drain whose own attempts meet no fault and that ends with the control topic covered leaves every registered chart announced, whatever failed before or fails later. |
| `PublisherGuarantees.InitSucceeds` | cpp/src/ts2python.cpp:705-739 | rc >= 0 means registered, announced, on the endpoint asked for, and covered. |
| `PublisherGuarantees.EvictionIsLeastRecent` | cpp/src/ts2python.cpp:249-256 | Nothing is evicted below the cap; at the cap a chart is evicted exactly if 23 others have been used more recently. |
| `PublisherGuarantees.InitKeepsRecentCharts` | cpp/src/ts2python.cpp:725-728 | A chart with fewer than 23 others used more recently survives every EL_InitChart. |
| `PublisherGuarantees.PublishRefreshes` | cpp/src/ts2python.cpp:855-857 | Publishing makes its chart the most recently used and leaves the other entries alone. |
| `PublisherGuarantees.VoidLatch` | cpp/src/ts2python.cpp:907-920 | Exact life of the report latch over one call of any kind: a point the socket takes unheard is reported unless that was said already, and only a point it takes with a subscriber attached re-arms the report. |
| `PublisherGuarantees.OneReportPerEpisode` | cpp/src/ts2python.cpp:851-920 | In every run, between two -10 answers of a chart that stays registered some point of it was taken with a subscriber attached. |
| `PublisherGuarantees.SilenceIsReported` | cpp/src/ts2python.cpp:851-920 | In every run, after a point taken with a subscriber attached the next point taken with nobody attached is reported, unless one since then was. |
| `PublisherGuarantees.NoSocketNoCharts` | cpp/src/ts2python.cpp:939-955 | In every reachable state without a socket the registry is empty. |
| `PublisherSessions.RegisteredFresh` | cpp/src/ts2python.cpp:245-260 | A chart is registered unannounced, with nothing reported, as the most recently used; the others in the registry are unchanged. |
| `PublisherSessions.FirstSilenceIsReported` | cpp/src/ts2python.cpp:851-920 | In every run the first point taken unheard since its chart was registered is reported. |
| `PublisherSessions.SessionsForget` | cpp/src/ts2python.cpp:681-692 | A session remembers nothing of the one before but the use tick: it begins as in a new process, and the first number of every topic is 1. |
| `PublisherSessions.InitRefusals` | cpp/src/ts2python.cpp:620-708 | -4, -8 and -9, each exactly: nothing given, another endpoint in use, a queue that cannot be read; refusals leave the process as it was. |
| `PublisherWire.MessageExact` | cpp/src/ts2python.cpp:370-392 | A message that ended is a topic and its body alone exactly if no terminating frame failed since the message before it; otherwise one stray topic for each precedes them. |
| `PublisherWire.BoundaryExact` | cpp/src/ts2python.cpp:370-392 | Over a whole session: on a boundary with nothing mis-framed ever sent, exactly if no terminating frame has ever failed. |
| `PublisherWire.HelloEndedExact` | cpp/src/ts2python.cpp:401-434 | A hello has ended a message since the last covering subscribe or hub loss exactly if one such message stands in the history. |
| `PublisherWire.CompleteHelloExact` | cpp/src/ts2python.cpp:401-434 | A complete two-frame hello has exactly if one stands with no terminating frame having failed between it and the message before. |
| `PublisherWire.AnnouncedMeansComplete` | cpp/src/ts2python.cpp:401-434 | In a session whose terminating frames all went out, every announced chart has had a complete hello since the last covering subscribe or hub loss. |
| `PublisherWire.HelloCompletes` | cpp/src/ts2python.cpp:401-434 | An accepted hello completes one exactly if the socket was on a message boundary or a complete one stood already. |
| `PublisherWire.InitAnswers` | cpp/src/ts2python.cpp:710-749 | Each answer of EL_InitChart behind its drain, exactly: -7, 1, 0, -2 and -3; -7 and 1 change nothing, 0 put this chart's hello on the wire, last. |
| `PublisherWire.InitFailures` | cpp/src/ts2python.cpp:615-750 | The whole call answers -3 exactly when the socket cannot be made or its own hello raises, -2 exactly when that hello is refused or does not fit, and never -4 for given arguments. |
| `PublisherWire.InitAgainstTable` | cpp/src/ts2python.cpp:735-749 | For a hello that is sent, the answer is the published table's exactly if it fits and does not raise. |
| `PublisherWire.PublishAnswers` | cpp/src/ts2python.cpp:840-926 | Each answer of EL_Publish behind its drain, exactly; without a registry entry every point taken unheard answers -10. |
| `PublisherWire.PublishedLog` | cpp/src/ts2python.cpp:888-905 | What one publish puts on the wire, on any socket: the point behind whatever was left open, an empty frame that closes it, or nothing. |
| `PublisherWire.PublishConsumesOneNumber` | cpp/src/ts2python.cpp:118-127 | A publish that reaches its number consumes exactly one, sent or not; the number is on the wire exactly if the call answers 0 or -10 and the socket was on a message boundary. |
| `PublisherWire.RejectionsAndNumbers` | cpp/src/ts2python.cpp:813-886 | -4 is the answer exactly to rejected arguments and to a payload that does not fit; the first change nothing, the second has consumed its number. |
| `PublisherWire.TakenGoesOut` | cpp/src/ts2python.cpp:888-920 | A point taken is a message of its own exactly if no terminating frame failed since the last message, and only then is it delivered to the subscriber found for it. |
| `PublisherCases.AnnouncedButNotComplete` | cpp/src/ts2python.cpp:385-392 | From a cold start: a terminating frame fails, the next drain sends the hello behind the stray topic, and EL_InitChart answers 1 for a chart no receiver has heard of. |
| `PublisherCases.AnsweredButNotDelivered` | cpp/src/ts2python.cpp:385-392 | From a cold start: a point answered 0 with a subscriber attached, its number consumed and not on the wire, the report re-armed. |
| `PublisherCases.HelloAgainstTable` | cpp/src/ts2python.cpp:735-749 | A hello that raises on a connected socket answers -3, one that does not fit -2. |
| `PublisherCases.TooLongLeavesGap` | cpp/src/ts2python.cpp:813-886 | From a cold start: a payload that does not fit answers -4 and leaves a gap. |
| `PublisherCases.HubLossDropsFreshSubscribe` | cpp/src/ts2python.cpp:523-593 | From a cold start: a subscribe and a disconnect in one drain leave no subscription, and EL_InitChart answers -7. |
| `TransportCases.FreshSubscribeDropped` | cpp/src/ts2python.cpp:523-593 | A run of the whole transport: a consumer holds the topic, nothing is in flight, and a drain that sees the subscribe and a disconnect ends with no subscription. |
| `Hub.WakeScheduler.Schedule` | bindings/python/src/tradestation_data/hub.py:143-151 | Adds one entry per configured delay. |
| `Hub.WakeScheduler.PopDue` | bindings/python/src/tradestation_data/hub.py:153-165 | Drops exactly the entries reached and fires exactly if there was one. |
| `Hub.RemainingShrinks` | bindings/python/src/tradestation_data/hub.py:162-165 | The length test of `pop_due` is the question whether something is due. |
| `Hub.WakesExact` | bindings/python/src/tradestation_data/hub.py:143-165 | After any history of schedules and pops, due is exactly what was scheduled and no pop has reached since: each instant is consumed by the first pop at or after it, and coalescing loses none. |
| `Hub.SubscriptionMirror.RecordSubscribe` | bindings/python/src/tradestation_data/hub.py:191-192 | The count of the topic grows by one. |
| `Hub.SubscriptionMirror.RecordUnsubscribe` | bindings/python/src/tradestation_data/hub.py:194-204 | The topic is forgotten; the answer is its count, at least one. |
| `Hub.SubscriptionMirror.DecideSubscriptionForward` | bindings/python/src/tradestation_data/hub.py:207-228 | The frames for one backend message and the new counts. |
| `Hub.Forwarder.Iterate` | bindings/python/src/tradestation_data/hub.py:380-402 | One turn: forwarded frames, schedules, then at most one wake. |
| `HubWrites.TurnWrites` | bindings/python/src/tradestation_data/hub.py:380-402 | A turn writes the frames of its message, then, exactly if some instant is due, `\x01__ts2py_wake__` and `\x00__ts2py_wake__`; the instants waiting are those before and 50, 300 and 1000 ms after each subscription message and each attach. |
| `HubWrites.WakeIsInert` | bindings/python/src/tradestation_data/hub.py:103-106 | Whatever of a wake a publisher has read, its charts are as they were, announced or not, and it hears the control topic and every symbol that does not begin with the nonce exactly as before. |
| `HubWrites.ForwardedExactly` | bindings/python/src/tradestation_data/hub.py:207-228 | After any history of backend messages: a subscribe goes up once as it came, an unsubscribe once for each subscribe of its topic since the last one and at least once, anything else not at all. |
| `Hub.Forwarder.Serve` | bindings/python/src/tradestation_data/hub.py:370-402 | The loop over any turns: state and everything written upstream. |
| `TransportRuns.DecisionWritten` | bindings/python/src/tradestation_data/hub.py:207-228 | Forwarding one backend message through the counting XSUB brings counts and mirror back together, and every publisher's pending set with them. |
| `TransportRuns.WakeWritten` | bindings/python/src/tradestation_data/hub.py:397-400 | A wake leaves every real count unchanged and releases whatever was stranded. |
| `TransportRuns.TurnOk` | bindings/python/src/tradestation_data/hub.py:370-402 | One hub turn keeps mirror == XSUB counts and all agreements; a turn whose wake fires leaves nothing stranded anywhere. |
| `TransportRuns.LeavingForgets` | contract/wire.md:97-98 | A consumer that goes away holds nothing afterwards. |
| `TransportRuns.StepOk` | contract/wire.md:84-98 | Every step of the system keeps the transport invariant: consumer subscribes, unsubscribes and departures, processes that attach, with or without earlier calls, and that leave, hub turns, exported calls. |
| `TransportRuns.UnattachedHearsNothing` | cpp/src/ts2python.cpp:523-605 | A process no pipe has reached knows of no subscription, whatever it was called for: just what an attach asks of it. |
| `TransportRuns.RunOk` | bindings/python/src/tradestation_data/hub.py:168-228 | In every disconnect-free run, messages in flight included: the mirror equals the XSUB's counts, and every set agrees once its queue is applied. |
| `TransportGuarantees.QuiescentAgreement` | cpp/src/ts2python.cpp:523-573 | With queues consumed, each publisher's `g_sub_topics` is exactly the set of topics some live consumer holds. |
| `TransportGuarantees.AgreementAfterDrain` | cpp/src/ts2python.cpp:523-593 | After a drain that reads all there is, with nothing else in flight, the set is exact if and only if the drain saw no disconnect or no consumer holds anything. |
| `TransportGuarantees.VoidIsReal` | cpp/src/ts2python.cpp:838-920 | With queues drained a publish finds a subscriber exactly if some live consumer's subscription is a prefix of the symbol, so -10 means none is. |
| `TransportGuarantees.WaitingIsReal` | cpp/src/ts2python.cpp:705-715 | With queues drained EL_InitChart answers -7 exactly if no live consumer would receive the control topic. |
| `TransportGuarantees.EntryKept` | bindings/python/src/tradestation_data/hub.py:153-165 | A wake entry no clock reading has reached survives every step. |
| `TransportGuarantees.AttachIsReleased` | bindings/python/src/tradestation_data/hub.py:370-402 | From the turn that handles an attach event, the first turn whose clock reaches that event plus the shortest delay leaves no attached publisher with a stranded subscription. |
| `EndToEnd.DeliveryInOrder` | bindings/python/src/tradestation_data/wire/el_subscriber.py:205-206 | Dropping and replaying any of an increasing sequence never looks like reordering. |
| `EndToEnd.MessagesLostIsExact` | bindings/python/src/tradestation_data/wire/el_subscriber.py:215-216 | Any publishers in reachable states, any drops, replays and interleaving, any content: the counter is the number of messages numbered between two that arrived and that never arrived, each a number its publisher reserved. |
| `EndToEnd.StreamSurvivesExactly` | bindings/python/src/tradestation_data/wire/el_subscriber.py:429-446 | The consumer's loop outlives what arrives exactly if each message was sent with no terminating frame having failed since the message before it. |
| `EndToEnd.CleanSessionsKeepStream` | bindings/python/src/tradestation_data/wire/el_subscriber.py:429-446 | It outlives everything from sessions whose terminating frames all went out. |
| `EndToEnd.StrayHelloEndsStream` | bindings/python/src/tradestation_data/wire/el_subscriber.py:429-446 | From a cold start: one hello framed onto an abandoned one ends the stream of any consumer it reaches. |
| `Merge.AggregateIsUpsert` | bindings/python/src/tradestation_data/storage/bar_writer.py:415-425 | The column-wise aggregate of a group is the fold of its rows as upserts. |
| `Merge.MergedRows` | bindings/python/src/tradestation_data/storage/bar_writer.py:415-425 | The merged file is strictly sorted, its times are exactly those that went in, each row the aggregate of its group. |
| `Merge.MergedIsUpsert` | bindings/python/src/tradestation_data/storage/bar_writer.py:346-425 | Read back, the merged file is the fold of all rows as upserts. |
| `Merge.SortedUnique` | bindings/python/src/tradestation_data/storage/bar_writer.py:424 | A sorted file with unique times is determined by the rows it holds. |
| `Merge.MergeInTwoBatches` | bindings/python/src/tradestation_data/storage/bar_writer.py:415-425 | Merging in two batches is merging the concatenation. |
| `Merge.MergeTwiceIsOnce` | bindings/python/src/tradestation_data/storage/bar_writer.py:415-425 | Merging a batch a second time changes nothing. |
| `Merge.RepublishColumns` | bindings/python/src/tradestation_data/storage/bar_writer.py:70-74 | bid, ask and ts hold the last non-null value, stored or republished; every other column the last value. |
| `Sorting.SortSorts` | bindings/python/src/tradestation_data/storage/bar_writer.py:424 | The sort yields a sorted permutation. |
| `Sorting.SortStable` | bindings/python/scripts/imputation_parquet.py:232-233 | Rows of one time keep the order they came in. |
| `BarWriter.ParquetBarWriter.constructor` | bindings/python/src/tradestation_data/storage/bar_writer.py:194-214 | An empty table over the files that are there. |
| `BarWriter.ParquetBarWriter.Write` | bindings/python/src/tradestation_data/storage/bar_writer.py:216-264 | The whole effect of one bar, keeping the table a table: raised when closed, earlier days sealed first, refused when sealed or poisoned, otherwise buffered and stamped. |
| `BarWriter.ParquetBarWriter.OpenPartition` | bindings/python/src/tradestation_data/storage/bar_writer.py:232-241 | A new partition, after the earlier days of its chart are sealed. |
| `BarWriter.ParquetBarWriter.Buffer` | bindings/python/src/tradestation_data/storage/bar_writer.py:260-264 | One accepted bar: buffered, stamped and counted. |
| `BarWriter.ParquetBarWriter.NeedsFlush` | bindings/python/src/tradestation_data/storage/bar_writer.py:266-278 | True exactly if a day is finished, or something is buffered and the size or age limit is reached. |
| `BarWriter.ParquetBarWriter.Flush` | bindings/python/src/tradestation_data/storage/bar_writer.py:280-284 | Seals finished days, then flushes every partition; returns the bars written. |
| `BarWriter.ParquetBarWriter.FlushPartitions` | bindings/python/src/tradestation_data/storage/bar_writer.py:282-284 | One attempt per partition, in order, each with its own fault. |
| `BarWriter.ParquetBarWriter.FlushPartition` | bindings/python/src/tradestation_data/storage/bar_writer.py:286-344 | One partition: nothing to do, or one attempt and its bookkeeping. |
| `BarWriter.ParquetBarWriter.FlushBuffered` | bindings/python/src/tradestation_data/storage/bar_writer.py:307-344 | Success and failure alike empty the buffer and keep the counters exact. |
| `BarWriter.ParquetBarWriter.WriteOut` | bindings/python/src/tradestation_data/storage/bar_writer.py:289-306 | The file operations of an attempt: rewriting or streaming, with every fault. |
| `BarWriter.ParquetBarWriter.Rewrite` | bindings/python/src/tradestation_data/storage/bar_writer.py:346-430 | Read back, merge, replace; any failure leaves the file as it was. |
| `BarWriter.ParquetBarWriter.CloseWriter` | bindings/python/src/tradestation_data/storage/bar_writer.py:503-505 | A closed writer gives its file its rows and a footer. |
| `BarWriter.ParquetBarWriter.Seal` | bindings/python/src/tradestation_data/storage/bar_writer.py:500-507 | Flush, close, mark sealed. |
| `BarWriter.ParquetBarWriter.SealEarlierDays` | bindings/python/src/tradestation_data/storage/bar_writer.py:432-450 | Seals exactly the unsealed earlier days of the chart. |
| `BarWriter.ParquetBarWriter.SealElapsedDays` | bindings/python/src/tradestation_data/storage/bar_writer.py:475-498 | Seals exactly the finished days. |
| `BarWriter.ParquetBarWriter.Close` | bindings/python/src/tradestation_data/storage/bar_writer.py:509-519 | A last flush, then every open writer is closed. |
| `BarWriter.ParquetBarWriter.CloseWriters` | bindings/python/src/tradestation_data/storage/bar_writer.py:516-519 | Every open writer is closed. |
| `WriterRuns.BooksBalance` | bindings/python/src/tradestation_data/storage/bar_writer.py:216-344 | In every reachable state: the counter is the sum of the buffers, the oldest stamp is None exactly if that is zero, poisoned means empty, and accepted == written + dropped + buffered. |
| `WriterIsolation.RunsAreConfined` | bindings/python/src/tradestation_data/storage/bar_writer.py:307-319 | In every run, closes and restarts included: what becomes of one partition and its file does not depend on what other files hold, nor on whether and how they fail. |
| `WriterRuns.FlushSettles` | bindings/python/src/tradestation_data/storage/bar_writer.py:266-284 | After a flush nothing is buffered and `should_flush` is false at the same clock reading, whichever writes failed. |
| `WriterClock.LastWriteIsLastAccepted` | bindings/python/src/tradestation_data/storage/bar_writer.py:260-261 | In every run a partition's stamp is the time of the last bar accepted for it. |
| `WriterClock.OldestIsFirstBuffered` | bindings/python/src/tradestation_data/storage/bar_writer.py:262-264 | In every run the oldest stamp is the time of the first bar accepted since the buffers were last all empty, None if they are. |
| `WriterClock.ShouldFlushExactly` | bindings/python/src/tradestation_data/storage/bar_writer.py:266-278 | In every run a flush is called for exactly when an unsealed past day has been quiet for a flush interval, or something is buffered and there is as much as the limit or the first of it has waited for the interval. |
| `WriterOutcomes.FlushSealsElapsedDays` | bindings/python/src/tradestation_data/storage/bar_writer.py:452-498 | A flush seals exactly the days that are over and have been quiet for a flush interval, never today, and a streamed file of such a day has its footer even if its last write failed. |
| `WriterOutcomes.NewDaySealsEarlierDays` | bindings/python/src/tradestation_data/storage/bar_writer.py:233-241 | The first bar of a new partition finishes exactly the earlier days of its own chart and leaves all else alone. |
| `WriterOutcomes.FailureExactly` | bindings/python/src/tradestation_data/storage/bar_writer.py:286-344 | An attempt fails exactly when an operation it makes does; then it writes nothing and a file to be rewritten keeps what it held, otherwise it writes the whole buffer. |
| `WriterOutcomes.GivenUpForGood` | bindings/python/src/tradestation_data/storage/bar_writer.py:255-259 | Until a restart, a poisoned partition buffers nothing more and its file is never touched again, whatever is called. |
| `WriterLifecycle.FlushedPartOk` | bindings/python/src/tradestation_data/storage/bar_writer.py:286-344 | One attempt keeps the life invariant across the rollover from streaming to rewriting. |
| `WriterAccepted.AcceptedIsHeld` | bindings/python/src/tradestation_data/storage/bar_writer.py:216-264 | In every run, whatever fails: the rows a partition has written, then those it buffers, are exactly the rows write() accepted for it since the last restart, in order; of a partition that was given up on, what it has written is the first of them and it buffers nothing. |
| `WriterLifecycle.RunLife` | bindings/python/src/tradestation_data/storage/bar_writer.py:242-306 | Under a non-decreasing clock, in every reachable state and under every fault: opened for streaming at most once; sealed means no open writer; a partition holds exactly the rows this run wrote, as upserts over the rows it found, or over nothing once it has streamed; no other file is touched; and what was written and is still buffered is what write() accepted. |
| `WriterLifecycle.NothingIsLost` | bindings/python/src/tradestation_data/storage/bar_writer.py:292-306 | So at every moment what a partition holds, with its buffer on top, is the upsert fold of every accepted bar over its base, streaming included; of one that was given up on, of the bars written before. |
| `WriterLifecycle.CloseFinishesFiles` | bindings/python/src/tradestation_data/storage/bar_writer.py:509-519 | Once the writer is closed nothing is open or buffered, and each file is the upsert fold of every bar accepted for it over its base, streamed or rewritten; of one that was given up on, of the bars written before. |
| `WriterTicks.TicksAreNeverMerged` | bindings/python/src/tradestation_data/storage/bar_writer.py:105-106 | A dated tick partition, once opened, holds exactly the rows written to it in order, repeated bar_times included, on any day and under any fault; once closed its file, unless it was given up on, is exactly the accepted rows in order. |
| `WriterSchedules.FlushTracks` | bindings/python/src/tradestation_data/storage/bar_writer.py:292-302 | One flush moves a rewriting partition's buffered tail into its file and keeps the file the merge of what was accepted. |
| `WriterSchedules.RunTracks` | bindings/python/src/tradestation_data/storage/bar_writer.py:216-344 | After any run the file is the merge of a prefix of the accepted bars over the initial rows, the buffer the rest. |
| `WriterSchedules.FinalFile` | bindings/python/src/tradestation_data/storage/bar_writer.py:346-430 | After close the file is a function of the initial file and the accepted bars, for every placement of flushes, seals and restarts and any fault on other files. |
| `WriterSchedules.SchedulesAgree` | bindings/python/src/tradestation_data/storage/bar_writer.py:346-430 | Two schedules of the same bars leave the same file. |
| `WriterSchedules.FinalFileIsUpsert` | bindings/python/src/tradestation_data/storage/bar_writer.py:346-430 | That file is the upsert fold of the accepted bars over the initial rows; its times are the union, so a republish loses none. |
| `WriterSchedules.KilledFile` | bindings/python/src/tradestation_data/storage/bar_writer.py:416-430 | A writer killed between two calls leaves a rewriting partition's file as merged so far: exactly its buffer is lost. |
| `WriterSchedules.KillsLoseNoStored` | bindings/python/src/tradestation_data/storage/bar_writer.py:346-430 | However often it is killed, the file is the upsert fold of what survived over what was there, and no stored bar_time is lost. |
| `WriterPlacement.SameFileExactly` | bindings/python/src/tradestation_data/storage/bar_writer.py:229-230 | Two bars share a file exactly if type, interval and symbol agree and, unless the type is 2, the ET date does. |
| `WriterPlacement.EtDateExactly` | bindings/python/src/tradestation_data/storage/bar_writer.py:229 | An ET date is a day of 86400 seconds of local time. |
| `WriterPlacement.RunPlaced` | bindings/python/src/tradestation_data/storage/bar_writer.py:229-230 | Every run keeps every row in the partition of its own ET date. |
| `WriterPlacement.WrittenStoreReadsPlainly` | bindings/python/src/tradestation_data/storage/history_store.py:247-282 | Over the disk any run of the writer leaves, a pruned read selects what a plain filter over all listed files would. |
| `HistoryStore.Reader.FilesInRange` | bindings/python/src/tradestation_data/storage/history_store.py:247-282 | The loop keeps present files whose date is in the widened range, and directories that are no date. |
| `HistoryStore.Reader.Collect` | bindings/python/src/tradestation_data/storage/history_store.py:199-244 | Succeeds exactly if all files are readable and of this schema; then time-sorted, and exactly the rows in range. |
| `HistoryStore.Reader.Scan` | bindings/python/src/tradestation_data/storage/history_store.py:242-244 | The rows in range, in file order, unless some file cannot be read. |
| `HistoryStore.Reader.Read` | bindings/python/src/tradestation_data/storage/history_store.py:165-192 | Raises exactly on a foreign file; a file without a footer costs only itself. |
| `HistoryStore.Reader.LoadBars` | bindings/python/src/tradestation_data/storage/history_store.py:96-136 | The whole query, daily and dated layouts, time-sorted: every row is answered exactly as often as it stands in the files looked at if its time is within the bounds, else not; over a well-placed store, as often as it stands in the chart's files. It raises exactly if a foreign file lies where it looks. |
| `HistoryStore.Reader.ReadChart` | bindings/python/src/tradestation_data/storage/history_store.py:121-136 | The rows in range of the files the query looks at, for any store. |
| `HistoryStore.WideningIsMargin` | bindings/python/src/tradestation_data/storage/history_store.py:253-269 | The dates of the bounds themselves would do, for every range, exactly if the clock never falls back across midnight: for New York, which falls back at 02:00, the widening is a margin. |
| `HistoryStore.WideningIsEnough` | bindings/python/src/tradestation_data/storage/history_store.py:268-269 | For any offset within -5h..-4h no instant in range falls outside the widened dates. |
| `HistoryStore.PruningLosesNothing` | bindings/python/src/tradestation_data/storage/history_store.py:271-282 | A dropped partition holds no row in range. |
| `HistoryStore.PrunedReadIsPlainFilter` | bindings/python/src/tradestation_data/storage/history_store.py:96-136 | Over a well-placed store the files looked at hold exactly the stored rows in range, and the call raises exactly if a foreign file lies where it looks. |
| `Ingestion.IngestionRuntime.HandleProviderBar` | bindings/python/src/tradestation_data/runtime/ingestion.py:344-442 | One frame: tick bypass, stale, first, refresh, next bucket, reordered. |
| `Ingestion.IngestionRuntime.Install` | bindings/python/src/tradestation_data/runtime/ingestion.py:384-385 | The frame becomes the series' buffered bar and keeps the buffer's order. |
| `Ingestion.IngestionRuntime.RollOver` | bindings/python/src/tradestation_data/runtime/ingestion.py:430-439 | The held bar is delivered closed before the next bucket is shown. |
| `Ingestion.IngestionRuntime.Release` | bindings/python/src/tradestation_data/runtime/ingestion.py:309-312 | One bar leaves the buffer for closing, counted and recorded. |
| `Ingestion.IngestionRuntime.OnClosedBar` | bindings/python/src/tradestation_data/runtime/ingestion.py:444-452 | A closed delivery, counted. |
| `Ingestion.IngestionRuntime.OnPartialBar` | bindings/python/src/tradestation_data/runtime/ingestion.py:454-514 | A developing bar, counted if someone listens. |
| `Ingestion.IngestionRuntime.AdvanceDirectBars` | bindings/python/src/tradestation_data/runtime/ingestion.py:279-313 | The sweep that deletes while it goes: which bars leave, in which order. |
| `Ingestion.IngestionRuntime.Advance` | bindings/python/src/tradestation_data/runtime/ingestion.py:324-329 | One turn of the wall-clock loop. |
| `Ingestion.IngestionRuntime.CloseAll` | bindings/python/src/tradestation_data/runtime/ingestion.py:328-329 | The swept bars are delivered closed, in order. |
| `Ingestion.IngestionRuntime.DrainDirectBars` | bindings/python/src/tradestation_data/runtime/ingestion.py:259-268 | Every buffered bar leaves, in order, counted and recorded as emitted; the buffer is empty. |
| `Ingestion.IngestionRuntime.Count` | bindings/python/src/tradestation_data/runtime/ingestion.py:265-267 | The counting loop of the drain. |
| `Ingestion.IngestionRuntime.Drain` | bindings/python/src/tradestation_data/runtime/ingestion.py:245-257 | Shutdown: every buffered bar is delivered closed. |
| `IngestionRuns.ExecView` | bindings/python/src/tradestation_data/runtime/ingestion.py:259-442 | Each signal acts on one series exactly as on the simple life of that series alone. |
| `IngestionRuns.SeriesAreIndependent` | bindings/python/src/tradestation_data/runtime/ingestion.py:259-442 | For every trace of frames, sweeps and drains, what a series delivers and buffers depends on its own frames and the sweeps alone. |
| `IngestionGuarantees.BucketsMeaning` | bindings/python/src/tradestation_data/runtime/ingestion.py:347-353 | The last-of-each-bucket stream holds exactly the frames after which no frame of their time came. |
| `IngestionGuarantees.PartialsAreAdmitted` | bindings/python/src/tradestation_data/runtime/ingestion.py:376-439 | What is shown as developing is exactly the frames received of the series that were not overtaken on arrival, in order. |
| `IngestionGuarantees.ClosedStream` | bindings/python/src/tradestation_data/runtime/ingestion.py:371-442 | Closed bars have strictly increasing times, each the last frame of its bucket among those received and not overtaken on arrival, and identical to the latest partial delivered, on every close path; nothing shown is lost. |
| `IngestionGuarantees.DrainedStream` | bindings/python/src/tradestation_data/runtime/ingestion.py:259-268 | After the final drain nothing is held back. |
| `IngestionGuarantees.DroppedIff` | bindings/python/src/tradestation_data/runtime/ingestion.py:376-380 | A frame is turned away exactly if its bucket or a later one was closed, or a later one was shown. |
| `IngestionGuarantees.TicksPassThrough` | bindings/python/src/tradestation_data/runtime/ingestion.py:371-374 | On a tick chart every frame is delivered closed, at once and in order, and no partial is shown. |
| `IngestionGuarantees.FramesConserved` | bindings/python/src/tradestation_data/runtime/ingestion.py:371-442 | In every reachable state frames == bars_direct_in + bars_direct_updated + bars_duplicate_dropped + buffered, and the other counters match what was delivered. |
| `IngestionTiming.SweepReleasesExactly` | bindings/python/src/tradestation_data/runtime/ingestion.py:279-313 | A sweep closes exactly the buffered bars whose shifted close lies two seconds back, and leaves the others. |
| `IngestionTiming.SubminuteMeansNarrowing` | bindings/python/src/tradestation_data/runtime/ingestion.py:388-424 | In every run the sub-minute counter has moved exactly if some series showed, under one bar_time, a high that fell or a low that rose. |
| `IngestionTiming.SameSeriesExactly` | bindings/python/src/tradestation_data/runtime/ingestion.py:25-27 | Two bars are of one series exactly if symbol, type and interval agree. |
| `IngestionTiming.DeliveredInBufferOrder` | bindings/python/src/tradestation_data/runtime/ingestion.py:259-313 | A sweep and the final drain deliver in buffer order across series: the order in which series last entered the buffer. |
| `Snapshot.MarketSnapshot.OnBar` | bindings/python/src/tradestation_data/aggregation/snapshot.py:96-155 | The whole update of one symbol's state; no other symbol changes. |
| `Snapshot.MarketSnapshot.Clear` | bindings/python/src/tradestation_data/aggregation/snapshot.py:103-136 | The clears that come before a bar is added: session change, crossing the open, or the pre-market window. |
| `Snapshot.MarketSnapshot.EvictBeforePremarketWindow` | bindings/python/src/tradestation_data/aggregation/snapshot.py:196-204 | The pop loop. |
| `Snapshot.ResetState` | bindings/python/src/tradestation_data/aggregation/snapshot.py:103-131 | For a symbol that resets, in any order of arrival, the state is a function of the current session's bars. |
| `Snapshot.SessionDateExactly` | bindings/python/src/tradestation_data/aggregation/session.py:88-98 | A session date runs from 04:00 ET to 04:00 ET. |
| `Snapshot.AfterOpenExactly` | bindings/python/src/tradestation_data/aggregation/snapshot.py:138-144 | Where the offset is that of the open, a bar is past it exactly if it closes after 09:30 of its session date; the one closing at 09:30 is not. |
| `Prelude.LastNIsTail` | bindings/python/src/tradestation_data/aggregation/snapshot.py:154-155 | What a bounded deque keeps: the last max_bars, or all there are. |
| `Snapshot.BreadthWindow` | bindings/python/src/tradestation_data/aggregation/snapshot.py:103-155 | Fed in time order: `recent_bars` is the last `max_bars` of the current session, of the bars after the open once there is one, and the opening bar is the earliest of those. |
| `Snapshot.ContinuousWindow` | bindings/python/src/tradestation_data/aggregation/snapshot.py:133-155 | For a symbol that keeps a window, fed in time order: `recent_bars` is the last `max_bars` of the bars from the cutoff on, and the latest bar. |
| `Snapshot.UnlimitedWindow` | bindings/python/src/tradestation_data/aggregation/snapshot.py:133-155 | With no policy or no window: the last `max_bars` of everything. |
| `Snapshot.EvictIsFilter` | bindings/python/src/tradestation_data/aggregation/snapshot.py:202-204 | On ordered bars popping from the left is filtering. |
| `Imputation.FlagReal` | bindings/python/scripts/imputation_parquet.py:197-205 | Every original row is flagged as not imputed. |
| `Imputation.FillOne` | bindings/python/scripts/imputation_parquet.py:217-227 | What one missing time adds, or that it is skipped. |
| `Imputation.FillAll` | bindings/python/scripts/imputation_parquet.py:215-227 | All missing times, in order, with the log. |
| `Imputation.ImputeDay` | bindings/python/scripts/imputation_parquet.py:184-235 | The whole day: counts, log and table. |
| `Imputation.Neighbours` | bindings/python/scripts/imputation_parquet.py:212-220 | The two rows looked at are nearest original rows before and after the missing time. |
| `Imputation.InterpolatedBetween` | bindings/python/scripts/imputation_parquet.py:170-175 | An interpolated value divides the way from the previous close to the next open as its time divides the time between, and so lies between the two. |
| `Imputation.FilledIsInvented` | bindings/python/scripts/imputation_parquet.py:124-181 | An added row is flat, without trading or quote, of its neighbour's category; ffill takes the nearest previous close, bfill the nearest next open, each the other's for want of its own, interpolation the point on the line between; the log says which. |
| `Imputation.MissingCounts` | bindings/python/scripts/imputation_parquet.py:207-208 | Each expected time that no row has is filled as often as it is expected. |
| `Imputation.DayIsFilled` | bindings/python/scripts/imputation_parquet.py:184-235 | On a non-empty file: a table exactly if an expected time is missing; sorted; times are existing and expected; every original row survives unflagged, as often as it was there; every flagged row is an invented one; the log notes each missing time in order. |
| `Imputation.EmptyDayStaysEmpty` | bindings/python/scripts/imputation_parquet.py:221-230 | A day without rows is left alone. |

## Left out

Behaviour of the repository that is not part of the model:

- libzmq, TCP, threads, high-water marks, timeouts and linger; dropped messages appear only
  as `EndToEnd.Delivery`, and data frames passing through the hub are not modelled.
- StepOk: a lost hub is not a step.
- RunOk: runs are free of hub disconnects, because what a reconnecting pipe replays is not
  among the behaviours the repository writes down. A disconnect is covered for one drain by
  `AgreementAfterDrain` and, for the publisher alone, by every run of `PublisherRuns`.
- FinalFile: for a partition that rewrites and whose own file can be written, with restarts
  that close the writer; kills between calls are `KillsLoseNoStored`, a kill within a call is
  not modelled. Streaming partitions truncate a file left by an earlier process, by design;
  what they keep within one run is `NothingIsLost`.
- ELShutdown: the -3 of an exception while closing is not modelled.
- Formatting: whether a payload fits its buffer is a fate, quotes and `to_int64` are not
  computed (`narrow` says whether the quantities fit).
- JSON decoding, `strptime` and daylight-saving warnings: a payload is what can be decoded
  of it.
- Time zones: instants are integer seconds, the ET offset is any function within -5h..-4h,
  and the snapshot assumes that session dates and opening instants do not run backwards.
- Hub clock readings are integer milliseconds.
- Bar values: prices are reals, all columns that are never null travel together as
  `Values`, and `bar_time_et` is not stored beside `bar_time`.
- A `_Partition` is a value in the writer's table, and a `SymbolState` a value in the
  snapshot's; the source mutates one object through the table, which nothing else aliases.
- `last_write_monotonic`, the buffer stamp and `today_et` are read once per operation, and
  closing an open Parquet writer never raises.
- A streaming writer that cannot be opened leaves the file as it was.
- The schema check over several files looks at the first one; any other disagreement, like
  an unreadable file, makes the joint read fail. Hive columns and `_as_utc` are not modelled.
- Log records, heartbeats and statistics, warn-once sets, asyncio and signals: each handler
  is one atomic step.
- Callbacks and sinks: deliveries are recorded in order, failures inside them are not
  modelled.
- Imputation's ValueError for an unknown method name, its reading and writing of files, and
  its summary printing.
- Tombstone exports, version checks, DLL pinning, the EasyLanguage script, configuration,
  command lines, `dump_parquet.py`, `dedupe_bars.py` and `verify_parquet.py`: constants,
  host glue or easy members.
