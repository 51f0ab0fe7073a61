# A verified model of an F1 telemetry pipeline

The repository collects the UDP telemetry of a racing game, stores it in Postgres, shows it on a live
dashboard and posts session cards to Discord. This project models its stateful parts in Dafny and proves
what they promise over whole runs:

- **Bounded collections** (`Recency`, `BoundedCollections`): write-recency order and eviction.
- **Frame buffer** (`FrameBufferModel`, `FrameBufferRuns`, `FrameBufferInOrder`, `FrameBuffers`): packets
  grouped into frames, conservation of packets, in-order delivery.
- **Listener** (`FrameTables`, `AnchorCache`, `CarFrames`, `LapCompletions`, `Listener`, `ListenerTables`,
  `ListenerStores`, `ListenerFallback`, `ListenerRaces`, `ListenerFlags`, `ListenerLaps`, `ListenerGates`,
  `ListenerIntake`, `FrameServices`, `Dispatching`): what lets packets in and which frames are stored, which rows the frame tables hold after any mix of packets, redeliveries, flashbacks and
  restarts, what a race stores before its start, which laps are announced, and what the cache sizes are
  enough for. `WriteFailures` accounts for failed writes.
- **Lap history** (`LapHistory`) and **roster** (`Roster`): caches that may only ever save work.
- **Receive queue** (`ReceiveQueue`): two threads over a bounded queue, interleaved step by step.
- **Postgres arrays** (`PgArray`): a printer and a parser that undo each other.
- **Driver matching** (`DriverNames`, `DriverMatching`, `StableSorting`), **race feed** (`Feed`) and
  **track map** (`TrackZones`).
- **Discord cards** (`BotTick`, `DiscordBots`): a cron tick that may fail at every await.

Each part that changes state has a functional model, on which the runs are reasoned about, and a class whose
methods update fields in place and are proved to do what the model says. Several promises turned out to hold
only under a condition. Those are stated with the exact condition and a concrete input or run that fails it:
the narrowed flashback delete, the order of match candidates, the feed's pushed-down limits, the parser on a
lone bare empty string, the Discord tick on a weekend that was archived before, and the redelivery of a frame
whose session's anchor is forgotten.

Two comments in the source promise more than the code gives. `bot/src/index.ts:121` says the latest
session's weekend is ensured a live channel; for a weekend that was archived before, the insert at
`bot/src/queries/discordState.ts:39-44` violates the primary key on every tick. And
`listener/database/repositories/base.py:107-112` calls the timestamp bound identical to the session_time
bound; rounding to microseconds makes it coarser.

## Model

| member | source | states |
|---|---|---|
| Recency.AddAllKeepsNewest | listener/utils/bounded_set.py:16-22 | after any history of additions the set holds exactly the last max_size distinct items, in the order they were last added |
| Recency.WriteAllKeepsNewest | listener/utils/bounded_dict.py:23-30 | after any history of writes the dict holds exactly the last max_size distinct keys in order of last write, each with its last value |
| Recency.RunOpsInRecencyOrder | listener/utils/bounded_dict.py:23-43 | with pops mixed in, the size bound, key uniqueness, last values and write-recency order still hold |
| Recency.AfterTouch | listener/utils/bounded_dict.py:23-30 | a write of another key adds at most that key to the keys newer than a given one |
| BoundedCollections.BoundedDict.SetItem | listener/utils/bounded_dict.py:23-30 | assignment in place: move to the end, evict the front when a new key overflows, per the recency model |
| BoundedCollections.BoundedDict.Pop | listener/utils/bounded_dict.py:42-43 | pop in place: the value found is returned and only that key leaves |
| BoundedCollections.BoundedSet.Add | listener/utils/bounded_set.py:16-22 | addition in place, per the recency model |
| FrameBufferModel.StepInv | listener/frame_buffer.py:38-110 | add, sweep, session flush and discard keep at most 20 sessions, no empty frame and no empty session entry |
| FrameBufferModel.SortedSorts | listener/frame_buffer.py:83-84 | the session-end flush goes through the session's frames in ascending order, each once |
| FrameBufferModel.FlushSessionMoves | listener/frame_buffer.py:77-87 | the session-end flush hands over everything pending for the session; its final pops lose nothing |
| FrameBufferModel.SweepTakesAllButCurrent | listener/frame_buffer.py:58-75 | after a sweep exactly what was pending for each session's current frame is still pending, whatever its session; all else is handed over |
| FrameBufferModel.FlushSessionAscends | listener/frame_buffer.py:77-87 | the session-end flush delivers the session's frames, each once, in ascending order |
| FrameBufferRuns.EveryPacketHasOneFate | listener/frame_buffer.py:38-118 | conservation: over every sequence of operations each added packet is pending, delivered once, overwritten by the same slot, discarded, or lost with an evicted session, as buffer and delivery log show |
| FrameBufferRuns.AddAt | listener/frame_buffer.py:45-56 | what one addition does to every slot: its own packet in, an evicted session out, the completed frame handed over, all else unchanged |
| FrameBufferInOrder.OnlyCurrentFramePending | listener/frame_buffer.py:45-56 | with nondecreasing frames and at most 20 sessions, only each session's current frame is pending, with the last packet of each id that arrived for it |
| FrameBufferInOrder.DeliversTheCompletedFrame | listener/frame_buffer.py:47-56 | each operation delivers at most the one open frame, when a higher frame or the session's end completes it, carrying the last packet of each id; a sweep or discard delivers nothing |
| FrameBufferInOrder.DeliveriesIncrease | listener/frame_buffer.py:77-118 | between session-end flushes the frames of a session are delivered in strictly increasing order |
| FrameBuffers.FrameBuffer.Add | listener/frame_buffer.py:38-56 | `add` on nested dicts shared by reference equals the model's addition, deliveries included |
| FrameBuffers.FrameBuffer.FlushFrame | listener/frame_buffer.py:100-113 | one frame's packets are popped and handed over, an emptied session entry removed |
| FrameBuffers.FrameBuffer.CheckPeriodicFlush | listener/frame_buffer.py:58-75 | the sweep runs at most once per interval and flushes every pending frame that is not current |
| FrameBuffers.FrameBuffer.FlushSession | listener/frame_buffer.py:77-87 | the session-end flush in place equals the model's |
| FrameBuffers.FrameBuffer.DiscardSession | listener/frame_buffer.py:89-98 | both entries of the session are dropped, nothing is delivered |
| FrameTables.MicrosMonotone | listener/services/car_frame.py:294-295 | seconds to microseconds, ties to even: monotone, and strict more than a microsecond apart |
| FrameTables.MicrosAreNearest | listener/services/car_frame.py:294-295 | a time is converted to within half a microsecond, and no whole number of microseconds is nearer |
| FrameTables.RoundedIsNearest | listener/services/car_frame.py:294-295 | halfway between two whole microseconds the even one is taken |
| FrameTables.WholeMicrosecondsExact | listener/services/car_frame.py:294-295 | session times that are whole microseconds are kept apart by the conversion, as the statements about stored rows assume |
| FrameTables.NarrowedDeletesNoMore | listener/database/repositories/base.py:114-130 | the delete narrowed by timestamp removes no row the session_time delete keeps |
| FrameTables.DeletesAgreeExactly | listener/database/repositories/base.py:107-130 | on anchored rows the two deletes are equal exactly when no stored row past the rewind point falls on its microsecond |
| FrameTables.DeletesMayDiffer | listener/database/repositories/base.py:114-124 | they do differ: a row a tenth of a microsecond past the rewind point survives the narrowed delete |
| FrameTables.TableIsFirstSinceUndone | listener/database/repositories/car_frame.py:67-79 | after any history of writes and flashbacks each key holds exactly the first row written since the last flashback that undid it, and is absent if there is none |
| FrameTables.SurvivorUnique | listener/database/repositories/car_frame.py:67-79 | only one write of a key can be that row |
| FrameTables.RedeliveryChangesNothing | listener/database/repositories/car_frame.py:91-99 | inserting rows whose keys are stored changes nothing |
| AnchorCache.KnownSessionsAreAnchored | listener/services/session.py:51-57 | over any run of Session packets, however many sessions, a session in the 100-entry known set is in the 200-entry anchor cache |
| CarFrames.GapBehindIsGapAheadOfFollower | listener/services/car_frame.py:381-400 | each row's gap to the car behind is the gap ahead reported one position back, unset if nobody holds it; key and everything else unchanged |
| CarFrames.RowsAreThoseRecorded | listener/services/car_frame.py:301-328 | a tick's rows are those of the mapped drivers who are not in the garage, no more and no fewer, under the tick's key and time |
| CarFrames.DamageRowsAreThoseVisible | listener/services/car_frame.py:331-340 | its damage rows are those of the recorded drivers that are not restricted, when a damage packet came |
| CarFrames.DamageRowsHaveFrameRows | listener/services/car_frame.py:301-340 | every damage row of a tick shares its key with a frame row of the tick |
| CarFrames.TickRowsAreOwnData | listener/services/car_frame.py:301-328 | a tick writes a row for each mapped car that its own lap data does not put in the garage, and no other; the row's lap, motion, telemetry and status are that car's entries of the packets that came, restricted status unset for a restricted car, the gap behind that of the last car one position back |
| CarFrames.TickDamageIsOwnData | listener/services/car_frame.py:331-340 | its damage rows are, exactly, the own damage entries of those cars that are not restricted |
| FrameServices.FrameRepository.Insert | listener/database/repositories/car_frame.py:91-99 | batch insert with do-nothing on conflict, appended to the table's history |
| FrameServices.FrameRepository.DeleteRowsAfter | listener/database/repositories/base.py:97-130 | removes what the flashback names and returns the number of rows removed |
| FrameServices.CarFrameService.FillGapToCarBehind | listener/services/car_frame.py:381-400 | the two passes over the rows in place equal the gap function |
| FrameServices.CarFrameService.WriteFrame | listener/services/car_frame.py:286-354 | nothing before the race has started, else one row per recorded driver and damage rows for the unrestricted |
| FrameServices.CarFrameService.DiscardAfter | listener/services/car_frame.py:356-379 | both tables lose the rows past the rewind point; the count is of frame rows |
| ListenerTables.AnchorsNeverMove | listener/database/repositories/sessions.py:45-58 | a session's stored anchor never moves, whatever arrives and however often the listener restarts |
| FrameServices.SessionService.HandleSessionPacket | listener/services/session.py:70-72 | first packet of an unseen session: insert, read the stored anchor back into the cache, mark seen; otherwise nothing |
| Dispatching.PacketDispatcher.HandlePacket | listener/dispatcher.py:192-348 | the dispatcher's gates and handlers, in place over the buffer and services, equal the model's step on caches, tables, reports and histories |
| Dispatching.PacketDispatcher.FlushFrame | listener/dispatcher.py:405-488 | a flushed frame: roster and time gates, start backstop, combined write, lap completions |
| Dispatching.PacketDispatcher.HandleFlashback | listener/dispatcher.py:360-391 | pending frames dropped, stored rows deleted, the session's laps forgotten |
| ListenerGates.FlushedFramesAreStored | listener/dispatcher.py:405-488 | over any run of at most 200 sessions per process: of a flushed frame whose first packet was sent a second or more into a session that was under way, or shows a confirmed driver on lap 2, and that holds motion, lap, telemetry or status data, each confirmed driver whose own lap entry does not read driver status 0 is stored at the session's stored anchor plus the frame's time, with the data of his own car |
| ListenerGates.FlushedFrameIsRecorded | listener/dispatcher.py:405-488 | with any number of sessions: each frame a packet flushes that its roster, time, packets and race flag let through has its rows and damage rows written, and they are stored afterwards, whatever else the packet flushes |
| ListenerGates.FrameWritesExactly | listener/dispatcher.py:405-485 | one flushed frame adds to both tables and histories exactly a row, and if it came and is not withheld a damage row, of each confirmed driver's car that is not in the garage, when roster, time, packets and race flag let it through, and nothing otherwise |
| ListenerGates.UnheededFrameChangesNothing | listener/dispatcher.py:407-428 | a frame of the session's first second, or of a session without a confirmed driver, changes neither the tables nor the reports nor the process |
| ListenerGates.FrameShowsExactly | listener/dispatcher.py:455-504 | the laps a flushed frame is looked at for are those of confirmed drivers with driver status 1 or 4, in an open race, when the frame is heeded and lap data came |
| ListenerIntake.AnnouncementLetsIn | listener/dispatcher.py:197-215 | over any run: a Session packet of a collected type makes its session known and leaves it anchored, at the packet's arrival less its session time unless an anchor is stored; the anchor is cached, and a missing race flag is set to whether the session is no race |
| ListenerIntake.UncollectedIsShutOut | listener/dispatcher.py:197-205 | a Session packet of type 0 or 18 shuts its session out and changes nothing else |
| ListenerIntake.OutsidersChangeNothing | listener/dispatcher.py:194-229 | nothing of a session shut out gets through, and of a session not announced only its announcement |
| ListenerIntake.RosterIsTaken | listener/dispatcher.py:231-237 | a Participants packet of a known session replaces its roster unless the new one is empty, and whom it withholds |
| ListenerIntake.RosterIsTheLast | listener/dispatcher.py:231-237 | over any run of at most 200 sessions per process: a session keeps its last roster that was not empty, and whom its last Participants packet withholds; nothing but such packets and a restart changes either |
| ListenerIntake.UnderWayExactlyWhen | listener/dispatcher.py:208-257 | a session is under way exactly from the first sign within its process: announced as no race while it has no flag, lights out, the end of the formation lap, or a heeded flushed frame with a confirmed driver on lap 2 |
| ListenerIntake.CarPacketWaits | listener/frame_buffer.py:38-75 | over any run: a car packet let in is pending, its frame current; gone are the frame it completes, a session it pushes out, and a tenth of a second after the last sweep every frame that is not its session's current one; every other slot is as it was, and what is gone but not pushed out is among the frames flushed |
| ListenerIntake.EndLeavesNothing | listener/frame_buffer.py:77-87 | over any run: at a session's end nothing of it is pending, all that was is flushed in ascending order of frames, and other sessions' packets stay |
| ListenerFlags.StartedStaysStarted | listener/dispatcher.py:353-358 | with any number of sessions, a started session stays started within its process while the flags written after its own are of fewer than 200 sessions |
| ListenerFlags.ForgottenFlagReadsAsStarted | listener/dispatcher.py:465 | a session whose flag was forgotten stores its frames as if its race had started |
| Dispatching.PacketDispatcher.CheckLapCompletions | listener/dispatcher.py:490-523 | the loop over cars reports and remembers exactly what the model does |
| ListenerStores.StoredFramesWhateverIsForgotten | listener/dispatcher.py:360-488 | over any run of packets, redeliveries, flashbacks and restarts, with any number of sessions and whatever the caches forget, in which no frame is stamped by a wall clock behind the frame's own instant: each key of car_frame and of the damage table holds exactly the first row written since the last flashback that undid it, and every damage key is a frame key |
| ListenerStores.StoredFramesWhileClocksKeepUp | listener/dispatcher.py:360-488 | with one session time per frame, all that asks is that a frame which falls back to the wall clock is flushed no earlier than its stored anchor plus its session time |
| ListenerStores.NoFallbackIsInTime | listener/dispatcher.py:455-485 | a run in which every flushed frame finds its anchor is such a run, whatever the wall clock does |
| ListenerStores.StoredFramesUnlessFallback | listener/dispatcher.py:360-403 | the same whatever the clocks do, while no flushed frame falls back to the wall clock; every key is then the stored anchor plus the session time |
| ListenerStores.StoredFramesOfFewSessions | listener/database/repositories/sessions.py:45-58 | so it holds for every run of at most 200 sessions per process |
| ListenerStores.LateRowSurvivesExactlyWhen | listener/database/repositories/base.py:114-130 | what breaks otherwise: a row past the rewind point survives the flashback exactly when its timestamp is not past it |
| ListenerStores.MissedExactlyWhenLate | listener/database/repositories/base.py:114-130 | some flashback to an earlier microsecond misses a stored row exactly when the row was stamped before its own instant |
| ListenerFallback.UndoneRowSurvivesExactlyWhen | listener/database/repositories/base.py:114-130 | a run stamping a row with the wall clock: the flashback that undoes the row leaves it exactly when the wall clock stood before the rewind point |
| ListenerStores.FewSessionsNeverFallBack | listener/dispatcher.py:455-485 | while no process sees more than 200 sessions, no flushed frame falls back to the wall clock |
| ListenerFallback.FallbackHappens | listener/dispatcher.py:455-485 | a run of 201 sessions in which a sweep flushes a frame of a session whose anchor was pushed out of the cache |
| ListenerFallback.FrameStoredTwice | listener/services/car_frame.py:294-297 | at the end of that run one frame of one driver, delivered twice, is stored under two timestamps, wherever the wall clock stands at its end |
| ListenerTables.RedeliveryChangesNothingExactlyWhen | listener/services/car_frame.py:294-297 | a frame whose rows are stored, delivered again by any process at an instant no stored row carries, changes nothing exactly when its session's anchor is still cached |
| ListenerTables.RunRedeliveryChangesNothingExactlyWhen | listener/services/car_frame.py:294-297 | the same over any run: delivered after some inputs and again at the end, restarts in between included |
| ListenerTables.ForgottenAnchorStoresAgain | listener/services/car_frame.py:294-297 | without the anchor the frame is stored a second time, beside the rows of its first delivery |
| ListenerStores.RunFlashbackClears | listener/dispatcher.py:373-384 | after any such run a flashback let in removes from both tables exactly its session's rows past the rewind point and leaves nothing of the session pending; all other rows and packets are untouched |
| ListenerStores.FlashbackClears | listener/dispatcher.py:373-384 | one flashback does that in any state whose tables are explained by their histories, and keeps them explained |
| ListenerTables.DeliveryIsStored | listener/database/repositories/car_frame.py:91-99 | a delivery that writes leaves all its rows and damage rows stored, whatever was there before |
| ListenerTables.RedeliveredFrameChangesNothing | listener/database/repositories/car_frame.py:67-79 | a frame delivered again, later or in another process, changes neither table while its own rows are stored, with the same roster and the anchor at hand |
| ListenerTables.KnownSessionsUseStoredAnchor | listener/dispatcher.py:206-207 | over any run, with any number of sessions and restarts, a session the gate lets through has an anchor stored, and that very anchor cached |
| ListenerRaces.NothingStoredBeforeTheStart | listener/services/car_frame.py:286-288 | over any run of at most 200 sessions per process, no frame or damage row is stored for a race before lights out, the end of the formation lap, or a flushed frame with a mapped car on lap 2 or later |
| ListenerFlags.StoredOnlyUnderWayOrUnflagged | listener/services/car_frame.py:286-288 | over any run, with any number of sessions: every stored row is of a session shown to be under way, or of one a frame of which was flushed while its flag was missing |
| ListenerRaces.StartedExactlyWhenUnderWay | listener/dispatcher.py:208-213 | within a process a known session counts as started exactly from the first such sign, and never reverts; non-race sessions from their first packet |
| ListenerRaces.DeliverRace | listener/dispatcher.py:455-485 | one delivery: writes only for a session under way, counting what the frame itself shows |
| ListenerLaps.RunTracksLaps | listener/dispatcher.py:490-523 | over any run, the laps remembered and announced are those that follow from the lap numbers of the flushed frames, the flashbacks and the restarts, in order |
| ListenerLaps.AnnouncedLapWasLastSeen | listener/dispatcher.py:506-523 | over any run, an announced lap is positive, below the lap just seen, and the lap of the driver's previous sighting, with neither a flashback of the session nor a restart in between |
| ListenerLaps.AnnouncedExactlyWhen | listener/dispatcher.py:506-523 | over any run that shows no process more than 500 drivers: a lap is announced exactly when a driver is seen on a later lap than at the sighting before, a positive one, with neither a flashback of the session nor a restart in between |
| ListenerLaps.AnnouncedLapsIncrease | listener/dispatcher.py:506-523 | over any run in which lap numbers fall only through flashbacks, the laps announced for a driver strictly increase, unless a flashback of the session came in between, evictions and restarts or not |
| LapCompletions.ResetOnlyThatSession | listener/dispatcher.py:388-391 | a flashback zeroes exactly its own session's drivers and evicts nobody |
| WriteFailures.EveryFailureIsAccounted | listener/database/repositories/base.py:43-70 | each failed write is told of in one log line, still counted, or lost with an evicted tally |
| WriteFailures.FewKindsLoseNothing | listener/database/repositories/base.py:43-70 | with at most 50 kinds of failure nothing is lost, and the lines of a kind are a minute apart |
| WriteFailures.LoggedExactlyWhenDue | listener/database/repositories/base.py:43-70 | with at most 50 kinds a failure is logged at once exactly when every line of its kind is a minute old or there is none, and the line counts the failures of its kind no line has told of |
| WriteFailures.FirstOfItsKindIsLogged | listener/database/repositories/base.py:50-56 | however many kinds there are, the first failure of one is logged at once, with count 1 |
| WriteFailures.RepositoryBase.LogWriteFailure | listener/database/repositories/base.py:43-70 | the method in place equals the accounting step |
| LapHistory.IncrementalEqualsRewrite | listener/services/lap_history.py:81-132 | the incremental upserts leave the laps table as upserting every timed lap of every packet would, whatever the cache evicts, while each driver's packets follow one another |
| LapHistory.TableTellsLastTimed | listener/services/lap_history.py:81-132 | under the same condition the table holds exactly the laps some packet timed, each with the time, sector times and the four lowest validity bits the last packet to time it gave, an all-zero sector absent |
| LapHistory.BestsAreLastPacket | listener/services/lap_history.py:134-155 | the session-bests row of every driver seen equals its last packet's bests although unchanged ones are not written |
| LapHistory.SkipStored | listener/services/lap_history.py:87-93 | upserting laps already stored with the same row changes nothing, so skipping them is sound |
| LapHistory.LapHistoryService.UpsertLaps | listener/services/lap_history.py:81-132 | the window from the previous partial lap on is upserted and the lap count remembered |
| LapHistory.LapHistoryService.UpsertBatch | listener/database/repositories/laps.py:18-50 | later rows of a batch overwrite earlier ones of the same key |
| LapHistory.LapHistoryService.HandleSessionHistory | listener/services/lap_history.py:44-65 | one packet in place equals the model's ingestion |
| Roster.RosterStaysConfirmed | listener/services/participants.py:108-139 | after any run, whatever the database answers, both caches hold the same sessions in the same order, the map's cars are the written set, every mapping is a stored entries row, no user drives two cars of a session |
| Roster.RecordKeeps | listener/services/participants.py:111-139 | each packet keeps that, and changes no mapping of a session that stays cached |
| Roster.MappingIsKept | listener/services/participants.py:136-138 | at every point of a run a confirmed mapping is not remapped while its session is retained |
| Roster.FailedWriteRetries | listener/services/participants.py:125-134 | a failed write leaves both caches and the table unchanged, and the same drivers are offered again |
| Roster.ConfirmedWriteSettles | listener/services/participants.py:111-139 | a write that goes through with every name resolved leaves nobody to offer |
| Roster.DriversAreMapped | listener/services/participants.py:71-139 | after a packet whose new drivers clash neither with each other nor with stored entries, and whose write goes through: a car keeps its mapping, else it is mapped to the user its driver's name resolved to if it is no AI car and no empty slot, else it is not mapped |
| Roster.UpsertEntriesAt | listener/database/repositories/entries.py:151-228 | a batch that goes through stores exactly the returned mappings and leaves every other row alone |
| Roster.NothingMapped | listener/database/repositories/entries.py:178-220 | an empty answer means nothing was written |
| Roster.RestrictedIsLastPacket | listener/services/participants.py:40-69 | the restricted cars remembered for a session are exactly those its last packet reports without public telemetry, the player's own excepted |
| Roster.ParticipantsService.HandleParticipants | listener/services/participants.py:55-139 | the handler in place equals the model's step and returns the confirmed map |
| ReceiveQueue.EveryInterleavingConserves | listener/server.py:131-175 | under every interleaving, handled then in progress then queued are the received datagrams in order with the dropped ones deleted; reported drops plus the counter are all drops; the queue keeps its size |
| ReceiveQueue.StoppedWorkerHandledEverything | listener/server.py:78-85 | a worker that met the sentinel has handled everything accepted |
| ReceiveQueue.DroppedExactlyWhenBacklogged | listener/server.py:139-142 | a datagram is dropped exactly when as many accepted ones as the queue holds are waiting |
| ReceiveQueue.FailuresChangeNothingElse | listener/server.py:82-85 | a failing handler loses only its own datagram |
| ReceiveQueue.StepKeeps | listener/server.py:131-186 | each step of either thread, taken in any state that keeps it, keeps conservation, the queue's bound and the sentinel's place |
| ReceiveQueue.MeasuredKeeps | listener/server.py:144-175 | a report that resets the counters loses no drop: reported and still counted drops together stay all drops |
| ReceiveQueue.ReportedExactlyWhenDue | listener/server.py:144-175 | under every interleaving: five seconds after the last time, the drops since then are reported, or if there were none the greatest queue length measured since then if it is half the queue's size; nothing is reported in between |
| ReceiveQueue.SentinelIsOnItsWay | listener/server.py:182-186 | if the queue had room at the shutdown, ever after the worker has stopped or the sentinel is last in the queue |
| ReceiveQueue.EachTurnIsProgress | listener/server.py:72-85 | each step of the worker then brings it closer to stopping |
| ReceiveQueue.UdpServer.ProcessPackets | listener/server.py:72-85 | from a closed queue the worker's loop hands on every waiting datagram and stops |
| PgArray.RoundTrip | packages/db/src/health.ts:55-58 | parsing a printed text array gives back the list, for every list of strings (section 8.15.6 of the PostgreSQL 16 documentation) |
| PgArray.ParserReadsEveryForm | packages/db/src/schema.ts:631-664 | the parser recovers a list from every mix of quoted and bare elements, exactly except for one bare empty string |
| PgArray.TwoPassesEscape | packages/db/src/health.ts:56 | doubling backslashes first and escaping quotes second escapes each character by itself |
| PgArray.PrintingIsInjective | packages/db/src/health.ts:55-58 | different lists print differently |
| PgArray.ParsePgArray | packages/db/src/schema.ts:631-664 | the scanning loop computes the recursive reading, absent and already-parsed values included |
| PgArray.TrailingBackslash | packages/db/src/schema.ts:645-646 | a literal cut off after a backslash reads the missing character as the text undefined |
| DriverNames.NormalizeIsIdempotent | web/worker/matching.ts:14-22 | normalizing twice is normalizing once |
| DriverNames.StripSuffixIsLeftmostMatch | web/worker/matching.ts:11-18 | the suffix step replaces the leftmost match of the pattern, and nothing when there is none |
| DriverNames.RoleSuffixIsIgnored | web/worker/matching.ts:11-22 | a role suffix in any case behind any separators does not change the normal form of a plain name |
| DriverNames.PlainNormalForm | web/worker/matching.ts:14-22 | the normal form of a name free of separators is the name in lower case without the digits at its end, or the digits if there is nothing else |
| DriverNames.NothingReducibleIsLeft | web/worker/matching.ts:14-20 | no capital, white space, underscore or hyphen is left in a normal form |
| DriverNames.RoleNormalForm | web/worker/matching.ts:14-22 | a role suffix behind a nonempty plain name goes, and nothing else does |
| DriverNames.PlainNameIsKept | web/worker/matching.ts:14-22 | a name free of separators that does not end in a digit keeps its every letter, in lower case |
| DriverNames.SeparatorsAreRemoved | web/worker/matching.ts:14-22 | a separator inside a name, before a part that is no role suffix, is removed and nothing else is |
| DriverMatching.SimilarityFacts | web/worker/matching.ts:33-48 | similarity is symmetric, in 0..1, 1 exactly for equal names or equal nonempty bigram multisets, 0 exactly for different names sharing no bigram |
| DriverMatching.SimilarityIsShareInCommon | web/worker/matching.ts:33-48 | for different names it is twice the bigrams in common over the bigrams of both |
| DriverMatching.BigramsAreCounted | web/worker/matching.ts:24-31 | a bigram counts as often as it occurs in the name, and a name has one fewer than characters |
| DriverMatching.Bigrams | web/worker/matching.ts:24-31 | the counting loop yields the bigram multiset |
| DriverMatching.Overlap | web/worker/matching.ts:42-46 | the overlap loop yields the size of the multiset intersection |
| DriverMatching.ComputeSimilarity | web/worker/matching.ts:34-48 | the method yields twice the overlap over the total size |
| DriverMatching.MatchDriver | web/worker/matching.ts:72-103 | score, stable sort and decision |
| DriverMatching.ScoreIsBetterOfBoth | web/worker/matching.ts:79-89 | a candidate's score is the greater of the similarity to the handle and, when there is a nickname of more than separators, to the nickname |
| DriverMatching.FirstAlikeIsSuggested | web/worker/matching.ts:72-96 | the first candidate whose normal form equals, or has the nonempty bigram multiset of, that of the viewer's handle or nickname is suggested |
| DriverMatching.WinnerIsConfident | web/worker/matching.ts:98-102 | short of a perfect score, a candidate is returned exactly when it scores at least 0.6 and leads every other by at least 0.15 |
| DriverMatching.FirstPerfectWins | web/worker/matching.ts:94-96 | with a perfect candidate, the first perfect one is returned |
| DriverMatching.OrderIsIrrelevantExactlyWhen | web/worker/matching.ts:91-102 | the answer is the same for every candidate order exactly when no two different candidates are perfect |
| DriverMatching.TwoPerfectNamesakes | web/worker/matching.ts:94-96 | two namesakes of the viewer: whichever is listed first is suggested |
| StableSorting.SortDescFacts | web/worker/matching.ts:91 | the sort permutes into descending order |
| StableSorting.SortDescStable | web/worker/queries/feed.ts:194 | and keeps elements of equal key in their order |
| StableSorting.StableOrderIsUnique | web/worker/queries/feed.ts:194 | these two leave only one result |
| Feed.FeedIsSorted | web/worker/queries/feed.ts:194-195 | the feed is newest first and at most 30 long |
| Feed.FeedIsTheNewest | web/worker/queries/feed.ts:194-195 | no omitted item is newer than a kept one |
| Feed.LimitsAgreeExactly | web/worker/queries/feed.ts:13-58 | limiting each table to its newest 30 first gives the same frames exactly when, for every cut race-control row with a message, 30 items read are at its frame or newer |
| Feed.LimitsAgreeWithoutNulls | web/worker/queries/feed.ts:13-58 | so they agree whenever no race-control row read lacks a message |
| Feed.NullRowsHideMessages | web/worker/queries/feed.ts:109-111 | thirty messageless safety-car rows hide an older message the whole table would show |
| Feed.BuildFeed | web/worker/queries/feed.ts:148-196 | the loops, sort and cut compute the newest 30 of the union |
| Feed.ItemsAreTheRows | web/worker/queries/feed.ts:148-192 | the union holds an item of each penalty, retirement and fastest lap as that kind, and of each race-control row that has a message, safety car, DRS and start lights told apart and the rest flags |
| TrackZones.ExactlyOneZone | web/worker/dashboard.ts:389-395 | in any gapless circular list with one zone wrapping the line, every lap fraction lies in exactly one zone |
| TrackZones.FallbackAndClampsNeverAct | web/worker/dashboard.ts:397-408 | there the fallback zone and the clamps never act, and the share is exact |
| TrackZones.DrawnAtItsShare | web/worker/dashboard.ts:397-408 | there the car is drawn the share of the zone's length past its start that it has driven of it, over the start line if need be |
| TrackZones.PlaceDeterminesFraction | web/worker/dashboard.ts:397-408 | different fractions are drawn at different places |
| TrackZones.FractionIsCongruent | web/worker/dashboard.ts:376-380 | any lap distance, negative included, gives a fraction in [0,1) differing from distance over length by whole laps; there is none exactly without a distance or a length other than zero |
| TrackZones.WholeLapsDoNotMatter | web/worker/dashboard.ts:376-380 | whole laps more or less give the same fraction |
| TrackZones.PointAtFraction | web/worker/dashboard.ts:397-408 | for any zones: the first that covers the fraction, else the last, at the clamped share of its length |
| BotTick.EveryRunKeeps | bot/src/index.ts:104-170 | after any ticks that may fail at any await: at most one weekend is unarchived, every tracked card is a message posted for its own session in its own weekend's channel, and the posts not tracked are those whose own post went unanswered or whose row's insert was refused |
| BotTick.PostsExceedOneOnlyByFailures | bot/src/index.ts:163-170 | over any ticks, a session's posts are its tracked card plus one for each tick that lost a card of that session |
| BotTick.TickKeeps | bot/src/index.ts:252-278 | one tick keeps that, and leaves finalized cards and the edits of their messages alone |
| BotTick.FinalizedStays | bot/src/index.ts:199-211 | from any point of a run on, a finalized card is not changed and its message not edited |
| BotTick.FineTickTracksExactlyWhen | bot/src/index.ts:122-144 | a tick without failures leaves the latest session tracked in the one active weekend exactly when that weekend was not archived before; otherwise it posts nothing, leaks a channel and leaves no weekend active |
| BotTick.LeavingBlocks | bot/src/index.ts:122-144 | a tick without failures that moves on to another weekend archives the one before, which is blocked from then on |
| BotTick.ReturningIsBlocked | bot/src/index.ts:122-144 | three ticks without failures, for weekends a, b and a again: the third posts nothing, leaks a channel and leaves no weekend active |
| BotTick.FineTickFinalizes | bot/src/index.ts:199-211 | a tick without failures finalizes every tracked card whose session is over |
| BotTick.FineTickFinalizesExactlyWhen | bot/src/index.ts:173-211 | a tick without failures finalizes a card that was tracked and selected exactly when another session of the same weekend is the latest or the session's silence exceeds 60000 ms, editing its message once; otherwise the message is not edited |
| BotTick.TickFinalizesOnlyWhatIsOver | bot/src/index.ts:173-211 | whatever fails, a card is newly finalized or edited only under that condition |
| DiscordBots.DiscordBot.EnsureWeekendChannel | bot/src/index.ts:122-144 | the channel of the active weekend, or archive, create and insert, await by await |
| DiscordBots.DiscordBot.PostAndTrack | bot/src/index.ts:168-169 | post, then insert; a failure in between leaves an untracked post |
| DiscordBots.DiscordBot.FinalizePendingCards | bot/src/queries/discordState.ts:64-93 | the loop over unfinalized rows, ending at the first failure |
| DiscordBots.DiscordBot.Tick | bot/src/index.ts:264-277 | both steps, each caught, as the model's tick |

## Left out

- Parsing of packet bodies, enum tables, weather, session settings, event routing, motion_ex, tyre stints and sets: records of the few fields that keys, gates and gaps depend on stand for packets.
- SQL, connections, TimescaleDB and the schema runner: tables are maps with the conflict keys and update rules of the repositories. Frame-table, session and lap writes are taken to succeed; failures are modelled where the code reacts to them (entries, failed-write log, Discord).
- Exceptions inside packet handlers, caught at `listener/dispatcher.py:350-351` and `listener/frame_buffer.py:114-118`: the services behind the dispatcher are taken not to raise.
- Dispatching.PacketDispatcher.HandlePacket: the dispatcher's own bounded collections are fields holding values of the recency model instead of `BoundedDict` objects; the flush callback is a loop over the frames the buffer returns; the roster service's answer comes with the Participants packet and `Roster` models the service itself.
- WriteFailures.RepositoryBase.LogWriteFailure: the tallies are a field holding a value of the recency model.
- ListenerStores.StoredFramesWhateverIsForgotten: assumes session times that microsecond rounding keeps apart, as every statement about stored rows does, and that no frame is flushed twice under one timestamp with different session times; `FrameTables.DeletesMayDiffer` and `ListenerFallback.UndoneRowSurvivesExactlyWhen` show what happens otherwise. The wall clock is read once for all frames a packet flushes.
- ListenerRaces.NothingStoredBeforeTheStart: does not cover a process that sees more than 200 sessions; `ListenerFlags` states what is stored there, how long a flag is kept, and that a forgotten one reads as started.
- ListenerGates.FlushedFramesAreStored: does not cover a process that sees more than 200 sessions; `ListenerGates.FlushedFrameIsRecorded` does, in terms of the race flag and the anchor as the process holds them.
- ListenerLaps.AnnouncedExactlyWhen: does not cover a process that is shown more than 500 drivers, whose lap cache forgets some; `ListenerLaps.AnnouncedLapWasLastSeen` does.
- WriteFailures.LoggedExactlyWhenDue: does not cover more than 50 kinds of failure, which push tallies out; `WriteFailures.EveryFailureIsAccounted` and `WriteFailures.FirstOfItsKindIsLogged` do.
- Roster.DriversAreMapped: does not say which batches with clashing users go through, which depends on the order of the upserts; `Roster.FailedWriteRetries` says what a batch that does not leaves.
- ListenerLaps.AnnouncedLapsIncrease: does not cover lap numbers that fall without a flashback, or one driver mapped to two cars.
- LapHistory.IncrementalEqualsRewrite: does not cover lap counts that fall, or laps before the previous partial lap that change.
- FrameBufferInOrder.OnlyCurrentFramePending: does not cover frame numbers that fall within a session, or more than 20 sessions at once; `FrameBufferRuns.EveryPacketHasOneFate` does.
- BoundedCollections.BoundedDict.SetItem: does not cover max_size 0, for which the source raises on the first write; no caller passes it.
- Roster.RosterStaysConfirmed: the naming of unnamed players and the enum columns of an entry are not modelled; a participant carries the name to be recorded.
- ReceiveQueue.EveryInterleavingConserves: kernel drop counters and log texts are not modelled; a datagram interrupted between the socket and the queue does not count as received.
- PgArray.RoundTrip: strings are sequences of Unicode scalar values, so lone surrogates are not covered; NULL elements read as text, as in the source.
- DriverNames.NormalizeIsIdempotent: lower-casing is that of ASCII letters.
- DriverMatching.WinnerIsConfident: scores are exact rationals instead of floating-point numbers.
- Feed.BuildFeed: message texts are given with the rows; which rows have a message, and the kinds, are modelled.
- TrackZones.PointAtFraction: a point is a zone and a distance along its path; the drawing is the browser's.
- BotTick.EveryRunKeeps: ticks run one after another; the deletion of a session with its card, command registration, member sync and team roles are not modelled, nor are card texts.
- Authentication, Discord requests, HTML, polling, caching of pages, number arrays (`parsePgNumberArray`) and lap-time formatting.
