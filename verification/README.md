# Roadcast in Dafny

Roadcast samples a vehicle's CAN frames, keeps one canonical state of frames and decoded signals, and
replicates it to local clients: a consistent paged snapshot, then catch-up rounds, then live deltas,
through a bounded output queue per client that may drop and then force a resynchronization. This
project models that daemon, its client library, its wire format, its signal decoding and its source
session, and proves what they promise in every run.

`dafny verify dfyconfig.toml` checks everything.

## How the model is built

- `Types` holds the records, the constants and the well-formedness rules of a catalog. The catalog is a
  parameter, so every result holds for any catalog that follows the generator's rules.
- `Bits`, `Canonical`, `Sampler`, `Source` are decoding, the canonical state, the sampler thread and the
  source session; `FlagRule` is about the catalog rule the incremental decoder needs. `Records`,
  `VariableRecords`, `Wire`, `Schema`, `Protocol`, `Commands`, `Stream` are the byte formats and the
  reassembly of commands.
- `Session` (the daemon's side of a connection) and `Peer` (the client library, cut at its blocking
  reads) are functions on values. `World` puts the sampler, the daemon and any number of connections
  into one transition system whose labels carry every choice the outside makes. `Exec` runs any sequence
  of labels.
- `Replication` states the invariant of one connection and proves that each step keeps it; `Snapshots`
  follows the frozen copy through a run; `Runs` states the results about whole runs; `LiveViews` is about
  what a live client shows while messages are still in flight; `Progress` is about termination and
  progress; `OnTheWire` brings the bytes in; `OutputQueue` is about sizes and accounting; `AnyClient` is the
  daemon's side of a session whose client sends whatever it likes; `DoubleSubscribe`, `Repairs` and
  `WrongReplica` show what goes wrong without one hypothesis.
- `Client`, `Daemon`, `Sampler`, `Source`, `Stream`, `Cache`, `Encoder`, `Canonical` and `Bits` hold the
  imperative code: classes with fields, in-place arrays and loops, each method proved against the
  function that the results speak about.

The central idea is `Peer.Deliver`: the client as it will be once it has read everything in flight. The
invariant relates that client to the session, so a client that reads is covered by definition, and a
daemon step has to account only for what it appends.

## Hypotheses

- The peer is the reference client: one request at a time, SUBSCRIBE_ALL once per snapshot.
  `SecondSubscribeForgets` and `ForgottenUntilMarked` show exactly when a second one is harmless, and
  `ForgettingIsReal` a run in which it is not. `AnyClient` does not need this hypothesis.
- Frames agree when identifier, state and bytes agree; frame time stamps are not compared, as in the
  daemon. Signals agree in every field.
- An invalid flag lives in its signal's own CAN frame (the generator pairs them by CAN identifier).
  `FlagRuleIsExact` proves that the incremental decoder is correct exactly for such catalogs.
- Catalogs are non-empty and have at most 100000 signals, as the client demands.
- Frame identifiers are below 2048 and numerically increasing, hence distinct. The generator checks less:
  it wants the hexadecimal strings sorted and distinct, which is the same as long as they are all written
  in one case (scripts/generate-catalog.py:74-80).
- Clock readings are positive and do not decrease. Counters are unbounded integers; the results about
  bytes ask that no counter, no sample time and no sampling rate has outgrown its field, and that
  conversion gives 64-bit patterns (`OnTheWire.NoWrap`). That every other value fits is proved.
- libuv never holds more bytes than `pending_bytes` counts, each callback is one atomic step, and the
  stream is FIFO; a connection that closes may lose any part of what was still in flight.
- A double is its 64-bit pattern; `convert` in the catalog stands for the multiplication and addition of
  the physical conversion.
- The queue has at least one slot, as the command line demands.

## Model

| member | source | states |
|---|---|---|
| `Runs.ReplicaConvergence` | src/roadcastd.c:1092-1259 | In every run, once an active subscribed client has read what is in flight, its readers find the canonical frame (id, state, bytes) under every identifier, every signal is equal in all fields, and its change sequence is the daemon's. |
| `LiveViews.LiveClientShowsAChange` | src/client.c:598-673 | In every run, a live client whose next message begins a new change or is a heartbeat, whatever else is in flight, is at a change the daemon has been at, and agrees with every canonical state of the run that had that change sequence. |
| `Runs.CatchupAgreement` | src/roadcastd.c:636-740 | In every run, the view of a client that is catching up matches the daemon's copy at every index outside the unsent rest of the current round. |
| `Runs.SessionConformance` | src/client.c:681-711 | In every run the next message in flight is one the client accepts, arrives while no request of its own is open, moves no sequence or time back and moves a live client's change sequence by at most one. |
| `Runs.NothingUnsolicited` | src/roadcastd.c:474-740 | Until a client is subscribed, in handshake, schema, snapshot, catch-up and after a drop, no publication, sample or heartbeat adds anything to its stream. A completed write adds nothing while an answer is owed; in catch-up it adds batches of the round, and SUBSCRIBED at most as the last message; after a drop it adds one RESYNC_REQUIRED at most, and nothing once that is queued. |
| `Runs.ResyncIsAnsweredBySnapshot` | src/client.c:581-596 | A queued RESYNC_REQUIRED means that the client, once it has read it, has asked for the snapshot and nothing else. |
| `Runs.NoLostWakeup` | src/roadcastd.c:474-507 | A catch-up at rest, or a resync that is owed, has a write in flight; SUBSCRIBED messages number drops plus one if subscribed; RESYNC_REQUIRED messages number drops minus one if still owed; the byte count is the sum over busy slots, so the clamp at a completed write is never taken. |
| `Runs.HangsUpExactly` | src/roadcastd.c:794-868 | In every run, any step ends an open session if and only if it is a disconnection of that client or takes a request of its, other than SUBSCRIBE_ALL, while no slot is free. |
| `Runs.DefaultQueueNeverDrops` | src/roadcastd.c:48-53 | In every run with the default number of slots, a subscriber with nothing pending takes the distribution of whatever sample is published, and the heartbeat right after it, without a drop. |
| `Runs.ResyncFindsQueueEmpty` | src/roadcastd.c:474-486 | In every run, a step of any kind that queues RESYNC_REQUIRED for a client is a completed write of that client, and leaves it as the only write in flight. |
| `Runs.NoGaps` | src/roadcastctl.c:393-400 | The gap counter of every client is zero in every state of every run. |
| `Runs.SampleConservation` | src/roadcastd.c:1097-1120 | Coalesced samples plus advancing distributions equal the sample sequence, and changes never outnumber distributions. |
| `Runs.SnapshotIsACut` | src/roadcastd.c:577-624 | All pages a client holds during a snapshot, and the complete copy at its end, are the first frames and then the first signals, with all three sequence fields, of the canonical state at the very step that took the request for the first page; no step since then took another such request or gave the place to a new connection. |
| `Snapshots.FreezeStep` | src/roadcastd.c:577-594 | A copy in use after any step of the system was made by that step from the canonical state, if it took a first-page request, and otherwise was in use before and is unchanged. |
| `Runs.SchemaIsWhole` | src/client.c:299-329 | In every run a client past the schema phase holds exactly the catalog's entries, all of them and in order, and the daemon's own greeting. |
| `Runs.DecodingRefinesFull` | src/roadcastd.c:1123-1147 | In every state of every run each signal's state is what full decoding of the current frames gives, its physical value converts its raw value, and raw and physical equal full decoding unless the frame is unavailable. |
| `Runs.StampsAreOrdered` | src/roadcastd.c:1056-1090 | In every run VALID implies a first observation, and first observation, last change and sample time are ordered. |
| `Runs.StampsStep` | src/roadcastd.c:1056-1090 | Any single step keeps a non-zero first observation, never moves the last change back, and moves it only if raw or state changed in that step. |
| `Runs.FirstObservationIsForever` | src/roadcastd.c:1056-1090 | Over any run, source restarts included, a non-zero first observation never changes and the last change never decreases. |
| `Runs.PublishedFramesMean` | src/roadcastd.c:333-382 | Every published frame is what the batches read since the last baseline say, and those batches come from one connection. |
| `Runs.ClientNeverGoesBack` | src/client.c:560-579 | Over any run without a reconnection the client's sample and change sequences and its sample time never decrease, resyncs included. |
| `Runs.BytesCarryTheRun` | src/client.c:276-297 | In every run in which no counter or clock outgrows its field, the next message in flight fits the client's buffer and its bytes decode, with the record capacity the client then has, to that very message. |
| `World.BootInv` | src/roadcastd.c:1515-1532 | The start-up state, with any first read and any number of client places, satisfies the invariant of the system. |
| `World.StepKeepsInv` | src/roadcastd.c:1261-1308 | Every step (publish, distribute, heartbeat, request, write completion, read, connect, disconnect) keeps the invariant of the whole system. |
| `Replication.HelloServed` | src/roadcastd.c:801-827 | Answering HELLO keeps the connection invariant or closes the session. |
| `Replication.SchemaServed` | src/roadcastd.c:748-758 | Answering a schema request keeps the connection invariant: the client's schema is always the catalog's first entries. |
| `Replication.FramesServed` | src/roadcastd.c:596-624 | Answering a frame page request, freezing a copy first if it is the first page, keeps the invariant. |
| `Replication.SignalsServed` | src/roadcastd.c:760-792 | Answering a signal page request keeps the invariant; the last page completes a copy equal to the frozen one. |
| `Replication.SubscribeServed` | src/roadcastd.c:742-746 | SUBSCRIBE_ALL never fails and ends subscribed or with a full queue, in step with the client. |
| `Replication.DriveKeeps` | src/roadcastd.c:668-740 | The catch-up driver never fails, keeps the invariant, sends exactly one message per slot it takes, and stops only when subscribed or when no slot is free. |
| `Replication.RoundBegins` | src/roadcastd.c:636-666 | A new round leaves the client differing from the new copy at most at the indices it recorded. |
| `Replication.SubscriptionTaken` | src/client.c:502-529 | On SUBSCRIBED the client publishes a copy that agrees with the canonical state at that instant, and an index that finds every frame. |
| `Replication.WriteCompleted` | src/roadcastd.c:488-507 | A completed write frees exactly its bytes, continues a catch-up or sends an owed resync, and never closes the session. |
| `Replication.DistributionKeeps` | src/roadcastd.c:1226-1258 | Distributing any sample keeps every connection in step with the new canonical state, whether updates are queued, dropped halfway or not due. |
| `Replication.BeatSent` | src/roadcastd.c:1279-1307 | A heartbeat, queued or dropped, keeps the invariant. |
| `Replication.RequestServed` | src/roadcastd.c:794-868 | Every request the client has open is answered in step or ends the session. |
| `Replication.ReceptionKeeps` | src/client.c:598-673 | Reading the next message keeps the invariant; the message was acceptable and solicited. |
| `Replication.CloseKeeps` | src/roadcastd.c:928-935 | A closed session with any prefix of its stream left still holds only messages the client accepts. |
| `Peer.DeliverAppend` | src/client.c:276-297 | Delivering a longer stream is delivering its last message to the client that has read the rest. |
| `Agreement.PutPicked` | src/client.c:429-446 | Applying a batch of frames through the identifier index replaces exactly the positions the batch was picked from. |
| `Agreement.PutPickedSignals` | src/client.c:473-488 | Applying a batch of signals replaces exactly the named positions. |
| `Agreement.IndexedLocates` | src/client.c:367-371 | The loop over the frames fills an index that finds every frame of the catalog at its own place. |
| `Agreement.FramesMoveOn` | src/roadcastd.c:1104-1111 | A replica of the old frames agrees with the new ones except where the scan found a change. |
| `Agreement.SignalsMoveOn` | src/roadcastd.c:651-660 | A replica of the old signals equals the new ones except where the four-field scan found a change. |
| `Progress.SessionCanComplete` | src/roadcastd.c:668-740 | From every state satisfying the invariant, an open session reaches, by its own requests, reads and write completions alone, a subscribed live client whose cache agrees with the canonical state. |
| `Progress.EveryStepHelps` | src/roadcastd.c:668-740 | Every completed write, every read and every request taken with a free slot keeps the session open and strictly decreases the work left on its link. |
| `Progress.EveryScheduleCompletes` | src/roadcastd.c:668-740 | However the steps of a link are chosen, after finitely many that each had something to do comes a turn that finds nothing to do; if by then no step of the link has anything to do, the session is open and the client live, subscribed and in agreement with the canonical state. |
| `Progress.CatchupCompletes` | src/roadcastd.c:499-503 | Without new samples any sequence of as many completed writes as there are messages left ends the catch-up, whichever writes complete first. |
| `Progress.RoundEnds` | src/roadcastd.c:668-740 | Whatever samples, heartbeats, reads and other connections do in between, a round is over after as many completed writes of its client as it has messages left, and the client then has the whole of the copy the round was taken from. |
| `Progress.AtMostTwoRounds` | src/roadcastd.c:683-739 | One call of the driver begins at most two rounds. |
| `Progress.RequestAdvances` | src/client.c:299-413 | A request taken while a slot is free is answered and brings the client strictly closer to live, so its paging loops end. |
| `Progress.RestIsAgreement` | src/roadcastd.c:727-739 | An open session with nothing in flight, no open request and no pending write has a live, subscribed client that agrees with the canonical state. |
| `Progress.CatchupAdvances` | src/roadcastd.c:488-507 | Each completed write of a resting catch-up either subscribes the client or leaves exactly one message less to send. |
| `Repairs.SecondSubscribeForgets` | src/roadcastd.c:838-842 | A second SUBSCRIBE_ALL in any catch-up state, any part of a round sent and any samples since, begins a new round; as many completed writes as it has messages, in any order and with no sample between, announce the subscription, and the client then agrees with the canonical state if and only if every entry still unsent when the command came differs from the copy again. |
| `Repairs.ForgottenUntilMarked` | src/roadcastd.c:636-740 | Whatever samples, heartbeats and completed writes follow a second SUBSCRIBE_ALL, as long as the session is subscribed its client differs from the canonical state at exactly the entries that were unsent and unchanged then and that no round and no update since has marked. |
| `DoubleSubscribe.NewRoundCovers` | src/roadcastd.c:636-666 | The new round of a second SUBSCRIBE_ALL covers everything the client misses if and only if every unsent entry of the old round is marked again. |
| `WrongReplica.ForgettingIsReal` | src/roadcastd.c:838-842 | For every catalog and start with one output slot, a run of the daemon and the reference client in which one sample comes between snapshot and subscription reaches a state from which SUBSCRIBE_ALL taken twice and one completed write leave a live client that disagrees with the canonical state. |
| `DoubleSubscribe.UnchangedMeansAgreement` | src/roadcastd.c:636-661 | A new round is empty if and only if the copy agrees with the canonical state. |
| `OutputQueue.RoomIsASlot` | src/roadcastd.c:526-533 | Under the queue invariant neither byte limit, the daemon's or libuv's, ever refuses a message that has a slot. |
| `OutputQueue.SendKeepsQueue` | src/roadcastd.c:557-564 | Queueing keeps the byte count equal to the sum over busy slots and takes one slot. |
| `OutputQueue.EmptySlot` | src/roadcastd.c:491-496 | Freeing a slot takes exactly its length off the sum. |
| `OutputQueue.QueueSucceeds` | src/roadcastd.c:517-575 | A message to an active session is refused or dropped exactly when no slot is free. |
| `OutputQueue.DefaultQueueSuffices` | src/roadcastd.c:48-53 | From an empty default queue the update between any two canonical states, however much differs, and then one heartbeat are queued without a drop. |
| `Daemon.ScratchSuffices` | src/roadcastd.c:1187-1224 | The chunk lists the two loops build for the change between any two canonical states are no longer than the scratch arrays. |
| `Daemon.FrameChunkCount` | src/roadcastd.c:1192-1205 | The frame loop builds as many chunks as the rounding-up macro says for that many entries. |
| `Daemon.SignalChunkCount` | src/roadcastd.c:1209-1224 | The signal loop builds as many chunks as the rounding-up macro says for that many entries. |
| `AnyClient.EveryClient` | src/roadcastd.c:794-868 | In every run of samples, heartbeats, arbitrary requests, write completions and a hang-up, an open session's byte count is exact, a command is accepted if and only if it is in order and (but for SUBSCRIBE_ALL) a slot is free, a refused one sends nothing, a completed write never ends the session, and an unfinished catch-up or an owed resync has a write in flight. |
| `AnyClient.NextKeepsInv` | src/roadcastd.c:474-868 | Whatever the client asks for and whenever, every event keeps the queue exact, the frozen copy and the round in the catalog's shape, catch-up only on a full queue, and an owed resync only on a queue that is not empty. |
| `Types.MessageSizes` | src/roadcastd.c:40-47 | The record counts per message are the ones the macros compute. |
| `OutputQueue.CommandsInOrder` | src/roadcastd.c:794-868 | Whoever the client is, a command is accepted if and only if it is in order (one greeting first, consecutive pages, frames before signals, a subscription after a whole snapshot and no pending resync) and, except for SUBSCRIBE_ALL, a slot is free; a refused command sends nothing. |
| `OutputQueue.DriveNeverFails` | src/roadcastd.c:668-740 | Whatever the client did before, the catch-up driver never fails for lack of room and keeps the queue invariant. |
| `OutputQueue.FrameChunksRoundUp` | src/roadcastd.c:48-49 | The rounding-up macro for frames counts the turns of the chunking loop. |
| `OutputQueue.SignalChunksRoundUp` | src/roadcastd.c:50-51 | The rounding-up macro for signals counts the turns of the chunking loop. |
| `OnTheWire.RunFits` | src/roadcastd.c:517-575 | As long as no counter or clock wraps, every message of every stream of a run fits its fields and a slot. |
| `OnTheWire.NoValueWraps` | src/protocol.c:209-356 | In every such state each frame and signal of the canonical state fits its wire record: the shape comes from the catalog, the raw value is below 2 to the signal's width, and all stamps are no later than the sample. |
| `OnTheWire.BytesAreRead` | src/client.c:276-297 | The head of a stream decodes, from its bytes and with the client's capacity at that point, to itself. |
| `OnTheWire.AcceptedHasRoom` | src/client.c:415-427 | Every message the client accepts is within the record capacity and the buffer it has at that point. |
| `Canonical.AbsorbKeepsInv` | src/roadcastd.c:1092-1174 | A distribution keeps: signals refine full decoding, physical converts raw, raw is within the signal's width, stamps are ordered, samples are accounted for. |
| `Canonical.NextSignalRefines` | src/roadcastd.c:1126-1149 | The incremental pass gives each signal the state, and for available frames the raw value, of full decoding. |
| `Canonical.ChangedSignalHasChangedFrame` | src/roadcastd.c:1151-1161 | A signal is reported changed only if its own frame is reported changed. |
| `Canonical.AbsorbStamps` | src/roadcastd.c:1056-1090 | A distribution keeps first observations, and moves a last change only forward and only with raw or state. |
| `FlagRule.FlagRuleIsExact` | scripts/generate-catalog.py:114-128 | For a well-formed layout, the incremental decoder gives full decoding's states and values after every start and every sequence of turns of the sampler, seen or coalesced, if and only if every invalid flag lives in its signal's own frame. |
| `FlagRule.FlagElsewhereGoesStale` | src/roadcastd.c:1138-1147 | For a flag in another frame, three batches that a connected source may read, taken through the sampler from its start, leave the signal INVALID in the canonical state where full decoding of the same state says VALID. |
| `Canonical.StartUpInv` | src/roadcastd.c:1521-1532 | The start-up state satisfies the invariant of the canonical state. |
| `Canonical.DecodeSignals` | src/catalog.c:49-70 | The two in-place passes compute full decoding. |
| `Canonical.ReconcileSignalTimestamps` | src/roadcastd.c:1056-1090 | The in-place loop reconciles every signal with its canonical predecessor. |
| `Canonical.MarkedMember` | src/roadcastd.c:1104-1111 | An index is in a scan's result if and only if its flag is set. |
| `Bits.DecodeSignalRaw` | src/catalog.c:20-29 | The accumulation loop on a 64-bit word computes the unbounded value, which is below 2 to the width. |
| `Bits.RawIsNamedBits` | src/catalog.c:6-29 | Raw is the number whose binary digits, most significant first, are the bits the parts name. |
| `Bits.RawDependsOnNamedBits` | src/catalog.c:11-29 | Frames that agree on the named bits have the same raw value. |
| `Bits.RawBound` | src/catalog.c:20-29 | Raw is below 2 to the total of the part widths. |
| `Bits.ExtractUndoesInject` | scripts/generate-catalog.py:95-109 | Writing a value into non-overlapping parts and reading it back gives the value. |
| `Bits.InjectUndoesExtract` | src/catalog.c:20-29 | Writing back the value read changes nothing. |
| `Bits.SignedReadingIsTwosComplement` | src/catalog.c:31-47 | The signed reading is the only integer in the two's complement range of the width that is congruent to raw, for every width from 1 to 64. |
| `Sampler.MergeSampledFrames` | src/roadcastd.c:293-321 | The in-place merge gives every frame its merged value. |
| `Sampler.TickKeepsInv` | src/roadcastd.c:346-375 | Every turn keeps each working frame equal to what the batches since the baseline mean, and never mixes connections. |
| `Sampler.ReconnectionRebaselines` | src/roadcastd.c:357-364 | The first successful read after a reconnection starts a new baseline; nothing counts as observed. |
| `Sampler.WithinGeneration` | src/roadcastd.c:293-321 | Between baselines the first stamp is written once, stamps move only with the bytes, and an available frame is VALID exactly when it has a first stamp. |
| `Sampler.OutageKeepsHistory` | src/roadcastd.c:293-321 | After a read that failed or was not due, every published frame is unavailable and keeps the bytes and stamps it had, and the baseline stays. |
| `Sampler.StartInv` | src/roadcastd.c:384-429 | The first read, successful or not, is a baseline. |
| `Sampler.SamplerThread.TickOnce` | src/roadcastd.c:346-375 | One turn of the thread: read, merge in place, publish, as the specification says. |
| `Sampler.SamplerThread.constructor` | src/roadcastd.c:400-428 | Initialization publishes the first batch as sequence 0. |
| `Source.BackoffLaw` | src/source_session.c:20-30 | After k failures since the last successful read the retry delay is 250 ms times 2 to the k up to k = 6, and 30 s after; opening alone never resets it. |
| `Source.AttemptsAreSpaced` | src/source_session.c:42-68 | In every outage, from any state the session can be in, connected or waiting, the n-th attempt to open comes no earlier than the first n - 1 delays after the outage began. |
| `Source.AttemptsAreBounded` | src/source_session.c:42-68 | After any history, a stretch of time T without a successful read makes at most 8 + T / 30 s attempts to open. |
| `Source.SourceSession.ReadFrames` | src/source_session.c:42-68 | The session's in-place read gives the specified state, outcome and frames. |
| `Source.SourceSession.MarkUnavailable` | src/source_session.c:12-18 | Every frame becomes its identifier, unavailable and zeroed. |
| `Source.SourceSession.Retry` | src/source_session.c:20-30 | Scheduling a retry doubles the delay up to its limit. |
| `Stream.FragmentationIndependent` | src/roadcastd.c:870-921 | Any way of cutting the same bytes into reads gives the same commands, verdict and remaining bytes. |
| `Stream.SameBytesSameVerdict` | src/roadcastd.c:870-921 | Two fragmentations of the same bytes are treated alike. |
| `Stream.BufferNeverFull` | src/roadcastd.c:887-893 | After an accepted run the buffer is never full, so the final rejection is never taken. |
| `Stream.TakeMessages` | src/roadcastd.c:870-886 | The loop takes exactly the complete messages and says how many bytes they had. |
| `Stream.InputBuffer.ProcessClientInput` | src/roadcastd.c:870-893 | The in-place run leaves exactly the unconsumed bytes at the front of the buffer and always leaves room. |
| `Stream.InputBuffer.Drop` | src/roadcastd.c:888-892 | Moving the rest to the front keeps it byte for byte. |
| `Stream.InputBuffer.OnClientRead` | src/roadcastd.c:909-921 | Bytes read behind those that wait have the effect of one run over all of them, and an accepted run leaves exactly the rest and room for more. |
| `Commands.RequestsSurviveFragmentation` | src/roadcastd.c:794-921 | However the bytes of any requests are cut, the daemon serves exactly those requests in order and closes at exactly the one it refuses. |
| `Commands.ReadsServeWhatTheyComplete` | src/roadcastd.c:794-921 | However the bytes of any requests are cut into reads, and however canonical state and session change from one read to the next, each request is served, in order and from the state then, by the read that completes it, and the session is closed at exactly the one that is refused. |
| `Stream.ReadsAreServed` | src/roadcastd.c:870-921 | The same for any kind of message and handler: reads between which the state changes take exactly the messages they complete, and keep the rest waiting. |
| `Commands.RequestRoundTrip` | src/client.c:217-246 | What the daemon parses from a request's header and payload is the request. |
| `Wire.HeaderRoundTrip` | src/protocol.c:50-74 | Decoding an encoded header gives it back. |
| `Wire.HeaderIsCanonical` | src/protocol.c:61-74 | An accepted header is the encoding of what it decodes to. |
| `Wire.FrameBatchRoundTrip` | src/protocol.c:209-280 | Decoding undoes encoding for every frame batch that fits, exactly when the receiver has room. |
| `Wire.SignalBatchRoundTrip` | src/protocol.c:282-356 | Decoding undoes encoding for every signal batch that fits, exactly when the receiver has room. |
| `Wire.FrameBatchIsCanonical` | src/protocol.c:243-280 | Every accepted frame payload fits and is the encoding of what it decodes to. |
| `Wire.SignalBatchIsCanonical` | src/protocol.c:317-356 | Every accepted signal payload fits and is the encoding of what it decodes to. |
| `Wire.BeatRoundTrip` | src/protocol.c:358-391 | Decoding undoes encoding for every heartbeat that fits. |
| `Wire.BeatIsCanonical` | src/protocol.c:373-391 | Every accepted heartbeat is the encoding of what it decodes to. |
| `Wire.GreetingRoundTrip` | src/protocol.c:94-128 | Decoding undoes encoding for every WELCOME payload that fits. |
| `Protocol.MessageRoundTrip` | src/client.c:276-297 | What the client reads from a message's bytes is the message, and the bytes are as many as the output queue counted. |
| `Schema.PageRoundTrip` | src/protocol.c:144-207 | Decoding a schema page gives back exactly its variable-length entries. |
| `Schema.PageSize` | src/catalog.c:97-150 | A page of a well-formed catalog holds at least one entry and fits a message. |
| `Schema.PageDecodes` | src/client.c:308-325 | The page for an index decodes, into the room the client has left, to the catalog's next entries. |
| `Schema.EntriesConcat` | src/client.c:299-329 | Consecutive pages are consecutive stretches of the catalog. |
| `Encoder.Put` | src/protocol.c:5-20 | The in-place store writes the big-endian bytes and nothing after them. |
| `Encoder.EncodeFrameBatch` | src/protocol.c:209-241 | The in-place encoder writes exactly the batch of the frames at the given indices, and refuses exactly when it does not fit. |
| `Encoder.EncodeSignalBatch` | src/protocol.c:282-315 | The in-place encoder writes exactly the batch of the signals at the given indices, and refuses exactly when it does not fit. |
| `Encoder.DecodeFrames` | src/protocol.c:243-280 | The in-place decoder accepts exactly the decodable payloads and fills the output with their frames. |
| `Encoder.DecodeSignals` | src/protocol.c:317-356 | The in-place decoder accepts exactly the decodable payloads and fills the output with their updates. |
| `Encoder.EncodeSchemaChunk` | src/catalog.c:97-150 | The in-place encoder, which patches the count in afterwards, writes exactly the page of the entries that fit. |
| `Client.Connection.constructor` | src/roadcastd.c:1010-1034 | An accepted connection starts from the cleared state. |
| `Client.Connection.FindOutputSlot` | src/roadcastd.c:509-515 | The loop finds the first free slot, or none. |
| `Client.Connection.QueueMessage` | src/roadcastd.c:517-575 | Queueing, dropping and refusing as specified, with any answer libuv may give about its queue. |
| `Client.Connection.HasOutputCapacity` | src/roadcastd.c:626-634 | The capacity test as specified. |
| `Client.Connection.MaybeQueueResync` | src/roadcastd.c:474-486 | The owed resync is queued exactly when due. |
| `Client.Connection.TakeSnapshot` | src/roadcastd.c:577-594 | The frozen copy and the cleared flags. |
| `Client.Connection.QueueFrameSnapshotChunk` | src/roadcastd.c:596-624 | One page of frames, or a refusal, as specified. |
| `Client.Connection.QueueSignalSnapshotChunk` | src/roadcastd.c:760-792 | One page of signals, or a refusal, as specified. |
| `Client.Connection.BeginCatchupRound` | src/roadcastd.c:636-666 | The two scans record exactly the differing indices, in order, and the copy is renewed. |
| `Client.Connection.DriveSubscriptionCatchup` | src/roadcastd.c:668-740 | The driver's loop computes the specified outcome and terminates. |
| `Client.Connection.QueueSubscriptionCatchup` | src/roadcastd.c:742-746 | SUBSCRIBE_ALL begins a round and drives it. |
| `Client.Connection.QueueSchemaChunk` | src/roadcastd.c:748-758 | One schema page, or a refusal, as specified. |
| `Client.Connection.ProcessCommand` | src/roadcastd.c:794-868 | Every command has the specified outcome. |
| `Client.Connection.OnWrite` | src/roadcastd.c:488-507 | A write completion, failed or not, has the specified effect. |
| `Client.Connection.SendUpdates` | src/roadcastd.c:1226-1258 | Prepared chunks are sent in order until the first that does not fit. |
| `Client.Connection.SendHeartbeat` | src/roadcastd.c:1292-1306 | A heartbeat is sent to subscribers only, and may be dropped. |
| `Daemon.UpdatesAreBroadcast` | src/roadcastd.c:1187-1258 | Encoding each chunk once and sending the same chunks to every subscriber is sending each client its own batches. |
| `Daemon.EncodeFrameChunks` | src/roadcastd.c:1187-1205 | The loop cuts the changed frames into the chunks of the broadcast. |
| `Daemon.EncodeSignalChunks` | src/roadcastd.c:1207-1224 | The loop cuts the changed signals into the chunks of the broadcast. |
| `Daemon.ScanFrames` | src/roadcastd.c:1101-1111 | The scan sets exactly the flags of differing frames and lists them in order. |
| `Daemon.ScanSignals` | src/roadcastd.c:1151-1161 | The scan lists exactly the signals whose raw value, state or stamps differ. |
| `Daemon.DecodeChanged` | src/roadcastd.c:1126-1136 | The in-place pass decodes again exactly the signals of changed frames. |
| `Daemon.FlagChanged` | src/roadcastd.c:1138-1147 | The in-place pass applies the invalid flags of changed frames. |
| `Daemon.Daemon.constructor` | src/roadcastd.c:1521-1532 | Start-up decodes the first sample in full and stamps it. |
| `Daemon.Daemon.AbsorbSample` | src/roadcastd.c:1092-1174 | The canonical state moves as specified and the scans' results are returned. |
| `Daemon.Daemon.DistributeLatestSample` | src/roadcastd.c:1092-1259 | The canonical state absorbs the sample and every client gets exactly its share, independently of the others. |
| `Daemon.Daemon.HasSubscriber` | src/roadcastd.c:1176-1185 | The loop finds whether any client listens. |
| `Daemon.Daemon.OnHeartbeat` | src/roadcastd.c:1277-1307 | Every subscriber gets its heartbeat, independently of the others. |
| `Cache.ClientCache.ApplyFrames` | src/client.c:429-446 | The in-place application succeeds exactly when every identifier is known, and then has the specified effect; a refused batch leaves the frames before its first unknown identifier applied and the sequences and time as they were. |
| `Cache.ClientCache.ApplySignals` | src/client.c:473-488 | The in-place application succeeds exactly when every index is known, and then has the specified effect; a refused batch leaves the signals before its first unknown index applied and the sequences and time as they were. |
| `Cache.ClientCache.IndexFrames` | src/client.c:367-371 | The loop fills the identifier index as specified. |
| `Cache.ClientCache.Commit` | src/client.c:560-579 | Committing copies the synchronized state and rebuilds the index from nothing. |
| `Cache.ClientCache.Read` | src/client.c:939-954 | A read finds a frame exactly when the index has it, and then that frame. |
| `Cache.GapCounter.Observe` | src/roadcastctl.c:393-400 | The gap counter stays exactly when the sequence repeats, follows its predecessor or is the first. |

## Left out

- libuv handles, sockets, `poll` and deadline loops, signal handling, `main` and option parsing.
- Peer credentials and the per-user admission count; a connection is accepted or not by a label.
- Hello and setup deadlines: a session closed by a deadline is a disconnection, which may happen at any time.
- An immediate failure of `uv_write`: it ends the session, which the runs cover as a disconnection.
- The client library's deadlines and its status, age and schema look-up calls.
- The vehicle process: locating it, reading its memory and the fallback path are an arbitrary visit result.
- The fake source used for demonstrations.
- The concrete catalog entries, stable identifiers and the schema hash function.
- IEEE rounding in the physical conversion.
- Atomicity across the chunks of one change for client readers, which is not promised.
- Statistics, logging, the counters a client shows from heartbeats and the effective rate computed for heartbeats (the rate is a label's value).
- Counter wrap-around: counters are unbounded, and the results about bytes require that they fit.
- Progress while samples keep arriving: `EveryScheduleCompletes` is about the steps of a link between two samples; under a never-ending stream of changes a slow reader may be resynchronized again and again.
