# The durable terminal stream, modelled and proved

This project models how a session's terminal output travels from its PTY to a
client, and how it survives slow clients, takeovers, failed allocations and
daemon restarts; with it, the session holder's registry, the relay between
clients and nodes, and the codecs and stores these parts lean on. It proves what
each part promises, over every input and every run, and where a promise does not
hold it says exactly when it does and gives the run that breaks it.

`dafny verify dfyconfig.toml` checks all of it.

## How it is laid out

| module | models | central definitions |
|---|---|---|
| `RingHistory`, `RingBuffer` | `crates/asmux/src/ring.rs` | a ring as a history and how much of its end is kept; the circular array that implements it |
| `WakeSignal` | the one-permit data signal of a session | a permit, waiters, and waiters picked but not yet run |
| `StreamProtocol` | `stream_session`, `handle_attach`, `handle_detach` and the teardown of `crates/asmux/src/server.rs`; `reader_loop`, `attach`, `detach` of `crates/asmux/src/session.rs` | `Step`: one lock, one poll or one send of one actor |
| `StreamDelivery`, `StreamReports`, `StreamAttach`, `StreamDetach`, `StreamSlot`, `StreamTakeover`, `StreamWake`, `StreamHandover`, `StreamDrain` | the same | what is delivered; which drops are reported; what an attach and a detach come to; who holds the session; what takeovers can do; who is woken, when a takeover may start its stream, and how a dead session drains |
| `StreamLoops` | the same | the stream task, the reader thread and the handlers as loops and field updates, each proved to be a run of those steps |
| `EventStore`, `ColdLog`, `ColdStitch`, `ColdOrder`, `ColdWhole`, `ColdExcess`, `ColdResync`, `ColdExit` | the event writer of `crates/daemon/src/db.rs`; `adopt`, the drain loop and the resync of `crates/daemon/src/backend/sidecar.rs`; the reconnect of `crates/daemon/src/backend/asmux_client.rs` | `ApplyAll`: messages folded one at a time; `PersistAll`: one session's events; `Step`: pushes, frames, notices, attach requests, reconnects, exits, batches, crashes, adoptions |
| `HolderRegistry` | `crates/asmux/src/registry.rs` | `Books`, the locked state; `Evicted` |
| `InputQueue` | `send_input`, `writer_loop` of `crates/asmux/src/session.rs` | `Step`: the shared byte counter between its accesses |
| `RelayRegistry`, `StreamPairing`, `QueryRewrite` | `crates/asm-relay/src/server.rs` | control loops interleaved; pending entries and dial-backs; the forwarded target |
| `ByteTransport` | `crates/asm-relay/src/transport.rs` | `Read`: one poll of the socket as a byte stream |
| `FrameCodec` | `crates/asmux/src/frame.rs` | `Encode`, `DecodeOne` |
| `StateClock` | the state clock and the conversation ids of `crates/daemon/src/db.rs` | `Apply`: one write to a row |
| `StartupConfig` | `crates/daemon/src/startup_config.rs` | `Parse`, `Render`, the `Store` |
| `Base`, `Text` | | options, saturating arithmetic, concatenation; splitting and trimming |

A class is proved against functions on values (`Ring` against `RingHistory`,
`EventWriter` against `ApplyAll`, the holder's `Registry` against `AfterCreate` and
`Evicted`, and so on), and the theorems are about those functions. The streaming
protocol, the input queue, the control loops, the pairing and the restarts
interleave, so they are transition systems whose theorems hold of every run; the
loops and handlers whose steps these are stand in `StreamLoops`.

## Where the code and its documentation part

The model follows the code.

- A push evicts before it reserves memory. A refused push therefore discards old
  output although it adds none, and the documented tail, `head - min(head, cap)`,
  is met only while no push that needed room has been refused
  (`RingHistory.RefusedPushKeepsFullIff`, `RingHistory.RefusedPushLosesOlderBytes`).
- A takeover is not one step. Between taking the slot and cancelling the stream
  it took it from, the handler waits to tell the old connection; a third
  connection can attach meanwhile, and two streams run
  (`StreamTakeover.TwoStreamsDuringATakeover`).
- A connection that attaches a session while its own earlier stream of it still
  runs loses the slot to that stream's exit: the new stream then runs with
  nothing in the slot, so input is refused and the next takeover does not stop it
  (`StreamTakeover.ReattachEmptiesTheSlot`). The daemon's own resync after a
  backpressure eviction attaches on the connection whose stream is just leaving.
- The data signal stores one permit for all streams of a session. A stream being
  taken over can consume it after looking at its cancel handle, and the new
  stream then waits behind the head (`StreamTakeover.TakeoverCanLoseAWakeup`). It
  cannot if the new stream is started only once no other can take a notification
  (`StreamWake.NoLostWakeup`), and at a moment when nothing is being signalled it
  can whenever another one still can (`StreamHandover.StartIsSafeIff`). The code
  does not wait for that.
- The holder's writer prefers an exit notice to output, and the drain loop stops at
  the notice: output that it overtook is never stored (`ColdExit.NoticeOvertakesOutput`,
  and exactly what is stored in `ColdExit.ExitStoresWhatArrived`).
- An attach of the daemon can start a stream behind output that has been queued or
  is on its way already, and the frames that follow are then numbered and stored
  again. A backpressure notice handled after the connection was replaced does that
  (`ColdResync.StaleNoticeRepeatsOutput`), and so does a gap's earliest cursor set
  on the route only after output past it has arrived, if the connection is then
  replaced (`ColdResync.SettingBackRepeatsOutput`). Which attaches keep the stored
  history right is exact (`ColdResync.AttachIsSafeIff`).
- A stream is meant to tell its client of every drop while it watches. One between
  its last look and the exit it does not tell of (`StreamReports.LateDropIsNotReported`;
  exactly which in `StreamDrain.DeadStreamDeliversTheRest`).
- An attach reads the head and then the tail. A replay from the earliest byte can
  start past the head its reply reports (`StreamDelivery.EarliestMayOvertakeReportedHead`).
- A failed batch of events is logged and skipped. It does no harm if the daemon
  stops before it commits another, because the cursor has not moved; otherwise its
  output is lost for good (`ColdWhole.FailedBatchThenCrash`,
  `ColdWhole.FailedBatchThenCommit`, `ColdWhole.LostForGood`).
- `read_frame` documents a clean end of stream as one between frames. One to
  three bytes of a length field and then the end read the same
  (`FrameCodec.TruncatedStreamDecodes`).
- A transport read into an empty buffer can consume a close frame unseen
  (`ByteTransport.EmptyBufferHidesAClose`).
- Two senders that both load the input counter before either adds to it can queue
  twice the limit (`InputQueue.TwoSendersCanExceed`).
- Registrations are fenced by who joined last, which need not be who drew the
  newest generation (`RelayRegistry.OlderGenerationCanWin`). A proxied request
  dropped while it waits leaves its pending entry behind
  (`StreamPairing.AbandonedEntriesStay`).
- A status written after a view that cleared a badge restarts the state clock,
  although viewing is meant to leave it alone (`StateClock.StatusAfterViewIff`).
- Saving the startup configuration writes values taken over from the environment
  as they stand, and reading trims them, so a save that patches nothing can change
  a value (`StartupConfig.SaveShowsPatchOverPriorIff`). A save whose last read
  fails reports an error although the file has been replaced
  (`StartupConfig.Store.Save`).
- With the largest 64-bit memory limit the admission check's saturating sum
  admits everything, and from the 2^39th ring of the largest size on more is held
  than is accounted (`HolderRegistry.UnlimitedRegistryOverflows`).

## Model

| member | source | states |
|---|---|---|
| `RingBuffer.CopyRange` | crates/asmux/src/ring.rs:135-157 | the two-segment copy is a slice of the segments put together; asked for more than there is, it stops at the end of the first segment |
| `RingBuffer.Ring.constructor` | crates/asmux/src/ring.rs:47-53 | an empty ring of the given capacity |
| `RingBuffer.Ring.Tail` | crates/asmux/src/ring.rs:65-67 | the oldest cursor still held |
| `RingBuffer.Ring.DropFront` | crates/asmux/src/ring.rs:128-132 | exactly the oldest `n` bytes, or all, leave the circular store |
| `RingBuffer.Ring.TryReserve` | crates/asmux/src/ring.rs:92-94 | room for `n` more bytes or a refusal; what is held survives the move to a bigger store either way |
| `RingBuffer.Ring.Extend` | crates/asmux/src/ring.rs:95 | the data is appended to what is held, wrapping round the store |
| `RingBuffer.Ring.MakeRoom` | crates/asmux/src/ring.rs:85-90 | the oldest bytes go until `keep` more fit the capacity, and no more than those |
| `RingBuffer.Ring.Push` | crates/asmux/src/ring.rs:72-100 | the circular buffer goes from one state of `RingHistory` to the next, stored or refused, and keeps holding exactly the last bytes of the history |
| `RingBuffer.Ring.ReadAt` | crates/asmux/src/ring.rs:104-124 | a read is the slice of the whole history from the cursor, a gap or invalid, exactly by where the cursor lies; 0 is no bound |
| `RingHistory.ApplyKeepsValid` | crates/asmux/src/ring.rs:72-100 | no push exceeds the capacity, rewrites history or moves the tail back |
| `RingHistory.PushMovesTail` | crates/asmux/src/ring.rs:72-100 | a stored push moves the tail to where its bytes and what was held fit the capacity, a refused one to where they would have, and neither further |
| `RingHistory.ReadAtMeans` | crates/asmux/src/ring.rs:104-124 | a covered cursor is read from there to the bound or the head, an older one told of the oldest byte held, one past the head invalid |
| `RingHistory.RunInvariant` | crates/asmux/src/ring.rs:72-100 | after any pushes, refused ones included, the history is what was stored, in order; head and tail never go back |
| `RingHistory.LaterReadsAgree` | crates/asmux/src/ring.rs:104-124 | a cursor means the same byte for ever: reads of it at any two times agree, or the later one is told of a gap |
| `RingHistory.UnrefusedRunsStayFull` | crates/asmux/src/ring.rs:62-67 | without refusals the ring holds the last `min(head, cap)` bytes |
| `RingHistory.RefusedPushKeepsFullIff` | crates/asmux/src/ring.rs:84-94 | a refused push leaves that true exactly if it had no need to evict |
| `RingHistory.RefusedPushLosesOlderBytes` | crates/asmux/src/ring.rs:84-94 | a run on which the documented tail is not met |
| `WakeSignal.NotifyOneIs` | crates/asmux/src/session.rs:298-303 | a notification is stored or given to a waiter, and is pending afterwards |
| `WakeSignal.AbandonIs` | crates/asmux/src/server.rs:839-843 | dropping a waiter that was picked passes its notification on: none is lost |
| `WakeSignal.PollIs` | crates/asmux/src/server.rs:839-843 | a poll completes or leaves the waiter registered, and one that does not complete takes no notification |
| `StreamDelivery.ReaderEvolves` | crates/asmux/src/session.rs:536-572 | the reader thread only appends output, and none after it records the exit |
| `StreamDelivery.StepKeepsInv` | crates/asmux/src/server.rs:761-857 | each step of any actor keeps every stream's cursor, frames and notices true of the history |
| `StreamDelivery.DeliversExactly` | crates/asmux/src/server.rs:769-823 | on every interleaving of pushes, refused pushes, exit, attaches and reads, what a stream has enqueued is contiguous and is exactly the history from its start to its delivered end |
| `StreamDelivery.InvalidIsUnreachable` | crates/asmux/src/server.rs:793-794 | an attached stream's cursor is never past the head |
| `StreamDelivery.NoticesAreTrue` | crates/asmux/src/server.rs:795-837 | a backpressure eviction names exactly the delivered end; an exit is announced only to a live attach that has been sent every byte there will ever be |
| `StreamDelivery.HeadIsFinalAfterExit` | crates/asmux/src/session.rs:562-571 | once the exit is recorded no continuation accepts a byte |
| `StreamDelivery.AttachDecision` | crates/asmux/src/server.rs:642-658 | with any pushes between reading head and tail: a cursor start is the one asked for and within both; gap and invalid exactly by where it lies; only a start at the earliest byte can pass the reported head, and exactly when the tail overtook it |
| `StreamDelivery.EarliestMayOvertakeReportedHead` | crates/asmux/src/server.rs:642-646 | it can |
| `StreamReports.DropsAreReported` | crates/asmux/src/server.rs:771-791 | on every run, from the step a stream begins with: its client has been told of a drop exactly if the stream has seen the counter above what it was then, at least once and at most once for each drop since |
| `StreamReports.DropsAreCounted` | crates/asmux/src/session.rs:313-330 | on every run the counter is the number of chunks refused, less the one about to be counted |
| `StreamReports.LateDropIsNotReported` | crates/asmux/src/server.rs:823-838 | a run on which a stream ends with all output delivered and a drop untold |
| `StreamAttach.AttachIsAnsweredAsDecided` | crates/asmux/src/server.rs:621-698 | on every run, whoever acts between its steps, an attach is answered by the decision on a head of the session and a tail not older, and a start by a new stream of the connection that begins exactly there |
| `StreamAttach.LiveSessionsAttachLive` | crates/asmux/src/server.rs:683 | while the session lives every stream was attached live, so that it will announce the exit |
| `StreamAttach.LateStreamsAreNotLive` | crates/asmux/src/server.rs:683 | once it has exited, no stream whose handler had not asked by then is |
| `StreamDetach.DetachStopsTheStream` | crates/asmux/src/server.rs:700-724 | on every courteous run, whoever acts meanwhile: when a detach that found its connection attached is over, no stream of that connection goes on, its entry is gone and the slot is not its own |
| `StreamDetach.DetachOfAnotherChangesNothing` | crates/asmux/src/server.rs:700-716 | one that did not is over at once and changes nothing |
| `StreamDetach.ClosedConnectionsHaveNoStream` | crates/asmux/src/server.rs:188-195 | on every courteous run a closed connection has no stream that goes on and no entry, and the slot only for a last stream just leaving |
| `StreamDetach.ClosingIsFinal` | crates/asmux/src/server.rs:188-195 | a connection that closes asks for nothing more |
| `StreamDetach.NoStaleEntries` | crates/asmux/src/server.rs:848-857 | on every run each entry names a stream of its own connection that has not given it up, or one about to start |
| `StreamDetach.NoStaleSlot` | crates/asmux/src/server.rs:848-857 | on every run the slot names a connection with no entry only while that is being taken or given up |
| `StreamDetach.OnlyOwnersDropEntries` | crates/asmux/src/server.rs:848-857 | an entry goes only with the exit of the very stream it names, or by its own connection, which cancels that stream |
| `StreamDetach.DisconnectedStreamStops` | crates/asmux/src/server.rs:815-819 | a stream whose client is gone sends nothing more and is done within two steps of its own |
| `StreamSlot.StepKeepsInv` | crates/asmux/src/server.rs:660-723 | every step of a courteous run keeps: each uncancelled stream is named by the slot or owed a cancellation, and by its connection's own entry |
| `StreamSlot.SingleAttacher` | crates/asmux/src/session.rs:281-296 | on every run in which no connection re-attaches over a running stream of its own, the slot names every uncancelled stream, and so there is at most one, if and only if no takeover is half done |
| `StreamSlot.ExtraStreamsAreOwed` | crates/asmux/src/server.rs:660-680 | while a takeover is half done, of any two streams one is owed its cancellation |
| `StreamSlot.OnlyAnAttachTakesTheSlot` | crates/asmux/src/session.rs:285-292 | no exit, detach or teardown of another connection changes the slot; only an attach does |
| `StreamTakeover.CancelledStreamStops` | crates/asmux/src/server.rs:811-842 | on every continuation a cancelled stream makes at most nine moves of its own, is done after the ninth, and enqueues no output but a frame it was already offering |
| `StreamTakeover.DriveToDone` | crates/asmux/src/server.rs:848-857 | a stream on its way out can always finish, and its detach empties the slot if its connection holds it |
| `StreamTakeover.ReattachEmptiesTheSlot` | crates/asmux/src/server.rs:848-857 | from every state of a courteous run, a re-attach over a running stream of the same connection can end with the new stream running and the slot empty: the condition of `SingleAttacher` is needed wherever it fails |
| `StreamTakeover.TwoAttachesOfOneConnection` | crates/asmux/src/server.rs:679-681 | a reachable such state |
| `StreamTakeover.TwoStreamsDuringATakeover` | crates/asmux/src/server.rs:667-678 | two uncancelled streams of different connections, on a courteous run |
| `StreamTakeover.TakeoverCanLoseAWakeup` | crates/asmux/src/server.rs:839-843 | a parked, uncancelled stream behind the head with no notification anywhere, on a courteous run of two attaches |
| `StreamWake.StepKeepsOneTaker` | crates/asmux/src/server.rs:775-842 | on a handover run each step keeps: at most one stream can take a notification, and if that one is behind, a notification is coming that it will get |
| `StreamWake.NoLostWakeup` | crates/asmux/src/session.rs:298-303 | on every run in which a stream is started only when no other can take a notification, takeovers of live streams included: a parked stream with unread output, an unreported drop or a dead session has been picked, or the reader is about to signal, or a cancelled stream has been picked that next passes the notification on |
| `StreamWake.CancelledPassOn` | crates/asmux/src/server.rs:839-843 | cancelled streams that were picked pass their notifications on in at most two steps of their own each, whatever the queue, and change nothing else |
| `StreamWake.ParkedIsWoken` | crates/asmux/src/server.rs:839-843 | after those steps a parked stream that is behind has been picked itself, or the reader is about to signal |
| `StreamHandover.StartedBesideATakerIsLost` | crates/asmux/src/server.rs:679-698 | from every state of every run with nothing being signalled: a stream started while another can take a notification can be left parked and behind with no notification anywhere, by steps of the reader and of streams alone |
| `StreamHandover.HandedOverIsNeverLost` | crates/asmux/src/server.rs:679-698 | started when no other can, neither it nor any other is, by whatever such steps |
| `StreamHandover.StartIsSafeIff` | crates/asmux/src/server.rs:679-698 | so after a handover run the start is safe from lost wakeups if and only if no other stream can take a notification |
| `StreamDrain.DeadMoveProgress` | crates/asmux/src/server.rs:822-842 | on a dead session every move of a stream brings it nearer its end |
| `StreamDrain.DeadStreamDrains` | crates/asmux/src/server.rs:769-857 | a stream of a dead session whose sends are accepted, once cancelled streams have passed their notifications on, finishes by its own moves without ever waiting, complete or evicted at exactly what it delivered |
| `StreamDrain.DeadStreamDeliversTheRest` | crates/asmux/src/server.rs:822-837 | if the ring covers its cursor the client gets all the history from its start and, if attached live, the exit; and has been told of every drop if and only if it had been, or the stream still comes to the top of its loop |
| `StreamDrain.DeadSessionsAreDelivered` | crates/asmux/src/server.rs:769-857 | on every handover run, once the reader thread has finished: such a stream needs no step but its own and those of cancelled streams to deliver all of the history, to tell of the drops just said, and to finish |
| `StreamLoops.TaskActionIsMove` | crates/asmux/src/server.rs:774-846 | a stream's step in any run depends on what it finds at that one access, so the loop below is what runs there |
| `StreamLoops.StreamTask.ReportDrops` | crates/asmux/src/server.rs:778-791 | a counter that has changed since the last look is reported with a notice and remembered, one that has not is passed over |
| `StreamLoops.StreamTask.ReadOutput` | crates/asmux/src/server.rs:792-822 | the three outcomes of a read lead to a send, out of the loop, or to the caught-up branch |
| `StreamLoops.StreamTask.SendFrame` | crates/asmux/src/server.rs:813-820 | the biased select ends cancelled, disconnected or with exactly the pending frame enqueued |
| `StreamLoops.StreamTask.CaughtUp` | crates/asmux/src/server.rs:823-838 | the stream leaves exactly if it finds the session dead and then nothing past its cursor, with the exit announced if the attach was live; else it goes on to wait |
| `StreamLoops.StreamTask.AtHead` | crates/asmux/src/server.rs:823-838 | the second of those looks |
| `StreamLoops.StreamTask.Park` | crates/asmux/src/server.rs:839-843 | the biased select ends cancelled or woken |
| `StreamLoops.StreamTask.Stream` | crates/asmux/src/server.rs:761-857 | the whole loop, in any surroundings, holds at each point what the small steps hold after as many accesses, and ends done or waiting |
| `StreamLoops.ReaderThread.NoteOutputDropped` | crates/asmux/src/session.rs:313-330 | a drop is counted and then signalled |
| `StreamLoops.ReaderThread.PushChunk` | crates/asmux/src/session.rs:545-551 | a chunk goes into the circular ring whole, or the ring makes room and refuses it, which is the reader's step either way |
| `StreamLoops.ReaderThread.TakeChunk` | crates/asmux/src/session.rs:545-558 | a chunk goes into the circular ring or is counted dropped, and is signalled last |
| `StreamLoops.ReaderThread.ReadUntilExit` | crates/asmux/src/session.rs:536-572 | the thread over the circular ring is a run of the reader's steps that takes exactly the PTY's output, in order, and records the exit after the last push |
| `StreamLoops.Attachments.Detach` | crates/asmux/src/session.rs:285-292 | the slot is emptied exactly if this connection has it |
| `StreamLoops.Attachments.HandleAttach` | crates/asmux/src/server.rs:642-698 | an attach with nobody in between is its handler's steps; an accepted one holds the slot and the entry under a new cancel handle and has cancelled the attacher and the own stream it replaces, a refused one changes nothing |
| `StreamLoops.Attachments.TakeSlot` | crates/asmux/src/server.rs:660-678 | installing the attacher and cancelling the one replaced are two steps |
| `StreamLoops.Attachments.RecordStream` | crates/asmux/src/server.rs:679-697 | entering the new stream cancels the connection's earlier one |
| `StreamLoops.Attachments.HandleDetach` | crates/asmux/src/server.rs:700-724 | refused, with nothing changed, exactly if another connection or none has the slot; else the slot is empty, the connection's entry gone and its stream cancelled, and every other entry stays |
| `StreamLoops.Attachments.Teardown` | crates/asmux/src/server.rs:188-195 | a closing connection's stream is cancelled, its entry gone, and a slot it still has given up |
| `StreamLoops.Attachments.Exit` | crates/asmux/src/server.rs:848-857 | an ending stream drops only its own entry, then its connection's hold on the slot |
| `EventStore.FirstWriteWins` | crates/daemon/src/db.rs:980-996 | after any messages each key holds the first one written for it and nothing was invented |
| `EventStore.CursorIsRunningMax` | crates/daemon/src/db.rs:997-1017 | a session's cursor is the largest persisted for it and never goes back; sessions without a row get none |
| `EventStore.SplitIsInvisible` | crates/daemon/src/db.rs:963-978 | where the queue is split does not show in the tables |
| `EventStore.BatchingIsInvisible` | crates/daemon/src/db.rs:963-978 | any committed batches leave the tables that writing the messages one at a time leaves |
| `EventStore.FailedBatchesAreSkipped` | crates/daemon/src/db.rs:974-976 | a batch that fails costs its own messages and no others, whichever they are |
| `EventStore.TwoPhasesAreOneFold` | crates/daemon/src/db.rs:980-1020 | all inserts and then one update per session are the messages one at a time |
| `EventStore.InsertBatch` | crates/daemon/src/db.rs:982-996 | the insert loop is the fold of insert-or-ignore |
| `EventStore.CollectCursors` | crates/daemon/src/db.rs:1002-1008 | the map built is each session's largest non-zero cursor of the batch |
| `EventStore.RaiseCursors` | crates/daemon/src/db.rs:1009-1017 | the updates, in whatever order the map gives them, raise each known session's cursor to its maximum |
| `EventStore.EventWriter.WriteBatch` | crates/daemon/src/db.rs:980-1020 | a transaction is the batch's messages one at a time, or nothing at all |
| `EventStore.EventWriter.TakeBatch` | crates/daemon/src/db.rs:966-973 | a batch is the first message and what is ready behind it, up to 512 |
| `EventStore.EventWriter.WriterLoop` | crates/daemon/src/db.rs:963-978 | every queued message is in exactly one batch, in order; failed batches are skipped and the others committed |
| `EventStore.LogOfApply` | crates/daemon/src/db.rs:980-1020 | a message changes its own session's log only |
| `EventStore.NewRowExtends` | crates/daemon/src/db.rs:315-328 | a row numbered past every other extends the history read back at its end |
| `EventStore.ReusedNumberIsIgnored` | crates/daemon/src/db.rs:982-1017 | a row for a number that is stored is ignored, while the cursor moves |
| `ColdLog.NumberingIsSafeIff` | crates/daemon/src/backend/sidecar.rs:121-124 | for every stored log, events numbered on from `m` extend the history by exactly their bytes, whatever they are, if and only if `m` is at least the largest number stored: an adoption has to start from the true maximum |
| `ColdLog.ReusedNumbersLoseOutput` | crates/daemon/src/db.rs:616-629 | numbered from anything less, through free numbers and taken ones, they lose output as soon as they reach that number: its row stays as it was and the cursor passes the event |
| `ColdLog.BatchIsPerSession` | crates/daemon/src/db.rs:980-1020 | a batch of any sessions' messages does to one session's log what that session's events do in order |
| `ColdLog.PersistBatch` | crates/daemon/src/db.rs:980-1020 | committing a batch stores exactly its events and loses exactly the holes before and between them |
| `ColdStitch.StoredIsAlwaysOutput` | crates/daemon/src/backend/sidecar.rs:111-177 | on every run whatever, each stored event is a piece of the session's output, the backend cursor is within it, and no adoption, reconnect or resync is refused as invalid |
| `ColdStitch.AdoptedIs` | crates/daemon/src/backend/sidecar.rs:111-177 | an adoption starts from the tables: its stream at the persisted cursor, or the earliest byte asked for after a gap, numbers from the largest stored |
| `ColdStitch.ReconnectedIs` | crates/daemon/src/backend/asmux_client.rs:445-475 | a reconnect leaves nothing on the way, starts at the route's cursor or asks for the earliest byte after a gap, and sends on the requests not yet written |
| `ColdStitch.ColdOutputIsNotQueued` | crates/daemon/src/backend/sidecar.rs:374-388 | output up to where cold history ended is not stored again; later output is queued under the next number |
| `ColdStitch.LapsesAreHeard` | crates/asmux/src/server.rs:794-803 | a replaced stream that finds itself lapped sends a notice, heard like any other |
| `ColdOrder.StepKeepsInv` | crates/daemon/src/backend/sidecar.rs:374-425 | every push, frame, notice, decision, batch, failed batch, exit, crash, adoption and orderly attach keeps the stored log, the queue and the frames in flight, which a resync leaves on their way, true of the output and in order |
| `ColdOrder.StoredIsHistoryLessLost` | crates/daemon/src/backend/sidecar.rs:111-177 | on every run whose attaches are orderly, through crashes, reconnects, gaps and failed batches, the stored events in order are the output up to the backend cursor, each byte once and in place, less exactly the positions counted lost |
| `ColdOrder.CarefulRunsAreOrderly` | crates/daemon/src/backend/sidecar.rs:399-425 | every run on which no resync replaces a stream that has not been evicted, and the route's cursor is never set back behind what has arrived, is orderly: a resync after a genuine eviction repeats nothing, with frames still on the way |
| `ColdResync.AttachIsSafeIff` | crates/daemon/src/backend/asmux_client.rs:445-475 | after an orderly run, whatever follows short of another attach, what is stored is the output up to the backend cursor less what was passed over, if and only if the attach is orderly; likewise no queued event is out of place |
| `ColdExcess.NeverStoresTooLittle` | crates/daemon/src/db.rs:980-1020 | on every run whatever, the stored history is at least as long as the output that survives |
| `ColdExcess.TooMuchIsStored` | crates/daemon/src/db.rs:963-1020 | from every state with an event out of place in the queue, the writer's batches alone make it longer |
| `ColdResync.LandsTooEarly` | crates/asmux/src/server.rs:660-698 | from every such state, a resync whose stream starts before the end of what was handed over can send that part again and have it queued again |
| `ColdResync.StragglesIn` | crates/asmux/src/server.rs:813-820 | served past it while the replaced stream is offering a frame, that frame can get through behind the new stream's first |
| `ColdResync.ReconnectsTooEarly` | crates/daemon/src/backend/asmux_client.rs:445-475 | a reconnect from a cursor behind what has arrived queues that part again |
| `ColdResync.StaleNoticeRepeatsOutput` | crates/daemon/src/backend/sidecar.rs:399-425 | a run with a notice older than its connection: of the output 1, 2 the cold history is 2, 2 |
| `ColdResync.SettingBackRepeatsOutput` | crates/daemon/src/backend/sidecar.rs:142-165 | a run with a gap whose cursor is set late, with the same result |
| `ColdOrder.ExactIffNothingLost` | crates/daemon/src/db.rs:315-328 | the cold history is exact if and only if nothing is counted lost |
| `ColdLog.SkipsNothingIffTight` | crates/daemon/src/db.rs:997-1017 | a batch loses nothing exactly if it continues the log without a hole |
| `ColdWhole.ResumesWithNothingLost` | crates/daemon/src/backend/sidecar.rs:111-177 | across any crashes, restarts and reconnects with no failed batch and no gap, stored, queued and travelling bytes together are exactly the output, and once drained at the head all of it is stored |
| `ColdWhole.NoResyncWithoutGap` | crates/daemon/src/backend/sidecar.rs:399-425 | on such a run no resync is served: one is asked for only after an eviction, and that leaves a gap |
| `ColdWhole.FailedBatchThenCrash` | crates/daemon/src/db.rs:974-976 | a failed batch is harmless if the daemon stops before committing another: the next adoption starts at the cursor it left |
| `ColdWhole.FailedBatchThenCommit` | crates/daemon/src/db.rs:974-976 | otherwise, whatever is committed next, the stored history is not the output, then and after every orderly continuation |
| `ColdWhole.LostForGood` | crates/daemon/src/db.rs:997-1000 | from any state with output lost, by whatever cause, the stored history differs from the output up to the cursor after every orderly continuation: no later run repairs it |
| `ColdExit.ExitStoresWhatArrived` | crates/daemon/src/backend/sidecar.rs:390-398 | with no failed batch and no gap, what is stored after an exit is exactly the output up to the route's cursor when the exit was handled; so with the stream at the final head all of it is stored if and only if the notice overtook nothing |
| `ColdExit.ExitStoresAllIff` | crates/daemon/src/backend/sidecar.rs:390-398 | on every orderly run, failed batches and gaps included, all of the output is stored in the end if and only if nothing was passed over and all of it had arrived when the exit was handled |
| `ColdExit.LateOutputIsLost` | crates/daemon/src/session_manager/mod.rs:781-845 | output that had not is never stored, whatever follows: a session that is over is not adopted again |
| `ColdExit.NoticeOvertakesOutput` | crates/asmux/src/server.rs:883-903 | a reachable state with the stream at the head from which every continuation loses output |
| `HolderRegistry.AdmitsIffLiveRingsLeaveRoom` | crates/asmux/src/registry.rs:145-170 | admission succeeds exactly if the live rings alone leave room, and never touches a live session |
| `HolderRegistry.EvictionOnlyRemoves` | crates/asmux/src/registry.rs:147-170 | eviction removes dead sessions and changes nothing about the rest |
| `HolderRegistry.EvictionEndsWithRoomOrNoDead` | crates/asmux/src/registry.rs:161-169 | it ends with room made or with no dead session left |
| `HolderRegistry.EvictsInLruOrder` | crates/asmux/src/registry.rs:151-159 | everything evicted was accessed before every dead session kept |
| `HolderRegistry.EvictsNoMoreThanNeeded` | crates/asmux/src/registry.rs:161-168 | with the last one evicted put back it would not fit |
| `HolderRegistry.EveryRunKeepsInv` | crates/asmux/src/registry.rs:78-186 | over every run of create, get, purge and exits, failed spawns included, the bytes accounted are the rings held and within the limit, and ticks are distinct, so that the order is total |
| `HolderRegistry.CreateMeans` | crates/asmux/src/registry.rs:97-130 | for a known id the fingerprint decides between its session, made the most recently used, and a refusal that changes nothing; a new id is refused for memory exactly if the live rings leave no room, and fails to spawn exactly if they do and the child does not start; only a success changes which sessions live |
| `HolderRegistry.GetMeans` | crates/asmux/src/registry.rs:78-85 | a get of a known session makes it the last to be evicted and changes nothing else |
| `HolderRegistry.PurgeMeans` | crates/asmux/src/registry.rs:133-143 | a purge forgets exactly a dead session, with its bytes, and no live one |
| `HolderRegistry.ExitMeans` | crates/asmux/src/session.rs:562-571 | a child's end makes its session one that may be evicted or purged, and touches nothing else |
| `HolderRegistry.UnlimitedRegistryOverflows` | crates/asmux/src/registry.rs:148-150 | at the largest limit a run of creates reaches rings that pass it, with the bytes accounted standing still and the next one admitted |
| `HolderRegistry.Registry.Get` | crates/asmux/src/registry.rs:78-85 | the session asked for, made the most recently used |
| `HolderRegistry.Registry.Create` | crates/asmux/src/registry.rs:97-130 | the outcome and whole new state of a create, however it ends; a known id is answered by its fingerprint |
| `HolderRegistry.Registry.Purge` | crates/asmux/src/registry.rs:133-143 | a tombstone goes with its bytes; a live or unknown session is left alone |
| `HolderRegistry.Registry.Admit` | crates/asmux/src/registry.rs:147-170 | the loop over a list sorted once evicts what evicting the oldest dead session again and again would |
| `HolderRegistry.Registry.OldestFirst` | crates/asmux/src/registry.rs:151-159 | that list is every dead session with its tick, strictly oldest first |
| `InputQueue.StepKeepsCount` | crates/asmux/src/session.rs:349-371 | no step of a sender or the writer breaks the accounting |
| `InputQueue.EveryRunKeepsInv` | crates/asmux/src/session.rs:349-371 | under every interleaving the counter is the bytes reserved, on the channel and being written, and never underflows; chunks are written in the order accepted, once each |
| `InputQueue.AcceptedInputIsWritten` | crates/asmux/src/session.rs:622-633 | from every state of every run the writer alone can write all that was accepted, in order, and count it off |
| `InputQueue.NothingIsAcceptedAfterTheEnd` | crates/asmux/src/session.rs:349-371 | once the session and its channel have ended nothing more is accepted |
| `InputQueue.DeadSessionsTakeNoInput` | crates/asmux/src/session.rs:350-352 | a call that begins after the exit comes to nothing |
| `InputQueue.QueueIsBoundedByPeak` | crates/asmux/src/session.rs:353-357 | on every run the queue stays within its limit times the largest number of sends ever between their check and their adding to the counter at once |
| `InputQueue.OneSenderStaysBounded` | crates/asmux/src/session.rs:353-356 | with one sender at a time the queue stays within its limit despite the stale load |
| `InputQueue.TwoSendersCanExceed` | crates/asmux/src/session.rs:353-357 | two senders can queue twice the limit |
| `InputQueue.SentInTurnIs` | crates/asmux/src/session.rs:349-371 | the steps of one send in a row queue it whole or change nothing |
| `InputQueue.Queue.SendInput` | crates/asmux/src/session.rs:349-371 | each outcome exactly when the session, the room and the channel allow it, and no other effect |
| `InputQueue.Queue.WriterLoop` | crates/asmux/src/session.rs:622-633 | everything waiting is written in order and the counter comes back to zero |
| `RelayRegistry.Registry.Register` | crates/asm-relay/src/server.rs:151-175 | a registration draws the next generation and replaces its node's entry under it |
| `RelayRegistry.Registry.Insert` | crates/asm-relay/src/server.rs:151-175 | a registration replaces its node's entry and no other |
| `RelayRegistry.Registry.Touch` | crates/asm-relay/src/server.rs:177-183 | only the current generation refreshes an entry |
| `RelayRegistry.Registry.SetDownstreams` | crates/asm-relay/src/server.rs:185-192 | only the current generation changes what a node advertises |
| `RelayRegistry.Registry.Disconnect` | crates/asm-relay/src/server.rs:196-202 | only the current generation marks a node gone |
| `RelayRegistry.Registry.FindRoute` | crates/asm-relay/src/server.rs:205-227 | a known node routes to itself, anything else through a node that advertises it with its own verdict, and nowhere only if none does |
| `RelayRegistry.FencingIsOwnership` | crates/asm-relay/src/server.rs:151-202 | under every interleaving of control loops an entry is the last joined registration followed by what that loop alone did, in whatever order generations were drawn |
| `RelayRegistry.JoiningTakesTheEntry` | crates/asm-relay/src/server.rs:151-175 | a loop that joins has its hello in its node's entry, connected, under the generation it drew, and owns it |
| `RelayRegistry.StaleLoopsAreFenced` | crates/asm-relay/src/server.rs:177-202 | every later call of a superseded loop is a no-op |
| `RelayRegistry.OwnersAreHeard` | crates/asm-relay/src/server.rs:177-202 | the owner's calls take effect on its own node only, and on nothing of it but what each is for |
| `RelayRegistry.OlderGenerationCanWin` | crates/asm-relay/src/server.rs:151-175 | a generation drawn earlier supersedes a newer one by joining later |
| `StreamPairing.PairsAtMostOnce` | crates/asm-relay/src/server.rs:372-442 | in every ordering of dial-back, failed open and timeout: a dial-back reaches at most one request, the one whose id it carries; an id is taken at most once; a request that completed left no entry |
| `StreamPairing.WaitingIsPaired` | crates/asm-relay/src/server.rs:372-442 | from every reachable state in which a request waits with its entry in place, a dial-back with its id gets through: it takes the entry, and the request receives just that stream and completes |
| `StreamPairing.NewRequestsArePaired` | crates/asm-relay/src/server.rs:372-442 | so does a request under a fresh id whose Open gets through |
| `StreamPairing.DroppedIffTurnedAway` | crates/asm-relay/src/server.rs:372-390 | on every run a dial-back is dropped exactly if there was no entry for its id when it asked, or the request had stopped listening when it was handed over |
| `StreamPairing.RequestsEndAsTheyShould` | crates/asm-relay/src/server.rs:397-442 | on every run a request is withdrawn exactly if its Open failed or its wait timed out, and one that completed without either has its stream |
| `StreamPairing.AbandonedEntriesStay` | crates/asm-relay/src/server.rs:397-442 | the entry of a request dropped while it waits is removed by nothing but a dial-back for it |
| `QueryRewrite.StripPreservesMeaning` | crates/asm-relay/src/server.rs:593-612 | for every query string the relay key cannot be found afterwards and every other key has the value it had |
| `QueryRewrite.FindQueryMeans` | crates/asm-relay/src/server.rs:604-612 | a query gives a key the value after the `=` of the first of its pairs that begins with the key and `=`, and none exactly if no pair does |
| `QueryRewrite.KeyOfMeans` | crates/asm-relay/src/server.rs:593-602 | a pair is the relay key's exactly if it is the key alone or begins with it and `=` |
| `QueryRewrite.OthersStayInPlace` | crates/asm-relay/src/server.rs:593-602 | every other pair is kept, in its place among those, and nothing else is |
| `QueryRewrite.PlainTargetsStay` | crates/asm-relay/src/server.rs:570-591 | a path that names no node is forwarded as it is, and no `?` is added for a query with nothing left |
| `QueryRewrite.StripKeepsPairsInOrder` | crates/asm-relay/src/server.rs:593-602 | the remaining pairs are the other pairs, in order |
| `QueryRewrite.StripIsIdempotent` | crates/asm-relay/src/server.rs:593-602 | stripping twice is stripping once, and a query without the key is unchanged |
| `QueryRewrite.NodePrefixIsStripped` | crates/asm-relay/src/server.rs:584-591 | the node sees the path after its id, or the root |
| `QueryRewrite.ForwardedRequestMeans` | crates/asm-relay/src/server.rs:570-582 | the whole forwarded target is the node's path and a query that means the same less the relay key |
| `ByteTransport.WsByteStream.PollRead` | crates/asm-relay/src/transport.rs:60-90 | the loop over frames with a remainder and a position is one read of the pipe |
| `ByteTransport.WsByteStream.PollWrite` | crates/asm-relay/src/transport.rs:98-109 | a buffer goes out whole as one binary frame, or not at all |
| `ByteTransport.ReadMeans` | crates/asm-relay/src/transport.rs:60-90 | a read takes its bytes off the front of what remains; with room it is empty exactly at a close or the end, never for an empty, ping or text frame |
| `ByteTransport.ReadAnswers` | crates/asm-relay/src/transport.rs:60-90 | the front of what is unread, as much as there is room for, or else exactly what the first frame that is not skipped says, which is then gone |
| `ByteTransport.ReadsConserve` | crates/asm-relay/src/transport.rs:60-90 | for any frames and buffer sizes the bytes read are a prefix of the payloads, and all of them when the end or a failure is met |
| `ByteTransport.WritesAreReadBack` | crates/asm-relay/src/transport.rs:60-109 | what was written at one end arrives at the other byte for byte, in order |
| `ByteTransport.EmptyBufferHidesAClose` | crates/asm-relay/src/transport.rs:60-90 | a read into an empty buffer can swallow the close |
| `FrameCodec.BigEndianRoundTrip` | crates/asmux/src/frame.rs:135-144 | a number survives in its low bytes, and a longer one is cut to them |
| `FrameCodec.EncodedBytes` | crates/asmux/src/frame.rs:135-144 | the envelope byte by byte: length, tag 0, ordinal, body |
| `FrameCodec.DecodeMeans` | crates/asmux/src/frame.rs:93-130 | what a read of any bytes comes to, by the bytes: when too large, malformed, an error or a closed peer, and else the ordinal and just the body announced |
| `FrameCodec.Reader.ReadFrame` | crates/asmux/src/frame.rs:93-130 | reading step by step takes off the stream what `DecodeOne` says, and leaves the rest |
| `FrameCodec.FrameBody` | crates/asmux/src/frame.rs:135-144 | the bytes built up are the encoding |
| `FrameCodec.RoundTripsIffFits` | crates/asmux/src/frame.rs:93-144 | a frame survives the trip if and only if it is within the limit |
| `FrameCodec.StreamRoundTrips` | crates/asmux/src/frame.rs:93-144 | any sequence of such frames decodes to itself and then a closed peer |
| `FrameCodec.TruncatedStreamDecodes` | crates/asmux/src/frame.rs:93-130 | cut anywhere, it decodes to exactly the frames that arrived whole, then a closed peer or a transport error, never a wrong frame |
| `StateClock.KindIsInjective` | crates/daemon/src/db.rs:217-302 | the text kept of a state says which status and attention it is, so comparing texts compares states |
| `StateClock.WritesMean` | crates/daemon/src/db.rs:217-302 | what each write is for arrives in the row, and every column it does not name stays |
| `StateClock.ClockIsStartOfRun` | crates/daemon/src/db.rs:217-302 | after any writes the clock is the time of the first write of the current unbroken run of writes leaving the same state |
| `StateClock.ViewsDoNotMoveTheClockIff` | crates/daemon/src/db.rs:290-302 | viewing never shows in the clock if and only if no status is written between a view that cleared a badge and the next attention write |
| `StateClock.StatusAfterViewIff` | crates/daemon/src/db.rs:217-235 | a status right after a view leaves the clock as without the view exactly if there was no badge |
| `StateClock.Sessions.InsertSession` | crates/daemon/src/db.rs:79-114 | the clock starts at the row's own state; a conversation id stays with one session exactly if no other has it |
| `StateClock.Sessions.UpdateStatus` | crates/daemon/src/db.rs:217-235 | the update reads the row as it was, and changes one row |
| `StateClock.Sessions.UpdateActivity` | crates/daemon/src/db.rs:237-263 | likewise, with the event number and activity time |
| `StateClock.Sessions.SetAttention` | crates/daemon/src/db.rs:265-288 | likewise, for attention alone |
| `StateClock.Sessions.ClearAttentionForView` | crates/daemon/src/db.rs:290-302 | the badge goes and the clock's columns stay |
| `StateClock.Sessions.SetAgentSessionId` | crates/daemon/src/db.rs:121-135 | done exactly if nothing was captured and no session of the plugin has the id; no two sessions come to share one |
| `StateClock.Sessions.ReplaceAgentSessionId` | crates/daemon/src/db.rs:142-166 | done exactly if the old capture is the expected one and the new is free, discarding the old title; no two sessions come to share one |
| `StartupConfig.ParseText` | crates/daemon/src/startup_config.rs:104-120 | the reading loop is the settings of the lines, a later one replacing an earlier one |
| `StartupConfig.LineSets` | crates/daemon/src/startup_config.rs:104-120 | a line that names a key, with white space about it as it likes, and `=`, sets it to the rest, trimmed |
| `StartupConfig.OnlySuchLinesSet` | crates/daemon/src/startup_config.rs:104-120 | and no other line sets anything |
| `StartupConfig.LastSettingWins` | crates/daemon/src/startup_config.rs:104-120 | the last line that sets a key decides its value |
| `StartupConfig.ParsedIsTrimmed` | crates/daemon/src/startup_config.rs:104-120 | everything read is a known key with a trimmed value |
| `StartupConfig.RenderText` | crates/daemon/src/startup_config.rs:123-132 | the writing loop is the header and one line per key |
| `StartupConfig.KeysAreAKeyList` | crates/daemon/src/startup_config.rs:36-54 | the keys are such as the format can carry |
| `StartupConfig.ParseRender` | crates/daemon/src/startup_config.rs:104-132 | reading back what was written gives every key its trimmed value, and a missing key the empty one |
| `StartupConfig.ParseRenderIsExactIff` | crates/daemon/src/startup_config.rs:104-132 | the round trip is exact if and only if the values are trimmed |
| `StartupConfig.PendingIsInOrder` | crates/daemon/src/startup_config.rs:147-153 | pending keys are listed in the order of the keys |
| `StartupConfig.PendingIsWhatChanged` | crates/daemon/src/startup_config.rs:147-153 | what is pending is what changed, up to white space, since the file was last applied |
| `StartupConfig.CheckedSettingsAreKeys` | crates/daemon/src/startup_config.rs:295-313 | every setting the checks between settings read is one a configuration can hold |
| `StartupConfig.IsValidMeans` | crates/daemon/src/startup_config.rs:227-313 | exactly which configurations pass: each value, the components on, and what a relay and a registering daemon need |
| `StartupConfig.RelayOnIsValidIff` | crates/daemon/src/startup_config.rs:295-313 | with the relay on and each value valid, a configuration passes if and only if the relay has access keys and a daemon that registers to a relay has its key; setting both keys takes any such configuration there |
| `StartupConfig.RelayConfigurationsAreValid` | crates/daemon/src/startup_config.rs:295-313 | a relay with a key passes, alone and beside the other components, and without it does not |
| `StartupConfig.ValidValuesAreLines` | crates/daemon/src/startup_config.rs:227-237 | no value that passes validation can break a line of the file |
| `StartupConfig.Store.Load` | crates/daemon/src/startup_config.rs:404-427 | a reader sees, key by key, the file's value or else the environment's, the file's revision, and, if both files exist, as pending the keys whose values in them differ |
| `StartupConfig.FirstUnknownMeans` | crates/daemon/src/startup_config.rs:431-440 | the key a save refuses is the first of the patch that is none of the configuration's |
| `StartupConfig.Store.Save` | crates/daemon/src/startup_config.rs:431-446 | the first check that fails decides the answer and leaves the file as it was; otherwise the file is the patch over what was in effect |
| `StartupConfig.SaveFixesEveryKey` | crates/daemon/src/startup_config.rs:429-446 | after a save the environment no longer matters, whatever it becomes: each key is the patch's value or the trimmed prior one |
| `StartupConfig.SaveShowsPatchOverPriorIff` | crates/daemon/src/startup_config.rs:429-446 | what is read back is exactly the patch over what was in effect if and only if every value taken over from the environment is trimmed |
| `StartupConfig.SaveNothingIsStable` | crates/daemon/src/startup_config.rs:429-446 | saving nothing over a file this program wrote changes nothing in it |

## Left out

- What interleaves is stated on transition systems over values, each step one lock, poll or send of the code, but for the attaches of `ColdStitch`; `StreamLoops`, `RelayRegistry.Registry` and `InputQueue.Queue` are the code's own form of those steps, and `StreamPairing` and `ColdStitch` have none. What this does not capture is the memory order of the atomics, all of which are taken as sequentially consistent.
- StreamLoops.StreamTask.Stream: stops when a given number of accesses is used up, where the code goes on waiting; the theorem is for every such number.
- StreamLoops.Attachments.HandleAttach: with nobody in between; what can happen in between is what `StreamProtocol` is about. The clone of the sending queue and the messages to the client are left out, but for the wait to tell the evicted connection, which is a step of its own there.
- The order of control and data frames on the wire: the writer task prefers control, so a detach or an exit may overtake queued output. Delivery is stated by cursors and by the order frames are enqueued; in `ColdStitch` and `ColdExit` a notice may overtake any output.
- StreamSlot.SingleAttacher: on courteous runs; `StreamTakeover.ReattachEmptiesTheSlot` shows the condition is needed from every state it fails in.
- StreamHandover.StartIsSafeIff: at moments when no signal is owed or pending. One that is may go to the other stream first, which if cancelled is then no longer in the way, so that starting beside it can be safe; that starting with no other stream able to take a notification is safe holds at every moment (`StreamHandover.HandedOverIsNeverLost`).
- StreamDrain.DeadSessionsAreDelivered: on handover runs; `StreamTakeover.TakeoverCanLoseAWakeup` is why.
- ColdOrder.StoredIsHistoryLessLost: on runs whose attaches are orderly; `ColdResync.AttachIsSafeIff` shows the condition exact.
- RingBuffer.Ring.ReadAt: exact for histories of up to 2^64 - 1 bytes; past that the head saturates and cursors no longer count the output. The protocol uses unbounded cursors.
- RingBuffer.Ring.TryReserve: grows to exactly what is needed, where a deque grows in larger steps and may so be refused at other moments; the refusal is a parameter.
- The casts of sequence numbers and cursors to signed 64-bit columns.
- HolderRegistry.EveryRunKeepsInv: for limits below 2^64 - 1; ticks do not saturate, and a child that exits during an admission is taken to have exited before or after it.
- InputQueue.EveryRunKeepsInv: what the writer hands to the PTY; write errors are ignored by the code too.
- `handle_input`, resize, kill, purge, list, metadata and buffer-read requests: dispatch around members that are modelled or system calls.
- Steps of `ColdStitch` coarser than one access: `Receive` is output arriving at the route, where the cursor moves, and what the drain loop has not taken from the route's queue yet counts as queued for the writer, so that it survives a reconnect as it does in the code; notices do wait between the two. `Serve` reads head and tail at once. `Land` is the moment the handler cancels the stream before, and `ColdOrder.Orderly` is judged there: until then that one reads on, after it it can finish the frame it offers and read once more, which may end in a notice (`Lapse`). A reconnect's attach and an adoption's, which have no stream of their connection to replace, are one step.
- The gap marker and the emulator it is drawn on.
- ColdExit.ExitStoresAllIff: for an exit the drain loop takes from the stream's notice or from the reconciliation after a reconnect, which are one step, `Finish`; that a stream announces an exit at the final head only is `StreamDelivery.NoticesAreTrue`.
- The native, in-process backend, whose events carry no ring cursor.
- SQLite: tables are maps, an update's right-hand side reads the old row, a transaction commits or does nothing. `reconcile_orphans_on_startup` does not write the clock's columns and is no write of `StateClock`.
- Which of several advertising nodes a relay route goes through, and when a node counts as online: hash order and wall-clock time.
- StreamPairing.PairsAtMostOnce: stream ids are fresh, as random UUIDs are taken to be.
- The upgrade splice, TLS, CORS, authentication and heartbeats of the relay.
- FlatBuffers bodies: opaque bytes.
- StartupConfig.Store.Save: the checks of each key's own format and the revision hash are parameters, an answer of Invalid does not name the setting, the header's wording is a parameter, and no other process writes the file between the check of the revision and the replacing of it.
- PTY spawning, child reaping, signals, socket probing and holder autospawn: system calls.
- Git worktrees, plugins, the summarizer, the conflict resolver and the web client.
