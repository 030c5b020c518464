# HarmonyLite replication, modelled and proved in Dafny

HarmonyLite keeps the SQLite databases of several nodes in step. Triggers on each node record local
writes in change tables. A publisher sends the recorded changes to one JetStream stream per shard,
choosing the shard by a hash of the row's primary key. One listener per shard and node applies the
messages in stream order and remembers how far it got in a small file. Snapshots bootstrap nodes
that have fallen too far behind, a lease on a key-value entry elects the node that takes them, and
schema hashes are meant to pause replication between nodes whose tables differ.

The project models these parts and proves what they add up to:

- **The cluster as one state machine** (`Cluster`). Nodes write, publish, receive, apply, save,
  crash, restart, take snapshots and are restored from them, and streams discard. Every run of any
  length with any number of nodes and shards is covered. `Coverage` proves what every database and
  every snapshot shows of the shard logs, snapshots, restores and early discards included.
  `Convergence` proves that a settled node whose own run was calm holds the replay of the shard
  logs, whatever happens elsewhere, so such nodes are equal; `Progress` proves that the cluster can
  always get there and `Workload` that every schedule does, with snapshots enabled or not;
  `Interruption` shows why a calm node must take its own messages back before it stops; `Faults`
  proves that five switches (snapshots, failed publishes, key-changing updates, key values that
  change on the wire, early discard) are exactly what convergence of all nodes needs to be off;
  `SkipRule` says which messages are ever passed over, switches on or off; `Snapshot` proves
  bootstrapping from snapshots and catching up after a restore, `Recovery` exactly when a restore
  is right, and `LastWrite` exactly when a local write is what every node ends up with.
- **The programs that take those steps.** Listener loop, sequence file, publisher pass, change
  tables and stream publishing are classes with loops (`Listener`, `SequenceFile`, `Publisher`,
  `CaptureLog`, `Replicator`), each proved against a specification function. `ListenerRun` proves
  that the whole listener loop is a run of the state machine, and `PublisherRun` the same of a whole
  publish.
- **The coordination parts**: the lease under delayed, lost and unheard requests (`Lease`), the
  leader objects that use it (`Leader`) and their attempts as runs of it (`Election`), the schema fingerprint (`SchemaFingerprint`), the hash cache (`SchemaCache`), the
  mismatch gate (`SchemaGate`) and the connection pool (`Pool`).

Modelling choices: integers are unbounded except stored sequences and names, which are 64 bit.
Clocks, hash functions, map iteration order, and the success or failure of SQL, network and file
operations are parameters, so each result holds for all of them. A database is a map from (table,
primary-key values) to rows. A stream that never had a message reports zero as its first sequence.
The snapshot storage may return any snapshot taken so far, so late and reordered uploads are
covered.

A stream drops its oldest message only when it holds a newer one, which is what discarding old
messages at a size limit does. With snapshots enabled every publish saves the acknowledged sequence;
the one exception is a process that ends between the acknowledgement and the save.

A database *shows* a shard up to the first message that was passed over or is still to come. A
node's run is *calm* if, with snapshots enabled, it publishes to a shard only when its listener has
taken and saved everything there and its process ends only when its database shows everything it has
saved, so that it has taken its own messages back; if it is never restored; and if no stream
discards a message its database does not show. With all switches off every run is calm for every
node. A database may also hold changes that its own node, or the nodes its snapshot came from, have
captured and not yet published; results about snapshots wait for those to be published.
The results about coverage, calm runs, progress, snapshots and restores hold with snapshots enabled
and with early discard, as long as the other three switches (failed publishes, key-changing updates,
key values that change on the wire) are off.

Where the code departs from its documentation or comments, the model follows the code:

- The architecture document promises that the last writer wins, the replication document that the
  last arrival wins. The code does the latter: a write is what remains of its row exactly if no
  change to the row that would leave something else is still waiting anywhere when it is made
  (`LastWrite.LastWriteExactly`).
- A message that the schema gate wants redelivered has its position saved all the same, so it is
  never applied (`Listener.RetriedMessageIsLost`); the schema-versioning document says the sequence
  map is not advanced. It takes an event that still carries a schema hash, see the next point.
- The renewal period of the snapshot leader is never shorter than a second, whatever the lease time;
  a lease of a second or less can be lost between two renewals in time (`Election.KeptExactly`).
- Unwrapping an event drops its schema hash, so no event read off the wire can reach the pause
  (`SchemaGate.WireEventsBypassGate`, `ListenerRun.LogMessagesPassGate`).
- With snapshots enabled, publishing saves the acknowledged sequence and the listener reads that
  value back, so it passes over messages it never applied (`Faults.SnapshotsDiverge`,
  `SkipRule.SkippedMessages`). Publishing only when the listener has caught up avoids it as long as
  the process does not end before it takes its own message back
  (`Interruption.CrashAfterPublishDiverges`).
- A publish that fails with any error but "not ready" or cancellation is marked published
  (`Faults.LossyPublishDiverges`).
- Restoring a snapshot replaces the whole database when any one stream has a gap, and does not move
  the saved sequences; a shard that the node resumes beyond the snapshot's position loses updates
  (`Recovery.LateResumeLoses`).
- The gap check raises a false alarm when exactly the saved message is the newest discarded one
  (`Snapshot.GapCheckPrecision`), and for a node that has saved nothing of a stream it also counts
  the first message as a gap. The runs in `Recovery.LateResumeLoses` start from one of the two.

## Model

| member | source | states |
|---|---|---|
| `Cluster.StepKeepsWf` | logstream/listen_with_db.go:14-66 | every step of the cluster, under any switches, keeps all queued and published changes applicable, all messages without a hash and (keys surviving the wire) in the shard of their row, and the first retained position of each stream within its log |
| `Cluster.PublishedMessage` | db/change_log.go:484-543 | a captured change is still applicable after the wire, has no hash, and keeps its row key when its key cells hold whole seconds |
| `Cluster.HashRoutingWf` | logstream/replicator.go:183-190 | hash routing is a valid routing of the protocol and sends each event to the shard of its row key |
| `Coverage.StepKeepsInv` | logstream/listen_with_db.go:23-63 | with the other three switches off every step, snapshots, restores and early discards included, keeps for every database and every snapshot ever taken: each row is the replay of the shown prefix, or a later message that is already applied or was written by a carrier will overwrite it, or a carrier still has a captured change to it |
| `Coverage.ApplyKeepsImage` | db/change_log.go:580-624 | applying any message of a shard, in turn, out of turn or a second time, keeps what a database shows |
| `Convergence.StepKeepsTrack` | logstream/listen_with_db.go:37-54 | a calm step keeps a node on track: what its database does not show is not discarded, and not saved either except for one message of its own that its listener takes next; without snapshots and early discard at most one message is applied but not saved |
| `Convergence.AppliesNext` | logstream/listen_with_db.go:37-54 | on track, an applied delivery never skips a message, and with tight positions it is the one right after the saved one |
| `Convergence.CalmSettlesToReplay` | logstream/listen_with_db.go:14-66 | with snapshots enabled or not and streams discarding or not, a settled node whose own run was calm (publishing included) holds, row by row, the last message on that row in its shard's log over the initial database |
| `Convergence.CalmNodesAgree` | logstream/replicator.go:206-210 | any two settled nodes whose own runs were calm hold equal databases, also with snapshots enabled |
| `Convergence.SettledIsReplay` | logstream/listen_with_db.go:14-66 | with the switches off, in every reachable state every settled node holds the replay of the shard logs |
| `Convergence.SettledMatchesInterleaving` | harmonylite.go:208-211 | a settled node's database equals running any interleaving of the shard logs, however the listeners were scheduled |
| `Convergence.FaultlessConverges` | logstream/listen_with_db.go:14-66 | in every run with the switches off any two settled nodes hold equal databases |
| `Convergence.CrashSafety` | logstream/replication_state.go:48-83 | after any number of crashes between apply, save and acknowledge, for every node: at most one message is applied but not saved, nothing unsaved has been discarded, and every row is the replay up to the applied position unless a write of the node's own to that row has yet to come back |
| `LastWrite.ExecuteLeaves` | db/change_log.go:150-156 | a statement leaves its new row, or none for a delete, under its key, none under the old key of a moving update, and every other row as it was |
| `LastWrite.WriteComesBack` | db/table_change_log_script.tmpl:23-36 | the captured change of any statement, applied where the statement was made, changes nothing |
| `LastWrite.CapturedIsWrite` | db/change_log.go:150-156 | applied to any database, the captured change of any statement leaves under the key it writes what the statement left there in any other database: the new row of inserts and updates, nothing for deletes |
| `LastWrite.SentIsWrite` | logstream/replication_event.go:13-49 | the same after the wire, with the times of the row cut to the second, for keys that survive the wire |
| `LastWrite.LastWriteExactly` | docs/docs/architecture.md:231-236 | in every fault-free run, for every local write: all nodes hold what it left under its key whenever all are settled and nobody has written the key since, if and only if every change to the key still waiting on any node at the time of the write leaves the same row |
| `LastWrite.WaitingMayRemain` | docs/docs/replication.md:96-99 | a waiting change to a key can be published last, and then it is what a settled node holds, whatever was written after it was captured |
| `LastWrite.WriteReachesAll` | harmonylite.go:208-211 | after a write to a row of which no change is waiting the system can finish by itself, and then every node holds what the write left |
| `Progress.Finishes` | harmonylite.go:208-211 | with snapshots enabled or not, from every state in which all nodes are on track, and whose stopped nodes need no restore, publishing (each publish saving with snapshots enabled), delivering, saving and restarting alone lead to a state where all nodes are settled |
| `Progress.CalmConsistency` | harmonylite.go:208-211 | with snapshots enabled or not, from every state reached by a run that was calm for all nodes, and whose stopped nodes need no restore, such a continuation exists and ends with all nodes equal to the replay of the logs |
| `Progress.CatchUpNode` | logstream/listen_with_db.go:23-63 | from every state in which its listeners' variables do not exceed what is saved, a running node with nothing to publish can take and save all there is, and rows that no message left to apply concerns stay as they were |
| `Progress.EventualConsistency` | harmonylite.go:208-211 | from every reachable fault-free state such a continuation exists and ends with all nodes equal to the replay of the logs |
| `Workload.ScheduleIsBounded` | harmonylite.go:208-211 | with snapshots enabled or not, no quiet schedule (with snapshots enabled one that publishes to a shard only when the listener there is current) takes more publishes, first deliveries and saves than there was work when it began, however many redeliveries it mixes in |
| `Workload.EveryScheduleSettles` | harmonylite.go:208-211 | every such schedule that has used the work up leaves each running node settled with the replay of the logs, and before that an unsettled node can always take a useful step |
| `Faults.ConvergenceExactly` | logstream/replicator.go:183-223 | for every cluster with two nodes and a watched table: all runs converge if and only if all five switches are off |
| `Faults.LossyPublishDiverges` | db/change_log.go:416-429 | whenever publishing can fail, some run ends settled and different |
| `Faults.EarlyDiscardDiverges` | logstream/replicator.go:435-448 | whenever a stream may drop, for a newer message, one that a node has not saved, some run ends settled and different: two rows in one shard, the first message dropped |
| `Faults.KeyUpdateDiverges` | db/change_log.go:150-156 | whenever updates may change primary keys, some run ends settled and different, because only the NEW row is captured |
| `Faults.FractionalKeyDiverges` | db/change_log_event.go:127-150 | whenever keys may hold fractions of a second, some run ends settled and different |
| `Faults.SnapshotsDiverge` | logstream/replicator.go:206-210 | whenever snapshots are enabled, some run without any failure and any restore ends settled and different |
| `Interruption.InterruptedRow` | logstream/listen_with_db.go:37-54 | a node with nothing to publish that stops, starts again without a restore and takes all there is keeps every row whose retained messages are all saved exactly as it was, so a row that differs from what those messages leave stays wrong |
| `Interruption.CrashAfterPublishDiverges` | logstream/replicator.go:206-210 | with snapshots enabled there is a run, calm for every node, after which one crash of a node that has not taken its own message back ends with two settled nodes that differ |
| `SkipRule.SkippedMessages` | logstream/listen_with_db.go:37-54 | in every run under every switch, a delivered message that is not applied was saved before the process started, was applied by this listener, or lies at or below a sequence this node's own publishing saved; the last only with snapshots enabled |
| `SkipRule.AppliedAtMostOnce` | logstream/listen_with_db.go:37-54 | in one process lifetime a listener applies strictly increasing sequences beyond the one it loaded, despite redeliveries |
| `Snapshot.CatchUpRow` | logstream/replicator.go:279-298 | replaying a shard from at or before a database's position, on a row that shows that position or is overwritten later, gives the row of the whole log |
| `Snapshot.ImageCatchUp` | snapshot/db_snapshot.go:58-87 | any database of a run, plus any interleaving of the shard suffixes from at or before what it shows, is the replay of the full logs |
| `Snapshot.SnapshotBootstraps` | snapshot/db_snapshot.go:36-87 | with snapshots enabled, early discards and restores around, a snapshot taken on any node anywhere in a run, replayed at any later time from before the first message it passed over, gives the replay of the full logs once the changes captured on the nodes it came from are published |
| `Snapshot.BootstrapMatchesNode` | snapshot/db_snapshot.go:58-87 | that database equals the one of every settled node whose own run was calm |
| `Snapshot.RestoredOnTrack` | logstream/replicator.go:291-294 | a restored node is on track on a shard if and only if it resumes the shard at or before the snapshot's position |
| `Snapshot.RestoredCatchesUp` | logstream/replicator.go:279-298 | a node restored in any reachable state that resumes every shard at or before the snapshot's position holds the replay of the logs whenever it is settled in any later run that is calm for it and the carriers of its database have published |
| `Snapshot.RestoreDecision` | logstream/replicator.go:279-298 | keeps exactly when every stream answers and has no gap; otherwise the first offending shard in iteration order decides between error and restore |
| `Snapshot.DecisionIsGap` | logstream/replicator.go:291-294 | the protocol restores exactly the nodes for which that decision finds a gap |
| `Snapshot.StartFollowsDecision` | harmonylite.go:161-166 | a stopped node starts over a snapshot if and only if snapshots are enabled, one is stored and some stream reports a gap, and over its own database if and only if it does not have to be restored |
| `Snapshot.ReportsFirst` | logstream/replicator.go:284-294 | a stream without messages is never a gap; any other reports the message that it delivers first to a fresh listener |
| `Snapshot.KeptCatchesUp` | logstream/replicator.go:291-294 | a stopped node without a gap that has saved nothing its database does not show is on track, and settles to the replay of the logs in every later run that is calm for it, early discards before it notwithstanding |
| `Snapshot.CheckStreamGap` | logstream/schema_validation.go:116-135 | true if and only if some answering stream starts beyond the saved sequence |
| `Snapshot.GapCheckPrecision` | logstream/schema_validation.go:124-132 | a reported gap means a needed message is gone, or the one false alarm; a lost message is never missed |
| `Recovery.LateResumeLoses` | logstream/replicator.go:284-295 | for every snapshot position and every later resume position there is a run without early discards, with every publish saving and no stream ever emptied, in which the restored node ends settled with an old row, different from a settled node, although all its database carries is published |
| `Recovery.RestoreExactly` | logstream/replicator.go:279-298 | for all reachable states in which a node is restored at these positions, and all later runs that are calm for that node: once it is settled and the carriers of its database have published, no row of the shard is wrong, if and only if it resumes the shard at or before the snapshot's position; runs in which it publishes while its listener lags are not covered |
| `Recovery.DroppedChangeStays` | db/sqlite.go:358-372 | there is a run in which a node resumes in time and still ends settled and different: its snapshot held a captured change of the queue that restoring dropped; waiting for the carriers to publish cannot be left out |
| `Replay.RunRow` | db/change_log.go:580-624 | replaying a log leaves under each key what the last message on that key says |
| `Replay.RowAfterTouched` | db/change_log.go:592-624 | a log that touches a key forgets what was there, one that does not leaves it alone |
| `Replay.InterleavingRow` | harmonylite.go:208-211 | a row of an interleaving is decided by the row's own shard |
| `Replay.ShardIndependence` | harmonylite.go:208-211 | all interleavings of the same shard logs leave the same database |
| `Rows.ReplicateSucceeds` | db/change_log.go:165-190 | applying succeeds exactly for watched tables and the three operations, and an unwatched table is its own error |
| `Rows.ReplicateIsBlindWrite` | db/change_log.go:580-624 | an event sets the row of its key whatever was there and touches no other row |
| `Rows.SameKeyExactly` | db/change_log.go:192-206 | two rows of a watched table have the same key if and only if they agree on the primary-key columns, a missing column reading as null |
| `Rows.StreamDB.PrimaryKeyMap` | db/change_log.go:192-206 | the loop collects exactly the primary-key cells of the event's row, or nothing for an unwatched table |
| `Rows.StreamDB.ReplicateEvent` | db/change_log.go:165-190 | the database becomes what the specification says, and is unchanged on either error |
| `Wire.UnwrapWrap` | db/change_log_event.go:49-72 | unwrapping undoes wrapping except for the schema hash, which is always lost |
| `Wire.WrappedHash` | db/change_log_event.go:31-47 | wrapping keeps a schema hash if and only if no value of the row is a time |
| `Wire.WireRoundTrip` | logstream/replication_event.go:13-49 | over the wire an event keeps identity, columns and all values but times, which keep their second |
| `Wire.CellLossless` | db/change_log_event.go:31-47 | a cell survives if and only if it is not a time with a fraction of a second |
| `Wire.WireLossless` | logstream/replication_event_test.go:46-57 | the whole event but its hash survives if and only if no cell holds a fraction of a second |
| `Wire.WireIdempotent` | logstream/replication_event.go:13-49 | a second trip over the wire changes nothing |
| `Routing.ShardOfRow` | db/change_log_event.go:74-101 | the shard is a function of the row key alone |
| `Routing.SameShardExactly` | db/change_log_event.go:74-101 | with two shards or more, two rows of any tables share their shard under every hash function if and only if they have the same key |
| `Routing.RoutingIgnoresColumnOrder` | db/change_log_event.go:103-125 | nodes that list a table's columns in different orders hash its rows alike |
| `Routing.KeyColumnCache.SortedPKColumns` | db/change_log_event.go:103-125 | a cached table keeps its columns, a new one gets its sorted key columns, and the cache gains only that entry |
| `Routing.KeyColumnCache.Shard` | logstream/replicator.go:183-190 | while the cache agrees with the schema the chosen shard is that of the row key, and agreement is kept |
| `Replicator.Replicator.Publish` | logstream/replicator.go:183-223 | exactly the hashed shard's stream grows by the message, sequences move only with snapshots enabled, a failed save does not take the message back, and when a snapshot is due |
| `Replicator.PublishIsProtocolStep` | logstream/replicator.go:183-223 | publishing a captured change is the protocol's publish step: the message lands on the event's shard, the saved sequences of all streams move as the save moves them or not at all without snapshots, the change leaves the queue if marked, no other node is concerned |
| `Replicator.HashIsRoute` | logstream/replicator.go:184-184 | the stream chosen by the event's hash is the shard the protocol routes the event to |
| `Replicator.ShardOfHashExact` | logstream/replicator.go:184-184 | the shard is the remainder of the hash: every number `k * shards + s` with `s < shards` goes to shard `s` |
| `Replicator.OneSnapshotPerShare` | logstream/replicator.go:212-219 | of any `entries` consecutive sequences of the first shard, `entries` being the whole part of the log limit divided by the shards, exactly one calls for a snapshot |
| `Listener.ShardListener.Handle` | logstream/listen_with_db.go:23-63 | one iteration over database, file and loop variable equals the specified iteration, error and cancellation exits included; what that iteration may and may not save is stated by `Listener.FailedMessageStays` and `Listener.SavedWasHandled` |
| `Listener.ShardListener.ListenWithDB` | logstream/listen_with_db.go:14-66 | the whole loop equals folding the iteration over what arrives until it exits, which is a run of the protocol |
| `Listener.FailedMessageStays` | logstream/listen_with_db.go:43-47 | a message that cannot be applied ends the loop with database, stored and saved sequence unchanged; a loop started from the stored sequences fails on it again if and only if the stored sequence is below it, and else passes it over |
| `Listener.StoredWasHandled` | logstream/listen_with_db.go:37-54 | over every run of the loop, messages in any order, the stored sequence at the end is the old one or that of a message that was applied or that the gate asked for again |
| `Listener.SavedWasHandled` | logstream/listen_with_db.go:37-54 | over every run of the loop with messages in sequence order and no other writer of the shard's sequence, every sequence newly covered by the stored one belongs to a message that was applied or that the gate asked for again; none that failed or was cancelled |
| `ListenerRun.IterationIsRun` | logstream/listen_with_db.go:23-63 | every iteration (a delivery that is passed over, applied, cancelled or not acknowledged, a save by publishing, anything else the cluster does, a time-out, a broken connection) is the listed protocol steps and ends with the database, position and saved sequence they lead to |
| `ListenerRun.LoopIsRun` | logstream/listen_with_db.go:14-66 | the whole loop, interleaved in any way with the rest of the cluster, is a run of the protocol and ends where that run ends; an exit is a crash |
| `ListenerRun.StartMatches` | logstream/listen_with_db.go:23-23 | a loop that starts from the stored sequences matches the protocol's restarted listener |
| `ListenerRun.LogMessagesPassGate` | logstream/schema_validation.go:25-37 | no message of a shard log is ever asked for again by the schema gate, in any reachable state |
| `Listener.RetriedMessageIsLost` | logstream/listen_with_db.go:87-92 | a message the gate wants redelivered changes no row and is passed over at every later delivery, also after a restart |
| `Cbor.HeadRoundTrip` | logstream/replication_state.go:66-66 | parsing an encoded argument of any size gives it back with the rest of the input (RFC 8949, section 3) |
| `Cbor.HeadMonotone` | logstream/replication_state.go:66-66 | a larger argument never has a shorter head (shortest form, RFC 8949, section 4.1) |
| `Cbor.HeadIsShortest` | logstream/replication_state.go:66-66 | a head takes one byte up to 23 and otherwise one, two, four or eight more, whichever suffices, and its top bits are the major type |
| `Cbor.EncodedBytes` | logstream/replication_state.go:66-66 | the bytes of the empty map and of one-entry maps, as in RFC 8949, appendix A |
| `Cbor.MapRoundTrip` | logstream/replication_state.go:45-66 | decoding an encoded map gives the map, whatever the entry order and whatever follows it |
| `Cbor.MapNotShorter` | logstream/replication_state.go:59-66 | a map that gained entries or larger values never encodes to fewer bytes, in any entry orders |
| `SequenceFile.NoStaleTail` | logstream/replication_state.go:61-66 | overwriting from offset 0 without truncating leaves exactly the new encoding |
| `SequenceFile.NextKeepsFaithful` | logstream/replication_state.go:48-72 | saving and restarting keep the file an exact encoding of the map, and restarting changes nothing |
| `SequenceFile.NextSaved` | logstream/replication_state.go:55-59 | a save raises its stream's value to the maximum and moves no other stream |
| `SequenceFile.SequenceFileRoundTrip` | logstream/replication_state.go:21-83 | after any run of saves and restarts the file loads to the current map, whose values are the largest ever saved |
| `SequenceFile.ReplicationState.Init` | logstream/replication_state.go:21-46 | loads what the file encodes; an undecodable file is an error and leaves an empty map |
| `SequenceFile.ReplicationState.SaveSeq` | logstream/replication_state.go:48-72 | map and file follow the specification, the returned value is the one now stored and not below the argument, and an unopened file is an error without effect |
| `CaptureLog.CaptureKeepsPaired` | db/table_change_log_script.tmpl:23-43 | capturing keeps global rows and pending changes in one-to-one correspondence with ascending ids |
| `CaptureLog.MarkKeepsPaired` | db/change_log.go:434-465 | marking any waiting change published keeps the correspondence |
| `CaptureLog.CleanKeepsPaired` | db/change_log.go:89-121 | cleanup, even stopped half way, keeps the correspondence and no global row loses its change |
| `CaptureLog.QueueOfCapture` | db/table_change_log_script.tmpl:23-43 | capturing appends the written row to the queue of changes to publish |
| `CaptureLog.QueueOfMark` | db/change_log.go:434-465 | marking removes that change and only that one from the queue |
| `CaptureLog.QueueOfClean` | db/change_log.go:89-121 | cleanup leaves the queue alone |
| `CaptureLog.KeptSince` | db/change_log.go:89-121 | a change captured at some time and marked published survives a cleanup of its table if and only if it was captured later than the given time |
| `CaptureLog.WaitingIsKept` | db/change_log.go:89-121 | a change that waits survives every cleanup unchanged, with the time of its capture |
| `CaptureLog.CleanTwice` | db/change_log.go:89-121 | cleaning twice is cleaning once up to the later time |
| `CaptureLog.CapturePairing` | db/change_log.go:369-432 | over every run of captures, cleanups and publishes in any interleaving the log stays paired and no captured change disappears without having been handed over |
| `CaptureLog.PanicUnreachable` | db/change_log.go:398-414 | whenever the publisher is about to look a change up, it finds it |
| `CaptureLog.PublisherIsFifo` | db/change_log.go:369-432 | while marking succeeds, the changes handed over are a prefix of the captured ones, in capture order and without repeats |
| `CaptureLog.DrainRate` | db/change_log.go:331-352 | each undisturbed publish removes exactly the oldest `limit` changes |
| `CaptureLog.DrainsInCeiling` | db/change_log.go:369-432 | the queue is empty if and only if at least ceil(n / limit) publishes have passed |
| `Publisher.PassIsRun` | db/change_log.go:369-432 | a whole publish with any mix of scan errors, refusals and failed markings is a run of the capture log that hands over the same changes and releases the lock |
| `Publisher.PassIsSafe` | db/change_log.go:369-432 | a publish over the oldest changes of a paired log neither panics nor unpairs it |
| `Publisher.UndisturbedPass` | db/change_log.go:398-431 | a publish without errors hands over and marks everything it scanned |
| `Publisher.ChangeLog.Trigger` | db/table_change_log_script.tmpl:17-43 | the trigger body is the capture step and keeps the log paired |
| `Publisher.ChangeLog.GetGlobalChanges` | db/change_log.go:331-352 | the oldest global rows, all of them without a limit, otherwise as many as there are up to `limit` |
| `Publisher.ChangeLog.GetChangeEntry` | db/change_log.go:467-482 | the pending change of a global row; on a paired log it exists |
| `Publisher.ChangeLog.MarkChangePublished` | db/change_log.go:434-465 | both updates of the transaction or neither |
| `Publisher.ChangeLog.CleanupChangeLogs` | db/change_log.go:89-121 | cleans exactly the tables before the failing one, counts the deleted rows, and no waiting change is lost |
| `Publisher.CleanupCounts` | db/change_log.go:89-121 | the number a cleanup reports is the number of changes by which the tables shrink |
| `Publisher.ChangeLog.PublishChangeLog` | db/change_log.go:369-432 | the loop equals the specified pass, does nothing under the lock, always releases it, and never panics on a paired log |
| `PublisherRun.CaptureIsWrite` | db/table_change_log_script.tmpl:23-43 | a local write with its trigger is the protocol's write step: the node's queue stays the queue of its capture log, grown at the end by one change, and that change leaves on any database the row that the write left under its key |
| `PublisherRun.PassIsProtocolRun` | db/change_log.go:369-432 | a whole publish over scanned changes, with any refusals, failed publishes and failed markings, is a run of the protocol that leaves the queue of the log it leaves, and the streams have grown by the changes they took, in the order of the log |
| `PublisherRun.SpreadByShard` | logstream/replicator.go:183-190 | each stream grows by the changes of its own shard, in order, and by nothing else |
| `Lease.MetaStore.AcquireLease` | logstream/replicator_meta_store.go:44-83 | acquires exactly when nobody wrote in between and the entry is absent, own or expired; is refused exactly for another's unexpired entry; otherwise an error that writes nothing |
| `Lease.LeaseExclusion` | logstream/replicator_meta_store.go:44-83 | over every run with delayed, lost and unheard requests, revisions of different owners are at least the duration apart, for any clock skew, with one caller per node |
| `Lease.ExclusionExactly` | logstream/replicator_meta_store.go:44-83 | all runs exclude if and only if no two callers share a node or all callers share one |
| `Lease.SharedNodeBreaksExclusion` | logstream/replicator_meta_store.go:45-75 | for any duration, two callers on one node and one on another have a run whose revisions are too close |
| `Lease.SingleLiveLeader` | logstream/snapshot_leader.go:104-139 | with a shared clock at most one caller has its leader flag set and an unexpired last stamp; `Election.OneLeader` carries it over to the leader objects |
| `Election.AttemptIsRun` | logstream/snapshot_leader.go:104-139 | every attempt of a leader object, with whatever other callers do between its read and its write, is a run of the lease protocol between states that agree with the object's flag and stamp and with the store's revisions before and after |
| `Election.StopIsStep` | logstream/snapshot_leader.go:66-76 | stopping a leader object is the protocol's reset of its caller, which clears the flag and abandons the attempt |
| `Election.OneLeader` | logstream/snapshot_leader.go:104-139 | in every state that the protocol reaches and two leader objects agree with, on a shared clock, not both flags are set with leases of `ttl` nanoseconds that last past the current millisecond |
| `Election.KeptExactly` | logstream/snapshot_leader.go:33-50 | once a write has taken effect no other node's write does, as long as on every clock the newest revision gets no older than the renewal period, in all runs if and only if the lease time is at least 1.001 seconds |
| `Election.ShortLeaseIsLost` | logstream/snapshot_leader.go:38-43 | for every shorter lease time another node can take over although the newest revision is never older than the renewal period |
| `Leader.Heartbeat` | logstream/snapshot_leader.go:33-50 | the renewal period is a third of the lease time, rounded down, for lease times of three seconds or more, and one second otherwise; so it is shorter than the lease if and only if the lease exceeds one second, and fits three times if and only if it is at least three |
| `Leader.MillisExact` | logstream/replicator_meta_store.go:73-73 | an entry is unexpired in whole milliseconds if and only if the lease of `ttl` nanoseconds lasts past the millisecond it is in |
| `Leader.SnapshotLeader.TryAcquireLeadership` | logstream/snapshot_leader.go:104-139 | the flag says exactly whether this attempt acquired the lease, and then the newest revision is this attempt's; in time, the attempt succeeds if and only if nobody wrote in between and the entry is absent, its own, or older than the lease of `ttl` nanoseconds up to the millisecond; no store, no effect |
| `Leader.SnapshotLeader.Stop` | logstream/snapshot_leader.go:66-76 | the flag is clear afterwards and nothing else has changed |
| `SchemaFingerprint.FingerprintCanonical` | db/schema_manager.go:63-119 | if no table name holds a bar, no column name a colon and every type is closed (inside it no flags stand in front of a bar or line end and the start of a name), two databases write the same bytes if and only if their selected tables agree as sets of (column, type, not null, in key) |
| `SchemaFingerprint.RawTypesDecide` | db/schema_manager.go:108-116 | for such databases whose columns all have a raw type: equal bytes if and only if the tables agree as sets of (name, raw type, nullable, in key), whatever the described types |
| `SchemaFingerprint.DescriptionsDecide` | db/schema_manager.go:108-112 | the same with the described types where no column has a raw type |
| `SchemaFingerprint.OneColumnText` | db/schema_manager.go:93-117 | the bytes of a table with one column: name, bar, column, type and the two flags, separated by colons, and a line end |
| `SchemaFingerprint.FingerprintDeterministic` | db/schema_manager.go:63-119 | for all names, equal schemas write equal bytes in whatever order they are inspected |
| `SchemaFingerprint.ClosedWithoutColon` | db/schema_manager.go:108-116 | every type without a colon is closed |
| `SchemaFingerprint.ClosedWithoutEnds` | db/schema_manager.go:108-116 | every type without a bar and a line end is closed |
| `SchemaFingerprint.BarConfuses` | db/schema_manager.go:93-116 | every table name with a bar, with any column, writes the bytes of a different schema that meets the conditions |
| `SchemaFingerprint.ColonConfuses` | db/schema_manager.go:114-116 | every column name with a colon, in any table, writes the bytes of a different schema in which the rest of the name belongs to the type |
| `SchemaFingerprint.OpenTypeConfuses` | db/schema_manager.go:93-117 | every type that is not closed collides: a table with a column of that type writes the bytes of a different schema in which no table name holds a bar and no column name a colon |
| `SchemaFingerprint.HostReadable` | db/schema_manager.go:108-116 | that table meets the conditions if and only if the type is closed, so nothing else in it can be misread |
| `SchemaFingerprint.InspectTables` | db/schema_manager.go:34-60 | exactly the requested tables, in inspection order |
| `SchemaFingerprint.IsPrimaryKeyColumn` | db/schema_manager.go:98-106 | whether some part of the key is that column, expression parts ignored |
| `SchemaFingerprint.TableText` | db/schema_manager.go:85-119 | the column loop writes the text of the table's canonical form |
| `SchemaFingerprint.ComputeSchemaHash` | db/schema_manager.go:63-82 | the digest of the canonical text of the requested tables |
| `SchemaCache.CacheRefinesHistory` | db/schema_cache.go:24-71 | current and previous hash are always the last two entries of the history of computed hashes without adjacent repeats |
| `SchemaCache.Cache.Initialize` | db/schema_cache.go:24-36 | sets the current hash and tables, or nothing on error; the previous hash is kept |
| `SchemaCache.Cache.Recompute` | db/schema_cache.go:56-71 | one history step, or nothing on error |
| `SchemaGate.OnlyMatchingApplied` | logstream/schema_validation.go:19-113 | an event is applied only under a hash that is empty, current or previous after the decision, and an accepted one is applied at once |
| `SchemaGate.GateDecides` | logstream/schema_validation.go:19-113 | exactly when the gate recomputes, gives up and applies: it recomputes when a pause begins or five minutes after the last time, gives up then if there is a gap, and applies what is accepted before or after a recompute that worked |
| `SchemaGate.PauseLasts` | logstream/schema_validation.go:41-60 | a pause begins with the first mismatch, keeps that time, and ends only with an event that is applied |
| `SchemaGate.WireEventsBypassGate` | logstream/schema_validation.go:25-37 | every event read off the wire is applied at once and clears any pause |
| `SchemaGate.MismatchMachine` | logstream/schema_validation.go:41-149 | over every run pause time, recompute time and gauge are all set or all clear, and recomputes in one pause are at least five minutes apart |
| `SchemaGate.Gate.ValidateAndReplicate` | logstream/schema_validation.go:19-38 | verdict, pause state and hashes are the specified decision, and the database changes only when the verdict is to apply |
| `SchemaGate.Gate.HandleMismatch` | logstream/schema_validation.go:41-113 | the same for a mismatching hash, with recompute, gap exit and errors |
| `SchemaGate.Gate.ResetMismatchState` | logstream/schema_validation.go:145-149 | all three parts of the pause are cleared together |
| `Pool.Connection.Init` | pool/connection_pool.go:48-64 | opens a closed connection or leaves it closed on error, and leaves an open one alone |
| `Pool.SQLitePool.New` | pool/connection_pool.go:80-98 | succeeds exactly if lazy or all connections open, and then idle and borrowed connections make up the pool |
| `Pool.SQLitePool.Borrow` | pool/connection_pool.go:100-110 | hands out an open connection nobody else has, or on failure replaces it; idle plus borrowed stays the pool size |
| `Pool.SQLitePool.Dispose` | pool/connection_pool.go:112-119 | a borrowed connection always finds room; a foreign one is refused without effect |

## Left out

- JetStream, the key-value store and their configuration: streams are append-only logs with a discarded prefix; compression, stream creation, credentials and reconnecting are not modelled.
- SQLite itself: secondary unique constraints, foreign keys, user triggers, NULL primary keys, column defaults and type affinity; an upsert replaces the row under its primary key and nothing else.
- FNV and SHA-256: both are arbitrary functions, so hash collisions are covered and their values are not.
- Torn or failed file writes and failed encodes of the sequence file.
- CBOR inputs that the program does not write itself (indefinite lengths, longer-than-needed arguments), the zero time, and integer types that change in the codec.
- File watching, tickers, the main program's wiring, the snapshot storage back ends and copying database files.
- Writes by the application between a restore and the reinstallation of the triggers, which are not captured.
- The older `Listen` loop and its retries; the listener with schema validation is the one in use.
- Errors while applying: the process ends, which the cluster model treats as a crash before applying.
- `ContextRefreshingLease`, the schema registry, health and telemetry: they would only add easy members.
- Concurrent reads of current and previous hash in the gate's fast path, which the program does not do in one critical section.
- CaptureLog.PublisherIsFifo: holds while marking succeeds; a change whose marking fails is handed over again by the next publish, as `Publisher.PassIsRun` describes.
- SchemaFingerprint.OpenTypeConfuses: the types of the colliding schema are unrestricted, and the table is one of the lemma's choosing.
- Recovery.RestoreExactly: a restored node that later publishes to a shard while its listener lags behind, or stops before it takes its own message back, is not covered; it can end wrong as in `Faults.SnapshotsDiverge` and `Interruption.CrashAfterPublishDiverges`.
- Snapshot.SnapshotBootstraps: waits for the changes captured on the nodes the snapshot came from; changes that such a node lost by being restored itself never are published, see `Recovery.DroppedChangeStays`.
- LastWrite.LastWriteExactly: for runs with all switches off; `LastWrite.CapturedIsWrite` holds for every statement, key-changing updates included, and under the old key of such an update nothing is captured, see `Faults.KeyUpdateDiverges`.
- Listener.SavedWasHandled: with snapshots enabled the publisher saves sequences too, which `SkipRule.SkippedMessages` accounts for.
- Election.KeptExactly: for positive lease times, the only ones the configuration yields.
- Lease.LeaseExclusion: clocks of a node never run backwards; two callers on one node are covered by `Lease.ExclusionExactly`.
- Pool.SQLitePool.Dispose: a borrower returns a connection once; Borrow is modelled at the moment the channel has a connection, waiting is not.
- Replicator.Replicator.Publish: says when a snapshot is due; taking it runs in the background and is the subject of `Snapshot`.
