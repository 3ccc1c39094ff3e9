# Fly: verified models of the master, the worker streams, the lookup tables and the planner

Fly is a master/worker task framework. This project models the parts of it that are hard to get
right and proves what they promise, in Dafny 4.11. Check it with `dafny verify dfyconfig.toml`.

| file | models |
|---|---|
| `LookupTable.dfy` | N-dimensional interpolation: 2^dim weighted corners, addressed row-major |
| `MapReduce.dfy` | the MapReduce planner, its task graph and every run of that graph |
| `PendingRpcMap.dfy` | the wait table behind request/answer pairs, with its mutex and condition variable |
| `Common.dfy`, `ObjectNames.dfy` | shared definitions; full names of objects |
| `Framing.dfy` | frames between workers and the splitter that cuts them out of network reads |
| `PeerStream.dfy` | byte streams between workers: writer, record reassembly, bounded queue, reader |
| `StreamTransfer.dfy` | a whole stream, from the writes on one worker to the reads on another |
| `Bye.dfy` | the BYE handshake of a worker connection, both ends |
| `DependencyGraph.dfy` | which submitted tasks are ready |
| `TaskLifecycle.dfy` | tasks on the master: graph and metadata under all handlers |
| `LateReports.dfy` | reports that come late: when they are good, when they are stale |
| `Verdict.dfy` | the verdict that pending tasks can never run, and when it is right |
| `Scenarios.dfy` | runs of the master that show where a promise ends |
| `WorkerIdentity.dfy` | which connection speaks for which worker |
| `Freeze.dfy` | freezing databases and write provenance |
| `DeadWorkerWaits.dfy` | waits without a timeout and what ends them |
| `Restart.dfy` | restarting failed tasks after databases have moved |

## How the models are built

Concurrent code is a step system: a mutex section, or an action that touches one table under its
own lock, is one step; a handler is a series of steps; a run is any sequence of enabled steps of
any handlers. Invariants are proved for every step and carried to every run. The code itself is
modelled by classes with the source's fields; each method is proved against the function that
its step is.

A few promises turn out not to hold. Then the code is modelled as it is, a lemma shows a case in
which the promise fails, and another gives the exact condition under which it holds:

- A task that was removed from the dependency graph and added again, as every requeued or restarted
  task is, is never made ready by arriving data (`ReaddedTaskIsStuck`, `RequeueExample`). Arriving
  data leaves no runnable task behind exactly when every task it completes is listed under it and
  was never removed (`ReadyKeepsLiveIff`).
- Data that vanishes under a pending task and returns is not noticed (`VanishExample`,
  `RemovedKeepsIndexedIff`).
- The graph holds exactly the tasks whose metadata says PENDING at every moment of a run, exactly
  when every step of the run is orderly: a chosen worker still has its connection, the metadata of
  a task is still there when it is requeued, and a restart forgets no waiting task
  (`StepAgreesIff`, `TablesNeverDiverge`). A requeue looks its task up in one section and adds it
  in another; an eviction in between leaves a graph entry without metadata (`TablesCanDiverge`).
- A task running on a gone worker is on the list of that worker's death or exit handler, unless the
  heartbeat monitor marked the worker: that mark takes no list. It leaves no orphan exactly when
  everything on the worker is on a list already (`SilentKeepsNoOrphanIff`, `OnlyHeartbeatOrphans`,
  `SilentWorkerOrphans`). Once the handler itself runs, it takes over everything, and nothing is
  left when it is through, in every run until the worker comes back (`HandlerLeavesNoOrphan`).
- The check for late reports and the change they make are separate sections; in between the task
  can go to another worker, whose run is then taken for complete (`RaceIsReachable`). Applying a
  report takes a task from another worker exactly when the report is stale by then and that run is
  still going (`ApplyTakesFromOtherIff`); it is stale by then exactly when the task is known and
  was last given to a third worker (`StaleIffGivenAway`), which needs a requeue or a submission in
  between if the report was good when it came (`AcceptedReportStaysGood`).
- The verdict that pending tasks can never run looks only at ready and running tasks. A master's
  own write and a late report defy it (`OutsideWriteDefiesVerdict`, `LateReportDefiesVerdict`),
  and so does a handler about to requeue a task (`ListedCanRun`). With nothing ready or running,
  no run without submissions and outside writes makes a task ready exactly when no pending or
  listed task can get its missing inputs from reports in flight or still owed
  (`VerdictIsRightIff`). It never falls between the end of a task and the arrival of its data
  (`MarkedBeforeLeaving`).
- A deferred registration is replayed even if its own connection has gone (`ReplayMayBindGone`,
  `GoneConnectionHoldsId`).
- A write that names one database and an object of another gets into a frozen database
  (`InconsistentWriteSlipsIn`, `RegisterKeepsSealedIff`).
- The deletions of a dead worker are found by a key suffix: all of them exactly when none is for a
  nameless database (`SuffixSnapshotIff`), and such a deletion is never released
  (`NamelessDeleteHangs`).
- Object names follow their database on restart exactly when no two databases that are now in
  different places had the same old path (`NamesFollowIff`, `ReusedPathConfuses`).
- MapReduce cleanup takes no input away exactly when it is off or the output name is fresh
  (`CleanupSafeIff`).
- MapReduce cleanup removes all intermediate objects exactly when the merge is no tree or has at
  most 8 partitions; otherwise the inner results of the tree stay (`CleanupIsCompleteIff`,
  `NinePartitionsLeaveTwo`).
- The old form of a database argument loses its path when its data path has a colon
  (`OldDbArgParsesIff`).

Where documentation and code differ, the code is followed: the three-segment form of a database
argument is parsed as the code does it, not as its comment says.

Assumptions about the environment: the compressor is invertible per block; checksums fit 64 bits; a
connection delivers bytes in order; a worker reports an execution at most once; one worker process
uses one worker id on all its connections; doubles are reals.

## Model

| member | source | states |
|---|---|---|
| LookupTables.CornerSumIsNested | src/container/cpp/lookup_table.cpp:116-136 | for every table shape and every bracket per axis, the sum over all 2^dim bit-numbered corners is nested one-dimensional linear interpolation at the clamped point |
| LookupTables.CornersSplit | src/container/cpp/lookup_table.cpp:120-136 | corners 2j and 2j+1 differ only on the first axis, so the sum splits along it |
| LookupTables.NestedByBracket | src/container/cpp/lookup_table.cpp:97-114 | nested interpolation looks only at the two slabs around the coordinate |
| LookupTables.NestedBetween | src/container/cpp/lookup_table.cpp:83-138 | the result lies between any lower and upper bound of the table values |
| LookupTables.NestedAtNode | src/container/cpp/lookup_table.cpp:83-138 | at a grid node of strictly ascending axes the stored cell is returned exactly |
| LookupTables.Clamp | src/container/cpp/lookup_table.cpp:98-100 | the point of the axis range that is nearest to the coordinate |
| LookupTables.NestedInside | src/container/cpp/lookup_table.cpp:97-114 | between the ends of the first axis its slabs are interpolated at the coordinate itself |
| LookupTables.NestedOutside | src/container/cpp/lookup_table.cpp:98-100 | beyond an end of any axis, the result is the one at that end |
| LookupTables.LerpByLowerBound | src/container/cpp/lookup_table.cpp:99-113 | the bracket found by lower_bound on a sorted axis, equal grid points included, interpolates linearly |
| LookupTables.BlockAtOffset | src/container/cpp/lookup_table.cpp:13-21 | fixing the first d indices selects the block of cells at the row-major offset of those indices |
| LookupTables.CellInRange | src/container/cpp/lookup_table.cpp:130-135 | every index vector within the axes addresses a cell inside the values |
| LookupTables.BitOfShifted | src/container/cpp/lookup_table.cpp:124 | bit d of a corner number is the parity after d halvings |
| LookupTables.PeelOne | src/container/cpp/lookup_table.cpp:123-131 | one axis of a corner contributes its weight and position; weight zero makes the whole corner zero |
| LookupTables.LowerBound | src/container/cpp/lookup_table.cpp:101 | the first grid point not below the coordinate |
| LookupTables.FindBracket | src/container/cpp/lookup_table.cpp:99-113 | a bracket whose upper point exists whenever it carries weight and that interpolates at the clamped coordinate |
| LookupTables.FindBrackets | src/container/cpp/lookup_table.cpp:94-114 | one such bracket per axis, and the axis lengths |
| LookupTables.RowMajorOffset | src/container/cpp/lookup_table.cpp:13-21 | the Horner loop computes the row-major offset |
| LookupTables.CornerTerm | src/container/cpp/lookup_table.cpp:121-135 | one corner: the product of weights times one cell, zero as soon as the weight vanishes, and no index outside the values |
| LookupTables.SumCorners | src/container/cpp/lookup_table.cpp:116-136 | the loop over all corners is the corner sum |
| LookupTables.IsSorted | src/container/cpp/lookup_table.cpp:75 | sortedness test of one axis |
| LookupTables.MergeAxes | src/container/cpp/lookup_table.cpp:42-55 | axes of the table win over the template; stops at the first axis that stays empty, else counts the cells |
| LookupTables.LookupTable.ResolveTemplate | src/container/cpp/lookup_table.cpp:25-63 | when it succeeds, when it fails, and what the table looks like in both cases; a resolved table is ready exactly when its axes are sorted |
| LookupTables.LookupTable.IsReady | src/container/cpp/lookup_table.cpp:65-81 | true exactly for a positive dimension matching names and axes, non-empty sorted axes and a full value array |
| LookupTables.LookupTable.Interpolate | src/container/cpp/lookup_table.cpp:83-138 | answers exactly for ready tables and matching coordinates, and then with nested linear interpolation: at the coordinate within an axis, at the nearer end beyond it |
| MapReduce.MergeItems | src/fly/mapreduce.py:80-93 | the merge loop is the left fold of the items |
| MapReduce.FoldOfBatches | src/fly/mapreduce.py:398-422 | for an associative merge, folding batches and then their results is folding everything |
| MapReduce.TreeMeansFold | src/fly/mapreduce.py:398-422 | the root of the staged reduction is the left fold of its inputs in order, for any number of inputs and any fan-in |
| MapReduce.TreeFlows | src/fly/mapreduce.py:398-422 | the tree reads only what exists, writes only new objects, and leaves only its root unread |
| MapReduce.PlanFlows | src/fly/mapreduce.py:298-394 | all submitted tasks form one flow whose only unread result is the output |
| MapReduce.PlanIsSound | src/fly/mapreduce.py:298-394 | every configuration with a fresh output name gives a sound job: cleanup spares existing objects and the output |
| MapReduce.SequentialIsFixpoint | src/fly/mapreduce.py:55-147 | in the result of running tasks in order, every object is what its task computes from that result |
| MapReduce.OutputMeansDone | src/fly/mapreduce.py:134-147 | once the output exists, every task has run |
| MapReduce.InvRun | src/fly/mapreduce.py:55-147 | every run keeps: the store holds start objects and outputs of finished tasks with order-independent values; cleanup runs only when all is done |
| MapReduce.RunIsSafe | src/fly/mapreduce.py:65-147 | in every dependency-respecting run no input is removed before its reader ran, nothing that existed before is lost, the output stays and has the sequential value |
| MapReduce.RunMakesProgress | src/fly/mapreduce.py:298-394 | until everything ran, the first unfinished task can run |
| MapReduce.JobDeliversFold | src/fly/mapreduce.py:298-394 | in every run the output is finalize of the left fold of the processed partitions, for tree merge and full merge alike |
| MapReduce.TakenNameLosesInput | src/fly/mapreduce.py:134-142 | with a taken output name there is a run in which cleanup removes an object its reader still needs |
| MapReduce.CleanupSafeIff | src/fly/mapreduce.py:134-142 | no run loses an input exactly when cleanup is off or the output name is fresh |
| MapReduce.CleanupLeaves | src/fly/mapreduce.py:134-142 | in every run in which the cleanup has run, the store holds the objects from before, the output and the inner results of the merge tree, and nothing else |
| MapReduce.CleanupIsCompleteIff | src/fly/mapreduce.py:356-375 | cleanup removes every intermediate object, in every run, exactly when the merge is no tree or has at most 8 partitions |
| MapReduce.NinePartitionsLeaveTwo | src/fly/mapreduce.py:398-422 | with nine summary partitions both results of the first stage stay |
| MapReduce.MapReduceJob.RunStage | src/fly/mapreduce.py:407-419 | one stage submits one merge task per batch of at most fan-in keys |
| MapReduce.MapReduceJob.RunSummaryMerge | src/fly/mapreduce.py:398-422 | submits the whole tree with fan-in at most 8 and returns its root; fails without partitions |
| MapReduce.MapReduceJob.PresetPartitions | src/fly/mapreduce.py:315-323 | preset names are the partition keys, each with a placeholder among the intermediates |
| MapReduce.MapReduceJob.CountedPartitions | src/fly/mapreduce.py:341-354 | one numbered key per partition of the dry run |
| MapReduce.MapReduceJob.Partitions | src/fly/mapreduce.py:315-354 | preset names or a dry run decide the partitions; exactly when this fails, and that on a failure the partition task is out exactly when it was the dry run that failed |
| MapReduce.MapReduceJob.SubmitProcess | src/fly/mapreduce.py:356-368 | one process task per partition and the keys of their results |
| MapReduce.MapReduceJob.Merge | src/fly/mapreduce.py:370-375 | tree or full merge, and its key among the intermediates; nothing is submitted when it raises |
| MapReduce.MapReduceJob.SubmitRest | src/fly/mapreduce.py:356-394 | everything after the partition phase, or nothing when a tree merge has no partition |
| MapReduce.MapReduceJob.Run | src/fly/mapreduce.py:298-394 | when it succeeds, that it submits exactly the planned tasks, and for every error exactly what it has submitted by then: nothing, or only the partition task |
| PendingRpcMaps.StepKeepsInv | src/agent/cpp/pending_rpc_map.h:37-133 | every section keeps: a sleeper whose entry is done has a notification pending; one waiter per key; a waiter holds the mutex between test and sleep |
| PendingRpcMaps.NoLostWakeupEver | src/agent/cpp/pending_rpc_map.h:72-133 | no reachable state has a waiter asleep without a pending notification while its entry is done |
| PendingRpcMaps.NeverStuck | src/agent/cpp/pending_rpc_map.h:72-102 | in every reachable state the mutex is free or its holder can go to sleep, and sleepers find their entry still in the map |
| PendingRpcMaps.OutcomeIsTruthful | src/agent/cpp/pending_rpc_map.h:72-102 | entering, waking and the deadline each return exactly when the entry is missing, done or out of time: only a done entry, null only for a missing key or at the deadline of an entry that is not done |
| PendingRpcMaps.AnswerIsDelivered | src/agent/cpp/pending_rpc_map.h:110-133 | once an answer is filled in under a sleeping waiter, whatever others do, resuming returns that answer |
| PendingRpcMaps.UnlockedCompleteHarmlessIff | src/agent/cpp/pending_rpc_map.h:151-155 | completing without the mutex is harmless exactly when no waiter on that key stands between test and sleep, or the entry is not finished by it |
| PendingRpcMaps.UnlockedCompleteLosesWakeup | src/agent/cpp/pending_rpc_map.h:151-155 | in that window the wake-up is lost |
| PendingRpcMaps.PendingRpcMap.InsertIfAbsent | src/agent/cpp/pending_rpc_map.h:45-53 | an existing entry, finished or not, is kept and returned |
| PendingRpcMaps.PendingRpcMap.CompleteEntry | src/agent/cpp/pending_rpc_map.h:112-119 | fills one entry in if it is there; keys and all other entries stay |
| PendingRpcMaps.PendingRpcMap.CompleteAllIf | src/agent/cpp/pending_rpc_map.h:124-133 | fills in exactly the matching entries |
| PendingRpcMaps.PendingRpcMap.WaitFor | src/agent/cpp/pending_rpc_map.h:72-102 | an entry that is done on entry is returned at once without sleeping; a missing key returns null and changes nothing; it sleeps on only while the entry is not done; what the loop returns against any sequence of wake-ups, when, and what it leaves in the map |
| Framing.BigEndianRoundTrip | src/network/cpp/message_protocol.h:42-51 | big-endian encoding of any width is undone by decoding |
| Framing.HeaderRoundTrip | src/network/cpp/message_protocol.h:73-86 | a header of any 48-bit length parses to that length |
| Framing.DamagedHeaderRejected | src/network/cpp/message_protocol.h:55-86 | damage to any one byte of a header, hence any single-bit flip, is detected |
| Framing.XorInjective | src/network/cpp/message_protocol.h:68-70 | folding changes whenever one operand changes |
| Framing.FrameRoundTrip | src/agent/cpp/peer_rpc_server.cpp:239-266 | a whole frame at the front of the buffer is delivered with its ids, status and payload, whatever follows |
| Framing.PrefixWaits | src/agent/cpp/peer_rpc_server.cpp:107-118 | a proper prefix of a frame stays in the buffer |
| Framing.SplitPrefix | src/agent/cpp/peer_rpc_server.cpp:107-266 | from any prefix of the encoded frames the splitter yields exactly the complete frames and keeps a proper prefix of the next |
| Framing.ReceiveWhatWasSent | src/agent/cpp/peer_rpc_server.cpp:83-266 | the same for every cut of the bytes into network reads |
| Framing.AllFramesArrive | src/agent/cpp/peer_rpc_server.cpp:83-266 | when all bytes have arrived, all frames are delivered in order and the buffer is empty |
| Framing.StreamOpensAndCloses | src/agent/cpp/peer_rpc_server.cpp:119-223 | START opens a stream on the connection, END closes it, and no other frame does either |
| Framing.UnwelcomeFrames | src/agent/cpp/peer_rpc_server.cpp:107-266 | a frame of unknown type, a request or response too short for its fields and END without a stream close the connection; data without a stream is passed over; an empty data frame clears the buffer |
| Framing.BadHeaderClears | src/agent/cpp/peer_rpc_server.cpp:115-121 | a damaged header clears the buffer and leaves the connection open |
| Framing.CutFrame | src/agent/cpp/peer_rpc_server.cpp:107-118 | a frame that is cut off lies within the buffer |
| Framing.CutBody | src/agent/cpp/peer_rpc_server.cpp:118-266 | frames are consumed whole |
| Framing.PeerConnection.OnData | src/agent/cpp/peer_rpc_server.cpp:83-280 | the receive loop hands out what the splitter function yields and leaves the connection as it says; on a fatal error the messages cut out earlier in the same read are dropped, while stream data and END already handed over are not |
| PeerStream.RecordRoundTrip | src/storage/cpp/pipeline.h:70-176 | what the write stages pack into a record, the read stages unpack, compressed or raw |
| PeerStream.PayloadSaves | src/storage/cpp/pipeline.h:78-102 | compressed bytes are sent exactly when compression is on and saves at least 15 percent |
| PeerStream.BadRecordRejected | src/storage/cpp/pipeline.h:140-176 | a record is rejected if its payload has another checksum than the header says or it announces more than 64 MB; an accepted one unpacks to the announced size |
| PeerStream.DamagedPayloadRejected | src/storage/cpp/pipeline.h:140-147 | damage to the payload of a sent record is noticed whenever it changes the checksum |
| PeerStream.LittleEndianRoundTrip | src/storage/cpp/pipeline.h:120-132 | little-endian size fields are read back as written |
| PeerStream.TakeFits | src/agent/cpp/peer_rpc_server.cpp:610-632 | filling a record stops exactly at its end or with the data |
| PeerStream.FeedConserves | src/agent/cpp/peer_rpc_server.cpp:603-669 | held bytes plus fed bytes become held bytes plus the rest; the queue knows its size and respects its limit; only a finished record waits |
| PeerStream.FragmentationDoesNotMatter | src/agent/cpp/peer_rpc_server.cpp:603-669 | any two fragmentations of the same bytes leave the same queue, the same partial record and the same bytes unfed |
| PeerStream.CutIsUnique | src/agent/cpp/peer_rpc_server.cpp:610-632 | a byte string is cut into records in one way only |
| PeerStream.StepConserves | src/agent/cpp/peer_rpc_server.cpp:603-669 | every step of either thread keeps received = consumed + queued + partial + rest, in order |
| PeerStream.NothingIsLost | src/agent/cpp/peer_rpc_server.cpp:603-669 | for every sequence of enabled steps until the reader is abandoned: byte conservation, queue size and queue bound |
| PeerStream.HeadIsNext | src/agent/cpp/peer_rpc_server.cpp:823-849 | the record at the head of the queue is the next block of the writer |
| PeerStream.StepKeepsInv | src/agent/cpp/peer_rpc_server.cpp:818-931 | every step keeps: the reader has popped the first records, and what it gave and holds is their plaintext |
| PeerStream.StreamIsFaithful | src/agent/cpp/peer_rpc_server.cpp:461-931 | for every cut of the block bytes into data frames, every interleaving and every sequence of reads, what was delivered is a prefix of the plaintext, and a clean end comes only after all of it |
| PeerStream.EndMeansAll | src/agent/cpp/peer_rpc_server.cpp:866-898 | totals that reconcile leave no record out: a truncated stream never ends cleanly |
| PeerStream.EndIsCleanIff | src/agent/cpp/peer_rpc_server.cpp:866-898 | when END has come and the queue is used up, the next fetch ends cleanly exactly when every byte of the writer has arrived, and fails otherwise |
| PeerStream.EndNeedsTotals | src/agent/cpp/peer_rpc_server.cpp:866-898 | whatever came: with the queue used up the end is clean exactly when END has come and its plain bytes, blocks and record bytes are those the reader counted; otherwise the stream fails |
| PeerStream.BadRecordEndsStream | src/agent/cpp/peer_rpc_server.cpp:866-931 | after a rejected record nothing is delivered and no clean end is reported, in any run |
| PeerStream.LossFailsStream | src/agent/cpp/peer_rpc_server.cpp:308-320 | a connection lost before END wakes the reader, and in every run from then on nothing is delivered and no clean end is reported |
| PeerStream.AbandonedNeverBlocks | src/agent/cpp/peer_rpc_server.cpp:639-662 | once the reader is gone no feed waits, whatever comes; its records are dropped |
| PeerStream.FullQueueIsNotEmpty | src/agent/cpp/peer_rpc_server.cpp:646-651 | with an empty queue a finished record fits exactly when it is not larger than the limit |
| PeerStream.BackpressureEnds | src/agent/cpp/peer_rpc_server.cpp:639-662 | with room for one block, a feed waits only while the reader has a record to take |
| PeerStream.DeliveryIsPossible | src/agent/cpp/peer_rpc_server.cpp:461-931 | for every plaintext there is a run that delivers all of it and ends cleanly |
| PeerStream.BlocksAreHonest | src/storage/cpp/pipeline.h:179-214 | blocks are non-empty, at most 4 MB, and concatenate to the plaintext |
| PeerStream.CuttingIsBlocks | src/storage/cpp/pipeline.h:179-214 | writing in any pieces and then finishing gives the same blocks as cutting the whole plaintext |
| StreamTransfer.DeliveredIsHonest | src/agent/cpp/peer_rpc_server.cpp:107-266 | for every cut of the connection's bytes into network reads, the frames handed out are the first frames of the stream, so its data frames carry the next block bytes and END the totals |
| StreamTransfer.RunIsFromWriter | src/agent/cpp/peer_rpc_server.cpp:159-223 | a run fed with such frames is a run of an honest sender |
| StreamTransfer.StreamArrives | src/agent/cpp/peer_rpc_server.cpp:344-931 | end to end, for every cut of the plaintext into writes, every cut of the START, data and END frames into network reads, every interleaving of the threads and all read sizes: the application has got a prefix of the plaintext, and it sees a clean end only after all of it |
| PeerStream.SendStream | src/agent/cpp/peer_rpc_server.cpp:442-507 | any number of writes and the end: the frames carry the records of the plaintext's blocks, all of them with the right totals if END is sent, otherwise a beginning |
| PeerStream.PeerStreamWriter.SendBlockFrame | src/agent/cpp/peer_rpc_server.cpp:509-528 | the bytes held back leave with the payload, nothing leaves after a refusal, and what has left stays a beginning of the record bytes |
| PeerStream.PeerStreamWriter.Emit | src/agent/cpp/peer_rpc_server.cpp:465-476 | 16 header bytes are held back and leave with the next bytes in one frame; frames and bytes held back are the record bytes in order |
| PeerStream.PeerStreamWriter.FlushBlock | src/storage/cpp/pipeline.h:217-235 | one block adds the bytes of its record, empty payloads included, and the totals grow by it; a payload that is not empty leaves one frame with the whole record |
| PeerStream.PeerStreamWriter.Put | src/storage/cpp/pipeline.h:186-200 | filling the buffer sends it when full |
| PeerStream.PeerStreamWriter.Write | src/storage/cpp/pipeline.h:186-200 | any sequence of writes keeps: the bytes of full blocks sent or held back in order, the rest buffered, nothing lost unless a frame was refused |
| PeerStream.PeerStreamWriter.Finish | src/agent/cpp/peer_rpc_server.cpp:496-540 | the frames carry the records of the plaintext's blocks and END their totals; no END exactly when a frame was refused or part of a header was left; with non-empty payloads one frame per record |
| PeerStream.PeerStreamWriter.FlushPendingBlock | src/agent/cpp/peer_rpc_server.cpp:530-540 | a whole header left over is sent as a record without payload; part of one aborts the stream, and exactly then without a refusal |
| PeerStream.PeerStreamRxState.Accumulate | src/agent/cpp/peer_rpc_server.cpp:610-632 | header first, then payload: takes exactly what belongs to the record |
| PeerStream.PeerStreamRxState.FeedStreamBytes | src/agent/cpp/peer_rpc_server.cpp:603-669 | the feed loop is the feed function, waiting and shutdown included |
| PeerStream.PeerStreamReader.Pull | src/agent/cpp/peer_rpc_server.cpp:823-849 | up to n compressed bytes from as many records as it takes: returned plus unread is what was unread, short only at the end of the queue, queue size and consumed bytes kept, None exactly at the end of the stream |
| PeerStream.PeerStreamReader.PopBlock | src/agent/cpp/peer_rpc_server.cpp:834-842 | the next record becomes current; queue size and consumed bytes move together and no unread byte is lost |
| PeerStream.PeerStreamReader.PullWithin | src/storage/cpp/pipeline.h:307-316 | a pull within one record takes exactly its bytes and no other record |
| PeerStream.PeerStreamReader.NextBlock | src/storage/cpp/pipeline.h:260-299 | pulls exactly one record and unpacks it, rejecting absurd sizes, bad checksums and bad payloads |
| PeerStream.PeerStreamReader.AdvanceBlock | src/agent/cpp/peer_rpc_server.cpp:866-898 | the next plaintext block, or the reconciled end, or failure |
| PeerStream.PeerStreamReader.NextCurrent | src/agent/cpp/peer_rpc_server.cpp:866-898 | advancing changes nothing about the plaintext ahead |
| PeerStream.PeerStreamReader.CopyBytes | src/agent/cpp/peer_rpc_server.cpp:904-908 | copying moves bytes from the plaintext ahead to the caller |
| PeerStream.PeerStreamReader.ReadSpan | src/agent/cpp/peer_rpc_server.cpp:900-910 | what is returned plus what is ahead is what was ahead; short only where the thread sleeps, at the end, or on failure |
| PeerStream.PeerStreamReader.Read | src/agent/cpp/peer_rpc_server.cpp:918-931 | throws exactly when the stream failed without a clean end; otherwise returns the next bytes |
| Bye.StepKeepsInv | src/agent/cpp/peer_rpc_server.cpp:308-736 | every section keeps: a handled BYE leaves its mark until DISCONNECT; marks are set before closing and only by an end that sent or received a BYE |
| Bye.HandledByeIsSilent | src/agent/cpp/peer_rpc_server.cpp:308-335 | an end that handled the peer's BYE or acknowledgement never calls the disconnect handler, link failures and simultaneous BYEs included |
| Bye.NoByeIsReported | src/agent/cpp/peer_rpc_server.cpp:308-335 | an end that sent no BYE and handled none always calls it at DISCONNECT |
| Bye.NoSpuriousDisconnect | src/agent/cpp/peer_rpc_server.cpp:671-736 | as long as the link holds, no interleaving of byes, acknowledgements and timeouts calls the handler |
| Bye.HandlerMeansLinkFailure | src/agent/cpp/peer_rpc_server.cpp:308-736 | the handler is called only if the link failed |
| Bye.ByeTable.Begin | src/agent/cpp/peer_rpc_server.cpp:707-710 | marks the connection as waiting for an acknowledgement |
| Bye.ByeTable.StopWaiting | src/agent/cpp/peer_rpc_server.cpp:713-719 | reports the acknowledgement and clears both marks |
| Bye.ByeTable.MarkClosed | src/agent/cpp/peer_rpc_server.cpp:726-729 | marks an orderly close |
| Bye.ByeTable.TakePending | src/agent/cpp/peer_rpc_server.cpp:674-678 | was this end waiting for an acknowledgement? |
| Bye.ByeTable.NoteAck | src/agent/cpp/peer_rpc_server.cpp:687-691 | acknowledged and closed |
| Bye.ByeTable.OnDisconnect | src/agent/cpp/peer_rpc_server.cpp:322-333 | the handler is called unless the connection said BYE; marks are cleared |
| DependencyGraphs.AddKeeps | src/task/cpp/dependency_graph.cpp:8-47 | adding a new task: ready exactly when all inputs are there; dependencies and data recorded; index and liveness kept |
| DependencyGraphs.RemoveKeeps | src/task/cpp/dependency_graph.cpp:192-224 | removing a task keeps everything else |
| DependencyGraphs.ReadyKeeps | src/task/cpp/dependency_graph.cpp:103-120 | arriving data is available afterwards; dependencies stay, no readiness is lost and the graph stays well formed |
| DependencyGraphs.ReadyKeepsLiveIff | src/task/cpp/dependency_graph.cpp:60-120 | it leaves no runnable task pending exactly when each task it completes is listed and was never removed |
| DependencyGraphs.RemovedKeeps | src/task/cpp/dependency_graph.cpp:122-155 | vanishing data is gone, and exactly the ready tasks that need it become pending |
| DependencyGraphs.RemovedKeepsIndexedIff | src/task/cpp/dependency_graph.cpp:122-155 | the index stays complete exactly when every pending task using the data was waiting for it already |
| DependencyGraphs.RunKeepsValid | src/task/cpp/dependency_graph.cpp:8-224 | in every run every task is ready or pending, never both, and ready tasks have their inputs |
| DependencyGraphs.CarefulRunStaysLive | src/task/cpp/dependency_graph.cpp:8-224 | if ids are never reused and data does not vanish under a pending task, no task is left pending with everything it needs |
| DependencyGraphs.ReaddedTaskIsStuck | src/task/cpp/dependency_graph.cpp:60-62 | a pending task that was removed and added again becomes ready in no run that does not remove it once more |
| DependencyGraphs.RequeueExample | src/task/cpp/dependency_graph.cpp:60-120 | add, remove, add again, data arrives: still pending |
| DependencyGraphs.VanishExample | src/task/cpp/dependency_graph.cpp:103-155 | an input that vanishes and returns goes unnoticed |
| DependencyGraphs.DependencyGraph.Enlist | src/task/cpp/dependency_graph.cpp:30-36 | lists a task under a missing input |
| DependencyGraphs.DependencyGraph.Delist | src/task/cpp/dependency_graph.cpp:91-98 | removes an index entry |
| DependencyGraphs.DependencyGraph.Add | src/task/cpp/dependency_graph.cpp:8-47 | the new graph is the specified one |
| DependencyGraphs.DependencyGraph.Satisfied | src/task/cpp/dependency_graph.cpp:74-79 | are all inputs there? |
| DependencyGraphs.DependencyGraph.DelistAll | src/task/cpp/dependency_graph.cpp:90-98 | removes exactly the task's own entries |
| DependencyGraphs.DependencyGraph.CheckAndMoveToReady | src/task/cpp/dependency_graph.cpp:60-101 | moves exactly a pending, never removed task with all inputs, and cleans its index entries |
| DependencyGraphs.DependencyGraph.CheckAll | src/task/cpp/dependency_graph.cpp:113-119 | every affected task is checked once; the result does not depend on the order |
| DependencyGraphs.DependencyGraph.MarkReady | src/task/cpp/dependency_graph.cpp:103-120 | the new graph is the specified one |
| DependencyGraphs.DependencyGraph.EnlistMissing | src/task/cpp/dependency_graph.cpp:148-153 | lists a task under all inputs missing now |
| DependencyGraphs.DependencyGraph.DemoteAll | src/task/cpp/dependency_graph.cpp:140-154 | all affected ready tasks become pending and are listed again |
| DependencyGraphs.DependencyGraph.MarkRemoved | src/task/cpp/dependency_graph.cpp:122-155 | the new graph is the specified one |
| DependencyGraphs.DependencyGraph.Remove | src/task/cpp/dependency_graph.cpp:192-224 | the new graph is the specified one |
| TaskLifecycle.AssignAgreesIff | src/agent/cpp/master_agent.cpp:1097-1122 | decision and assignment keep graph and metadata together exactly when every chosen worker had its connection |
| TaskLifecycle.ScheduleAgreesIff | src/agent/cpp/master_agent.cpp:1103-1198 | the whole scheduling section, both verdicts and eviction included, keeps them together under the same condition and no other |
| TaskLifecycle.RequeueAgreesIff | src/agent/cpp/master_agent.cpp:2341-2354 | a requeue keeps them together exactly when the metadata is still there in its section |
| TaskLifecycle.StepAgreesIff | src/agent/cpp/master_agent.cpp:879-2531 | for every section of submission, reports, death, exit, requeue, drain, fast exit, lost data and restart: the graph holds exactly the PENDING tasks afterwards if and only if the step is orderly |
| TaskLifecycle.TablesNeverDiverge | src/agent/cpp/master_agent.cpp:633-3734 | at every moment of every run the graph holds exactly the tasks whose metadata says PENDING, exactly when every step of the run is orderly |
| Scenarios.TablesCanDiverge | src/agent/cpp/master_agent.cpp:2341-2354 | a run in which the metadata is evicted between the lookup and the requeue: the task is in the graph without metadata |
| TaskLifecycle.StepKeepsValid | src/agent/cpp/master_agent.cpp:879-3734 | orderly or not, every step keeps the graph well formed, and only submissions and requeues add to it |
| TaskLifecycle.AlwaysSettled | src/agent/cpp/master_agent.cpp:879-3734 | in every run, orderly or not, a known task of the graph is PENDING and a PENDING task is assigned to nobody |
| TaskLifecycle.ReportDecides | src/agent/cpp/master_agent.cpp:1985-2067 | a completion report ends its task as COMPLETED and a failure report as FAILED, out of the graph; besides it only the evicted finished tasks change |
| TaskLifecycle.HandlerFails | src/agent/cpp/master_agent.cpp:633-637 | fast exit ends its task as FAILED, and so does lost data, out of the graph |
| TaskLifecycle.RecoveryFails | src/agent/cpp/master_agent.cpp:2257-2320 | so do the death handler during a drain and the exit handler, which spares a task that no longer runs |
| TaskLifecycle.ComingBack | src/task/cpp/worker_manager.cpp:9-79 | a registration makes the worker idle whatever it was, a reconnect leaves a busy worker busy; no other worker changes |
| TaskLifecycle.StepNoOrphanIff | src/agent/cpp/master_agent.cpp:1350-2361 | if every task running on a gone worker is on the list of that worker's handler, then so it is after a step, exactly unless the step is the heartbeat monitor's mark on a worker with a running task that is on no list |
| TaskLifecycle.SilentKeepsNoOrphanIff | src/task/cpp/heartbeat_monitor.cpp:33-36 | the mark leaves no orphan exactly when everything running on the worker is on its handler's list |
| TaskLifecycle.OnlyHeartbeatOrphans | src/agent/cpp/master_agent.cpp:1350-2361 | at every moment of every run no task is orphaned, exactly when every heartbeat mark of the run is harmless |
| Scenarios.SilentWorkerOrphans | src/task/cpp/heartbeat_monitor.cpp:33-36 | a run in which a worker falls silent with its connection open: it is dead, its task runs on, and no handler has it |
| TaskLifecycle.HandlerTakesOver | src/agent/cpp/master_agent.cpp:2295-2300 | declaring a known worker dead or exited puts everything that runs on it on the list, earlier orphans included |
| TaskLifecycle.StepTakenOver | src/agent/cpp/master_agent.cpp:1350-2361 | until the worker comes back, every step, heartbeat marks included, keeps it gone and everything that runs on it on the list |
| TaskLifecycle.HandlerLeavesNoOrphan | src/agent/cpp/master_agent.cpp:2237-2361 | from any state, after a known worker was declared dead or exited and in every run until it comes back, what runs on it is on its handler's list, and nothing does once the list is empty |
| Scenarios.RaceIsReachable | src/agent/cpp/master_agent.cpp:1932-1989 | a run in which a task is requeued and reassigned between check and change, and the change then takes it from the other worker |
| LateReports.ApplyTakesFromOtherIff | src/agent/cpp/master_agent.cpp:1985-2067 | applying a report, completed or failed, takes a running task from another worker exactly when the report is stale when it is applied and that run is still going |
| LateReports.StaleIffGivenAway | src/agent/cpp/master_agent.cpp:1932-2058 | whatever happens between check and application, a report is stale in the end exactly when its task is known and was last given to a third worker; reports accepted for unassigned or unknown tasks included |
| LateReports.AcceptedReportStaysGood | src/agent/cpp/master_agent.cpp:1932-1989 | a report accepted for a task out of the graph and held by its own worker stays good in every run without a requeue or submission of that task |
| Verdict.HopelessForever | src/agent/cpp/master_agent.cpp:1149-1168 | with nothing ready or running and without hope, no run short of submissions and outside writes makes a task ready |
| Verdict.HopeCanCome | src/agent/cpp/master_agent.cpp:1149-1168 | with hope, some run without submissions, restarts and outside writes does: reports in flight or still owed bring the data, a finished task that makes one stale being evicted first, or a handler requeues a task |
| Verdict.ListedCanRun | src/agent/cpp/master_agent.cpp:2339-2354 | a task on the list of a death handler whose inputs are there or can come becomes ready although nothing was ready or running |
| Verdict.VerdictIsRightIff | src/agent/cpp/master_agent.cpp:1149-1168 | with nothing ready or running, some run without submissions and outside writes makes a task ready exactly when a pending or listed task can get its missing inputs from reports in flight or owed; leaving restarts out changes nothing |
| Verdict.VerdictIsSound | src/agent/cpp/master_agent.cpp:1097-1168 | in particular when every execution was reported, every report has marked its data and every task a handler will requeue misses an input |
| Verdict.MarkedBeforeLeaving | src/agent/cpp/master_agent.cpp:1953-1989 | from the acceptance of a running task's completion report, unless the task is taken away or its data lost: whenever nothing runs, and whenever the report can be applied, everything it wrote is available |
| Scenarios.LateReportDefiesVerdict | src/agent/cpp/master_agent.cpp:1933-1963 | a run into the verdict in which a late report of a requeued and failed task then makes the condemned task ready |
| Scenarios.OutsideWriteDefiesVerdict | src/agent/cpp/master_agent.cpp:3250-3272 | a task waiting for an object the master is about to write is condemned at once, although the write would make it ready |
| Verdict.SplitSectionMisjudges | src/agent/cpp/master_agent.cpp:1103-1122 | with the assignment in another section the verdict could hit a task whose input is about to be produced |
| TaskLifecycle.MasterAgent.SubmitTask | src/agent/cpp/master_agent.cpp:937-941 | the task is in both tables, pending |
| TaskLifecycle.MasterAgent.FinishTask | src/agent/cpp/master_agent.cpp:1985-1989 | the given verdict is in the metadata of the task if it is known, the task is out of the graph, and nothing else changes |
| TaskLifecycle.MasterAgent.FailAndPersist | src/agent/cpp/master_agent.cpp:1044-1064 | every given task leaves the graph and fails; nothing else changes |
| TaskLifecycle.MasterAgent.AssignPicks | src/agent/cpp/master_agent.cpp:1116-1122 | picked tasks leave the graph, picked workers are busy, and a known task whose worker is connected is RUNNING on the worker picked for it |
| TaskLifecycle.MasterAgent.AnyRunning | src/task/cpp/task_manager.cpp:236-239 | is any task running? |
| TaskLifecycle.MasterAgent.JudgePending | src/agent/cpp/master_agent.cpp:1149-1168 | fails all pending tasks exactly when nothing is ready and nothing runs |
| TaskLifecycle.MasterAgent.RequeueTask | src/agent/cpp/master_agent.cpp:2349-2354 | back in the graph, pending and unassigned |
| TaskLifecycle.MasterAgent.RequeueAll | src/agent/cpp/master_agent.cpp:2339-2361 | exactly the given tasks |
| TaskLifecycle.MasterAgent.HandleWorkerDeath | src/agent/cpp/master_agent.cpp:2295-2361 | without interference: the worker is dead, exactly its running tasks are requeued, the tables agree |
| WorkerIdentity.AcceptKeepsInverseIff | src/agent/cpp/master_agent.cpp:1588-1593 | accepting keeps the tables inverse exactly when the connection does not speak for another worker |
| WorkerIdentity.RegisterKeeps | src/agent/cpp/master_agent.cpp:1475-1593 | registration, with probe, deferral and replay, keeps them inverse |
| WorkerIdentity.DisconnectKeeps | src/agent/cpp/master_agent.cpp:2131-2158 | so does a disconnect with its replay |
| WorkerIdentity.OneConnectionPerWorker | src/agent/cpp/master_agent.cpp:1475-2717 | in every run the two connection tables are inverse to each other |
| WorkerIdentity.IdMovesOnlyWhenReleased | src/agent/cpp/master_agent.cpp:1499-1593 | an id leaves a connection only after its disconnect was processed or a probe on it failed |
| WorkerIdentity.LateDisconnectIsHarmless | src/agent/cpp/master_agent.cpp:2138-2153 | a late disconnect of a connection without an id changes no mapping |
| WorkerIdentity.ConfirmedKeepsId | src/agent/cpp/master_agent.cpp:1499-1526 | a connection confirmed alive within 30 seconds keeps its id; the newcomer and a deferred registration are told they are duplicates |
| WorkerIdentity.RegisterIsAnswered | src/agent/cpp/master_agent.cpp:1475-1593 | every registration is accepted, turned down or deferred for 15 seconds |
| WorkerIdentity.RegisterDecides | src/agent/cpp/master_agent.cpp:1475-1593 | which answer when: accepted if nobody else holds the id, or the holder is dead or dies at the probe, which then has lost it; turned down if the holder was confirmed within 30 seconds; otherwise put on hold |
| WorkerIdentity.ProbeAckConfirms | src/agent/cpp/master_agent.cpp:304-312 | an answered probe confirms the holder now and turns a registration on hold down; connections stay |
| WorkerIdentity.DeadlineRejects | src/agent/cpp/master_agent.cpp:2708-2717 | a registration on hold is turned down once its deadline has come, and not before |
| WorkerIdentity.DisconnectReleases | src/agent/cpp/master_agent.cpp:2131-2158 | a disconnect takes the id from its connection and the confirmation from its worker; a registration on hold is accepted then |
| WorkerIdentity.ReplayMayBindGone | src/agent/cpp/master_agent.cpp:2158 | after replay the id sits on a live connection exactly when the deferred one had not gone |
| WorkerIdentity.GoneConnectionHoldsId | src/agent/cpp/master_agent.cpp:1475-2158 | a run in which the newcomer gives up first: afterwards the id sits on a connection whose disconnect was processed |
| WorkerIdentity.Registry.Reject | src/agent/cpp/master_agent.cpp:2685-2696 | a deferred registration is answered and forgotten |
| WorkerIdentity.Registry.OnWorkerRegister | src/agent/cpp/master_agent.cpp:1475-1593 | the handler decides as specified (which answer when: RegisterDecides); its recursion through replay terminates |
| WorkerIdentity.Registry.ReplayDeferred | src/agent/cpp/master_agent.cpp:2698-2707 | replays at most one registration |
| WorkerIdentity.Registry.HandleDisconnect | src/agent/cpp/master_agent.cpp:2131-2158 | the handler is the specified function |
| WorkerIdentity.Registry.HandleProbeAck | src/agent/cpp/master_agent.cpp:304-312 | the worker is confirmed now, a registration on hold gets the answer that it is a duplicate, and the connection tables stay |
| WorkerIdentity.Registry.CheckDeadlines | src/agent/cpp/master_agent.cpp:2708-2717 | exactly the expired registrations are turned down |
| ObjectNames.SplitOfFullName | src/storage/cpp/data_service.h:27-33 | splitting a full name undoes joining exactly when the short name has no colon |
| ObjectNames.NoColonNoObject | src/storage/cpp/data_service.h:27-33 | a name without a colon belongs to no database; any other is its two parts joined |
| Freeze.RegisterKeepsSealedIff | src/agent/cpp/master_agent.cpp:3199-3235 | a registration leaves frozen databases closed exactly when its object belongs to no cleaned one, or the database the message names is closed, or it has no hash |
| Freeze.StepKeepsSealed | src/agent/cpp/master_agent.cpp:2967-3235 | every section keeps the provenance of cleaned, frozen databases empty |
| Freeze.FreezeClosesProvenance | src/agent/cpp/master_agent.cpp:2967-4159 | in every interleaving, once a freeze's cleanup has run, the provenance stays empty as long as the database is frozen |
| Freeze.StaysCleaned | src/agent/cpp/master_agent.cpp:4890-4900 | only unfreezing after a merge ends that |
| Freeze.InconsistentWriteSlipsIn | src/agent/cpp/master_agent.cpp:3204-3227 | a message naming another database gets in |
| Freeze.SameHash | src/agent/cpp/master_agent.cpp:3134-3154 | two accepted registrations of one object without an erase in between carry the same hash |
| Freeze.TwoPhaseFreeze | src/agent/cpp/master_agent.cpp:2967-3027 | from an accepted task freeze until the task's outcome every registration is turned down; afterwards frozen, or writable again unless frozen by someone else, and nothing is pending |
| Freeze.FreezeHolds | src/agent/cpp/master_agent.cpp:4083-4156 | from an accepted stream freeze or a freeze by the master, in every run without an unfreeze, every write to the database is turned down, and after the cleanup its provenance stays empty |
| Freeze.UnfreezeReopens | src/agent/cpp/master_agent.cpp:4894-4900 | unfreezing after a merge reopens that database, pending freeze included, and no other |
| Freeze.EraseForgets | src/agent/cpp/master_agent.cpp:3157-3165 | after an erase the object may be written again with any hash unless its database is closed; all other objects keep theirs |
| Freeze.FreezeTables.CheckAndRegister | src/agent/cpp/master_agent.cpp:3134-3154 | first write wins, the same hash again is fine |
| Freeze.FreezeTables.WriteRegister | src/agent/cpp/master_agent.cpp:3191-3235 | turned down if closed or without a hash, accepted exactly if the object is new or has the same hash, and then its hash is kept; nothing else changes |
| Freeze.FreezeTables.FreezeRequest | src/agent/cpp/master_agent.cpp:4083-4113 | refused if frozen or pending, and then nothing changes; in stream mode frozen at once, otherwise pending for the task and not frozen |
| Freeze.FreezeTables.FreezeByMaster | src/agent/cpp/master_agent.cpp:4145-4156 | frozen afterwards in any case, even over a pending freeze; tells whether it was not before; no other database changes |
| Freeze.FreezeTables.ConfirmAll | src/agent/cpp/master_agent.cpp:2971-2981 | the loop over pending freezes confirms exactly those of the task |
| Freeze.FreezeTables.CommitPending | src/agent/cpp/master_agent.cpp:2967-2981 | exactly the task's pending freezes are confirmed; the newly frozen databases are returned |
| Freeze.FreezeTables.DropAll | src/agent/cpp/master_agent.cpp:3019-3026 | the loop drops exactly those of the task |
| Freeze.FreezeTables.RollbackPending | src/agent/cpp/master_agent.cpp:3015-3027 | exactly the task's pending freezes are dropped |
| Freeze.FreezeTables.ProvenanceErase | src/agent/cpp/master_agent.cpp:3157-3165 | the object is forgotten and no other; a database without objects is dropped |
| Freeze.FreezeTables.CleanupProvenance | src/agent/cpp/master_agent.cpp:3167-3170 | a database's provenance is dropped |
| DeadWorkerWaits.DecimalInjective | src/agent/cpp/master_agent.cpp:2407 | different worker ids print differently |
| DeadWorkerWaits.SuffixMatchesWorker | src/agent/cpp/master_agent.cpp:2405-2419 | the suffix test picks exactly that worker's keys, whatever the database is called; only a nameless database escapes |
| DeadWorkerWaits.SuffixSnapshotIff | src/agent/cpp/master_agent.cpp:2405-2419 | the snapshot by suffix is the set of the worker's open deletions exactly when none of them is for a nameless database |
| DeadWorkerWaits.NamedRun | src/agent/cpp/master_agent.cpp:2405-2430 | with named databases every run of the deletion table, suffix snapshots included, is a run of the wait system |
| DeadWorkerWaits.GoneWorkerReleasesDeletes | src/agent/cpp/master_agent.cpp:2384-4637 | in every such run no deletion asked from a gone and settled worker is open |
| DeadWorkerWaits.NamelessDeleteHangs | src/agent/cpp/master_agent.cpp:2405-2419 | a deletion in a nameless database stays open after its worker is gone and settled |
| DeadWorkerWaits.StepKeepsAwaited | src/agent/cpp/master_agent.cpp:2384-2455 | every section keeps: an open, dispatched wait has a connected worker, a handler to come, or is on a handler's list |
| DeadWorkerWaits.GoneWorkerReleasesWaits | src/agent/cpp/master_agent.cpp:2384-4637 | for every interleaving of dispatch, disconnect and settlement: no wait for a gone and settled worker is open |
| DeadWorkerWaits.ReleasedStaysReleased | src/agent/cpp/master_agent.cpp:4437-4637 | a released wait stays released until consumed |
| DeadWorkerWaits.SettleTouchesOwn | src/agent/cpp/master_agent.cpp:2405-2455 | settling completes only open waits for that worker |
| DeadWorkerWaits.WaitEnds | src/agent/cpp/master_agent.cpp:2405-4695 | an open wait ends with the verdict of the worker if it answers, and as failed if the worker is not connected or is settled; every other wait stays as it is |
| DeadWorkerWaits.WaitTables.SendMergeTask | src/agent/cpp/master_agent.cpp:4437-4511 | the wait is opened for the worker, and failed at once if it is not connected |
| DeadWorkerWaits.WaitTables.SendDeleteData | src/agent/cpp/master_agent.cpp:4588-4637 | an existing entry is kept; a missing connection fails the wait |
| DeadWorkerWaits.WaitTables.OnDeleteAck | src/agent/cpp/master_agent.cpp:4680-4695 | the entry of that worker and database is completed with the worker's verdict if it is there; every other entry stays |
| DeadWorkerWaits.WaitTables.SettleDeletes | src/agent/cpp/master_agent.cpp:2405-2430 | exactly the worker's open deletions fail |
| DeadWorkerWaits.WaitTables.SettleMerges | src/agent/cpp/master_agent.cpp:2432-2455 | exactly the worker's open merge tasks fail |
| Restart.OldDbArgParsesIff | src/agent/cpp/master_agent.cpp:825-875 | the old form with uid, path and data path is parsed to uid and path exactly when the data path has no colon or repeats the path before its first one; otherwise that part is taken for the path |
| Restart.DbArgRoundTrip | src/agent/cpp/master_agent.cpp:856-875 | an encoded database argument parses to its uid and path |
| Restart.ArgAtCurrentPath | src/agent/cpp/master_agent.cpp:3702-3708 | a rewritten database argument names its uid's current path |
| Restart.RenameMovesDb | src/agent/cpp/master_agent.cpp:3692-3700 | an object name moves with its database and keeps its short name |
| Restart.SwappedPaths | src/agent/cpp/master_agent.cpp:3692-3700 | the substitution is simultaneous: swapped paths are swapped |
| Restart.NamesFollowIff | src/agent/cpp/master_agent.cpp:3665-3700 | names follow all arguments exactly when no two databases in different places had the same old path |
| Restart.ReusedPathConfuses | src/agent/cpp/master_agent.cpp:3665-3700 | a file in which one database moved away and another took its path: names cannot follow both |
| Restart.RewrittenAtCurrent | src/agent/cpp/master_agent.cpp:3701-3720 | every database argument of the result is at its current path |
| Restart.RewriteIsIdempotent | src/agent/cpp/master_agent.cpp:3665-3720 | a second rewrite changes nothing |
| Restart.RewriteRestarts | src/agent/cpp/master_agent.cpp:3701-3720 | what a record becomes: its id, hash and other arguments stay, database arguments keep uid and name the current path, inputs, variables and outputs move with their databases if no two share an old path, and an owner becomes the directory of the file |
| Restart.OldestDbArgIsRefused | src/agent/cpp/master_agent.cpp:825-875 | of the oldest form, path and data path without a uid, the data path is taken for the path, and a restart refuses it |
| Restart.RestartService.CheckKwargs | src/agent/cpp/master_agent.cpp:3647-3658 | every record ends with a keyword section |
| Restart.RestartService.ResolveRecord | src/agent/cpp/master_agent.cpp:3667-3688 | resolves one record's arguments or refuses |
| Restart.RestartService.ResolveAll | src/agent/cpp/master_agent.cpp:3665-3689 | resolves every argument of every record or refuses the file |
| Restart.RestartService.RenameEach | src/agent/cpp/master_agent.cpp:3709-3711 | every name is renamed |
| Restart.RestartService.RewriteOne | src/agent/cpp/master_agent.cpp:3701-3720 | one record rewritten |
| Restart.RestartService.RewriteAll | src/agent/cpp/master_agent.cpp:3701-3720 | all records rewritten with one map |
| Restart.RestartService.Resubmit | src/agent/cpp/master_agent.cpp:3730-3738 | each record once, in order |
| Restart.RestartService.RestartFailedTasks | src/agent/cpp/master_agent.cpp:3625-3742 | either every record is resubmitted once in the form RewriteRestarts describes and the file is gone, or nothing is and the file stays; and exactly when which |

## Left out

- Sockets, threads, the reactor, logging, metrics and user messages: no state that feeds back.
- Floating-point rounding in interpolation: doubles are reals.
- Size overflow of `1 << dim` and of cell counts: sizes are unbounded.
- Storage, compression and checksum code: an invertible compressor and a 64-bit checksum are parameters.
- The plaintext queue of the stream writer: writes reach the pipeline in order.
- Decoding of START and END frames: an encoding of totals that is undone by parsing is a parameter, and START bodies are taken as well formed.
- Wrap-around of the 32-bit block count: both ends count without a bound.
- Stopping a server while a stream is open: a stream fails by a lost connection only.
- Task priorities, capabilities and locality: the scheduler's choice is any choice of ready tasks and idle workers.
- The number 100 of finished tasks kept in the metadata: any finished tasks may be evicted at any time.
- Grace periods after a disconnect: reconnecting and being declared dead are steps that may come at any time.
- Waits whose message was lost on a connection that came back: such a wait ends only with an answer or with the worker's end.
- The load barrier and the merge cleanup barrier: the first is not sticky and the second can count a worker twice.
- Loading databases and the failed-task file format: records are read and written as values.
- Auto-backup, storage takeover and spawning, configuration, project scripts and the solver.
