# Azure storage elements: a verified model

The plugin moves a media stream to and from blob storage through three components: a block uploader, an append
uploader and a prefetching downloader. This project models them in Dafny and proves what they guarantee under every
interleaving of their threads and every failure of a request. Where the code does not guarantee what its functions
promise, the project keeps the code's behaviour, gives a run that shows it, and proves exactly when the promise holds.

## How it is organised

**Block uploader.** `UploadProtocol` is the step system: the thread that calls `upload`, `flush` and `destroy`, any
number of workers, and the two threads that can be inside `doCommit` (the caller of `flush`, and the committer). One
action is one atomic step of one thread; a wait is a guard. Nothing is serialised in it: both committing threads move
freely, `pop` and `commitBlock` are separate steps, and so are `pop` and `enterJob`. Requests may fail, and may take
effect although they failed. `UploadInvariant` proves what every run keeps. `UploadSerial` and `UploadCommit` prove what
holds when one committing thread at a time is busy (a precondition the code does not enforce), and exactly when data is
left out of a commit or lost. `UploadOverclaim` is about runs that are not serialised: when `committedId` claims too much,
and when a published block disappears. `UploadDestroy` says when `destroy` leaves nothing behind. `UploadHazards` holds
concrete runs. `CommitSpec` and `WorkerSpec` give one call of
`doCommit` and one turn of a worker as functions, and show each to be a run of the step system;
`CommitOutcome` says how far the call goes and what it publishes. `BlockUploader` is the
class with the fields and methods of the source, each method proved against these functions. `Ledger`, `Batching`,
`MinHeap` and `BlockingQueue` are the pieces: reordering of completed ids, cutting of blocks, the heap and the channel.

**Downloader.** `Prefetch` treats blocks as values: tiling, coverage and the window. `Downloader` is the class: inside the
wait of `read` the workers start and complete requests in any order. `Schedules` interleaves the turns of `read` with the
steps of the workers, as the completion lock lets them, and proves exactly when a read can be cut short; `Arrivals` says it
without schedules, by which requests can have arrived before which, and `SeekReads` by the ends of the requests left from
before a seek. `Src` is the fill loop of the source element.

**Append uploader.** `AppendProtocol` is its step system, `AppendUploader` the classes.

**Block names.** `Base64` is `base64_encode`, the standard encoding of section 4 of RFC 4648 and a decoder, and shows
why the service may be modelled by block ids.

## Where the code falls short of its promise

- `flush` may return with data uncommitted. `wait_empty` is released by the last `pop`, while the block is still being
  uploaded, and the guard of `doCommit` (src/blockazureuploader.cpp:185) looks at `nextCommitId` before it waits for
  workers or collects responses, one of which the committer thread may have in hand. `EarlyReturnIsCompleteIff` and
  `FlushCommitIsCompleteIff` give the conditions for the two ways `flush` returns; `FlushOvertakesWorker`,
  `FlushMissesResponse` and `FlushMissesTakenResponse` are runs.
- `destroy` may lose a reported block for good: `DestroyLosesResponse` is a run. `DestroyIsCompleteIff` says when it does not:
  exactly when the response queue is empty at the moment it is closed, as long as `committedId` is honest.
- A worker pops before it enters the barrier. `WindowIsEmptyIff`, `BarrierIsCompleteIff` and `DiscardingPutLosesIff` say
  when a commit leaves a block out and when a service that discards unlisted blocks drops it; `OvertakenBlockIsLost` is a
  run, and `AtomicEntryCompletesBarrier` shows that entering together with popping would close the gap.
- Two threads inside `doCommit` can record more than they put, and a put that takes effect late can take published blocks
  away again. `RunBackedIff` and `StepKeepsBlobIff` give the conditions at the service; `QuietRunsAreBacked` and
  `GrowthInFlightOverclaims` give one the threads could keep, that the list grows only while no put is in flight.
  `OverclaimIsForever` shows that the uploader does not recover, and `TwoCommittersOverclaim` and `LatePutErasesBlock` are
  runs. That the blob only grows holds in serialised runs (`BlobOnlyGrows`).
- `commitBlock` reads `window.front()` of an empty vector: `FrontReadOnEmptyWindowIff`.
- `read` returns short after a seek when it meets a block that ends before the cursor, which may have moved on since the
  seek. `CanBeShortIff` and `CanBeShortExactly` say when some schedule cuts a read short, for any state;
  `SeekReadShortExactly` and `SeekReadShortIff` say it for a read after a seek, by the requests left from before; `LateBlockCutsRead` is a run. Without seeks this branch is
  never taken: the contract of `AzureDownloader.Read`. It waits for ever exactly at the end of the blob.
- `gst_azure_src_fill` does not record the offset it seeks to: `Fill` says when the recorded position is the cursor, and
  `FillAfterSeekIsMisplaced` shows a later fill that plays from elsewhere.
- The append worker announces an empty stream after testing it without a lock, and drops a refused chunk:
  `FinishedIsTruthfulIff`, `NothingIsDroppedIff`, `ExitIsCompleteIff`, and the run `DestroyCanDropAppend`.
- `base64_encode` drops the last group when the length is a positive multiple of 3: `DecodesIff`. Block ids have 8
  bytes, so names are not affected: `NamesAreDistinct`.
- `getStreamLen` returns 32 bits: `FeedLeavesUncutIff`, `RestIsLeftUncutIff`, `ChunkExceedsCapIff`.

## Model

| member | source | states |
|---|---|---|
| `UploadInvariant.StepInv` | src/blockazureuploader.cpp:69-255 | Every atomic step of every thread keeps the joint invariant over request queue, workers, response queue, window, block list and remote blob: ids popped so far are each in exactly one place, and job contents are the blocks of their numbers |
| `UploadInvariant.PrefixSafety` | src/blockazureuploader.cpp:69-255 | After any run, unserialised and with any failures, the remote blob is whole blocks 1, 2, .. in order and a prefix of the bytes passed to `upload` |
| `UploadInvariant.NothingIsLostOrInvented` | src/blockazureuploader.cpp:69-104 | In any run, the blocks cut so far followed by the open stream are all bytes ever passed to `upload`, in order |
| `UploadInvariant.BlocksAreRunsOfFrames` | src/blockazureuploader.cpp:69-96 | In any run, the frames of the blocks in id order, then those of the open stream, are the frames passed to `upload`, none split, lost, repeated or moved; and each block is its group of frames written out |
| `UploadInvariant.BlocksAreFrameGroups` | src/blockazureuploader.cpp:73-96 | In any run with frames small enough for 32-bit lengths, every block reaches the block size with its last frame and not before, or is a rest below the block size, and the stream stays below it |
| `UploadInvariant.CutsAreGroups` | src/blockazureuploader.cpp:73-96 | In any such run, the next step cuts nothing, or cuts what was open: as a full group if it is an `upload`, with the frame uploaded, and as a shorter rest if it is a `flush` |
| `UploadInvariant.WorkerConserved` | src/blockazureuploader.cpp:137-159 | A worker's step moves a popped id to exactly one other place, never to two or none |
| `UploadInvariant.CommitterConserved` | src/blockazureuploader.cpp:168-216 | A committing thread's step moves an id between response queue, hand, window and list without loss or duplication |
| `UploadInvariant.PutPublishesBlocks` | src/blockazureuploader.cpp:200-210 | A put of a listed prefix that the service accepts makes the blob exactly those blocks, each under its own number |
| `UploadSerial.RunsSerial` | src/blockazureuploader.cpp:183-255 | In serialised runs, past the barrier no worker is inside a job, the list sent is the list held, and the blob has `committedId` or all listed blocks according to the stage of the commit |
| `UploadSerial.BarrierExcludesWorkers` | include/blockazureuploader.hpp:80-106 | From the return of `waitFlush` to the return of `disableFlush`, the semaphore is full, no worker is inside a job and none can enter |
| `UploadSerial.CommittedIsPublished` | src/blockazureuploader.cpp:204-207 | `committedId` never claims more than the blob holds, and outside a put the blob is exactly blocks 1 to `committedId` |
| `UploadSerial.BlobOnlyGrows` | src/blockazureuploader.cpp:199-216 | In a serialised run, the committed blob is only extended |
| `UploadCommit.GapIsPopped` | src/blockazureuploader.cpp:137-145 | Past the barrier with the responses collected, the least id missing is held by a worker between `pop` and `enterJob` |
| `UploadCommit.WindowIsEmptyIff` | src/blockazureuploader.cpp:188-194 | After the drain the window is empty exactly when no worker between `pop` and `enterJob` was overtaken by a later id |
| `UploadCommit.BarrierIsCompleteIff` | src/blockazureuploader.cpp:188-202 | The list about to be put is all ids ever popped exactly when no worker stands between `pop` and `enterJob` |
| `UploadCommit.AtomicEntryCompletesBarrier` | src/blockazureuploader.cpp:137-202 | In every serialised run in which each worker enters in the same breath as it pops, each commit finds an empty window and lists all popped ids, every listed block is published or staged, and the service accepts the list |
| `UploadCommit.GentleRunsStayIntact` | src/blockazureuploader.cpp:183-217 | While no put leaves out a block that the service then discards, every reported block stays published or staged |
| `UploadCommit.PutCanSucceed` | src/blockazureuploader.cpp:199-215 | In such runs every list sent names only committed or staged blocks, so the retry loop can end |
| `UploadCommit.SentIsAcceptedIff` | src/blockazureuploader.cpp:199-215 | In any serialised run, the list sent is accepted exactly when no listed block has been lost |
| `UploadCommit.PutLosesIff` | src/blockazureuploader.cpp:188-203 | A put loses a block exactly when the window holds one that the service does not keep |
| `UploadCommit.DiscardingPutLosesIff` | src/blockazureuploader.cpp:137-203 | With a service that discards unlisted blocks, a put loses one exactly when a worker was overtaken |
| `UploadCommit.LostForever` | src/blockazureuploader.cpp:168-216 | A lost block, and every later one, is never published in any continuation, and no list that reaches it is ever accepted |
| `UploadCommit.FlushCommitIsCompleteIff` | src/blockazureuploader.cpp:86-104 | With everything cut and popped, as `flush` waits for, an acknowledged put has published every block exactly when no worker stood between `pop` and `enterJob`; then the blob is every byte ever uploaded and `committedId` is `nextId - 1` |
| `UploadCommit.EarlyReturnIsCompleteIff` | src/blockazureuploader.cpp:183-187 | In any run, when the guard of `doCommit` returns with the request queue empty, the blob is complete exactly when no response is waiting, no worker holds a job, no committing thread has a response in hand, and `committedId` is not an overclaim |
| `UploadCommit.SerialisedReturnIsCompleteIff` | src/blockazureuploader.cpp:183-187 | The same in serialised runs, where `committedId` is never an overclaim |
| `UploadDestroy.DestroyIsCompleteIff` | src/blockazureuploader.cpp:106-125 | In any run, from the moment the response queue is closed: once the committer is done, every block ever cut has been published exactly when no response was left in the queue at that moment and `committedId` is not an overclaim |
| `UploadDestroy.SerialisedDestroyIsCompleteIff` | src/blockazureuploader.cpp:106-125 | In serialised runs, exactly when the response queue was closed empty; then the blob is every byte ever uploaded |
| `UploadOverclaim.MarksResolveIff` | src/blockazureuploader.cpp:207-214 | In any run, every entry marked `committed` names a published block exactly when `committedId` is at most the length of the blob |
| `UploadOverclaim.StepBackedIff` | src/blockazureuploader.cpp:199-214 | Of all steps of all threads, only two make `committedId` overclaim: recording a put while the list is longer than the blob, and a put that takes effect with a list shorter than `committedId` |
| `UploadOverclaim.RunBackedIff` | src/blockazureuploader.cpp:183-255 | Over any run, `committedId` never overclaims exactly when every put is recorded and takes effect in turn |
| `UploadOverclaim.CompletedPutIsBackedIff` | src/blockazureuploader.cpp:202-214 | In any run, a put that takes effect and is recorded next keeps `committedId` honest exactly when no block has joined the list since it was sent |
| `UploadOverclaim.QuietRunsAreBacked` | src/blockazureuploader.cpp:168-217 | However the threads interleave, `committedId` never overclaims if `commitBlock` lengthens the list only while no put is in flight |
| `UploadOverclaim.GrowthInFlightOverclaims` | src/blockazureuploader.cpp:168-217 | A block that joins the list while an acceptable put is in flight leaves a run that overclaims two steps later |
| `UploadOverclaim.StepKeepsBlobIff` | src/blockazureuploader.cpp:199-204 | In any run, a step keeps every published block exactly when it is not a put whose list is shorter than the blob |
| `UploadOverclaim.OverclaimIsForever` | src/blockazureuploader.cpp:183-217 | Once a block is marked and not published, with no older list on its way, it is never published and the list is never accepted again, in any continuation |
| `UploadCommit.ListOnlyExtends` | src/blockazureuploader.cpp:174-214 | Over any step the block list keeps its ids, entries stay committed, new entries are `latest`, and an entry is committed iff its id is at most `committedId` |
| `UploadCommit.ClosedResponsesAreNeverPublished` | include/utils/blockingqueue.hpp:60-67 | Responses still queued when the response queue is closed stay there, and their blocks are never published in any continuation |
| `UploadHazards.FlushOvertakesWorker` | include/utils/blockingqueue.hpp:69-71 | A run in which `flush` returns while a worker is uploading the only block |
| `UploadHazards.FlushMissesResponse` | src/blockazureuploader.cpp:99-102 | A run after which `flush` has nothing to commit although one block is staged and reported |
| `UploadHazards.FlushMissesTakenResponse` | src/blockazureuploader.cpp:185-187 | A serialised run in which `flush` returns at the guard while the committer has the only response in hand: no queue and no worker holds the block |
| `UploadHazards.DestroyLosesResponse` | src/blockazureuploader.cpp:107-125 | A run of `flush` and `destroy` that closes the queue on a response: in no continuation is the block published |
| `UploadHazards.OvertakenBlockIsLost` | src/blockazureuploader.cpp:137-145 | A run in which a commit falls between `pop` and `enterJob` and block 3 is lost for good |
| `UploadHazards.TwoCommittersOverclaim` | src/blockazureuploader.cpp:102-255 | An unserialised run after which `committedId` exceeds the blob for good and the list can never be put again |
| `UploadHazards.LatePutErasesBlock` | src/blockazureuploader.cpp:102-255 | An unserialised run in which a published and recorded block disappears for good when an older list takes effect late |
| `CommitSpec.DoCommitIsARun` | src/blockazureuploader.cpp:183-218 | Each outcome of `doCommit` as a function (nothing to do, waiting, exception, retrying, committed) is a run of the step system that ends in that view, with the thread returned, at the wait, at the exception, or before its next put |
| `CommitOutcome.DoCommitOutcome` | src/blockazureuploader.cpp:183-218 | Each outcome of `doCommit` exactly when its condition on what the call finds holds, and what each leaves behind |
| `CommitOutcome.DoCommitPublishes` | src/blockazureuploader.cpp:183-218 | From any state of any run with something uncommitted, every worker outside, the response queue open, and a service that has the blocks and acknowledges a put, the call commits: every response is taken in, the blob is blocks 1 to `committedId`, all before the least id missing, and the gate is open again |
| `CommitOutcome.PutLoopAckedIff` | src/blockazureuploader.cpp:199-215 | The retry loop ends exactly when the list resolves and some put is acknowledged; refused puts change nothing |
| `CommitOutcome.PutLoopPublishes` | src/blockazureuploader.cpp:199-215 | Once a put has been applied, acknowledged or not and however often it is repeated, the blob is the listed blocks in order with the content the service had for them |
| `CommitOutcome.FoldAllReceives` | src/blockazureuploader.cpp:190-195 | Fresh responses, in any number: exactly they are received besides, and `nextCommitId` is the least id missing |
| `CommitSpec.RepeatedPutIsIdempotent` | src/blockazureuploader.cpp:199-215 | A list put again after an unacknowledged success is accepted and leaves the blob unchanged |
| `WorkerSpec.RetriesStageOnce` | src/blockazureuploader.cpp:151-159 | However its attempts end, a retried block is staged under its id with its content, and no other block is touched |
| `WorkerSpec.DoJobIsARun` | src/blockazureuploader.cpp:131-163 | Each outcome of one turn of a worker is a run of the step system by that worker alone |
| `WorkerSpec.DoJobOutcome` | src/blockazureuploader.cpp:131-163 | Each outcome of a turn exactly when its condition holds: with a job at the head of an open queue, the gate open, an acknowledged upload and an open response queue, the block is staged, its id reported and the worker outside again |
| `BlockUploader.BlockAzureUploader.constructor` | src/blockazureuploader.cpp:20-66 | The settings are stored, and the initial fields are the initial state of the step system |
| `BlockUploader.BlockAzureUploader.Upload` | src/blockazureuploader.cpp:69-83 | A wrong location changes nothing; otherwise the frame joins the stream and the block, if cut, is queued under the next id; a refused push leaves no stream behind |
| `BlockUploader.BlockAzureUploader.RunJob` | src/blockazureuploader.cpp:131-163 | One turn of a worker changes queues, barrier and service as the function of the step system says, for any replies |
| `BlockUploader.BlockAzureUploader.EnterJob` | include/blockazureuploader.hpp:80-85 | A worker enters exactly when no flush is under way, and takes one unit of the semaphore |
| `BlockUploader.BlockAzureUploader.LeaveJob` | include/blockazureuploader.hpp:86-92 | A worker that leaves gives its unit back |
| `BlockUploader.BlockAzureUploader.WaitFlush` | include/blockazureuploader.hpp:94-99 | The gate closes at once; the wait is over exactly when the semaphore is full |
| `BlockUploader.BlockAzureUploader.DisableFlush` | include/blockazureuploader.hpp:101-106 | The gate opens and the semaphore is untouched |
| `BlockUploader.BlockAzureUploader.CommitBlock` | src/blockazureuploader.cpp:168-180 | The heap loop leaves the window, `nextCommitId` and the list as absorbing the least ids one by one does |
| `BlockUploader.BlockAzureUploader.DrainResponses` | src/blockazureuploader.cpp:190-195 | Every queued response is folded in, in order; a closed queue with responses left throws and changes nothing |
| `BlockUploader.BlockAzureUploader.PutUntilAcked` | src/blockazureuploader.cpp:199-215 | The list is put until acknowledged, for any replies |
| `BlockUploader.BlockAzureUploader.RecordCommit` | src/blockazureuploader.cpp:206-217 | `committedId` becomes `nextCommitId - 1`, every entry `committed`, and the barrier opens |
| `BlockUploader.BlockAzureUploader.DoCommit` | src/blockazureuploader.cpp:183-218 | For any replies, `doCommit` ends with the outcome and the state of the function proved to be a run |
| `BlockUploader.BlockAzureUploader.Flush` | src/blockazureuploader.cpp:86-104 | The rest is cut and queued, and the commit happens only once the request queue is empty |
| `BlockUploader.BlockAzureUploader.CommitRound` | src/blockazureuploader.cpp:226-248 | A round of the committer folds in all responses and commits on timeout or past the threshold; with at most `commitBlockCount` ids between, it touches neither gate nor service; it ends when the queue is closed |
| `BlockUploader.FrontDecidesAbsorb` | src/blockazureuploader.cpp:172 | In heap order the test of `front()` decides whether `nextCommitId` is the least id waiting |
| `Ledgers.CommitBlockIsMex` | src/blockazureuploader.cpp:168-180 | One new id: the ids received grow by exactly it, `nextCommitId` is the least id missing, the list only grows |
| `Ledgers.ArrivalIsMex` | src/blockazureuploader.cpp:168-180 | For any arrival order of distinct ids, `nextCommitId` is the least id not received, the window the received ids above it, the list all below it |
| `Ledgers.AnyPermutationIsAbsorbed` | src/blockazureuploader.cpp:168-180 | Any permutation of 1..n leaves the window empty and the list 1..n in order |
| `Ledgers.FrontReadOnEmptyWindowIff` | src/blockazureuploader.cpp:172-179 | `commitBlock` reads the front of an empty window exactly when the ids received so far have no gap |
| `Batching.FeedCutsFullGroups` | src/blockazureuploader.cpp:73-81 | A block cut by `upload` reaches the block size with its last frame and not before; otherwise the stream stays below it |
| `Batching.FeedLeavesUncutIff` | src/blockazureuploader.cpp:73-81 | `upload` leaves the stream uncut exactly when its length lies less than the block size above a multiple of 2^32; otherwise it cuts all of it |
| `Batching.RestIsLeftUncutIff` | src/blockazureuploader.cpp:92-96 | `flush` leaves data uncut exactly when its length is a positive multiple of 2^32 |
| `Bytes.StreamLenIs` | include/utils/common.hpp:32-39 | The length of a stream is returned modulo 2^32, and below that exactly |
| `MinHeap.Push` | src/blockazureuploader.cpp:170-171 | `push_heap` restores heap order and adds exactly the new entry |
| `MinHeap.Pop` | src/blockazureuploader.cpp:176-177 | `pop_heap` and `pop_back` restore heap order and remove exactly the front |
| `MinHeap.FrontIsMinimum` | src/azuredownloader.cpp:77-78 | Heap order makes the front a minimum |
| `BlockingQueues.BlockingQueue.Push` | include/utils/blockingqueue.hpp:40-55 | A push appends, or is refused by a closed queue |
| `BlockingQueues.BlockingQueue.Pop` | include/utils/blockingqueue.hpp:60-94 | A closed queue delivers nothing even when it holds items; otherwise the oldest item leaves, and an empty queue makes the caller wait |
| `BlockingQueues.Fifo` | include/utils/blockingqueue.hpp:40-73 | Over any history of calls, deliveries followed by what is queued are the accepted pushes in order |
| `BlockingQueues.OpenQueueAccepts` | include/utils/blockingqueue.hpp:40-55 | A queue that has not been closed accepts every push |
| `BlockingQueues.OpenQueueDelivers` | include/utils/blockingqueue.hpp:60-73 | A queue that is open and holds an item delivers the oldest one |
| `BlockingQueues.CloseStopsDelivery` | include/utils/blockingqueue.hpp:65-67 | No later call delivers or accepts anything once the queue is closed |
| `BlockingQueues.AllDeliveredIff` | include/utils/blockingqueue.hpp:60-114 | Everything accepted is eventually delivered exactly when the queue was empty at `close` |
| `Prefetch.OnlyFirstTileIsDue` | src/azuredownloader.cpp:66-77 | In a run without seeks, only the first unconsumed request starts at or before the cursor |
| `Prefetch.PrefetchIsBounded` | src/azuredownloader.cpp:66-73 | Requests cut within the prefetch distance number at most `prefetch_block_count + 1` |
| `Prefetch.RequestKeeps` | src/azuredownloader.cpp:70-72 | One request more at the write cursor keeps every position up to its end covered |
| `Prefetch.CompleteKeeps` | src/azuredownloader.cpp:147-155 | A completed download turns one request in flight into a response with the bytes of the blob, and loses none |
| `Prefetch.DropCovered` | src/azuredownloader.cpp:91-97 | Dropping a block that ends at or before the new cursor leaves everything ahead of it covered |
| `Prefetch.TileListTiles` | src/azuredownloader.cpp:66-73 | The requests of one read tile from the write cursor on without gap or overlap, reach their target, and the last one is needed |
| `Schedules.CanBeShortIff` | src/azuredownloader.cpp:75-98 | For any number of workers and any blocks left from earlier reads and seeks, a read can be cut short exactly when a stale block is in the window, or the workers can bring about a window that carries the reader to a wait below the target while a request that ends before that point is outstanding |
| `Arrivals.CanBeShortExactly` | src/azuredownloader.cpp:75-98 | The same without schedules: some choice of the requests still out, with fewer than `workers` left behind before each of them, carries the reader to a wait below the target and past the end of one left behind |
| `Arrivals.MarkedIsReached` | src/azuredownloader.cpp:134-157 | Every such choice of requests can have arrived with the others still out |
| `Arrivals.ReachIsMarked` | src/azuredownloader.cpp:134-157 | Whatever the workers do, what has arrived is such a choice |
| `Schedules.ShortAtIsOvertaken` | src/azuredownloader.cpp:79-86 | A read cut short at a position was waiting there, or started there, when a block that ends before it arrived |
| `SeekReads.ShortNeedsOld` | src/azuredownloader.cpp:66-98 | In any state, a read cut short at a position has passed the end of a request made before the read |
| `SeekReads.SeekReadShortExactly` | src/azuredownloader.cpp:75-111 | After a seek, whatever the workers do before the read and for any number of them, the read can be cut short exactly when such a choice of the requests from before the seek and of its own leaves one behind |
| `SeekReads.SeekReadShortIff` | src/azuredownloader.cpp:75-111 | It can be cut short only if a request left from before ends before the cursor, or before the end of a block that ends below the target; and with a worker to spare exactly then |
| `SeekReads.MovesBeforeAddNothing` | src/azuredownloader.cpp:103-163 | What the workers do between the seek and the read cuts no read short that they could not cut short during its waits |
| `SeekReads.LateBlockCutsRead` | src/azuredownloader.cpp:75-98 | A run in which no outstanding request ends before the cursor, and one that arrives after the cursor has moved on cuts the read short |
| `SeekReads.FewWorkersSpareRead` | src/azuredownloader.cpp:134-157 | With both workers taken by old requests that condition holds and no schedule cuts the read short: a worker to spare is needed |
| `Downloader.AzureDownloader.constructor` | src/azuredownloader.cpp:24-54 | A fresh downloader has both cursors at 0 and nothing requested |
| `Downloader.AzureDownloader.WorkerPop` | src/azuredownloader.cpp:134-137 | A free worker takes the oldest request, and no block is lost |
| `Downloader.AzureDownloader.WorkerComplete` | src/azuredownloader.cpp:144-157 | Any request in flight may complete next; its bytes enter the window and no block is lost |
| `Downloader.AzureDownloader.WorkersRun` | src/azuredownloader.cpp:129-163 | Between calls the workers start and complete requests as they like; no block is lost, and a run without seeks stays one |
| `Downloader.AzureDownloader.Await` | src/azuredownloader.cpp:77 | The wait is over at once when the front is due; otherwise it ends on every schedule with a front that is due, or with no request outstanding |
| `Downloader.AzureDownloader.AwaitBelow` | src/azuredownloader.cpp:75-77 | A reader below its target is never stuck inside the blob: the wait can fail to end only at the end of the blob |
| `Downloader.AzureDownloader.RequestNext` | src/azuredownloader.cpp:70-72 | One request more, of block size or up to the end of the blob, starts where the last one ended and joins the tiling |
| `Downloader.AzureDownloader.RequestAhead` | src/azuredownloader.cpp:66-73 | In any state, the requests added are exactly those that tile from the write cursor to the prefetch distance beyond the target or the end of the blob, without gap or overlap, and none more than needed |
| `Downloader.AzureDownloader.ConsumeFront` | src/azuredownloader.cpp:78-97 | One turn copies exactly the bytes of the blob between the cursors, inside the response; a turn that does not finish removes one block |
| `Downloader.AzureDownloader.ReadUpTo` | src/azuredownloader.cpp:75-98 | The loop ends, having copied exactly the bytes of the blob up to the cursor, at the target unless stale or at the end of the blob |
| `Downloader.AzureDownloader.Read` | src/azuredownloader.cpp:57-100 | Under any seeks and schedules the bytes copied are the blob from the old cursor to the new; the requests made tile up to the prefetch distance; a short read is one that `Schedules` allows, and has passed the end of a request made before it; without seeks the read is never short, blocks exactly past the end of the blob, and leaves at most `prefetch_block_count + 1` blocks |
| `Downloader.AzureDownloader.SeekedReadNeedsOld` | src/azuredownloader.cpp:103-111 | With the write cursor where a seek leaves it, a read can be short only if a request made before ends too early, whether it has arrived since or not |
| `Downloader.AzureDownloader.Seek` | src/azuredownloader.cpp:103-111 | Both cursors move and only the window is cleared; later reads are as in a run without seeks exactly when nothing was queued or in flight |
| `Src.GstAzureSrc.FillFromCursor` | src/gstazuresrc.c:374-393 | The loop fills the buffer with the blob from the cursor, and advances the recorded position by the length |
| `Src.GstAzureSrc.FillAt` | src/gstazuresrc.c:358-393 | A fill that seeks fills from the offset, with the workers moving between the seek and the read; it is full unless a request left from before the seek ends too early, or the blob ends |
| `Src.GstAzureSrc.Fill` | src/gstazuresrc.c:351-399 | The bytes filled are the blob from the offset sought, or from the cursor; a fill cut short is one that `Schedules` allows, and after a seek needs a request from before that ends too early; a full fill leaves the recorded position at the cursor exactly when it began at the recorded position |
| `Src.Play` | src/gstazuresrc.c:351-399 | Any fills in sequence that do not seek, of any lengths, with the workers moving in between, play the blob from the cursor on without gap or repetition, wherever the recorded position is |
| `Src.FillAfterSeekIsMisplaced` | src/gstazuresrc.c:358-379 | After a first fill at an offset other than 0, a fill that asks for the recorded position plays from that offset further on |
| `AppendProtocol.StreamIsConserved` | src/simpleazureuploader.cpp:19-86 | In every reachable state the chunks sent, the chunk in flight and the stream are the bytes the calls of `append` passed, in order, and no chunk is empty |
| `AppendProtocol.AppendedIsWritten` | src/simpleazureuploader.cpp:19-29 | Over any run, what has been appended grows by exactly the bytes passed to `append` |
| `AppendProtocol.AttemptsAreReplies` | src/simpleazureuploader.cpp:82-86 | Over any run, every request answered is on record with its answer, in order |
| `AppendProtocol.NothingIsDroppedIff` | src/simpleazureuploader.cpp:82-86 | Blob, chunk in flight and stream are all bytes appended exactly when no append request was refused |
| `AppendProtocol.ChunksAreCapped` | src/simpleazureuploader.cpp:56-72 | Below 2^32 bytes a stream takes ceil(length / 2 MiB) chunks, all of exactly 2 MiB but the last, which is not empty and no larger |
| `AppendProtocol.ChunkExceedsCapIff` | src/simpleazureuploader.cpp:59-63 | The next chunk exceeds the cap exactly when the 32-bit length of the stream has wrapped to the cap or less |
| `AppendProtocol.ChunksRejoin` | src/simpleazureuploader.cpp:59-71 | The chunks of a stream joined are the stream |
| `AppendProtocol.WorkerRunIsFinite` | src/simpleazureuploader.cpp:39-87 | The worker alone takes at most five steps a chunk before it has to wait |
| `AppendProtocol.WorkerAloneDrains` | src/simpleazureuploader.cpp:39-87 | Once producers stop, the worker comes to rest with an empty stream and `finished` set, after exactly the chunks of the stream |
| `AppendProtocol.FinishedIsTruthfulIff` | src/simpleazureuploader.cpp:19-47 | In any run, `finished` is never set over unsent bytes if and only if no `append` falls between the worker's emptiness test and its announcement |
| `AppendProtocol.FlushMeansUploadedIff` | src/simpleazureuploader.cpp:92-98 | With test and set as one step, a `flush` that returns has every byte sent, and all of it stored exactly when nothing was refused |
| `AppendProtocol.AppendDuringAnnouncementOverclaims` | src/simpleazureuploader.cpp:19-47 | From any state in which the worker has tested the stream empty, an append and then the announcement set `finished` over unsent bytes |
| `AppendProtocol.LateAppendOverclaims` | src/simpleazureuploader.cpp:19-47 | From any state in which bytes were appended after the emptiness test, every run past the announcement has `finished` set over unsent bytes |
| `AppendProtocol.ExitIsFinal` | src/simpleazureuploader.cpp:53-106 | After the worker has exited, the blob never changes again |
| `AppendProtocol.ExitIsCompleteIff` | src/simpleazureuploader.cpp:100-106 | An exited uploader has stored everything exactly when its stream is empty and nothing was refused |
| `AppendProtocol.DestroyCanDropAppend` | src/simpleazureuploader.cpp:154-170 | A run of `flush` and `stop` after which the last append is never sent |
| `AppendUploader.UploadWorker.Append` | src/simpleazureuploader.cpp:19-29 | The bytes join the stream and `finished` is cleared |
| `AppendUploader.UploadWorker.TakeChunk` | src/simpleazureuploader.cpp:56-72 | The chunk is the first 2 MiB of the stream, or all of it when its 32-bit length is at most that, and the rest stays |
| `AppendUploader.UploadWorker.Run` | src/simpleazureuploader.cpp:39-87 | For any replies the loop sends the chunks of the stream in order, each once, and comes to rest with the stream empty and `finished` set; it is a run of the step system |
| `AppendUploader.SentIsStoredIff` | src/simpleazureuploader.cpp:82-86 | When the whole stream has been sent, it is in the blob exactly when no request was refused |
| `AppendUploader.SimpleAzureUploader.Upload` | src/simpleazureuploader.cpp:128-139 | No worker or no bytes: nothing changes; otherwise the worker appends |
| `Base64.Encode` | src/utils/base64.cpp:14-49 | The loop over masks and shifts returns the standard encoding of all bytes but a last full group |
| `Base64.EncodeString` | src/utils/base64.cpp:51-53 | The overload for strings encodes the length modulo 2^32 |
| `Base64.EncodeId` | src/utils/base64.cpp:55-57 | The overload for numbers encodes the eight bytes of the id in memory, byte i weighing 256^i |
| `Base64.LowByteAt` | src/utils/base64.cpp:55-57 | Byte i of an id is its digit of weight 256^i |
| `Base64.FirstNames` | src/utils/base64.cpp:55-57 | Block 1 is named `AQAAAAAAAAA=`, block 256 `AAEAAAAAAAA=` |
| `Base64.TestVectors` | src/utils/base64.cpp:14-49 | The encoding agrees with the test vectors of section 10 of RFC 4648 |
| `Base64.AlphabetRuns` | src/utils/base64.cpp:9-12 | The 64 characters are `A` to `Z`, `a` to `z`, `0` to `9`, `+` and `/`, in that order |
| `Base64.DecodeInverts` | src/utils/base64.cpp:14-49 | A standard decoder recovers every byte string from its standard encoding |
| `Base64.DecodesIff` | src/utils/base64.cpp:19-46 | The output is the standard encoding, and decodes to the input, exactly when the length is 0 or not a multiple of 3 |
| `Base64.NamesAreDistinct` | src/utils/base64.cpp:55-57 | Block names have 12 characters, and two 64-bit ids have the same name only when they are equal |
| `Base64.StagingByNameIsById` | src/blockazureuploader.cpp:147-154 | Staging a block under its name is staging it under its id: no other block is touched |
| `Base64.LookupByNameIsById` | src/blockazureuploader.cpp:174-175 | A list entry's name finds the block of that id and no other |

## Left out

- The HTTP client, credentials and responses: the service is a map of staged blocks and a committed sequence whose operations succeed or fail freely. A retried upload is taken to resend the whole block. Uncommitted blocks that a list leaves out may be kept or discarded (`keep`).
- GStreamer and GObject plumbing, property handling, buffer mapping, the C wrappers and src/gstazuresink.c.
- Wall-clock time: a timeout may happen at any moment. In the step system the committer may begin a commit whenever it is idle; the threshold is exact only in `CommitRound`.
- Condition variables: lost notifications, fairness and the scheduler. A wait is a guard, and a method that would wait returns a result that says so.
- Data races inside one step: two threads inside `commitBlock` at once, or on the fields of a vector, a `resps.empty()` test separated from its `pop`, and a commit that falls between the assignments that record a put. Writing the stream and clearing `finished` in `append` is one step, and so is each `while (!stopped)` test with the emptiness test that follows it.
- `window.front()` of an empty vector is a guarded read in the model; `FrontReadOnEmptyWindowIff` says when the guard matters.
- Re-initialising after `destroy`: one lifetime. Closing the downloader's queue is left out.
- Wrap-around of 64-bit ids and of `size_t` sums; `block_size` is at least 1, as the properties of the elements require.
- `SeekReads.SeekReadShortIff`: with fewer workers than requests left from before the seek, this condition on their ends is only necessary, because which of them can be late depends on the order of the queue (`FewWorkersSpareRead`); the exact condition for any number of workers is `SeekReads.SeekReadShortExactly`.
- A seek while a read is waiting: the fill loop is the only caller of both.
- `Src.GstAzureSrc.Fill`: a failing `seek` and a failing buffer mapping are left out; `seek` always succeeds in the source.
- `Base64.EncodeId`: the byte order of the host is little-endian, and `b64chars` is given by character ranges.
- The append worker's `copy_n` is taken to consume exactly the cap; the request that creates the blob is left out.
- Memory management, logging, and the splitting of the location string.
