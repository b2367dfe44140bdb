/** `BlockAzureUploader`: its fields and the code each of its threads runs, against the step system's functions. */
module BlockUploader {
  import opened Bytes
  import opened Ledgers
  import opened Batching
  import opened BlockingQueues
  import opened UploadProtocol
  import opened CommitSpec
  import opened WorkerSpec
  import MinHeap

  /** Locations are compared as pointers. */
  class AzureLocation {
    const container: string
    const blob: string

    constructor (container: string, blob: string)
    {
      this.container := container;
      this.blob := blob;
    }
  }

  /** The remote blob. */
  class BlobService {
    var staged: map<nat, seq<byte>>
    var blob: seq<Job>

    ghost function View(): Service
      reads this
    {
      Service(staged, blob)
    }

    constructor ()
      ensures View() == Service(map[], [])
    {
      staged := map[];
      blob := [];
    }

    method StageBlock(job: Job, fate: StageFate) returns (acked: bool)
      modifies this
      ensures blob == old(blob) && (staged, acked) == StageLoop(old(staged), job, [fate])
    {
      assert [fate][1..] == [];
      if fate.StageRefused? {
        return false;
      }
      staged := staged[job.id := job.data];
      acked := fate.StageAcked?;
    }

    method PutBlockList(list: seq<Item>, fate: Fate) returns (acked: bool)
      modifies this
      ensures (View(), acked) == PutLoop(old(View()), list, [fate])
    {
      var svc := Service(staged, blob);
      if fate.Refused? || !Resolvable(svc, list) {
        return false;
      }
      svc := Put(svc, list, fate.keep);
      staged := svc.staged;
      blob := svc.blob;
      acked := fate.Acked?;
    }
  }

  function Id(id: nat): int {
    id
  }

  /** In heap order, testing `front()` against `next` is testing whether `next` is the least id waiting. */
  lemma FrontDecidesAbsorb(l: Ledger, window: seq<nat>)
    requires MinHeap.IsHeap(window, Id) && l.pending == multiset(window)
    ensures window != [] && window[0] == l.next
       <==> l.next in l.pending && forall x :: x in l.pending ==> l.next <= x
  {
    if window != [] {
      MinHeap.FrontBelowAll(window, Id);
      assert forall x :: x in l.pending ==> Id(window[0]) <= Id(x);
    }
  }

  /** `NoStream` is a call on the null stream that a refused push leaves behind. */
  datatype UploadResult = Stored | WrongLocation | QueueClosed | NoStream

  /** `StreamGone` is a call on the null stream; `WaitingForRequests` is `wait_empty` with jobs still queued. */
  datatype FlushResult = OtherLocation | StreamGone | RequestsClosed | WaitingForRequests | Flushed(commit: CommitResult)

  class BlockAzureUploader {
    const blockSize: nat
    const workerCount: nat
    const commitBlockCount: nat
    const reqs: BlockingQueue<Job>
    const resps: BlockingQueue<nat>
    var loc: AzureLocation?
    var stream: seq<byte>
    /** Whether the pointer to the stream is not null. */
    var hasStream: bool
    var nextId: nat
    var nextCommitId: BlockId
    var committedId: nat
    var window: seq<nat>
    var blockList: seq<Item>
    var sem: int
    var flushing: bool

    ghost function BatchView(): Batch
      reads this
    {
      Batch(stream, nextId)
    }

    ghost function LedgerView(): Ledger
      reads this
    {
      Ledger(multiset(window), nextCommitId, committedId, blockList)
    }

    ghost function GateView(): Gate
      reads this
    {
      Gate(sem, flushing)
    }

    ghost predicate Valid()
      reads this
    {
      MinHeap.IsHeap(window, Id)
    }

    constructor (blockSize: nat, workerCount: nat, commitBlockCount: nat, location: AzureLocation)
      ensures Valid() && fresh(reqs) && fresh(resps) && loc == location && hasStream
      ensures BatchView() == Batch([], 1) && LedgerView() == EMPTY_LEDGER && GateView() == Gate(workerCount, false)
      ensures reqs.View() == Channel([], false) && resps.View() == Channel([], false)
      ensures this.blockSize == blockSize && this.workerCount == workerCount
      ensures this.commitBlockCount == commitBlockCount
    {
      this.blockSize := blockSize;
      this.workerCount := workerCount;
      this.commitBlockCount := commitBlockCount;
      reqs := new BlockingQueue<Job>();
      resps := new BlockingQueue<nat>();
      loc := location;
      stream := [];
      hasStream := true;
      nextId := 1;
      nextCommitId := 1;
      committedId := 0;
      window := [];
      blockList := [];
      sem := workerCount;
      flushing := false;
    }

    /** Push the open stream as the next block; a fresh stream is made only once the push is through. */
    method CutBlock() returns (pushed: bool)
      modifies this`stream, this`hasStream, this`nextId, reqs
      ensures hasStream <==> pushed
      ensures (BatchView(), Some(Job(old(nextId), old(stream)))) == Cut(old(BatchView()))
      ensures (reqs.View(), pushed) == Pushed(old(reqs.View()), Job(old(nextId), old(stream)))
    {
      var job := Job(nextId, stream);
      nextId := nextId + 1;
      stream := [];
      hasStream := false;
      pushed := reqs.Push(job);
      if pushed {
        hasStream := true;
      }
    }

    method Upload(loc: AzureLocation, data: seq<byte>) returns (r: UploadResult)
      modifies this`stream, this`hasStream, this`nextId, reqs
      ensures r == WrongLocation <==> old(this.loc) != loc
      ensures r == NoStream <==> old(this.loc) == loc && !old(hasStream)
      ensures r == WrongLocation || r == NoStream ==>
        BatchView() == old(BatchView()) && reqs.View() == old(reqs.View()) && hasStream == old(hasStream)
      ensures old(this.loc) == loc && old(hasStream) ==>
        && (hasStream <==> r == Stored) &&
        var (batch, job) := Feed(blockSize, old(BatchView()), data);
        && BatchView() == batch
        && (job.None? ==> r == Stored && reqs.View() == old(reqs.View()))
        && (job.Some? ==> (reqs.View(), r == Stored) == Pushed(old(reqs.View()), job.value))
    {
      if this.loc != loc {
        return WrongLocation;
      }
      if !hasStream {
        return NoStream;
      }
      stream := stream + data;
      if StreamLen(stream) >= blockSize {
        var pushed := CutBlock();
        if !pushed {
          return QueueClosed;
        }
      }
      r := Stored;
    }

    /** A worker enters a job unless a commit is under way. */
    method EnterJob() returns (entered: bool)
      modifies this`sem
      ensures entered <==> !flushing
      ensures GateView() == if entered then Gate(old(sem) - 1, false) else old(GateView())
    {
      if flushing {
        return false;
      }
      sem := sem - 1;
      entered := true;
    }

    method LeaveJob()
      modifies this`sem
      ensures GateView() == Gate(old(sem) + 1, flushing)
    {
      sem := sem + 1;
    }

    /** Close the gate; the wait is over when every worker is outside. */
    method WaitFlush() returns (passed: bool)
      modifies this`flushing
      ensures GateView() == Gate(sem, true)
      ensures passed <==> sem == workerCount
    {
      flushing := true;
      passed := sem == workerCount;
    }

    method DisableFlush()
      modifies this`flushing
      ensures GateView() == Gate(sem, false)
    {
      flushing := false;
    }

    ghost function JobView(service: BlobService): WorkerSpec.JobView
      reads this, reqs, resps, service
    {
      WorkerSpec.JobView(reqs.View(), GateView(), service.View(), resps.View())
    }

    /** The retry loop of `run`. */
    method StageUntilAcked(service: BlobService, job: Job, fates: seq<StageFate>) returns (acked: bool)
      modifies service
      ensures service.blob == old(service.blob)
      ensures (service.staged, acked) == StageLoop(old(service.staged), job, fates)
    {
      acked := false;
      var i := 0;
      while i < |fates| && !acked
        invariant 0 <= i <= |fates| && service.blob == old(service.blob)
        invariant acked ==> StageLoop(old(service.staged), job, fates) == (service.staged, true)
        invariant !acked ==>
          StageLoop(old(service.staged), job, fates) == StageLoop(service.staged, job, fates[i..])
      {
        assert fates[i..][1..] == fates[i + 1..];
        assert [fates[i]][1..] == [];
        acked := service.StageBlock(job, fates[i]);
        i := i + 1;
      }
    }

    /** One turn of the loop in `run`, by the thread of one worker; `fates` are the replies it will get. */
    method RunJob(service: BlobService, fates: seq<StageFate>) returns (r: JobResult)
      modifies this`sem, reqs, resps, service
      ensures (JobView(service), r) == DoJobSpec(old(JobView(service)), fates)
    {
      var popped := reqs.Pop();
      if popped.Closed? {
        return Exiting;
      } else if popped.Empty? {
        return WaitingForJobs;
      }
      var job := popped.value;
      var entered := EnterJob();
      if !entered {
        return WaitingAtGate;
      }
      var acked := StageUntilAcked(service, job, fates);
      if !acked {
        return JobResult.Retrying;
      }
      var sent := resps.Push(job.id);
      if !sent {
        return NoReceiver;
      }
      LeaveJob();
      r := Done;
    }

    /** One turn of the loop in `commitBlock`. */
    method ListFront()
      requires Valid() && window != [] && window[0] == nextCommitId
      modifies this`window, this`nextCommitId, this`blockList
      ensures Valid() && |window| == |old(window)| - 1
      ensures Absorb(LedgerView()) == Absorb(old(LedgerView()))
    {
      FrontDecidesAbsorb(LedgerView(), window);
      assert |multiset(window)| == |window|;
      blockList := blockList + [Item(nextCommitId, false)];
      window := MinHeap.Pop(window, Id);
      nextCommitId := nextCommitId + 1;
      assert |multiset(window)| == |window|;
    }

    method CommitBlock(id: nat)
      requires Valid()
      modifies this`window, this`nextCommitId, this`blockList
      ensures Valid()
      ensures LedgerView() == Ledgers.CommitBlock(old(LedgerView()), id)
    {
      window := MinHeap.Push(window, Id, id);
      ghost var goal := Absorb(LedgerView());
      assert goal == Ledgers.CommitBlock(old(LedgerView()), id);
      while window != [] && window[0] == nextCommitId
        invariant Valid()
        invariant Absorb(LedgerView()) == goal
        decreases |window|
      {
        ListFront();
      }
      FrontDecidesAbsorb(LedgerView(), window);
    }

    /** The loop that collects every queued response; it throws when the queue has been closed on some. */
    method DrainResponses() returns (closed: bool)
      requires Valid()
      modifies this`window, this`nextCommitId, this`blockList, resps
      ensures Valid()
      ensures closed <==> old(resps.View()).closed && old(resps.View()).items != []
      ensures closed ==> LedgerView() == old(LedgerView()) && resps.View() == old(resps.View())
      ensures !closed ==> LedgerView() == FoldAll(old(LedgerView()), old(resps.View()).items)
      ensures !closed ==> resps.View() == old(resps.View()).(items := [])
    {
      ghost var all := resps.q;
      ghost var n := 0;
      while |resps.q| > 0
        invariant Valid() && n <= |all| && resps.q == all[n..] && resps.closed == old(resps.closed)
        invariant LedgerView() == FoldAll(old(LedgerView()), all[..n])
        invariant resps.closed ==> n == 0
        decreases |resps.q|
      {
        var r := resps.Pop();
        if r.Closed? {
          assert all[..0] == [];
          return true;
        }
        assert all[..n + 1][..n] == all[..n];
        CommitBlock(r.value);
        n := n + 1;
      }
      assert all[..n] == all;
      closed := false;
    }

    /** Every entry of the block list becomes `committed`. */
    method MarkList()
      modifies this`blockList
      ensures blockList == Marked(old(blockList))
    {
      var i := 0;
      while i < |blockList|
        invariant 0 <= i <= |blockList| == |old(blockList)|
        invariant forall k :: 0 <= k < i ==> blockList[k] == Item(old(blockList)[k].id, true)
        invariant forall k :: i <= k < |blockList| ==> blockList[k] == old(blockList)[k]
      {
        blockList := blockList[i := blockList[i].(committed := true)];
        i := i + 1;
      }
    }

    /** The retry loop of `doCommit`. */
    method PutUntilAcked(service: BlobService, fates: seq<Fate>) returns (acked: bool)
      modifies service
      ensures (service.View(), acked) == PutLoop(old(service.View()), blockList, fates)
    {
      acked := false;
      var i := 0;
      while i < |fates| && !acked
        invariant 0 <= i <= |fates|
        invariant acked ==> PutLoop(old(service.View()), blockList, fates) == (service.View(), true)
        invariant !acked ==>
          PutLoop(old(service.View()), blockList, fates) == PutLoop(service.View(), blockList, fates[i..])
      {
        assert fates[i..][1..] == fates[i + 1..];
        assert [fates[i]][1..] == [];
        acked := service.PutBlockList(blockList, fates[i]);
        i := i + 1;
      }
    }

    /** What follows a put that succeeded. */
    method RecordCommit()
      modifies this`blockList, this`committedId, this`flushing
      ensures LedgerView() == MarkCommitted(old(LedgerView())) && GateView() == Gate(sem, false)
    {
      committedId := nextCommitId - 1;
      MarkList();
      DisableFlush();
    }

    ghost function CommitViewOf(service: BlobService): CommitView
      reads this, resps, service
    {
      CommitView(LedgerView(), resps.View(), GateView(), service.View())
    }

    /** `doCommit`, run while the barrier keeps every other thread out; `fates` are the replies it will get. */
    method DoCommit(service: BlobService, fates: seq<Fate>) returns (r: CommitResult)
      requires Valid()
      modifies this`window, this`nextCommitId, this`blockList, this`committedId, this`flushing, resps, service
      ensures Valid()
      ensures (CommitViewOf(service), r) == DoCommitSpec(old(CommitViewOf(service)), workerCount, fates)
    {
      if nextCommitId == committedId + 1 {
        return NothingToDo;
      }
      var passed := WaitFlush();
      if !passed {
        return WaitingForWorkers;
      }
      var closed := DrainResponses();
      if closed {
        return ResponsesClosed;
      }
      var acked := PutUntilAcked(service, fates);
      if !acked {
        return CommitResult.Retrying;
      }
      RecordCommit();
      r := Committed;
    }

    /** `flush`: cut what is left, wait for the request queue to empty, then commit. */
    method Flush(loc: AzureLocation, service: BlobService, fates: seq<Fate>) returns (r: FlushResult)
      requires Valid()
      modifies this`stream, this`hasStream, this`nextId, reqs
      modifies this`window, this`nextCommitId, this`blockList, this`committedId, this`flushing, resps, service
      ensures Valid()
      ensures r == OtherLocation <==> old(this.loc) != loc
      ensures r == StreamGone <==> old(this.loc) == loc && !old(hasStream)
      ensures r == OtherLocation || r == StreamGone ==>
        BatchView() == old(BatchView()) && reqs.View() == old(reqs.View()) && hasStream == old(hasStream)
      ensures r != OtherLocation && r != StreamGone ==>
        && (hasStream <==> r != RequestsClosed) &&
        var (batch, job) := FeedRest(old(BatchView()));
        && BatchView() == batch
        && (reqs.View(), r != RequestsClosed)
           == (if job.Some? then Pushed(old(reqs.View()), job.value) else (old(reqs.View()), true))
        && (r == WaitingForRequests <==> r != RequestsClosed && reqs.View().items != [])
      ensures !r.Flushed? ==> CommitViewOf(service) == old(CommitViewOf(service))
      ensures r.Flushed? ==>
        (CommitViewOf(service), r.commit) == DoCommitSpec(old(CommitViewOf(service)), workerCount, fates)
    {
      if this.loc != loc {
        return OtherLocation;
      }
      if !hasStream {
        return StreamGone;
      }
      if StreamLen(stream) > 0 {
        var pushed := CutBlock();
        if !pushed {
          return RequestsClosed;
        }
      }
      var empty := reqs.IsEmpty();
      if !empty {
        return WaitingForRequests;
      }
      var commit := DoCommit(service, fates);
      r := Flushed(commit);
    }

    /**
     * One round of `runCommit`: a timeout commits; otherwise the queued responses are folded in and a commit
     * follows once more than `commitBlockCount` ids separate `nextCommitId` from `committedId`.
     */
    method CommitRound(service: BlobService, fates: seq<Fate>) returns (exiting: bool, r: CommitResult)
      requires Valid()
      modifies this`window, this`nextCommitId, this`blockList, this`committedId, this`flushing, resps, service
      ensures Valid()
      ensures exiting <==> old(resps.View()).closed
      ensures exiting ==> CommitViewOf(service) == old(CommitViewOf(service))
      ensures !exiting ==>
        var v := old(CommitViewOf(service));
        var folded := v.(ledger := FoldAll(v.ledger, v.resps.items), resps := v.resps.(items := []));
        (CommitViewOf(service), r) ==
          if v.resps.items == [] || folded.ledger.next - folded.ledger.committedId > commitBlockCount
          then DoCommitSpec(folded, workerCount, fates)
          else (folded, NothingToDo)
      ensures !exiting && old(resps.q) != [] && nextCommitId - old(committedId) <= commitBlockCount ==>
        && r == NothingToDo && GateView() == old(GateView()) && service.View() == old(service.View())
        && resps.q == [] && committedId == old(committedId)
    {
      if resps.closed {
        return true, NothingToDo;
      }
      exiting := false;
      r := NothingToDo;
      if |resps.q| == 0 {
        r := DoCommit(service, fates);
      } else {
        var closed := DrainResponses();
        if nextCommitId - committedId > commitBlockCount {
          r := DoCommit(service, fates);
        }
      }
    }
  }
}
