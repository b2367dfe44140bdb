/** What `destroy` leaves behind: both queues closed, every worker gone, and the committer at its end. */
module UploadDestroy {
  import opened Bytes
  import opened Ledgers
  import opened Batching
  import opened BlockingQueues
  import opened UploadProtocol
  import opened UploadInvariant
  import opened UploadOverclaim
  import opened UploadSerial
  import opened UploadCommit

  /** Queues are closed in order, each one behind those that used it, and a thread crashes only on a closed queue. */
  ghost predicate ClosedInOrder(s: State) {
    && |s.committers| == 2
    && (s.reqs.closed ==> s.reqs.items == [])
    && (s.resps.closed ==> s.reqs.closed && forall w :: 0 <= w < |s.workers| ==> s.workers[w].Exited?)
    && (forall c :: 0 <= c < 2 && s.committers[c].Crashed? ==> s.resps.closed && s.resps.items != [])
  }

  lemma WorkerClosed(s: State, w: nat, step: WorkerStep)
    requires ClosedInOrder(s) && Enabled(s, ByWorker(w, step))
    ensures ClosedInOrder(DoWorker(s, w, step)) && !s.resps.closed
  {
    var s' := DoWorker(s, w, step);
    assert s'.committers == s.committers;
    assert s'.reqs.closed == s.reqs.closed && s'.resps.closed == s.resps.closed;
  }

  lemma CommitterClosed(s: State, c: nat, step: CommitStep)
    requires ClosedInOrder(s) && Enabled(s, ByCommitter(c, step))
    ensures ClosedInOrder(DoCommitter(s, c, step))
    ensures s.resps.closed ==> DoCommitter(s, c, step).resps == s.resps
  {
    CommitterFrame(s, c, step);
    var s' := DoCommitter(s, c, step);
    assert s'.committers[c].Crashed? ==> step.Crash?;
  }

  lemma StepClosed(s: State, a: Action)
    requires ClosedInOrder(s) && Enabled(s, a)
    ensures ClosedInOrder(Do(s, a))
    ensures s.resps.closed ==> Do(s, a).resps == s.resps && Do(s, a).producer == s.producer
  {
    match a
    case ByProducer(p) => ProducerFrame(s, p);
    case ByWorker(w, step) => WorkerClosed(s, w, step);
    case ByCommitter(c, step) =>
      CommitterFrame(s, c, step);
      CommitterClosed(s, c, step);
  }

  lemma {:induction false} RunsClosed(s: State, run: seq<Action>, s': State)
    requires ClosedInOrder(s) && Runs(s, run, s')
    ensures ClosedInOrder(s')
    ensures s.resps.closed ==> s'.resps == s.resps && s'.producer == s.producer
  {
    if run != [] {
      var m := Exec(s, run[..|run| - 1]).value;
      RunsClosed(s, run[..|run| - 1], m);
      StepClosed(m, run[|run| - 1]);
    }
  }

  /** `destroy` has returned: the committer has come back from its last `doCommit`, or ended with its exception. */
  ghost predicate AtRest(s: State) {
    && |s.committers| == 2 && s.committers[FLUSHER].Ready?
    && (s.committers[COMMITTER].Crashed? || (s.committers[COMMITTER].Ready? && NothingToCommit(s.ledger)))
  }

  /** Closed and at rest, with every worker gone. */
  lemma RestIsCompleteIff(s: State)
    requires Inv(s) && ClosedInOrder(s) && s.resps.closed && AtRest(s)
    ensures |s.service.blob| == |s.producer.cut| <==> s.resps.items == [] && Backed(s)
    ensures |s.service.blob| == |s.producer.cut| && s.producer.batch.stream == [] ==>
      BlobBytes(s.service.blob) == Uploaded(s)
  {
    assert !SomeHeld(s) && !SomeTook(s) && s.reqs.items == [];
    if s.committers[COMMITTER].Crashed? {
      SomebodyHolds(s);
      ListedAreBlocks(s);
    } else {
      EarlyReturnIsCompleteIff(s);
    }
  }

  /**
   * In any run, from the moment the response queue has been closed: when the committer is done, every block ever cut has
   * been published exactly when no response was left in the queue at that moment, and `committedId` is not an overclaim.
   */
  lemma DestroyIsCompleteIff(
      blockSize: nat, workerCount: nat, run: seq<Action>, s: State, more: seq<Action>, s': State)
    requires Runs(Init(blockSize, workerCount), run, s) && s.resps.closed
    requires Runs(s, more, s') && AtRest(s')
    ensures |s'.service.blob| == |s'.producer.cut| <==> s.resps.items == [] && Backed(s')
    ensures |s'.service.blob| == |s'.producer.cut| && s.producer.batch.stream == [] ==>
      BlobBytes(s'.service.blob) == Uploaded(s')
  {
    hide Inv, ClosedInOrder, AtRest, BlobBytes, Uploaded;
    InitInv(blockSize, workerCount);
    InitClosed(blockSize, workerCount);
    RunsInv(Init(blockSize, workerCount), run, s);
    RunsClosed(Init(blockSize, workerCount), run, s);
    RunsInv(s, more, s');
    RunsClosed(s, more, s');
    RestIsCompleteIff(s');
  }

  lemma InitClosed(blockSize: nat, workerCount: nat)
    ensures ClosedInOrder(Init(blockSize, workerCount))
  {
  }

  /** In a serialised run: exactly when the response queue was closed empty. */
  lemma SerialisedDestroyIsCompleteIff(
      blockSize: nat, workerCount: nat, run: seq<Action>, s: State, more: seq<Action>, s': State)
    requires Runs(Init(blockSize, workerCount), run, s) && s.resps.closed
    requires Runs(s, more, s') && AtRest(s') && Reachable(s')
    ensures |s'.service.blob| == |s'.producer.cut| <==> s.resps.items == []
    ensures s.resps.items == [] && s.producer.batch.stream == [] ==> BlobBytes(s'.service.blob) == Uploaded(s')
  {
    hide Runs, AtRest, BlobBytes, Uploaded, Reachable;
    DestroyIsCompleteIff(blockSize, workerCount, run, s, more, s');
    CommittedIsPublished(s');
  }
}
