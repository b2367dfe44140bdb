/** The uploader when at most one thread at a time pops responses or is inside `doCommit`. */
module UploadSerial {
  import opened Bytes
  import opened Ledgers
  import opened Batching
  import opened BlockingQueues
  import opened UploadProtocol
  import opened UploadInvariant

  /** A committing thread starts nothing while the other one is busy. */
  ghost predicate Serial(s: State, a: Action) {
    a.ByCommitter? && |s.committers| == 2 && a.c < 2 && s.committers[a.c].Ready? ==> s.committers[1 - a.c].Ready?
  }

  ghost predicate Serialised(s: State, run: seq<Action>) {
    run == [] ||
    (Serialised(s, run[..|run| - 1]) &&
     (Exec(s, run[..|run| - 1]).Some? ==> Serial(Exec(s, run[..|run| - 1]).value, run[|run| - 1])))
  }

  /** Inside `doCommit`, from the guard on. */
  predicate InCommit(pc: Committer) {
    !pc.Ready? && (pc.Took? ==> pc.draining)
  }

  /** Between the assignments to `flushing` in `waitFlush` and `disableFlush`. */
  predicate Flushing(pc: Committer) {
    InCommit(pc) && !pc.Entering?
  }

  /** Between the return of `waitFlush` and the return of `disableFlush`. */
  predicate PastBarrier(pc: Committer) {
    InCommit(pc) && !pc.Entering? && !pc.Waiting?
  }

  /** Past the drain loop. */
  predicate Drained(pc: Committer) {
    pc.Posting? || pc.Sent? || pc.Applied? || pc.Releasing?
  }

  ghost predicate BarrierClosed(s: State, c: nat)
    requires c < |s.committers|
  {
    PastBarrier(s.committers[c]) ==>
      s.gate.flushing && forall w :: 0 <= w < |s.workers| ==> !InJob(s.workers[w])
  }

  ghost predicate PutInStep(s: State, c: nat)
    requires c < |s.committers|
  {
    var pc := s.committers[c];
    && (Drained(pc) ==> s.resps.items == [])
    && (pc.Sent? || pc.Applied? ==> pc.list == s.ledger.list)
  }

  /** How much of the ledger is published while a committer stands at `pc`. */
  ghost predicate PublishedAt(s: State, pc: Committer) {
    var n := |s.service.blob|;
    if pc.Applied? then n == s.ledger.next - 1
    else if pc.Posting? || pc.Sent? then n == s.ledger.committedId || n == s.ledger.next - 1
    else n == s.ledger.committedId
  }

  ghost predicate SerialInv(s: State) {
    && |s.committers| == 2
    && (s.committers[0].Ready? || s.committers[1].Ready?)
    && (s.gate.flushing <==> Flushing(s.committers[0]) || Flushing(s.committers[1]))
    && BarrierClosed(s, 0) && BarrierClosed(s, 1)
    && PutInStep(s, 0) && PutInStep(s, 1)
    && PublishedAt(s, if s.committers[0].Ready? then s.committers[1] else s.committers[0])
  }

  lemma {:induction false} NoneInJob(workers: seq<Worker>)
    requires InJobs(workers) == 0
    ensures forall w :: 0 <= w < |workers| ==> !InJob(workers[w])
  {
    if workers != [] {
      NoneInJob(workers[..|workers| - 1]);
      assert forall w :: 0 <= w < |workers| - 1 ==> workers[w] == workers[..|workers| - 1][w];
    }
  }

  lemma {:induction false} HeldBySomeone(workers: seq<Worker>, id: nat)
    requires Held(workers)[id] > 0
    ensures exists w :: 0 <= w < |workers| && HoldsJob(workers[w]) && workers[w].job.id == id
  {
    var n := |workers| - 1;
    if WorkerHolds(workers[n])[id] == 0 {
      HeldBySomeone(workers[..n], id);
      var w :| 0 <= w < n && HoldsJob(workers[..n][w]) && workers[..n][w].job.id == id;
      assert workers[w] == workers[..n][w];
    }
  }

  lemma ProducerSerial(s: State, p: ProducerStep)
    requires SerialInv(s) && Enabled(s, ByProducer(p))
    ensures SerialInv(DoProducer(s, p))
  {
    var s' := DoProducer(s, p);
    assert s'.workers == s.workers && s'.ledger == s.ledger && s'.committers == s.committers;
    assert s'.service == s.service && s'.resps.items == s.resps.items && s'.gate == s.gate;
  }

  lemma WorkerSerial(s: State, w: nat, step: WorkerStep)
    requires SerialInv(s) && Enabled(s, ByWorker(w, step))
    ensures SerialInv(DoWorker(s, w, step))
  {
    var s' := DoWorker(s, w, step);
    assert s'.ledger == s.ledger && s'.committers == s.committers && s'.service.blob == s.service.blob;
    assert s'.gate.flushing == s.gate.flushing;
    assert InJob(s'.workers[w]) ==> InJob(s.workers[w]) || step.Enter?;
    forall c | 0 <= c < 2 ensures BarrierClosed(s', c) && PutInStep(s', c) {
      if PastBarrier(s.committers[c]) {
        assert !InJob(s.workers[w]);
      }
    }
  }

  lemma CommitterSerial(s: State, c: nat, step: CommitStep)
    requires Inv(s) && SerialInv(s) && Enabled(s, ByCommitter(c, step)) && Serial(s, ByCommitter(c, step))
    ensures SerialInv(DoCommitter(s, c, step))
  {
    var s' := DoCommitter(s, c, step);
    CommitterFrame(s, c, step);
    assert s'.committers[1 - c].Ready?;
    if step.Pass? {
      NoneInJob(s.workers);
    }
    if step.Fold? {
      FoldKeepsLedger(s, c);
    }
  }

  lemma {:induction false} RunsSerial(s: State, run: seq<Action>, s': State)
    requires Inv(s) && SerialInv(s) && Runs(s, run, s') && Serialised(s, run)
    ensures Inv(s') && SerialInv(s')
  {
    if run != [] {
      var m, a := Exec(s, run[..|run| - 1]).value, run[|run| - 1];
      RunsSerial(s, run[..|run| - 1], m);
      StepInv(m, a);
      match a
      case ByProducer(p) => ProducerSerial(m, p);
      case ByWorker(w, step) => WorkerSerial(m, w, step);
      case ByCommitter(c, step) => CommitterSerial(m, c, step);
    }
  }

  /** Reached from the initial state by a serialised run. */
  ghost predicate Reachable(s: State) {
    exists blockSize, workerCount, run ::
      Runs(Init(blockSize, workerCount), run, s) && Serialised(Init(blockSize, workerCount), run)
  }

  lemma ReachableInv(s: State)
    requires Reachable(s)
    ensures Inv(s) && SerialInv(s)
  {
    var blockSize, workerCount, run :|
      Runs(Init(blockSize, workerCount), run, s) && Serialised(Init(blockSize, workerCount), run);
    InitInv(blockSize, workerCount);
    RunsSerial(Init(blockSize, workerCount), run, s);
  }

  lemma ReachableStep(s: State, a: Action)
    requires Reachable(s) && Enabled(s, a) && Serial(s, a)
    ensures Reachable(Do(s, a))
  {
    var blockSize, workerCount, run :|
      Runs(Init(blockSize, workerCount), run, s) && Serialised(Init(blockSize, workerCount), run);
    RunsSnoc(Init(blockSize, workerCount), run, s, a);
    assert (run + [a])[..|run|] == run;
    assert Serialised(Init(blockSize, workerCount), run + [a]);
  }

  /** The barrier: past `waitFlush` no worker is inside a job and none can enter one. */
  lemma BarrierExcludesWorkers(s: State, c: nat)
    requires Reachable(s) && c < 2 && |s.committers| == 2 && PastBarrier(s.committers[c])
    ensures s.gate.sem == |s.workers|
    ensures forall w :: 0 <= w < |s.workers| ==> !InJob(s.workers[w]) && !Enabled(s, ByWorker(w, Enter))
  {
    CountedAndClosed(s, c);
    NoInJobs(s.workers);
  }

  lemma CountedAndClosed(s: State, c: nat)
    requires Reachable(s) && c < 2 && |s.committers| == 2
    ensures s.gate.sem + InJobs(s.workers) == |s.workers| && BarrierClosed(s, c)
  {
    hide Numbered, Faithful, BlobInOrder, Listed, Conserved, PutInStep, PublishedAt, Reachable;
    ReachableInv(s);
  }

  lemma {:induction false} NoInJobs(workers: seq<Worker>)
    requires forall w :: 0 <= w < |workers| ==> !InJob(workers[w])
    ensures InJobs(workers) == 0
  {
    if workers != [] {
      NoInJobs(workers[..|workers| - 1]);
    }
  }

  /** `committedId` never claims more than the blob holds, and outside a put it is exact. */
  lemma CommittedIsPublished(s: State)
    requires Reachable(s)
    ensures s.ledger.committedId <= |s.service.blob| <= |Blocks(s)|
    ensures (forall c :: 0 <= c < |s.committers| ==>
              !s.committers[c].Posting? && !s.committers[c].Sent? && !s.committers[c].Applied?)
       ==> BlobBytes(s.service.blob) == Flatten(Blocks(s)[..s.ledger.committedId])
  {
    ReachableInv(s);
    BlobBytesAreBlocks(s, |s.service.blob|);
    assert s.service.blob[..|s.service.blob|] == s.service.blob;
    assert s.ledger.committedId <= |s.service.blob|;
  }

  /** In a serialised run, what has been published stays published. */
  lemma BlobOnlyGrows(s: State, a: Action)
    requires Reachable(s) && Enabled(s, a) && Serial(s, a)
    ensures s.service.blob <= Do(s, a).service.blob
  {
    ReachableInv(s);
    StepInv(s, a);
    StepCut(s, a);
    if a.ByCommitter? {
      CommitterFrame(s, a.c, a.commit);
    }
    SameBlocks(s, Do(s, a));
  }
}
