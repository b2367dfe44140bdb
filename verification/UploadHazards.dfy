/** Concrete runs of the uploader, as coded, that do not end as `flush` promises. */
module UploadHazards {
  import opened Bytes
  import opened Ledgers
  import opened Batching
  import opened BlockingQueues
  import opened UploadProtocol
  import opened UploadInvariant
  import opened UploadSerial
  import opened UploadCommit
  import opened UploadOverclaim

  const BLOCK1 := Job(1, [1])

  /** Reached from the two-worker initial state with block size 1, not necessarily by a serialised run. */
  ghost predicate Happens(s: State) {
    exists run :: Runs(Init(1, 2), run, s)
  }

  lemma HappensStep(s: State, a: Action)
    requires Happens(s) && Enabled(s, a)
    ensures Happens(Do(s, a))
  {
    var run :| Runs(Init(1, 2), run, s);
    RunsSnoc(Init(1, 2), run, s, a);
  }

  ghost predicate Both(s: State) {
    Reachable(s) && Happens(s)
  }

  lemma BothInit()
    ensures Both(Init(1, 2))
  {
    assert Runs(Init(1, 2), [], Init(1, 2)) && Serialised(Init(1, 2), []);
  }

  lemma BothStep(s: State, a: Action)
    requires Both(s) && Enabled(s, a) && Serial(s, a)
    ensures Both(Do(s, a))
  {
    ReachableStep(s, a);
    HappensStep(s, a);
  }

  /** A worker takes one job all the way from `pop` to `leaveJob`. */
  lemma WorkerCycle(s: State, w: nat) returns (s': State)
    requires Both(s) && |s.committers| == 2 && w < |s.workers| && s.workers[w].Idle?
    requires s.reqs.items != [] && !s.reqs.closed && !s.resps.closed && !s.gate.flushing
    ensures Both(s')
    ensures var job := s.reqs.items[0];
            s' == s.(reqs := s.reqs.(items := s.reqs.items[1..]),
                     resps := s.resps.(items := s.resps.items + [job.id]),
                     service := s.service.(staged := s.service.staged[job.id := job.data]))
  {
    BothStep(s, ByWorker(w, WorkerStep.Pop));
    var s1 := Do(s, ByWorker(w, WorkerStep.Pop));
    BothStep(s1, ByWorker(w, Enter));
    var s2 := Do(s1, ByWorker(w, Enter));
    BothStep(s2, ByWorker(w, Stage(true)));
    var s3 := Do(s2, ByWorker(w, Stage(true)));
    BothStep(s3, ByWorker(w, Respond));
    var s4 := Do(s3, ByWorker(w, Respond));
    BothStep(s4, ByWorker(w, Leave));
    s' := Do(s4, ByWorker(w, Leave));
    assert s'.workers == s.workers;
    assert s'.gate == s.gate;
  }

  lemma UploadOne(s: State, b: byte) returns (s': State)
    requires Both(s) && |s.committers| == 2 && s.committers[FLUSHER].Ready? && !s.reqs.closed
    requires s.producer.blockSize == 1 && s.producer.batch.stream == [] && s.producer.open == []
    ensures Both(s')
    ensures var n := s.producer.batch.nextId;
            s' == s.(producer := Producer(1, Batch([], n + 1), s.producer.cut + [[[b]]], []),
                     reqs := s.reqs.(items := s.reqs.items + [Job(n, [b])]))
  {
    var a := ByProducer(Upload([b]));
    BothStep(s, a);
    s' := Do(s, a);
    assert [] + [[b]] == [[b]];
    assert Feed(1, s.producer.batch, [b]) == (Batch([], s.producer.batch.nextId + 1), Some(Job(s.producer.batch.nextId, [b]))) by {
      assert [] + [b] == [b];
    }
  }

  /** `flush` returns early: nothing has been committed, so it does not look at the response waiting for it. */
  lemma FlushMissesResponse() returns (s: State)
    ensures Both(s) && HandedOut(s) && !SomeHeld(s) && NothingToCommit(s.ledger)
    ensures s.committers == [Ready, Ready] && s.workers == [Idle, Idle] && s.ledger == EMPTY_LEDGER
    ensures !s.gate.flushing && s.gate.sem == 2 && !s.reqs.closed && s.resps == Channel([1], false)
    ensures s.service.blob == [] && Uploaded(s) == [1] && |s.producer.cut| == 1
  {
    BothInit();
    var s1 := UploadOne(Init(1, 2), 1);
    s := WorkerCycle(s1, 0);
    assert s.producer.cut == [[[1]]];
    assert Flatten(Blocks(s)) == [1] by {
      assert Blocks(s) == [Flatten([[1]])];
      FlattenSnoc([], [1]);
      assert [] + [[1]] == [[1]];
      FlattenSnoc([], Flatten([[1]]));
      assert [] + [Flatten([[1]])] == [Flatten([[1]])];
    }
  }

  /**
   * The ordinary case: `wait_empty` is released as soon as the last block is popped, and nothing has been committed yet.
   * `flush` returns while worker 0 is uploading the only block.
   */
  lemma FlushOvertakesWorker() returns (s: State)
    ensures Both(s) && HandedOut(s) && NothingToCommit(s.ledger) && s.committers == [Ready, Ready]
    ensures s.workers == [Inside(BLOCK1), Idle] && s.resps.items == []
    ensures s.service.blob == [] && s.producer.cut == [[[1]]]
  {
    BothInit();
    var s0 := UploadOne(Init(1, 2), 1);
    assert s0.reqs.items == [BLOCK1];
    BothStep(s0, ByWorker(0, WorkerStep.Pop));
    var s1 := Do(s0, ByWorker(0, WorkerStep.Pop));
    BothStep(s1, ByWorker(0, Enter));
    s := Do(s1, ByWorker(0, Enter));
  }

  /** The committer has just popped that response when `flush` tests the guard: no queue and no worker holds the block. */
  lemma FlushMissesTakenResponse() returns (s: State)
    ensures Both(s) && HandedOut(s) && !SomeHeld(s) && NothingToCommit(s.ledger)
    ensures s.committers == [Ready, Took(1, false)] && s.resps.items == []
    ensures s.service.blob == [] && |s.producer.cut| == 1
  {
    var s0 := FlushMissesResponse();
    BothStep(s0, ByCommitter(COMMITTER, Take));
    s := Do(s0, ByCommitter(COMMITTER, Take));
  }

  /** `destroy` then closes the queue on that response, and no continuation publishes the block. */
  lemma DestroyLosesResponse() returns (s: State)
    ensures Both(s) && s.resps == Channel([1], true) && Uploaded(s) == [1]
    ensures forall run, s' :: Runs(s, run, s') ==> s'.service.blob == []
  {
    var s0 := FlushMissesResponse();
    BothStep(s0, ByProducer(CloseReqs));
    var s1 := Do(s0, ByProducer(CloseReqs));
    BothStep(s1, ByWorker(0, Exit));
    var s2 := Do(s1, ByWorker(0, Exit));
    BothStep(s2, ByWorker(1, Exit));
    var s3 := Do(s2, ByWorker(1, Exit));
    BothStep(s3, ByProducer(CloseResps));
    s := Do(s3, ByProducer(CloseResps));
    assert Blocks(s) == Blocks(s0);
    ReachableInv(s);
    forall run, s' | Runs(s, run, s') ensures s'.service.blob == [] {
      ClosedResponsesAreNeverPublished(s, run, s', 1);
    }
  }

  lemma FirstBlockCommits(pending: multiset<nat>)
    requires pending == multiset{}
    ensures CommitBlock(Ledger(pending, 1, 0, []), 1) == Ledger(multiset{}, 2, 0, [Item(1, false)])
  {
    var l := Ledger(multiset{1}, 1, 0, []);
    assert pending + multiset{1} == multiset{1};
    assert Absorb(l) == Absorb(Ledger(multiset{1} - multiset{1}, 2, 0, [] + [Item(1, false)]));
  }

  lemma SecondBlockCommits()
    ensures CommitBlock(Ledger(multiset{}, 2, 0, [Item(1, false)]), 2)
         == Ledger(multiset{}, 3, 0, [Item(1, false), Item(2, false)])
  {
    var l := Ledger(multiset{2}, 2, 0, [Item(1, false)]);
    assert multiset{} + multiset{2} == multiset{2};
    assert Absorb(l) == Absorb(Ledger(multiset{2} - multiset{2}, 3, 0, [Item(1, false)] + [Item(2, false)]));
  }

  lemma ThirdBlockWaits()
    ensures CommitBlock(Ledger(multiset{}, 2, 0, [Item(1, false)]), 3)
         == Ledger(multiset{3}, 2, 0, [Item(1, false)])
  {
    assert multiset{} + multiset{3} == multiset{3};
  }

  /** The committer pops one response and adds it to the block list. */
  lemma Collect(s: State) returns (s': State)
    requires Both(s) && |s.committers| == 2 && s.committers == [Ready, Ready]
    requires s.resps.items != [] && !s.resps.closed
    ensures Both(s')
    ensures s' == s.(resps := s.resps.(items := s.resps.items[1..]), ledger := CommitBlock(s.ledger, s.resps.items[0]))
  {
    BothStep(s, ByCommitter(1, Take));
    var s1 := Do(s, ByCommitter(1, Take));
    BothStep(s1, ByCommitter(1, Fold));
    s' := Do(s1, ByCommitter(1, Fold));
    assert s'.committers == s.committers;
  }

  /** One-byte blocks numbered from 2. */
  function Later(more: seq<byte>): seq<Job> {
    if more == [] then [] else Later(more[..|more| - 1]) + [Job(|more| + 1, [more[|more| - 1]])]
  }

  /** Block 1 and more one-byte blocks queued, and nothing else has happened. */
  ghost predicate IsQueued(s: State, more: seq<byte>) {
    && Both(s) && s.committers == [Ready, Ready] && s.workers == [Idle, Idle] && s.gate == Gate(2, false)
    && s.ledger == EMPTY_LEDGER && s.resps == Channel([], false) && s.service == Service(map[], [])
    && s.reqs == Channel([BLOCK1] + Later(more), false)
    && s.producer.blockSize == 1 && s.producer.open == []
    && s.producer.batch == Batch([], |more| + 2) && |s.producer.cut| == |more| + 1
  }

  lemma QueueFirst() returns (s: State)
    ensures IsQueued(s, [])
  {
    BothInit();
    s := UploadOne(Init(1, 2), 1);
    assert [BLOCK1] + Later([]) == [BLOCK1];
  }

  lemma QueueNext(s: State, more: seq<byte>, b: byte) returns (s': State)
    requires IsQueued(s, more)
    ensures IsQueued(s', more + [b])
  {
    s' := UploadOne(s, b);
    assert (more + [b])[..|more|] == more;
    assert [BLOCK1] + Later(more + [b]) == ([BLOCK1] + Later(more)) + [Job(|more| + 2, [b])];
  }

  lemma Queued(more: seq<byte>) returns (s: State)
    ensures IsQueued(s, more)
  {
    if more == [] {
      s := QueueFirst();
    } else {
      var n := |more| - 1;
      var s0 := Queued(more[..n]);
      s := QueueNext(s0, more[..n], more[n]);
      assert more[..n] + [more[n]] == more;
    }
  }

  /** Block 1 collected, the other one-byte blocks queued. */
  lemma OneCollected(more: seq<byte>) returns (s: State)
    ensures Both(s) && s.committers == [Ready, Ready] && s.workers == [Idle, Idle] && s.gate == Gate(2, false)
    ensures s.ledger == Ledger(multiset{}, 2, 0, [Item(1, false)])
    ensures s.resps == Channel([], false) && s.service == Service(map[1 := [1]], [])
    ensures s.reqs == Channel(Later(more), false)
    ensures s.producer.batch == Batch([], |more| + 2) && |s.producer.cut| == |more| + 1
  {
    var s0 := Queued(more);
    var s1 := WorkerCycle(s0, 0);
    assert [] + [1] == [1];
    s := Collect(s1);
    FirstBlockCommits(multiset{});
  }

  lemma LaterUnfolds()
    ensures Later([2]) == [Job(2, [2])] && Later([2, 3]) == [Job(2, [2]), Job(3, [3])]
  {
    assert [2][..0] == [] && [2, 3][..1] == [2];
  }

  /** Block 3 collected while worker 0 stands between `pop` and `enterJob` with block 2. */
  lemma Overtake() returns (s: State)
    ensures Both(s) && Overtaken(s) && s.committers == [Ready, Ready] && s.gate == Gate(2, false)
    ensures |s.workers| == 2 && s.resps == Channel([], false)
    ensures s.ledger == Ledger(multiset{3}, 2, 0, [Item(1, false)])
    ensures s.service == Service(map[1 := [1], 3 := [3]], [])
  {
    LaterUnfolds();
    var s0 := OneCollected([2, 3]);
    BothStep(s0, ByWorker(0, WorkerStep.Pop));
    var s1 := Do(s0, ByWorker(0, WorkerStep.Pop));
    var s2 := WorkerCycle(s1, 1);
    s := Collect(s2);
    ThirdBlockWaits();
    assert s.workers[0] == Popped(Job(2, [2])) && Received(s.ledger, 3);
  }

  /**
   * The gap between `pop` and `enterJob`: worker 0 has popped block 2 and not entered when worker 1 stages
   * block 3. A commit in between puts the list `[1]`, and a service that discards what a list leaves out
   * drops block 3 for good.
   */
  lemma OvertakenBlockIsLost() returns (s: State)
    ensures Both(s) && Lost(s, 3)
    ensures forall run, s' :: Runs(s, run, s') ==> |s'.service.blob| < 3
  {
    var s0 := Overtake();
    BothStep(s0, ByCommitter(1, Begin));
    var e := Do(s0, ByCommitter(1, Begin));
    BothStep(e, ByCommitter(1, Shut));
    var s1 := Do(e, ByCommitter(1, Shut));
    BothStep(s1, ByCommitter(1, Pass));
    var s2 := Do(s1, ByCommitter(1, Pass));
    BothStep(s2, ByCommitter(1, Send));
    var s3 := Do(s2, ByCommitter(1, Send));
    assert s3.committers[1] == Sent([Item(1, false)]);
    BothStep(s3, ByCommitter(1, Apply({})));
    s := Do(s3, ByCommitter(1, Apply({})));
    ReachableInv(s);
    forall run, s' | Runs(s, run, s') ensures |s'.service.blob| < 3 {
      LostForever(s, run, s', 3);
    }
  }

  /** The committer holds response 2 while `flush` has sent the list `[1]`. */
  lemma SentWhileTaken() returns (s: State)
    ensures Happens(s) && HandedOut(s) && !SomeHeld(s) && |s.producer.cut| == 2
    ensures s.gate == Gate(2, true) && |s.workers| == 2
    ensures s.committers == [Sent([Item(1, false)]), Took(2, false)] && s.resps == Channel([], false)
    ensures s.ledger == Ledger(multiset{}, 2, 0, [Item(1, false)])
    ensures s.service == Service(map[1 := [1], 2 := [2]], [])
  {
    LaterUnfolds();
    var s0 := OneCollected([2]);
    var s1 := WorkerCycle(s0, 0);
    HappensStep(s1, ByCommitter(1, Take));
    var s2 := Do(s1, ByCommitter(1, Take));
    HappensStep(s2, ByCommitter(0, Begin));
    var e := Do(s2, ByCommitter(0, Begin));
    HappensStep(e, ByCommitter(0, Shut));
    var s3 := Do(e, ByCommitter(0, Shut));
    HappensStep(s3, ByCommitter(0, Pass));
    var s4 := Do(s3, ByCommitter(0, Pass));
    HappensStep(s4, ByCommitter(0, Send));
    s := Do(s4, ByCommitter(0, Send));
  }

  lemma PutOne(s: State) returns (s': State)
    requires Happens(s) && s.committers == [Sent([Item(1, false)]), Took(2, false)]
    requires s.service == Service(map[1 := [1], 2 := [2]], [])
    ensures Happens(s')
    ensures s'.service.blob == [BLOCK1]
    ensures s' == s.(committers := [Applied([Item(1, false)]), Took(2, false)], service := s'.service)
  {
    HappensStep(s, ByCommitter(0, Apply({2})));
    s' := Do(s, ByCommitter(0, Apply({2})));
    assert s'.committers == [Applied([Item(1, false)]), Took(2, false)];
  }

  lemma HappensInv(s: State)
    requires Happens(s)
    ensures Inv(s)
  {
    var run :| Runs(Init(1, 2), run, s);
    InitInv(1, 2);
    RunsInv(Init(1, 2), run, s);
  }

  /** Block 2 is marked and not published, and no committer has sent a list. */
  lemma StaysOverclaimed(s: State)
    requires Happens(s) && Overclaimed(s, 2)
    ensures forall run, s' :: Runs(s, run, s') ==> |s'.service.blob| < 2 && !Resolvable(s'.service, s'.ledger.list)
  {
    HappensInv(s);
    forall run, s' | Runs(s, run, s') ensures |s'.service.blob| < 2 && !Resolvable(s'.service, s'.ledger.list) {
      OverclaimIsForever(s, run, s', 2);
    }
  }

  /**
   * Two committing threads at once: the committer has popped response 2 when `flush` puts the list `[1]`, and
   * adds block 2 before `flush` records the result. Everything is handed in and every thread is at rest,
   * `committedId` says 2, and the blob holds one block; the next `doCommit` finds nothing to do, and the list
   * can never be put again.
   */
  lemma TwoCommittersOverclaim() returns (s: State)
    ensures Happens(s) && HandedOut(s) && !SomeHeld(s) && s.committers == [Ready, Ready] && s.resps.items == []
    ensures NothingToCommit(s.ledger) && s.ledger.committedId == 2
    ensures |s.producer.cut| == 2 && s.service.blob == [BLOCK1]
    ensures forall run, s' :: Runs(s, run, s') ==> |s'.service.blob| < 2 && !Resolvable(s'.service, s'.ledger.list)
  {
    var s5 := SentWhileTaken();
    var s6 := PutOne(s5);
    HappensStep(s6, ByCommitter(1, Fold));
    var s7 := Do(s6, ByCommitter(1, Fold));
    SecondBlockCommits();
    HappensStep(s7, ByCommitter(0, Ack));
    var s8 := Do(s7, ByCommitter(0, Ack));
    HappensStep(s8, ByCommitter(0, Release));
    s := Do(s8, ByCommitter(0, Release));
    StaysOverclaimed(s);
  }

  const BOTH_ITEMS := [Item(1, false), Item(2, false)]

  /** The committer adds block 2 and sends the list `[1, 2]`, while the list `[1]` of `flush` is still on its way. */
  lemma BothSent() returns (s: State)
    ensures Happens(s) && s.committers == [Sent([Item(1, false)]), Sent(BOTH_ITEMS)]
    ensures s.ledger == Ledger(multiset{}, 3, 0, BOTH_ITEMS)
    ensures s.service == Service(map[1 := [1], 2 := [2]], [])
  {
    var s0 := SentWhileTaken();
    HappensStep(s0, ByCommitter(1, Fold));
    var s1 := Do(s0, ByCommitter(1, Fold));
    SecondBlockCommits();
    HappensStep(s1, ByCommitter(1, Begin));
    var e := Do(s1, ByCommitter(1, Begin));
    HappensStep(e, ByCommitter(1, Shut));
    var s2 := Do(e, ByCommitter(1, Shut));
    HappensStep(s2, ByCommitter(1, Pass));
    var s3 := Do(s2, ByCommitter(1, Pass));
    HappensStep(s3, ByCommitter(1, Send));
    s := Do(s3, ByCommitter(1, Send));
  }

  /** The list `[1, 2]` takes effect and is recorded. */
  lemma BothPublished() returns (s: State)
    ensures Happens(s) && s.committers == [Sent([Item(1, false)]), Releasing]
    ensures s.ledger.committedId == 2 && s.service == Service(map[], [BLOCK1, Job(2, [2])])
  {
    var s0 := BothSent();
    HappensStep(s0, ByCommitter(1, Apply({})));
    var s1 := Do(s0, ByCommitter(1, Apply({})));
    assert s1.service.staged == map[];
    assert s1.service.blob == [BLOCK1, Job(2, [2])];
    HappensStep(s1, ByCommitter(1, Ack));
    s := Do(s1, ByCommitter(1, Ack));
  }

  /**
   * A put that takes effect late: both blocks are published and recorded when the older list `[1]` of `flush` arrives.
   * Block 2 disappears from the blob, and is never published again.
   */
  lemma LatePutErasesBlock() returns (before: State, s: State)
    ensures Happens(before) && before.ledger.committedId == |before.service.blob| == 2
    ensures Enabled(before, ByCommitter(FLUSHER, Apply({}))) && s == Do(before, ByCommitter(FLUSHER, Apply({})))
    ensures Happens(s) && s.service.blob == [BLOCK1]
    ensures forall run, s' :: Runs(s, run, s') ==> |s'.service.blob| < 2 && !Resolvable(s'.service, s'.ledger.list)
  {
    before := BothPublished();
    assert InBlob(before.service.blob, 1) by {
      assert before.service.blob[0].id == 1;
    }
    HappensStep(before, ByCommitter(FLUSHER, Apply({})));
    s := Do(before, ByCommitter(FLUSHER, Apply({})));
    LatePutBlob(before.service);
    StaysOverclaimed(s);
  }

  lemma LatePutBlob(svc: Service)
    requires svc == Service(map[], [BLOCK1, Job(2, [2])])
    ensures Resolvable(svc, [Item(1, false)]) && Put(svc, [Item(1, false)], {}).blob == [BLOCK1]
  {
    assert svc.blob[0].id == 1;
    BlobDataIsAnEntry(svc.blob, 1);
    assert Resolves(svc, Item(1, false));
  }
}
