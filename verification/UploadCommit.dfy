/** What a commit publishes, and what it can lose. Everything here is about serialised runs unless said otherwise. */
module UploadCommit {
  import opened Bytes
  import opened Ledgers
  import opened Batching
  import opened BlockingQueues
  import opened UploadProtocol
  import opened UploadInvariant
  import opened UploadSerial
  import opened UploadOverclaim

  /** A committer past the barrier with every response collected. */
  ghost predicate Collected(s: State, c: nat) {
    && |s.committers| == 2 && c < 2
    && PastBarrier(s.committers[c]) && !s.committers[c].Took? && s.resps.items == []
  }

  /** A worker stands between `pop` and `enterJob` with an id below one already received. */
  ghost predicate Overtaken(s: State) {
    exists w, x :: 0 <= w < |s.workers| && s.workers[w].Popped? && Received(s.ledger, x) && s.workers[w].job.id < x
  }

  lemma PoppedIsNotReceived(s: State, w: nat)
    requires Inv(s) && w < |s.workers| && HoldsJob(s.workers[w])
    ensures 1 <= s.workers[w].job.id < First(s) && !Received(s.ledger, s.workers[w].job.id)
  {
    var id := s.workers[w].job.id;
    HeldIncludes(s.workers, w);
    assert WorkerHolds(s.workers[w])[id] == 1;
    assert Places(s, id) == One(1 <= id < First(s));
  }

  /** Past the barrier, the least id missing is held by a worker that has popped it and not entered. */
  lemma GapIsPopped(s: State, c: nat)
    requires Inv(s) && SerialInv(s) && Collected(s, c) && s.ledger.next < First(s)
    ensures exists w :: 0 <= w < |s.workers| && s.workers[w].Popped? && s.workers[w].job.id == s.ledger.next
  {
    hide Numbered, Faithful, BlobInOrder, Counted, PutInStep, PublishedAt;
    var next := s.ledger.next;
    assert Held(s.workers)[next] > 0 by {
      assert Places(s, next) == 1;
      assert s.committers[1 - c].Ready?;
    }
    HeldBySomeone(s.workers, next);
    var w :| 0 <= w < |s.workers| && HoldsJob(s.workers[w]) && s.workers[w].job.id == next;
    assert !InJob(s.workers[w]) by {
      assert BarrierClosed(s, c);
    }
  }

  /**
   * The barrier collects everything exactly when no worker was overtaken: as coded, a worker pops before it
   * enters, so a commit can find ids beyond a gap in the window.
   */
  lemma WindowIsEmptyIff(s: State, c: nat)
    requires Reachable(s) && Collected(s, c)
    ensures s.ledger.pending == multiset{} <==> !Overtaken(s)
  {
    ReachableInv(s);
    if s.ledger.pending != multiset{} {
      var x :| x in s.ledger.pending;
      assert Places(s, x) == One(1 <= x < First(s));
      GapIsPopped(s, c);
      var w :| 0 <= w < |s.workers| && s.workers[w].Popped? && s.workers[w].job.id == s.ledger.next;
      assert Received(s.ledger, x) && s.workers[w].job.id < x;
    } else if Overtaken(s) {
      var w, x :| 0 <= w < |s.workers| && s.workers[w].Popped? && Received(s.ledger, x) && s.workers[w].job.id < x;
      PoppedIsNotReceived(s, w);
    }
  }

  predicate SomePopped(s: State) {
    exists w :: 0 <= w < |s.workers| && s.workers[w].Popped?
  }

  /**
   * Barrier completeness: the list about to be put is all ids ever popped, and no reported block is left out of it,
   * exactly when no worker stands between `pop` and `enterJob`.
   */
  lemma BarrierIsCompleteIff(s: State, c: nat)
    requires Reachable(s) && Collected(s, c)
    ensures |s.ledger.list| == First(s) - 1 <==> !SomePopped(s)
    ensures !SomePopped(s) ==> s.ledger.pending == multiset{}
    ensures forall i :: 0 <= i < |s.ledger.list| ==> s.ledger.list[i].id == i + 1
  {
    ReachableInv(s);
    WindowIsEmptyIff(s, c);
    ListedAreBlocks(s);
    if s.ledger.next < First(s) {
      GapIsPopped(s, c);
    } else if SomePopped(s) {
      var w :| 0 <= w < |s.workers| && s.workers[w].Popped?;
      PoppedIsNotReceived(s, w);
    }
  }

  predicate IsPop(a: Action) {
    a.ByWorker? && a.work.Pop?
  }

  /** In the run and at its end, no step comes between a worker's `pop` and its `enterJob`. */
  ghost predicate PopsEnter(run: seq<Action>) {
    forall i {:trigger IsPop(run[i])} :: 0 <= i < |run| && IsPop(run[i]) ==>
      i + 1 < |run| && run[i + 1] == ByWorker(run[i].w, Enter)
  }

  /** Only the worker that has just popped stands between the two. */
  lemma {:induction false} OnlyLastPopped(s0: State, run: seq<Action>, s: State, w: nat)
    requires forall v :: 0 <= v < |s0.workers| ==> !s0.workers[v].Popped?
    requires Runs(s0, run, s) && w < |s.workers| && s.workers[w].Popped?
    requires forall i {:trigger IsPop(run[i])} :: 0 <= i < |run| - 1 && IsPop(run[i]) ==>
      run[i + 1] == ByWorker(run[i].w, Enter)
    ensures run != [] && IsPop(run[|run| - 1]) && run[|run| - 1].w == w
  {
    var front, a := run[..|run| - 1], run[|run| - 1];
    var m := Exec(s0, front).value;
    if !(IsPop(a) && a.w == w) {
      WorkersFrame(m, a, w);
      assert forall i :: 0 <= i < |front| && IsPop(front[i]) ==> IsPop(run[i]) && run[i + 1] == ByWorker(front[i].w, Enter);
      OnlyLastPopped(s0, front, m, w);
    }
  }

  /** A worker found popped after a step has popped in that step, or was so before and has not moved. */
  lemma WorkersFrame(s: State, a: Action, w: nat)
    requires Enabled(s, a) && w < |Do(s, a).workers| && Do(s, a).workers[w].Popped?
    ensures |Do(s, a).workers| == |s.workers|
    ensures (IsPop(a) && a.w == w) || (s.workers[w].Popped? && a != ByWorker(w, Enter))
  {
  }

  /** Stored by the service and reported, but possibly not published yet. */
  ghost predicate Stored(s: State, x: nat)
    requires |s.committers| == 2
  {
    || Received(s.ledger, x)
    || x in s.resps.items
    || CommitterHolds(s.committers[0])[x] > 0 || CommitterHolds(s.committers[1])[x] > 0
    || (exists w :: 0 <= w < |s.workers| && s.workers[w].Staged? && s.workers[w].job.id == x)
  }

  /** Every stored block is still at the service: published, or staged. */
  ghost predicate Intact(s: State) {
    && |s.committers| == 2
    && forall x: nat :: Stored(s, x) && x > |s.service.blob| ==> x in s.service.staged
  }

  /** A block the service had stored and no longer has. */
  ghost predicate Lost(s: State, x: nat) {
    Received(s.ledger, x) && x > |s.service.blob| && x !in s.service.staged
  }

  /** The put meets no overtaken worker, or the service keeps what the list leaves out. */
  ghost predicate Gentle(s: State, a: Action) {
    a.ByCommitter? && a.commit.Apply? ==> !Overtaken(s) || forall x :: x in s.ledger.pending ==> x in a.commit.keep
  }

  ghost predicate GentleRun(s: State, run: seq<Action>) {
    run == [] ||
    (GentleRun(s, run[..|run| - 1]) &&
     (Exec(s, run[..|run| - 1]).Some? ==> Gentle(Exec(s, run[..|run| - 1]).value, run[|run| - 1])))
  }

  lemma WorkerIntact(s: State, w: nat, step: WorkerStep)
    requires Inv(s) && Intact(s) && Enabled(s, ByWorker(w, step))
    ensures Intact(DoWorker(s, w, step))
  {
    var s' := DoWorker(s, w, step);
    assert s'.ledger == s.ledger && s'.committers == s.committers && s'.service.blob == s.service.blob;
    forall x: nat | Stored(s', x) && x > |s'.service.blob| ensures x in s'.service.staged {
      if !Stored(s, x) {
        assert step.Stage? && x == s.workers[w].job.id;
      }
    }
  }

  lemma FoldIntact(s: State, c: nat)
    requires Inv(s) && Intact(s) && Enabled(s, ByCommitter(c, Fold))
    ensures Intact(DoCommitter(s, c, Fold))
  {
    var s' := DoCommitter(s, c, Fold);
    CommitterFrame(s, c, Fold);
    FoldKeepsLedger(s, c);
    forall x: nat | Stored(s', x) && x > |s'.service.blob| ensures x in s'.service.staged {
      assert CommitterHolds(s.committers[c])[s.committers[c].id] > 0;
      assert Stored(s, x);
    }
  }

  lemma ApplyIntact(s: State, c: nat, keep: set<nat>)
    requires Inv(s) && SerialInv(s) && Intact(s) && Enabled(s, ByCommitter(c, Apply(keep)))
    requires forall x :: x in s.ledger.pending ==> x in keep
    ensures Intact(DoCommitter(s, c, Apply(keep)))
  {
    var s' := DoCommitter(s, c, Apply(keep));
    CommitterFrame(s, c, Apply(keep));
    forall x: nat | Stored(s', x) && x > |s'.service.blob| ensures x in s'.service.staged {
      assert Stored(s, x);
      assert x in s.ledger.pending;
    }
  }

  lemma OtherCommitIntact(s: State, c: nat, step: CommitStep)
    requires Inv(s) && Intact(s) && Enabled(s, ByCommitter(c, step)) && !step.Fold? && !step.Apply?
    ensures Intact(DoCommitter(s, c, step))
  {
    var s' := DoCommitter(s, c, step);
    CommitterFrame(s, c, step);
    forall x: nat | Stored(s', x) && x > |s'.service.blob| ensures x in s'.service.staged {
      assert Received(s'.ledger, x) ==> Received(s.ledger, x);
      if step.Take? {
        assert s.resps.items == [s.resps.items[0]] + s'.resps.items;
      }
      assert Stored(s, x);
    }
  }

  lemma StepIntact(s: State, a: Action)
    requires Reachable(s) && Intact(s) && Enabled(s, a) && Serial(s, a) && Gentle(s, a)
    ensures Intact(Do(s, a))
  {
    ReachableInv(s);
    match a
    case ByProducer(p) =>
      var s' := DoProducer(s, p);
      assert s'.workers == s.workers && s'.ledger == s.ledger && s'.committers == s.committers;
      assert s'.service == s.service && s'.resps.items == s.resps.items;
      assert forall x: nat :: Stored(s', x) ==> Stored(s, x);
    case ByWorker(w, step) => WorkerIntact(s, w, step);
    case ByCommitter(c, step) =>
      match step {
        case Apply(keep) =>
          WindowIsEmptyIff(s, c);
          ApplyIntact(s, c, keep);
        case Fold => FoldIntact(s, c);
        case _ => OtherCommitIntact(s, c, step);
      }
  }

  lemma {:induction false} GentleRunsStayIntact(blockSize: nat, workerCount: nat, run: seq<Action>, s: State)
    requires Runs(Init(blockSize, workerCount), run, s) && Serialised(Init(blockSize, workerCount), run)
    requires GentleRun(Init(blockSize, workerCount), run)
    ensures Intact(s)
  {
    if run != [] {
      var m := Exec(Init(blockSize, workerCount), run[..|run| - 1]).value;
      GentleRunsStayIntact(blockSize, workerCount, run[..|run| - 1], m);
      StepIntact(m, run[|run| - 1]);
    }
  }

  lemma IntactResolves(s: State)
    requires Inv(s) && Intact(s) && s.ledger.committedId <= |s.service.blob|
    ensures Resolvable(s.service, s.ledger.list)
  {
    forall i | 0 <= i < |s.ledger.list| ensures Resolves(s.service, s.ledger.list[i]) {
      if i < |s.service.blob| {
        assert s.service.blob[i].id == i + 1;
      } else {
        assert Stored(s, i + 1);
      }
    }
  }

  /**
   * No put gets stuck: when no commit overtook a worker, every item of every list sent names a block that is
   * committed or staged, so the service can accept it and the retry loop of `doCommit` can end.
   */
  lemma PutCanSucceed(blockSize: nat, workerCount: nat, run: seq<Action>, s: State, c: nat, keep: set<nat>)
    requires Runs(Init(blockSize, workerCount), run, s) && Serialised(Init(blockSize, workerCount), run)
    requires GentleRun(Init(blockSize, workerCount), run)
    requires c < 2 && |s.committers| == 2 && s.committers[c].Sent?
    ensures Enabled(s, ByCommitter(c, Apply(keep)))
  {
    assert Reachable(s);
    ReachableInv(s);
    GentleRunsStayIntact(blockSize, workerCount, run, s);
    CommittedIsPublished(s);
    IntactResolves(s);
  }

  lemma EntryResolvesIff(s: State, i: nat)
    requires Inv(s) && Backed(s) && i < |s.ledger.list|
    ensures Resolves(s.service, s.ledger.list[i]) <==> !Lost(s, i + 1)
  {
    if i < |s.service.blob| {
      assert s.service.blob[i].id == i + 1;
    }
  }

  lemma ListResolvesIff(s: State)
    requires Inv(s) && Backed(s)
    ensures Resolvable(s.service, s.ledger.list) <==> forall x :: 1 <= x <= |s.ledger.list| ==> !Lost(s, x)
  {
    hide Inv, Lost, Resolves;
    forall i: nat | i < |s.ledger.list| ensures Resolves(s.service, s.ledger.list[i]) <==> !Lost(s, i + 1) {
      EntryResolvesIff(s, i);
    }
    if Resolvable(s.service, s.ledger.list) {
      forall x: nat | 1 <= x <= |s.ledger.list| ensures !Lost(s, x) {
        assert Resolves(s.service, s.ledger.list[x - 1]) <==> !Lost(s, (x - 1) + 1);
      }
    }
  }

  lemma SentIsCurrent(s: State, c: nat)
    requires Reachable(s) && c < 2 && |s.committers| == 2 && s.committers[c].Sent?
    ensures s.committers[c].list == s.ledger.list && Inv(s) && Backed(s)
  {
    hide Inv, SerialInv, Reachable;
    ReachableInv(s);
    SentInStep(s, c);
    CommittedIsPublished(s);
  }

  lemma SentInStep(s: State, c: nat)
    requires SerialInv(s) && c < 2 && s.committers[c].Sent?
    ensures s.committers[c].list == s.ledger.list
  {
    hide BarrierClosed, PublishedAt;
    if c == 0 {
      assert PutInStep(s, 0);
    } else {
      assert PutInStep(s, 1);
    }
  }

  /** The list sent is accepted exactly when no listed block has been lost: otherwise the retry loop never ends. */
  lemma SentIsAcceptedIff(s: State, c: nat, keep: set<nat>)
    requires Reachable(s) && c < 2 && |s.committers| == 2 && s.committers[c].Sent?
    ensures Enabled(s, ByCommitter(c, Apply(keep)))
       <==> forall x :: 1 <= x <= |s.committers[c].list| ==> !Lost(s, x)
  {
    hide Reachable, Inv, Lost, Resolvable;
    SentIsCurrent(s, c);
    ListResolvesIff(s);
  }

  /** While every worker enters as it pops, no commit overtakes one. */
  lemma {:induction false} AtomicEntryIsGentle(blockSize: nat, workerCount: nat, run: seq<Action>, s: State)
    requires Runs(Init(blockSize, workerCount), run, s) && Serialised(Init(blockSize, workerCount), run)
    requires forall i {:trigger IsPop(run[i])} :: 0 <= i < |run| - 1 && IsPop(run[i]) ==>
      run[i + 1] == ByWorker(run[i].w, Enter)
    ensures GentleRun(Init(blockSize, workerCount), run)
  {
    if run != [] {
      var front, a := run[..|run| - 1], run[|run| - 1];
      var m := Exec(Init(blockSize, workerCount), front).value;
      assert forall i :: 0 <= i < |front| - 1 && IsPop(front[i]) ==>
        IsPop(run[i]) && run[i + 1] == ByWorker(front[i].w, Enter);
      AtomicEntryIsGentle(blockSize, workerCount, front, m);
      if Overtaken(m) {
        var w :| 0 <= w < |m.workers| && m.workers[w].Popped?;
        OnlyLastPopped(Init(blockSize, workerCount), front, m, w);
        assert IsPop(run[|front| - 1]) && run[|front|] == a;
      }
    }
  }

  /**
   * Popping and entering in one step, as nothing in the code makes them, every commit would be complete: it finds an empty
   * window, lists all ids ever popped, every one of them is published or staged, and the service accepts the list.
   */
  lemma AtomicEntryCompletesBarrier(
      blockSize: nat, workerCount: nat, run: seq<Action>, s: State, c: nat, keep: set<nat>)
    requires Runs(Init(blockSize, workerCount), run, s) && Serialised(Init(blockSize, workerCount), run)
    requires PopsEnter(run) && Collected(s, c)
    ensures s.ledger.pending == multiset{} && |s.ledger.list| == First(s) - 1
    ensures forall i :: 0 <= i < |s.ledger.list| ==> s.ledger.list[i].id == i + 1
    ensures forall x :: 1 <= x <= |s.ledger.list| ==> x <= |s.service.blob| || x in s.service.staged
    ensures s.committers[c].Sent? ==> Enabled(s, ByCommitter(c, Apply(keep)))
  {
    hide Serialised, PopsEnter, Intact, SomePopped, Enabled;
    NonePopped(blockSize, workerCount, run, s);
    assert Reachable(s);
    BarrierIsCompleteIff(s, c);
    AtomicEntryIsGentle(blockSize, workerCount, run, s);
    GentleRunsStayIntact(blockSize, workerCount, run, s);
    ListedAreStored(s);
    if s.committers[c].Sent? {
      PutCanSucceed(blockSize, workerCount, run, s, c, keep);
    }
  }

  lemma NonePopped(blockSize: nat, workerCount: nat, run: seq<Action>, s: State)
    requires Runs(Init(blockSize, workerCount), run, s) && PopsEnter(run)
    ensures !SomePopped(s)
    ensures forall i {:trigger IsPop(run[i])} :: 0 <= i < |run| - 1 && IsPop(run[i]) ==>
      run[i + 1] == ByWorker(run[i].w, Enter)
  {
    if SomePopped(s) {
      var w :| 0 <= w < |s.workers| && s.workers[w].Popped?;
      OnlyLastPopped(Init(blockSize, workerCount), run, s, w);
    }
  }

  lemma ListedAreStored(s: State)
    requires Reachable(s) && Intact(s)
    ensures forall x :: 1 <= x <= |s.ledger.list| ==> x <= |s.service.blob| || x in s.service.staged
  {
    ReachableInv(s);
    forall x | 1 <= x <= |s.ledger.list| ensures x <= |s.service.blob| || x in s.service.staged {
      assert Stored(s, x);
    }
  }

  /** A put loses a block exactly when it leaves one out that the service does not keep. */
  lemma PutLosesIff(s: State, c: nat, keep: set<nat>)
    requires Reachable(s) && Intact(s) && Enabled(s, ByCommitter(c, Apply(keep)))
    ensures (exists x :: Lost(Do(s, ByCommitter(c, Apply(keep))), x)) <==> exists x :: x in s.ledger.pending && x !in keep
  {
    ReachableInv(s);
    var s' := Do(s, ByCommitter(c, Apply(keep)));
    forall x | Lost(s', x) ensures x in s.ledger.pending && x !in keep {
      assert Stored(s, x);
    }
    forall x | x in s.ledger.pending && x !in keep ensures Lost(s', x) {
    }
  }

  /** With a service that discards whatever a list leaves out: exactly when a worker was overtaken. */
  lemma DiscardingPutLosesIff(s: State, c: nat)
    requires Reachable(s) && Intact(s) && Enabled(s, ByCommitter(c, Apply({})))
    ensures (exists x :: Lost(Do(s, ByCommitter(c, Apply({}))), x)) <==> Overtaken(s)
  {
    ReachableInv(s);
    PutLosesIff(s, c, {});
    WindowIsEmptyIff(s, c);
  }

  lemma LostWorker(s: State, w: nat, step: WorkerStep, x: nat)
    requires Inv(s) && Lost(s, x) && Enabled(s, ByWorker(w, step))
    ensures Lost(DoWorker(s, w, step), x)
  {
    if step.Stage? {
      PoppedIsNotReceived(s, w);
    }
  }

  /** No list that reaches a lost block resolves. */
  lemma LostIsNotListed(s: State, x: nat, list: seq<Item>)
    requires BlobInOrder(s) && Lost(s, x) && ListOf(list, s.ledger.next) && Resolvable(s.service, list)
    ensures |list| < x
  {
    forall i | 0 <= i < |list| ensures list[i].id != x {
      assert Resolves(s.service, list[i]);
    }
    var k := if x <= |list| then x - 1 else 0;
    assert k < |list| ==> list[k].id != x;
  }

  lemma LostCommitter(s: State, c: nat, step: CommitStep, x: nat)
    requires Inv(s) && Lost(s, x) && Enabled(s, ByCommitter(c, step))
    ensures Lost(DoCommitter(s, c, step), x)
  {
    CommitterFrame(s, c, step);
    if step.Fold? {
      FoldKeepsLedger(s, c);
    }
    if step.Apply? {
      LostIsNotListed(s, x, s.committers[c].list);
    }
  }

  lemma LostStep(s: State, a: Action, x: nat)
    requires Inv(s) && Lost(s, x) && Enabled(s, a)
    ensures Lost(Do(s, a), x)
  {
    match a
    case ByProducer(p) => ProducerFrame(s, p);
    case ByWorker(w, step) => LostWorker(s, w, step, x);
    case ByCommitter(c, step) => LostCommitter(s, c, step, x);
  }

  /** Lost once is lost for good: in no continuation, serialised or not, is block `x` or a later one published. */
  lemma {:induction false} LostForever(s: State, run: seq<Action>, s': State, x: nat)
    requires Inv(s) && Lost(s, x) && Runs(s, run, s')
    ensures Inv(s') && Lost(s', x) && |s'.service.blob| < x
    ensures forall list: seq<Item> :: ListOf(list, s'.ledger.next) && x <= |list| ==> !Resolvable(s'.service, list)
  {
    if run != [] {
      var m := Exec(s, run[..|run| - 1]).value;
      LostForever(s, run[..|run| - 1], m, x);
      StepInv(m, run[|run| - 1]);
      LostStep(m, run[|run| - 1], x);
    }
    forall list: seq<Item> | ListOf(list, s'.ledger.next) && Resolvable(s'.service, list) ensures |list| < x {
      LostIsNotListed(s', x, list);
    }
  }

  /** What `flush` waits for: everything uploaded has been cut, and every block popped. */
  ghost predicate HandedOut(s: State) {
    s.reqs.items == [] && s.producer.batch.stream == []
  }

  predicate SomeHeld(s: State) {
    exists w :: 0 <= w < |s.workers| && HoldsJob(s.workers[w])
  }

  lemma FullBlobIsUploaded(s: State)
    requires Inv(s) && |s.service.blob| == |s.producer.cut| && s.producer.batch.stream == []
    ensures BlobBytes(s.service.blob) == Uploaded(s)
  {
    BlobBytesAreBlocks(s, |s.service.blob|);
    assert s.service.blob[..|s.service.blob|] == s.service.blob;
    assert Blocks(s)[..|Blocks(s)|] == Blocks(s);
  }

  /**
   * `flush` with a commit of its own: `wait_empty` is released by the last `pop`, so workers may still be busy. The put
   * that succeeds publishes every block exactly when no worker stands between `pop` and `enterJob`.
   */
  lemma FlushCommitIsCompleteIff(s: State, c: nat)
    requires Reachable(s) && HandedOut(s)
    requires c < 2 && |s.committers| == 2 && Enabled(s, ByCommitter(c, Ack))
    ensures var s' := Do(s, ByCommitter(c, Ack));
            && (|s'.service.blob| == |s'.producer.cut| <==> !SomePopped(s))
            && (!SomePopped(s) ==> BlobBytes(s'.service.blob) == Uploaded(s') && s'.ledger.pending == multiset{})
            && (!SomePopped(s) ==> s'.ledger.committedId == s'.producer.batch.nextId - 1)
  {
    ReachableInv(s);
    BarrierIsCompleteIff(s, c);
    var s' := Do(s, ByCommitter(c, Ack));
    StepInv(s, ByCommitter(c, Ack));
    if !SomePopped(s) {
      FullBlobIsUploaded(s');
    }
  }

  predicate SomeTook(s: State) {
    exists c :: 0 <= c < |s.committers| && s.committers[c].Took?
  }

  /** A popped id that no worker, no queue and no committing thread holds has been listed or waits in the window. */
  lemma NobodyHolds(s: State, x: nat)
    requires Inv(s) && s.resps.items == [] && !SomeHeld(s) && !SomeTook(s) && 1 <= x < First(s)
    ensures Received(s.ledger, x)
  {
    assert Places(s, x) == 1;
    if Held(s.workers)[x] > 0 {
      HeldBySomeone(s.workers, x);
    }
  }

  /** An id that a worker, the response queue or a committing thread holds has not been listed. */
  lemma HeldIsUnlisted(s: State, x: nat)
    requires Inv(s)
    requires Held(s.workers)[x] + multiset(s.resps.items)[x]
      + CommitterHolds(s.committers[0])[x] + CommitterHolds(s.committers[1])[x] > 0
    ensures s.ledger.next <= x < First(s)
  {
    assert Places(s, x) == One(1 <= x < First(s));
  }

  lemma SomebodyHolds(s: State)
    requires Inv(s) && (s.resps.items != [] || SomeHeld(s) || SomeTook(s))
    ensures s.ledger.next < First(s)
  {
    hide Held, Numbered, Faithful, BlobInOrder, Conserved, Counted;
    if s.resps.items != [] {
      assert s.resps.items[0] in multiset(s.resps.items);
      HeldIsUnlisted(s, s.resps.items[0]);
    } else if SomeHeld(s) {
      var w :| 0 <= w < |s.workers| && HoldsJob(s.workers[w]);
      HeldIncludes(s.workers, w);
      assert WorkerHolds(s.workers[w])[s.workers[w].job.id] == 1;
      HeldIsUnlisted(s, s.workers[w].job.id);
    } else {
      var c :| 0 <= c < |s.committers| && s.committers[c].Took?;
      assert CommitterHolds(s.committers[c])[s.committers[c].id] == 1;
      HeldIsUnlisted(s, s.committers[c].id);
    }
  }

  /**
   * In any run: `doCommit` returns at its guard without waiting for the workers and without collecting responses. With the
   * request queue empty, the blob is then complete exactly when no response is waiting, no worker holds a job, no
   * committing thread has a response in hand, and `committedId` is not an overclaim.
   */
  lemma EarlyReturnIsCompleteIff(s: State)
    requires Inv(s) && s.reqs.items == [] && NothingToCommit(s.ledger)
    ensures |s.service.blob| == |s.producer.cut|
       <==> s.resps.items == [] && !SomeHeld(s) && !SomeTook(s) && Backed(s)
    ensures |s.service.blob| == |s.producer.cut| && s.producer.batch.stream == [] ==>
      BlobBytes(s.service.blob) == Uploaded(s)
  {
    ListedAreBlocks(s);
    if s.resps.items != [] || SomeHeld(s) || SomeTook(s) {
      SomebodyHolds(s);
    } else if s.ledger.next < First(s) {
      NobodyHolds(s, s.ledger.next);
    }
    if |s.service.blob| == |s.producer.cut| && s.producer.batch.stream == [] {
      FullBlobIsUploaded(s);
    }
  }

  /** In a serialised run `committedId` is never an overclaim. */
  lemma SerialisedReturnIsCompleteIff(s: State)
    requires Reachable(s) && s.reqs.items == [] && NothingToCommit(s.ledger)
    ensures |s.service.blob| == |s.producer.cut| <==> s.resps.items == [] && !SomeHeld(s) && !SomeTook(s)
  {
    ReachableInv(s);
    CommittedIsPublished(s);
    EarlyReturnIsCompleteIff(s);
  }

  /** Over any step the list keeps its ids, an entry once marked stays marked, and new entries are `latest`. */
  lemma ListOnlyExtends(s: State, a: Action)
    requires Inv(s) && Enabled(s, a)
    ensures var before, after := s.ledger.list, Do(s, a).ledger.list;
            && |before| <= |after|
            && (forall i :: 0 <= i < |before| ==> after[i].id == before[i].id && (before[i].committed ==> after[i].committed))
            && (forall i :: |before| <= i < |after| ==> !after[i].committed)
    ensures forall i :: 0 <= i < |Do(s, a).ledger.list| ==>
              (Do(s, a).ledger.list[i].committed <==> Do(s, a).ledger.list[i].id <= Do(s, a).ledger.committedId)
  {
    StepInv(s, a);
    if a.ByCommitter? {
      CommitterFrame(s, a.c, a.commit);
      if a.commit.Fold? {
        FoldKeepsLedger(s, a.c);
      }
    }
  }

  /** Responses still queued when the queue is closed stay there, and their blocks are never published. */
  lemma {:induction false} ClosedResponsesAreNeverPublished(s: State, run: seq<Action>, s': State, x: nat)
    requires Inv(s) && s.resps.closed && x in s.resps.items && Runs(s, run, s')
    ensures Inv(s') && s'.resps == s.resps && |s'.service.blob| < x
  {
    if run != [] {
      var m, a := Exec(s, run[..|run| - 1]).value, run[|run| - 1];
      ClosedResponsesAreNeverPublished(s, run[..|run| - 1], m, x);
      StepInv(m, a);
    }
    assert multiset(s'.resps.items)[x] >= 1;
    assert Places(s', x) == One(1 <= x < First(s'));
  }
}
