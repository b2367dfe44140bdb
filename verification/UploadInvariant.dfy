/** What every step of the uploader keeps, whatever the interleaving, and whichever requests fail. */
module UploadInvariant {
  import opened Bytes
  import opened Ledgers
  import opened Batching
  import opened BlockingQueues
  import opened UploadProtocol

  /** The id at the head of the request queue: every smaller id has been popped. */
  function First(s: State): int {
    s.producer.batch.nextId - |s.reqs.items|
  }

  /** Blocks are numbered in the order they were cut, and the request queue is the tail of that numbering. */
  ghost predicate Numbered(s: State) {
    && s.producer.batch.nextId == |s.producer.cut| + 1
    && First(s) >= 1
    && (forall i :: 0 <= i < |s.reqs.items| ==> s.reqs.items[i].id == First(s) + i && IsBlock(s, s.reqs.items[i]))
    && s.producer.batch.stream == Flatten(s.producer.open)
  }

  /** The job is the block of its number. */
  ghost predicate IsBlock(s: State, job: Job) {
    1 <= job.id <= |s.producer.cut| && job.data == Flatten(s.producer.cut[job.id - 1])
  }

  predicate HoldsJob(w: Worker) {
    w.Popped? || w.Inside? || w.Staged?
  }

  ghost predicate Faithful(s: State) {
    && (forall w :: 0 <= w < |s.workers| && HoldsJob(s.workers[w]) ==> IsBlock(s, s.workers[w].job))
    && (forall id :: id in s.service.staged ==> IsBlock(s, Job(id, s.service.staged[id])))
  }

  /** The remote blob is blocks `1 .. |blob|` in order, and no more than the ledger has listed. */
  ghost predicate BlobInOrder(s: State) {
    && |s.service.blob| < s.ledger.next
    && (forall k :: 0 <= k < |s.service.blob| ==> s.service.blob[k].id == k + 1 && IsBlock(s, s.service.blob[k]))
  }

  ghost predicate ListOf(list: seq<Item>, next: nat) {
    && |list| < next
    && (forall i :: 0 <= i < |list| ==> list[i].id == i + 1)
  }

  ghost predicate Listed(s: State) {
    && |s.committers| == 2
    && WellFormed(s.ledger)
    && (forall c :: 0 <= c < 2 && (s.committers[c].Sent? || s.committers[c].Applied?) ==>
        ListOf(s.committers[c].list, s.ledger.next))
  }

  function WorkerHolds(w: Worker): multiset<nat> {
    if HoldsJob(w) then multiset{w.job.id} else multiset{}
  }

  function CommitterHolds(c: Committer): multiset<nat> {
    if c.Took? then multiset{c.id} else multiset{}
  }

  function Held(workers: seq<Worker>): multiset<nat> {
    if workers == [] then multiset{}
    else Held(workers[..|workers| - 1]) + WorkerHolds(workers[|workers| - 1])
  }

  function One(b: bool): nat {
    if b then 1 else 0
  }

  /** How many places hold the popped id `x`: workers, the response queue, the committers, the ledger. */
  ghost function Places(s: State, x: nat): nat
    requires |s.committers| == 2
  {
    Held(s.workers)[x] + multiset(s.resps.items)[x]
    + CommitterHolds(s.committers[0])[x] + CommitterHolds(s.committers[1])[x]
    + s.ledger.pending[x] + One(1 <= x < s.ledger.next)
  }

  /** The popped ids are those below the head of the request queue, each in exactly one place. */
  ghost predicate Conserved(s: State) {
    |s.committers| == 2 && First(s) >= 1 && forall x: nat :: Places(s, x) == One(1 <= x < First(s))
  }

  /** Between `enterJob` and `leaveJob`. */
  predicate InJob(w: Worker) {
    w.Inside? || w.Staged? || w.Replied?
  }

  function InJobs(workers: seq<Worker>): nat {
    if workers == [] then 0
    else InJobs(workers[..|workers| - 1]) + if InJob(workers[|workers| - 1]) then 1 else 0
  }

  /** The barrier's semaphore counts the workers outside a job. */
  ghost predicate Counted(s: State) {
    s.gate.sem + InJobs(s.workers) == |s.workers|
  }

  ghost predicate Inv(s: State) {
    Numbered(s) && Faithful(s) && BlobInOrder(s) && Listed(s) && Conserved(s) && Counted(s)
  }

  lemma {:induction false} HeldUpdate(workers: seq<Worker>, w: nat, x: Worker, id: nat)
    requires w < |workers|
    ensures Held(workers[w := x])[id] + WorkerHolds(workers[w])[id] == Held(workers)[id] + WorkerHolds(x)[id]
  {
    var n := |workers| - 1;
    var moved := workers[w := x];
    if w == n {
      assert moved[..n] == workers[..n];
    } else {
      HeldUpdate(workers[..n], w, x, id);
      assert moved[..n] == workers[..n][w := x];
    }
  }

  lemma {:induction false} InJobsUpdate(workers: seq<Worker>, w: nat, x: Worker)
    requires w < |workers|
    ensures InJobs(workers[w := x]) + (if InJob(workers[w]) then 1 else 0)
         == InJobs(workers) + (if InJob(x) then 1 else 0)
  {
    var n := |workers| - 1;
    var moved := workers[w := x];
    if w == n {
      assert moved[..n] == workers[..n];
    } else {
      InJobsUpdate(workers[..n], w, x);
      assert moved[..n] == workers[..n][w := x];
    }
  }

  lemma {:induction false} HeldIncludes(workers: seq<Worker>, w: nat)
    requires w < |workers|
    ensures WorkerHolds(workers[w]) <= Held(workers)
  {
    if w < |workers| - 1 {
      HeldIncludes(workers[..|workers| - 1], w);
    }
  }

  /** An id a committer is about to fold is new to the ledger. */
  lemma TookIsFresh(s: State, c: nat)
    requires Conserved(s) && c < 2 && s.committers[c].Took?
    ensures s.committers[c].id >= 1 && !Received(s.ledger, s.committers[c].id)
    ensures forall x :: s.ledger.pending[x] <= 1
  {
    var id := s.committers[c].id;
    assert forall x: nat :: s.ledger.pending[x] <= Places(s, x);
    assert Places(s, id) == One(1 <= id < First(s));
    assert CommitterHolds(s.committers[c])[id] == 1;
  }

  lemma FoldKeepsLedger(s: State, c: nat)
    requires Conserved(s) && WellFormed(s.ledger) && c < 2 && s.committers[c].Took?
    ensures var id, r := s.committers[c].id, CommitBlock(s.ledger, s.committers[c].id);
            && WellFormed(r) && r.committedId == s.ledger.committedId && s.ledger.list <= r.list
            && (forall x :: r.pending[x] + One(1 <= x < r.next)
                         == s.ledger.pending[x] + One(1 <= x < s.ledger.next) + One(x == id))
            && (forall x :: Received(r, x) <==> Received(s.ledger, x) || x == id)
  {
    var id, r := s.committers[c].id, CommitBlock(s.ledger, s.committers[c].id);
    TookIsFresh(s, c);
    CommitBlockIsMex(s.ledger, id);
    forall x ensures r.pending[x] + One(1 <= x < r.next)
                  == s.ledger.pending[x] + One(1 <= x < s.ledger.next) + One(x == id)
    {
      assert (r.pending + Upto(r.next))[x] == (s.ledger.pending + multiset{id} + Upto(s.ledger.next))[x];
    }
  }

  /** A step leaves the history of cuts as it is, or extends it by one block. */
  lemma StepCut(s: State, a: Action)
    requires Enabled(s, a)
    ensures s.producer.cut <= Do(s, a).producer.cut
    ensures !a.ByProducer? ==> Do(s, a).producer == s.producer
  {
  }

  lemma BlocksStay(s: State, s': State, job: Job)
    requires IsBlock(s, job) && s.producer.cut <= s'.producer.cut
    ensures IsBlock(s', job)
  {
  }

  lemma QueueNumbered(s: State, open: seq<seq<byte>>, r: (Batch, Option<Job>))
    requires Numbered(s) && !s.reqs.closed
    requires r.1.None? ==> r.0 == Batch(Flatten(open), s.producer.batch.nextId)
    requires r.1.Some? ==> r.0 == Batch([], s.producer.batch.nextId + 1)
    requires r.1.Some? ==> r.1.value == Job(s.producer.batch.nextId, Flatten(open))
    ensures Numbered(Queue(s, open, r)) && First(Queue(s, open, r)) == First(s)
  {
    var s' := Queue(s, open, r);
    forall i | 0 <= i < |s'.reqs.items| ensures s'.reqs.items[i].id == First(s') + i && IsBlock(s', s'.reqs.items[i]) {
      if i < |s.reqs.items| {
        BlocksStay(s, s', s.reqs.items[i]);
      }
    }
  }

  lemma ProducerNumbered(s: State, p: ProducerStep)
    requires Numbered(s) && Enabled(s, ByProducer(p))
    ensures Numbered(DoProducer(s, p)) && First(DoProducer(s, p)) == First(s)
  {
    match p
    case Upload(frame) =>
      FlattenSnoc(s.producer.open, frame);
      QueueNumbered(s, s.producer.open + [frame], Feed(s.producer.blockSize, s.producer.batch, frame));
    case CutRest => QueueNumbered(s, s.producer.open, FeedRest(s.producer.batch));
    case CloseReqs =>
    case CloseResps =>
  }

  lemma WorkerNumbered(s: State, w: nat, step: WorkerStep)
    requires Numbered(s) && Enabled(s, ByWorker(w, step))
    ensures Numbered(DoWorker(s, w, step))
    ensures First(DoWorker(s, w, step)) == First(s) + if step.Pop? then 1 else 0
  {
    var s' := DoWorker(s, w, step);
    forall i | 0 <= i < |s'.reqs.items| ensures s'.reqs.items[i].id == First(s') + i && IsBlock(s', s'.reqs.items[i]) {
      var j := if step.Pop? then i + 1 else i;
      assert s'.reqs.items[i] == s.reqs.items[j];
      BlocksStay(s, s', s.reqs.items[j]);
    }
  }

  lemma WorkerFaithful(s: State, w: nat, step: WorkerStep)
    requires Numbered(s) && Faithful(s) && Enabled(s, ByWorker(w, step))
    ensures Faithful(DoWorker(s, w, step))
  {
    var s' := DoWorker(s, w, step);
    forall v | 0 <= v < |s'.workers| && HoldsJob(s'.workers[v]) ensures IsBlock(s', s'.workers[v].job) {
      if v == w && step.Pop? {
        BlocksStay(s, s', s.reqs.items[0]);
      } else {
        BlocksStay(s, s', s.workers[v].job);
      }
    }
    forall id | id in s'.service.staged ensures IsBlock(s', Job(id, s'.service.staged[id])) {
      if id in s.service.staged && s'.service.staged[id] == s.service.staged[id] {
        BlocksStay(s, s', Job(id, s.service.staged[id]));
      } else {
        BlocksStay(s, s', s.workers[w].job);
      }
    }
  }

  lemma SameServiceFaithful(s: State, s': State)
    requires Faithful(s) && BlobInOrder(s) && s.producer.cut <= s'.producer.cut
    requires s'.workers == s.workers && s'.service == s.service && s.ledger.next <= s'.ledger.next
    ensures Faithful(s') && BlobInOrder(s')
  {
    forall w | 0 <= w < |s'.workers| && HoldsJob(s'.workers[w]) ensures IsBlock(s', s'.workers[w].job) {
      BlocksStay(s, s', s.workers[w].job);
    }
    forall id | id in s'.service.staged ensures IsBlock(s', Job(id, s'.service.staged[id])) {
      BlocksStay(s, s', Job(id, s.service.staged[id]));
    }
    forall k | 0 <= k < |s'.service.blob| ensures s'.service.blob[k].id == k + 1 && IsBlock(s', s'.service.blob[k]) {
      BlocksStay(s, s', s.service.blob[k]);
    }
  }

  lemma WorkerKeepsBlob(s: State, w: nat, step: WorkerStep)
    requires BlobInOrder(s) && Enabled(s, ByWorker(w, step))
    ensures BlobInOrder(DoWorker(s, w, step))
  {
    var s' := DoWorker(s, w, step);
    assert s'.service.blob == s.service.blob;
    forall k | 0 <= k < |s'.service.blob| ensures s'.service.blob[k].id == k + 1 && IsBlock(s', s'.service.blob[k]) {
      BlocksStay(s, s', s.service.blob[k]);
    }
  }

  /** Nothing below `next` is still waiting to be cut, so every listed id names a block. */
  lemma ListedAreBlocks(s: State)
    requires Numbered(s) && Conserved(s)
    ensures s.ledger.next <= First(s) <= |s.producer.cut| + 1
  {
    if s.ledger.next > 1 {
      assert Places(s, s.ledger.next - 1) == 1;
    }
  }

  /** A put publishes the listed blocks, each under its own number. */
  lemma PutPublishesBlocks(s: State, list: seq<Item>, keep: set<nat>)
    requires Inv(s) && ListOf(list, s.ledger.next) && Resolvable(s.service, list)
    ensures var s' := s.(service := Put(s.service, list, keep)); Faithful(s') && BlobInOrder(s')
  {
    var s' := s.(service := Put(s.service, list, keep));
    ListedAreBlocks(s);
    forall k | 0 <= k < |list| ensures s'.service.blob[k].id == k + 1 && IsBlock(s', s'.service.blob[k]) {
      assert Resolves(s.service, list[k]);
      if !list[k].committed && list[k].id in s.service.staged {
        assert IsBlock(s, Job(list[k].id, s.service.staged[list[k].id]));
      } else {
        BlobDataIsAnEntry(s.service.blob, list[k].id);
        assert IsBlock(s, Job(list[k].id, BlobData(s.service.blob, list[k].id)));
      }
    }
    forall id | id in s'.service.staged ensures IsBlock(s', Job(id, s'.service.staged[id])) {
      assert IsBlock(s, Job(id, s.service.staged[id]));
    }
    forall w | 0 <= w < |s'.workers| && HoldsJob(s'.workers[w]) ensures IsBlock(s', s'.workers[w].job) {
      assert IsBlock(s, s.workers[w].job);
    }
  }

  lemma CommitterFaithful(s: State, c: nat, step: CommitStep)
    requires Inv(s) && Enabled(s, ByCommitter(c, step))
    ensures Faithful(DoCommitter(s, c, step)) && BlobInOrder(DoCommitter(s, c, step))
  {
    var s' := DoCommitter(s, c, step);
    if step.Apply? {
      PutPublishesBlocks(s, s.committers[c].list, step.keep);
      var t := s.(service := s'.service);
      SameServiceFaithful(t, s');
    } else {
      if step.Fold? {
        FoldKeepsLedger(s, c);
      }
      SameServiceFaithful(s, s');
    }
  }

  lemma MarkKeepsLedger(l: Ledger)
    requires WellFormed(l)
    ensures WellFormed(MarkCommitted(l))
  {
  }

  lemma CommitterListed(s: State, c: nat, step: CommitStep)
    requires Inv(s) && Enabled(s, ByCommitter(c, step))
    ensures Listed(DoCommitter(s, c, step)) && s.ledger.next <= DoCommitter(s, c, step).ledger.next
  {
    var s' := DoCommitter(s, c, step);
    if step.Fold? {
      FoldKeepsLedger(s, c);
    } else if step.Ack? {
      MarkKeepsLedger(s.ledger);
    } else {
      assert s'.ledger == s.ledger;
    }
    forall d | 0 <= d < 2 && (s'.committers[d].Sent? || s'.committers[d].Applied?)
      ensures ListOf(s'.committers[d].list, s'.ledger.next)
    {
      assert d == c || s'.committers[d] == s.committers[d];
    }
  }

  lemma WorkerCounted(s: State, w: nat, step: WorkerStep)
    requires Counted(s) && Enabled(s, ByWorker(w, step))
    ensures Counted(DoWorker(s, w, step))
  {
    InJobsUpdate(s.workers, w, WorkerNext(s, w, step));
  }

  lemma WorkerFrame(s: State, w: nat, step: WorkerStep)
    requires Enabled(s, ByWorker(w, step))
    ensures var s' := DoWorker(s, w, step);
            && s'.ledger == s.ledger && s'.committers == s.committers && s'.service.blob == s.service.blob
            && s'.producer == s.producer && s'.gate.flushing == s.gate.flushing
            && s'.workers == s.workers[w := WorkerNext(s, w, step)]
            && First(s') == First(s) + One(step.Pop?)
            && s'.resps.items == s.resps.items + (if step.Respond? then [s.workers[w].job.id] else [])
  {
  }

  /** What the worker holds and what it adds to the response queue. */
  lemma WorkerHandsOver(s: State, w: nat, step: WorkerStep, x: nat)
    requires Enabled(s, ByWorker(w, step))
    requires s.reqs.items != [] ==> s.reqs.items[0].id == First(s)
    ensures WorkerHolds(WorkerNext(s, w, step))[x] + One(step.Respond? && s.workers[w].job.id == x)
         == WorkerHolds(s.workers[w])[x] + One(step.Pop? && x == First(s))
  {
  }

  lemma WorkerMoves(s: State, w: nat, step: WorkerStep, x: nat)
    requires Enabled(s, ByWorker(w, step))
    requires s.reqs.items != [] ==> s.reqs.items[0].id == First(s)
    ensures var s' := DoWorker(s, w, step);
            Held(s'.workers)[x] + multiset(s'.resps.items)[x]
            == Held(s.workers)[x] + multiset(s.resps.items)[x] + One(step.Pop? && x == First(s))
  {
    hide Held, WorkerHolds;
    WorkerFrame(s, w, step);
    HeldUpdate(s.workers, w, WorkerNext(s, w, step), x);
    WorkerHandsOver(s, w, step, x);
    var s' := DoWorker(s, w, step);
    assert multiset(s'.resps.items)[x]
        == multiset(s.resps.items)[x] + One(step.Respond? && s.workers[w].job.id == x);
  }

  lemma WorkerConserved(s: State, w: nat, step: WorkerStep)
    requires Conserved(s) && Enabled(s, ByWorker(w, step))
    requires s.reqs.items != [] ==> s.reqs.items[0].id == First(s)
    ensures Conserved(DoWorker(s, w, step))
  {
    WorkerFrame(s, w, step);
    forall x: nat
      ensures Held(DoWorker(s, w, step).workers)[x] + multiset(DoWorker(s, w, step).resps.items)[x]
           == Held(s.workers)[x] + multiset(s.resps.items)[x] + One(step.Pop? && x == First(s))
    {
      WorkerMoves(s, w, step, x);
    }
    MovedConserved(s, DoWorker(s, w, step), step.Pop?);
  }

  lemma MovedConserved(s: State, s': State, popped: bool)
    requires Conserved(s) && s'.ledger == s.ledger && s'.committers == s.committers
    requires First(s') == First(s) + One(popped)
    requires forall x: nat :: Held(s'.workers)[x] + multiset(s'.resps.items)[x]
                           == Held(s.workers)[x] + multiset(s.resps.items)[x] + One(popped && x == First(s))
    ensures Conserved(s')
  {
    forall x: nat ensures Places(s', x) == One(1 <= x < First(s')) {
      assert Places(s, x) == One(1 <= x < First(s));
    }
  }

  /** The occurrences of `x` on the commit side, committer `c` included. */
  ghost function CommitSide(s: State, c: nat, x: nat): nat
    requires c < |s.committers|
  {
    multiset(s.resps.items)[x] + CommitterHolds(s.committers[c])[x] + s.ledger.pending[x] + One(1 <= x < s.ledger.next)
  }

  lemma CommitterFrame(s: State, c: nat, step: CommitStep)
    requires Enabled(s, ByCommitter(c, step))
    ensures var s' := DoCommitter(s, c, step);
            && s'.workers == s.workers && s'.reqs == s.reqs && s'.producer == s.producer && s'.gate.sem == s.gate.sem
            && |s'.committers| == 2 && s'.committers[1 - c] == s.committers[1 - c]
            && s'.committers[c] == CommitterNext(s, c, step)
            && (!step.Take? ==> s'.resps == s.resps)
            && (!step.Fold? && !step.Ack? ==> s'.ledger == s.ledger)
            && (!step.Apply? ==> s'.service == s.service)
  {
  }

  lemma TakeMoves(s: State, c: nat, x: nat)
    requires Enabled(s, ByCommitter(c, Take))
    ensures CommitSide(DoCommitter(s, c, Take), c, x) == CommitSide(s, c, x)
  {
    CommitterFrame(s, c, Take);
    var s' := DoCommitter(s, c, Take);
    assert s.resps.items == [s.resps.items[0]] + s'.resps.items;
  }

  lemma FoldMoves(s: State, c: nat, x: nat)
    requires Conserved(s) && WellFormed(s.ledger) && Enabled(s, ByCommitter(c, Fold))
    ensures CommitSide(DoCommitter(s, c, Fold), c, x) == CommitSide(s, c, x)
  {
    CommitterFrame(s, c, Fold);
    FoldKeepsLedger(s, c);
  }

  lemma CommitterMoves(s: State, c: nat, step: CommitStep, x: nat)
    requires Conserved(s) && WellFormed(s.ledger) && Enabled(s, ByCommitter(c, step))
    ensures CommitSide(DoCommitter(s, c, step), c, x) == CommitSide(s, c, x)
  {
    if step.Take? {
      TakeMoves(s, c, x);
    } else if step.Fold? {
      FoldMoves(s, c, x);
    } else {
      OtherMoves(s, c, step, x);
    }
  }

  lemma OtherMoves(s: State, c: nat, step: CommitStep, x: nat)
    requires Enabled(s, ByCommitter(c, step)) && !step.Take? && !step.Fold?
    ensures CommitSide(DoCommitter(s, c, step), c, x) == CommitSide(s, c, x)
  {
    CommitterFrame(s, c, step);
    var s' := DoCommitter(s, c, step);
    assert s'.ledger.pending == s.ledger.pending && s'.ledger.next == s.ledger.next && s'.resps == s.resps;
    assert CommitterHolds(s'.committers[c]) == CommitterHolds(s.committers[c]) == multiset{};
  }

  lemma CommitterConserved(s: State, c: nat, step: CommitStep)
    requires Conserved(s) && WellFormed(s.ledger) && Enabled(s, ByCommitter(c, step))
    ensures Conserved(DoCommitter(s, c, step))
  {
    var s' := DoCommitter(s, c, step);
    CommitterFrame(s, c, step);
    forall x: nat ensures Places(s', x) == One(1 <= x < First(s')) {
      CommitterMoves(s, c, step, x);
      assert Places(s, x) == One(1 <= x < First(s));
    }
  }

  lemma ProducerFrame(s: State, p: ProducerStep)
    requires Enabled(s, ByProducer(p))
    ensures var s' := DoProducer(s, p);
            && s'.workers == s.workers && s'.ledger == s.ledger && s'.committers == s.committers
            && s'.service == s.service && s'.resps.items == s.resps.items && s'.gate == s.gate
  {
  }

  lemma SameHoldersConserved(s: State, s': State)
    requires Conserved(s) && First(s') == First(s)
    requires s'.workers == s.workers && s'.ledger == s.ledger && s'.committers == s.committers
    requires s'.resps.items == s.resps.items
    ensures Conserved(s')
  {
    assert forall x: nat :: Places(s', x) == Places(s, x);
  }

  lemma ProducerInv(s: State, p: ProducerStep)
    requires Inv(s) && Enabled(s, ByProducer(p))
    ensures Inv(DoProducer(s, p))
  {
    ProducerNumbered(s, p);
    StepCut(s, ByProducer(p));
    ProducerFrame(s, p);
    SameServiceFaithful(s, DoProducer(s, p));
    SameHoldersConserved(s, DoProducer(s, p));
  }

  lemma WorkerInv(s: State, w: nat, step: WorkerStep)
    requires Inv(s) && Enabled(s, ByWorker(w, step))
    ensures Inv(DoWorker(s, w, step))
  {
    WorkerNumbered(s, w, step);
    WorkerFaithful(s, w, step);
    WorkerKeepsBlob(s, w, step);
    WorkerConserved(s, w, step);
    WorkerCounted(s, w, step);
    var s' := DoWorker(s, w, step);
    assert s'.ledger == s.ledger && s'.committers == s.committers;
  }

  lemma CommitterInv(s: State, c: nat, step: CommitStep)
    requires Inv(s) && Enabled(s, ByCommitter(c, step))
    ensures Inv(DoCommitter(s, c, step))
  {
    CommitterFaithful(s, c, step);
    CommitterListed(s, c, step);
    CommitterConserved(s, c, step);
    var s' := DoCommitter(s, c, step);
    assert s'.producer == s.producer && s'.reqs == s.reqs && s'.workers == s.workers;
    assert s'.gate.sem == s.gate.sem;
  }

  lemma StepInv(s: State, a: Action)
    requires Inv(s) && Enabled(s, a)
    ensures Inv(Do(s, a))
  {
    match a
    case ByProducer(p) => ProducerInv(s, p);
    case ByWorker(w, step) => WorkerInv(s, w, step);
    case ByCommitter(c, step) => CommitterInv(s, c, step);
  }

  lemma {:induction false} IdleHoldNothing(workers: seq<Worker>)
    requires forall w :: 0 <= w < |workers| ==> workers[w].Idle?
    ensures Held(workers) == multiset{} && InJobs(workers) == 0
  {
    if workers != [] {
      IdleHoldNothing(workers[..|workers| - 1]);
    }
  }

  lemma InitInv(blockSize: nat, workerCount: nat)
    ensures Inv(Init(blockSize, workerCount))
  {
    IdleHoldNothing(Init(blockSize, workerCount).workers);
  }

  lemma {:induction false} RunsInv(s: State, run: seq<Action>, s': State)
    requires Inv(s) && Runs(s, run, s')
    ensures Inv(s')
  {
    if run != [] {
      var m := Exec(s, run[..|run| - 1]).value;
      RunsInv(s, run[..|run| - 1], m);
      StepInv(m, run[|run| - 1]);
    }
  }

  /** Blobs in order differ in length only. */
  lemma SameBlocks(s: State, s': State)
    requires BlobInOrder(s) && BlobInOrder(s') && s.producer.cut <= s'.producer.cut
    requires |s.service.blob| <= |s'.service.blob|
    ensures s.service.blob <= s'.service.blob
  {
    forall k | 0 <= k < |s.service.blob| ensures s.service.blob[k] == s'.service.blob[k] {
      assert IsBlock(s, s.service.blob[k]) && IsBlock(s', s'.service.blob[k]);
    }
  }

  lemma {:induction false} BlobBytesAreBlocks(s: State, n: nat)
    requires Inv(s) && n <= |s.service.blob|
    ensures |s.service.blob| <= |s.producer.cut|
    ensures BlobBytes(s.service.blob[..n]) == Flatten(Blocks(s)[..n])
  {
    ListedAreBlocks(s);
    if n > 0 {
      BlobBytesAreBlocks(s, n - 1);
      assert s.service.blob[..n][..n - 1] == s.service.blob[..n - 1];
      assert Blocks(s)[..n][..n - 1] == Blocks(s)[..n - 1];
      assert IsBlock(s, s.service.blob[n - 1]);
    }
  }

  /**
   * Prefix safety: after any run from the initial state, with both committing threads interleaved freely and
   * any requests failing or applied without a reply, the remote blob is whole blocks `1 .. |blob|`, a prefix
   * of the bytes passed to `upload`.
   */
  lemma PrefixSafety(blockSize: nat, workerCount: nat, run: seq<Action>, s: State)
    requires Runs(Init(blockSize, workerCount), run, s)
    ensures Inv(s)
    ensures |s.service.blob| <= |s.producer.cut|
    ensures BlobBytes(s.service.blob) == Flatten(Blocks(s)[..|s.service.blob|])
    ensures BlobBytes(s.service.blob) <= Uploaded(s)
  {
    InitInv(blockSize, workerCount);
    RunsInv(Init(blockSize, workerCount), run, s);
    var n := |s.service.blob|;
    BlobBytesAreBlocks(s, n);
    assert s.service.blob[..n] == s.service.blob;
    FlattenPrefix(Blocks(s), n);
  }

  /** The bytes one action passes to `upload`. */
  function WrittenBy(a: Action): seq<byte> {
    if a.ByProducer? && a.p.Upload? then a.p.frame else []
  }

  /** The bytes passed to `upload` in a run, in order. */
  ghost function Written(run: seq<Action>): seq<byte> {
    if run == [] then [] else Written(run[..|run| - 1]) + WrittenBy(run[|run| - 1])
  }

  lemma QueueKeepsUploaded(s: State, open: seq<seq<byte>>, r: (Batch, Option<Job>))
    ensures Uploaded(Queue(s, open, r)) == Flatten(Blocks(s)) + Flatten(open)
  {
    var s' := Queue(s, open, r);
    if r.1.Some? {
      assert Blocks(s') == Blocks(s) + [Flatten(open)];
      FlattenSnoc(Blocks(s), Flatten(open));
    } else {
      assert Blocks(s') == Blocks(s);
    }
  }

  lemma UploadUploaded(s: State, frame: seq<byte>)
    ensures Uploaded(DoProducer(s, Upload(frame))) == Uploaded(s) + frame
  {
    var open := s.producer.open + [frame];
    QueueKeepsUploaded(s, open, Feed(s.producer.blockSize, s.producer.batch, frame));
    FlattenSnoc(s.producer.open, frame);
  }

  lemma StepUploaded(s: State, a: Action)
    requires Enabled(s, a)
    ensures Uploaded(Do(s, a)) == Uploaded(s) + WrittenBy(a)
  {
    if a.ByProducer? && a.p.Upload? {
      UploadUploaded(s, a.p.frame);
    } else if a.ByProducer? && a.p.CutRest? {
      QueueKeepsUploaded(s, s.producer.open, FeedRest(s.producer.batch));
    } else {
      assert Do(s, a).producer == s.producer;
      assert Blocks(Do(s, a)) == Blocks(s);
    }
  }

  /** Conservation of bytes: the blocks cut so far and then the open stream are all bytes ever uploaded. */
  lemma {:induction false} NothingIsLostOrInvented(blockSize: nat, workerCount: nat, run: seq<Action>, s: State)
    requires Runs(Init(blockSize, workerCount), run, s)
    ensures Uploaded(s) == Written(run)
    ensures Flatten(Blocks(s)) + s.producer.batch.stream == Written(run)
  {
    InitInv(blockSize, workerCount);
    RunsInv(Init(blockSize, workerCount), run, s);
    if run != [] {
      var m := Exec(Init(blockSize, workerCount), run[..|run| - 1]).value;
      NothingIsLostOrInvented(blockSize, workerCount, run[..|run| - 1], m);
      StepUploaded(m, run[|run| - 1]);
    }
  }

  /** The frames one action passes to `upload`. */
  function FramesBy(a: Action): seq<seq<byte>> {
    if a.ByProducer? && a.p.Upload? then [a.p.frame] else []
  }

  /** The frames passed to `upload` in a run, in order. */
  ghost function Frames(run: seq<Action>): seq<seq<byte>> {
    if run == [] then [] else Frames(run[..|run| - 1]) + FramesBy(run[|run| - 1])
  }

  /** The frames of every block in id order, then those of the open stream. */
  ghost function AllFrames(p: Producer): seq<seq<byte>> {
    Flatten(p.cut) + p.open
  }

  lemma QueueKeepsFrames(s: State, open: seq<seq<byte>>, r: (Batch, Option<Job>))
    ensures AllFrames(Queue(s, open, r).producer) == Flatten(s.producer.cut) + open
  {
    if r.1.Some? {
      FlattenSnoc(s.producer.cut, open);
    }
  }

  lemma StepFrames(s: State, a: Action)
    requires Enabled(s, a)
    ensures AllFrames(Do(s, a).producer) == AllFrames(s.producer) + FramesBy(a)
  {
    var p := s.producer;
    if a.ByProducer? && a.p.Upload? {
      QueueKeepsFrames(s, p.open + [a.p.frame], Feed(p.blockSize, p.batch, a.p.frame));
    } else if a.ByProducer? && a.p.CutRest? {
      QueueKeepsFrames(s, p.open, FeedRest(p.batch));
    } else {
      assert Do(s, a).producer == p;
    }
  }

  /**
   * No frame is split, lost, repeated or moved: the groups of frames of the blocks, one after the other in id order, and
   * then the frames of the open stream are the frames passed to `upload`; and each block is its group written out.
   */
  lemma {:induction false} BlocksAreRunsOfFrames(blockSize: nat, workerCount: nat, run: seq<Action>, s: State)
    requires Runs(Init(blockSize, workerCount), run, s)
    ensures Flatten(s.producer.cut) + s.producer.open == Frames(run)
    ensures |Blocks(s)| == |s.producer.cut|
    ensures forall i :: 0 <= i < |s.producer.cut| ==> Blocks(s)[i] == Flatten(s.producer.cut[i])
    ensures s.producer.batch.stream == Flatten(s.producer.open)
  {
    InitInv(blockSize, workerCount);
    RunsInv(Init(blockSize, workerCount), run, s);
    if run != [] {
      var m := Exec(Init(blockSize, workerCount), run[..|run| - 1]).value;
      BlocksAreRunsOfFrames(blockSize, workerCount, run[..|run| - 1], m);
      StepFrames(m, run[|run| - 1]);
    }
  }

  ghost predicate SmallFrames(blockSize: nat, run: seq<Action>) {
    forall i :: 0 <= i < |run| && run[i].ByProducer? && run[i].p.Upload? ==> Small(blockSize, run[i].p.frame)
  }

  /** Every block is whole frames: a full group cut by `upload`, or what `flush` found below the block size. */
  ghost predicate Grouped(s: State) {
    && |s.producer.batch.stream| < s.producer.blockSize
    && (forall i :: 0 <= i < |s.producer.cut| ==>
        FullGroup(s.producer.blockSize, s.producer.cut[i]) || RestGroup(s.producer.blockSize, s.producer.cut[i]))
  }

  lemma QueueGrouped(s: State, open: seq<seq<byte>>, r: (Batch, Option<Job>))
    requires Grouped(s)
    requires r.1.None? ==> |r.0.stream| < s.producer.blockSize
    requires r.1.Some? ==> r.0.stream == [] && 1 <= s.producer.blockSize
    requires r.1.Some? ==> FullGroup(s.producer.blockSize, open) || RestGroup(s.producer.blockSize, open)
    ensures Grouped(Queue(s, open, r))
  {
  }

  lemma StepGrouped(s: State, a: Action)
    requires Numbered(s) && Grouped(s) && Enabled(s, a)
    requires 1 <= s.producer.blockSize <= WORD32
    requires a.ByProducer? && a.p.Upload? ==> Small(s.producer.blockSize, a.p.frame)
    ensures Grouped(Do(s, a)) && Do(s, a).producer.blockSize == s.producer.blockSize
  {
    match a
    case ByProducer(Upload(frame)) =>
      FeedCutsFullGroups(s.producer.blockSize, s.producer.batch, s.producer.open, frame);
      QueueGrouped(s, s.producer.open + [frame], Feed(s.producer.blockSize, s.producer.batch, frame));
    case ByProducer(CutRest) =>
      QueueGrouped(s, s.producer.open, FeedRest(s.producer.batch));
    case _ =>
      assert Do(s, a).producer == s.producer;
  }

  /** Every block is cut at the first frame that takes it to the block size, or is the shorter rest at a `flush`. */
  lemma {:induction false} BlocksAreFrameGroups(blockSize: nat, workerCount: nat, run: seq<Action>, s: State)
    requires 1 <= blockSize <= WORD32 && SmallFrames(blockSize, run)
    requires Runs(Init(blockSize, workerCount), run, s)
    ensures Grouped(s) && s.producer.blockSize == blockSize
  {
    if run != [] {
      var m := Exec(Init(blockSize, workerCount), run[..|run| - 1]).value;
      BlocksAreFrameGroups(blockSize, workerCount, run[..|run| - 1], m);
      InitInv(blockSize, workerCount);
      RunsInv(Init(blockSize, workerCount), run[..|run| - 1], m);
      StepGrouped(m, run[|run| - 1]);
    }
  }

  /** A new block is a full group that the frame just uploaded completes, or all that was open when `flush` cut it. */
  ghost predicate CutBy(s: State, a: Action, group: seq<seq<byte>>) {
    a.ByProducer? &&
    match a.p
    case Upload(frame) => group == s.producer.open + [frame] && FullGroup(s.producer.blockSize, group)
    case CutRest => group == s.producer.open && RestGroup(s.producer.blockSize, group)
    case _ => false
  }

  lemma SmallFramesSplit(blockSize: nat, run: seq<Action>, a: Action)
    requires SmallFrames(blockSize, run + [a])
    ensures SmallFrames(blockSize, run) && (a.ByProducer? && a.p.Upload? ==> Small(blockSize, a.p.frame))
  {
    assert forall i :: 0 <= i < |run| ==> (run + [a])[i] == run[i];
    assert (run + [a])[|run|] == a;
  }

  lemma StreamIsOpenFrames(blockSize: nat, workerCount: nat, run: seq<Action>, s: State)
    requires Runs(Init(blockSize, workerCount), run, s)
    ensures s.producer.batch.stream == Flatten(s.producer.open)
  {
    InitInv(blockSize, workerCount);
    RunsInv(Init(blockSize, workerCount), run, s);
  }

  lemma UploadCuts(s: State, frame: seq<byte>)
    requires s.producer.batch.stream == Flatten(s.producer.open) && |s.producer.batch.stream| < s.producer.blockSize
    requires Small(s.producer.blockSize, frame)
    ensures var a, cut := ByProducer(Upload(frame)), DoProducer(s, Upload(frame)).producer.cut;
            cut == s.producer.cut
            || (cut == s.producer.cut + [s.producer.open + [frame]] && CutBy(s, a, s.producer.open + [frame]))
  {
    hide FullGroup;
    FeedCutsFullGroups(s.producer.blockSize, s.producer.batch, s.producer.open, frame);
  }

  lemma RestCuts(s: State)
    requires s.producer.batch.stream == Flatten(s.producer.open)
    requires |s.producer.batch.stream| < s.producer.blockSize <= WORD32
    ensures var a, cut := ByProducer(CutRest), DoProducer(s, CutRest).producer.cut;
            cut == s.producer.cut || (cut == s.producer.cut + [s.producer.open] && CutBy(s, a, s.producer.open))
  {
  }

  /** The step cuts nothing, or one such block. */
  ghost predicate CutsOneGroup(s: State, a: Action)
    requires Enabled(s, a)
  {
    || Do(s, a).producer.cut == s.producer.cut
    || exists group :: Do(s, a).producer.cut == s.producer.cut + [group] && CutBy(s, a, group)
  }

  lemma StepCuts(s: State, a: Action)
    requires Enabled(s, a) && s.producer.batch.stream == Flatten(s.producer.open)
    requires |s.producer.batch.stream| < s.producer.blockSize <= WORD32
    requires a.ByProducer? && a.p.Upload? ==> Small(s.producer.blockSize, a.p.frame)
    ensures CutsOneGroup(s, a)
  {
    hide CutBy, Small, Flatten;
    if a.ByProducer? && a.p.Upload? {
      UploadCuts(s, a.p.frame);
    } else if a.ByProducer? && a.p.CutRest? {
      RestCuts(s);
    } else {
      assert Do(s, a).producer == s.producer;
    }
  }

  lemma CutsAreGroups(blockSize: nat, workerCount: nat, run: seq<Action>, s: State, a: Action)
    requires 1 <= blockSize <= WORD32 && SmallFrames(blockSize, run + [a])
    requires Runs(Init(blockSize, workerCount), run, s) && Enabled(s, a)
    ensures CutsOneGroup(s, a)
  {
    hide Runs, SmallFrames, CutsOneGroup, Flatten, Enabled;
    SmallFramesSplit(blockSize, run, a);
    BlocksAreFrameGroups(blockSize, workerCount, run, s);
    StreamIsOpenFrames(blockSize, workerCount, run, s);
    StepCuts(s, a);
  }
}
