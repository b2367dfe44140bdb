/**
 * The block uploader as a step system. One action is one atomic step of one thread: the producer, a worker,
 * or one of the two threads that commit (the caller of `flush`, and the committer). A wait is a guard.
 */
module UploadProtocol {
  import opened Bytes
  import opened Ledgers
  import opened Batching
  import opened BlockingQueues

  /** Where a worker stands in `run`; it holds a job from `pop` until it has pushed the response. */
  datatype Worker = Idle | Popped(job: Job) | Inside(job: Job) | Staged(job: Job) | Replied | Exited

  /**
   * Where a committing thread stands. `Took` is between `pop` and `commitBlock`; `Entering` has passed the guard of
   * `doCommit`, `Waiting` has set `flushing`, and `Draining` is past `waitFlush`.
   */
  datatype Committer =
    | Ready
    | Took(id: nat, draining: bool)
    | Entering
    | Waiting
    | Draining
    | Posting
    | Sent(list: seq<Item>)
    | Applied(list: seq<Item>)
    | Releasing
    | Crashed

  /** The remote blob: blocks staged but uncommitted, and the committed blocks in order. */
  datatype Service = Service(staged: map<nat, seq<byte>>, blob: seq<Job>)

  predicate InBlob(blob: seq<Job>, id: nat) {
    exists k :: 0 <= k < |blob| && blob[k].id == id
  }

  function BlobData(blob: seq<Job>, id: nat): seq<byte>
    requires InBlob(blob, id)
  {
    var last := blob[|blob| - 1];
    if last.id == id then last.data
    else
      var front := blob[..|blob| - 1];
      assert InBlob(front, id) by {
        var k :| 0 <= k < |blob| && blob[k].id == id;
        assert front[k].id == id;
      }
      BlobData(front, id)
  }

  lemma {:induction false} BlobDataIsAnEntry(blob: seq<Job>, id: nat)
    requires InBlob(blob, id)
    ensures Job(id, BlobData(blob, id)) in blob
  {
    if blob[|blob| - 1].id != id {
      var k :| 0 <= k < |blob| && blob[k].id == id;
      assert blob[..|blob| - 1][k].id == id;
      BlobDataIsAnEntry(blob[..|blob| - 1], id);
    }
  }

  /** A `committed` item must name a committed block, a `latest` item a staged or a committed one. */
  predicate Resolves(svc: Service, item: Item) {
    InBlob(svc.blob, item.id) || (!item.committed && item.id in svc.staged)
  }

  predicate Resolvable(svc: Service, list: seq<Item>) {
    forall i :: 0 <= i < |list| ==> Resolves(svc, list[i])
  }

  function Resolve(svc: Service, item: Item): seq<byte>
    requires Resolves(svc, item)
  {
    if !item.committed && item.id in svc.staged then svc.staged[item.id] else BlobData(svc.blob, item.id)
  }

  /** A successful put; of the staged blocks it leaves out, the service keeps no more than `keep`. */
  function Put(svc: Service, list: seq<Item>, keep: set<nat>): Service
    requires Resolvable(svc, list)
  {
    Service(
      map id | id in svc.staged && id in keep && (forall i :: 0 <= i < |list| ==> list[i].id != id) :: svc.staged[id],
      seq(|list|, i requires 0 <= i < |list| => Job(list[i].id, Resolve(svc, list[i]))))
  }

  /** `flushing` and `sem`, the barrier between the workers and a commit. */
  datatype Gate = Gate(sem: int, flushing: bool)

  /** The producer's fields. `cut` and `open` record the frames of each block and of the open stream. */
  datatype Producer = Producer(blockSize: nat, batch: Batch, cut: seq<seq<seq<byte>>>, open: seq<seq<byte>>)

  datatype State = State(
    producer: Producer,
    reqs: Channel<Job>,
    workers: seq<Worker>,
    resps: Channel<nat>,
    gate: Gate,
    ledger: Ledger,
    committers: seq<Committer>,
    service: Service)

  /** The thread that calls `upload`, `flush` and `destroy`, and the thread of `runCommit`. */
  const FLUSHER := 0
  const COMMITTER := 1

  datatype Action =
    | ByProducer(p: ProducerStep)
    | ByWorker(w: nat, work: WorkerStep)
    | ByCommitter(c: nat, commit: CommitStep)

  datatype ProducerStep = Upload(frame: seq<byte>) | CutRest | CloseReqs | CloseResps

  /** `Stage(false)` is a block that reached the service although the request failed. */
  datatype WorkerStep = Pop | Enter | Stage(acked: bool) | Respond | Leave | Exit

  /** `Fail` is a put that failed, or was applied although the request failed. */
  datatype CommitStep = Take | Fold | Begin | Shut | Pass | Crash | Send | Apply(keep: set<nat>) | Fail | Ack | Release

  function Init(blockSize: nat, workerCount: nat): State {
    State(Producer(blockSize, Batch([], 1), [], []), Channel([], false), seq(workerCount, _ => Idle),
      Channel([], false), Gate(workerCount, false), EMPTY_LEDGER, [Ready, Ready], Service(map[], []))
  }

  /** The guard at the top of `doCommit`. */
  predicate NothingToCommit(l: Ledger) {
    l.next == l.committedId + 1
  }

  /** The producer is one thread: while it is inside `flush` it uploads nothing. */
  ghost predicate ProducerMay(s: State, p: ProducerStep)
    requires |s.committers| == 2
  {
    match p
    case Upload(_) => s.committers[FLUSHER].Ready? && !s.reqs.closed
    case CutRest => s.committers[FLUSHER].Ready? && !s.reqs.closed
    case CloseReqs => s.committers[FLUSHER].Ready? && s.reqs.items == []
    case CloseResps => s.reqs.closed && forall w :: 0 <= w < |s.workers| ==> s.workers[w].Exited?
  }

  predicate WorkerMay(s: State, w: nat, step: WorkerStep)
    requires w < |s.workers|
  {
    match step
    case Pop => s.workers[w].Idle? && PopOf(s.reqs).1.Got?
    case Enter => s.workers[w].Popped? && !s.gate.flushing
    case Stage(_) => s.workers[w].Inside?
    case Respond => s.workers[w].Staged? && !s.resps.closed
    case Leave => s.workers[w].Replied?
    case Exit => s.workers[w].Idle? && s.reqs.closed
  }

  ghost predicate CommitterMay(s: State, c: nat, step: CommitStep)
    requires c < |s.committers|
  {
    var pc := s.committers[c];
    match step
    case Take => (pc.Draining? || (c == COMMITTER && pc.Ready?)) && PopOf(s.resps).1.Got?
    case Fold => pc.Took?
    case Begin => pc.Ready? && !NothingToCommit(s.ledger) &&
      (c == FLUSHER ==> s.reqs.items == [] && StreamLen(s.producer.batch.stream) == 0)
    case Shut => pc.Entering?
    case Pass => pc.Waiting? && s.gate.sem == |s.workers|
    case Crash => pc.Draining? && s.resps.items != [] && s.resps.closed
    case Send => (pc.Draining? && s.resps.items == []) || pc.Posting?
    case Apply(_) => pc.Sent? && Resolvable(s.service, pc.list)
    case Fail => pc.Sent? || pc.Applied?
    case Ack => pc.Applied?
    case Release => pc.Releasing?
  }

  ghost predicate Enabled(s: State, a: Action) {
    |s.committers| == 2 &&
    match a
    case ByProducer(p) => ProducerMay(s, p)
    case ByWorker(w, step) => w < |s.workers| && WorkerMay(s, w, step)
    case ByCommitter(c, step) => c < 2 && CommitterMay(s, c, step)
  }

  /** A cut is recorded in the history and its job queued. */
  function Queue(s: State, open: seq<seq<byte>>, r: (Batch, Option<Job>)): State {
    match r.1
    case None => s.(producer := s.producer.(batch := r.0, open := open))
    case Some(job) =>
      s.(producer := s.producer.(batch := r.0, open := [], cut := s.producer.cut + [open]),
        reqs := Pushed(s.reqs, job).0)
  }

  function DoProducer(s: State, p: ProducerStep): State {
    match p
    case Upload(frame) => Queue(s, s.producer.open + [frame], Feed(s.producer.blockSize, s.producer.batch, frame))
    case CutRest => Queue(s, s.producer.open, FeedRest(s.producer.batch))
    case CloseReqs => s.(reqs := s.reqs.(closed := true))
    case CloseResps => s.(resps := s.resps.(closed := true))
  }

  /** Where the worker stands after the step. */
  function WorkerNext(s: State, w: nat, step: WorkerStep): Worker
    requires w < |s.workers| && WorkerMay(s, w, step)
  {
    match step
    case Pop => Popped(s.reqs.items[0])
    case Enter => Inside(s.workers[w].job)
    case Stage(acked) => if acked then Staged(s.workers[w].job) else s.workers[w]
    case Respond => Replied
    case Leave => Idle
    case Exit => Exited
  }

  function DoWorker(s: State, w: nat, step: WorkerStep): State
    requires w < |s.workers| && WorkerMay(s, w, step)
  {
    var moved := s.(workers := s.workers[w := WorkerNext(s, w, step)]);
    match step
    case Pop => moved.(reqs := PopOf(s.reqs).0)
    case Enter => moved.(gate := s.gate.(sem := s.gate.sem - 1))
    case Stage(_) =>
      moved.(service := s.service.(staged := s.service.staged[s.workers[w].job.id := s.workers[w].job.data]))
    case Respond => moved.(resps := Pushed(s.resps, s.workers[w].job.id).0)
    case Leave => moved.(gate := s.gate.(sem := s.gate.sem + 1))
    case Exit => moved
  }

  /** Where the committing thread stands after the step. */
  function CommitterNext(s: State, c: nat, step: CommitStep): Committer
    requires c < |s.committers|
  {
    var pc := s.committers[c];
    match step
    case Take => if s.resps.items == [] then pc else Took(s.resps.items[0], pc.Draining?)
    case Fold => if pc.Took? && pc.draining then Draining else Ready
    case Begin => Entering
    case Shut => Waiting
    case Pass => Draining
    case Crash => Crashed
    case Send => Sent(s.ledger.list)
    case Apply(_) => if pc.Sent? then Applied(pc.list) else pc
    case Fail => Posting
    case Ack => Releasing
    case Release => Ready
  }

  ghost function DoCommitter(s: State, c: nat, step: CommitStep): State
    requires c < |s.committers| && CommitterMay(s, c, step)
  {
    var moved := s.(committers := s.committers[c := CommitterNext(s, c, step)]);
    match step
    case Take => moved.(resps := PopOf(s.resps).0)
    case Fold => moved.(ledger := CommitBlock(s.ledger, s.committers[c].id))
    case Begin => moved
    case Shut => moved.(gate := s.gate.(flushing := true))
    case Pass => moved
    case Crash => moved
    case Send => moved
    case Apply(keep) => moved.(service := Put(s.service, s.committers[c].list, keep))
    case Fail => moved
    case Ack => moved.(ledger := MarkCommitted(s.ledger))
    case Release => moved.(gate := s.gate.(flushing := false))
  }

  ghost function Do(s: State, a: Action): State
    requires Enabled(s, a)
  {
    match a
    case ByProducer(p) => DoProducer(s, p)
    case ByWorker(w, step) => DoWorker(s, w, step)
    case ByCommitter(c, step) => DoCommitter(s, c, step)
  }

  /** The state after performing the actions in order, if each of them is enabled when its turn comes. */
  ghost function Exec(s: State, run: seq<Action>): Option<State> {
    if run == [] then Some(s)
    else
      match Exec(s, run[..|run| - 1])
      case None => None
      case Some(m) => if Enabled(m, run[|run| - 1]) then Some(Do(m, run[|run| - 1])) else None
  }

  ghost predicate Runs(s: State, run: seq<Action>, s': State) {
    Exec(s, run) == Some(s')
  }

  lemma RunsSnoc(s: State, run: seq<Action>, m: State, a: Action)
    requires Runs(s, run, m) && Enabled(m, a)
    ensures Runs(s, run + [a], Do(m, a))
  {
    assert (run + [a])[..|run|] == run;
  }

  /** Every byte ever passed to `upload`. */
  ghost function Uploaded(s: State): seq<byte> {
    Flatten(Blocks(s)) + Flatten(s.producer.open)
  }

  /** The content of each block cut so far, in id order. */
  ghost function Blocks(s: State): seq<seq<byte>> {
    seq(|s.producer.cut|, i requires 0 <= i < |s.producer.cut| => Flatten(s.producer.cut[i]))
  }

  /** The bytes a reader of the remote blob sees. */
  ghost function BlobBytes(blob: seq<Job>): seq<byte> {
    if blob == [] then [] else BlobBytes(blob[..|blob| - 1]) + blob[|blob| - 1].data
  }
}
