/**
 * The append uploader as a step system: one producer side writing into a stream, one worker sending what the stream
 * holds to an append blob in chunks.
 */
module AppendProtocol {
  import opened Bytes

  const CHUNK_CAP: nat := 2 * 1024 * 1024

  /** How much of the stream the next chunk takes. */
  function ChunkSize(stream: seq<byte>): (n: nat)
    ensures n <= |stream|
    ensures stream != [] ==> n > 0
  {
    if StreamLen(stream) <= CHUNK_CAP then |stream| else CHUNK_CAP
  }

  /** The chunks the worker cuts the stream into when nothing more is written. */
  function Chunks(stream: seq<byte>): seq<seq<byte>>
    decreases |stream|
  {
    if stream == [] then [] else [stream[..ChunkSize(stream)]] + Chunks(stream[ChunkSize(stream)..])
  }

  datatype Attempt = Attempt(chunk: seq<byte>, accepted: bool)

  /** The lines of `run`: `Flushing` has found the stream empty, `Waiting` has announced it. */
  datatype Stage = Top | Flushing | Waiting | Ready | Sending(chunk: seq<byte>) | Exited

  /** `appended` and `attempts` are history: what was written, and what was sent with its reply. */
  datatype State = State(
    stream: seq<byte>, finished: bool, stopped: bool, worker: Stage, remote: seq<byte>,
    appended: seq<byte>, attempts: seq<Attempt>)

  const INIT: State := State([], true, false, Top, [], [], [])

  /** `Append` is a call of `append`, `Stop` sets `stopped`; the rest are the worker's steps. */
  datatype Action = Append(data: seq<byte>) | Stop | Test | Announce | Wake | Take | Reply(accepted: bool)

  predicate Enabled(s: State, a: Action) {
    match a
    case Append(data) => data != []
    case Stop => true
    case Test => s.worker.Top?
    case Announce => s.worker.Flushing?
    case Wake => s.worker.Waiting? && (s.stopped || s.stream != [])
    case Take => s.worker.Ready?
    case Reply(_) => s.worker.Sending?
  }

  function Do(s: State, a: Action): State
    requires Enabled(s, a)
  {
    match a
    case Append(data) => s.(stream := s.stream + data, finished := false, appended := s.appended + data)
    case Stop => s.(stopped := true)
    case Test => s.(worker := if s.stopped then Exited else if s.stream == [] then Flushing else Ready)
    case Announce => s.(worker := Waiting, finished := true)
    case Wake => s.(worker := if s.stopped then Exited else Ready)
    case Take =>
      var n := ChunkSize(s.stream);
      s.(worker := Sending(s.stream[..n]), stream := s.stream[n..])
    case Reply(accepted) =>
      s.(worker := Top,
         remote := if accepted then s.remote + s.worker.chunk else s.remote,
         attempts := s.attempts + [Attempt(s.worker.chunk, accepted)])
  }

  predicate Runs(s: State, run: seq<Action>, s': State)
    decreases |run|
  {
    if run == [] then s == s' else Enabled(s, run[0]) && Runs(Do(s, run[0]), run[1..], s')
  }

  lemma {:induction false} RunsJoin(s: State, run: seq<Action>, m: State, more: seq<Action>, s': State)
    requires Runs(s, run, m) && Runs(m, more, s')
    ensures Runs(s, run + more, s')
    decreases |run|
  {
    if run == [] {
      assert run + more == more;
    } else {
      RunsJoin(Do(s, run[0]), run[1..], m, more, s');
      assert (run + more)[0] == run[0] && (run + more)[1..] == run[1..] + more;
    }
  }

  // ----- How a stream is cut -----

  lemma FlattenSingle(part: seq<byte>)
    ensures Flatten([part]) == part
  {
    FlattenSnoc([], part);
    assert [] + [part] == [part];
  }

  lemma {:induction false} FlattenJoin(left: seq<seq<byte>>, right: seq<seq<byte>>)
    ensures Flatten(left + right) == Flatten(left) + Flatten(right)
    decreases |right|
  {
    if right == [] {
      assert left + right == left;
    } else {
      var front, last := right[..|right| - 1], right[|right| - 1];
      FlattenJoin(left, front);
      FlattenSnoc(left + front, last);
      FlattenSnoc(front, last);
      assert front + [last] == right && left + right == left + front + [last];
    }
  }

  lemma {:induction false} ChunksRejoin(stream: seq<byte>)
    ensures Flatten(Chunks(stream)) == stream
    decreases |stream|
  {
    if stream != [] {
      var n := ChunkSize(stream);
      ChunksRejoin(stream[n..]);
      FlattenSingle(stream[..n]);
      FlattenJoin([stream[..n]], Chunks(stream[n..]));
    }
  }

  lemma CeilStep(n: nat)
    requires n > CHUNK_CAP
    ensures (n - CHUNK_CAP + CHUNK_CAP - 1) / CHUNK_CAP + 1 == (n + CHUNK_CAP - 1) / CHUNK_CAP
  {
  }

  /** Below 2^32 bytes, a stream takes ceil(length / 2 MiB) chunks: all of 2 MiB but the last, which is not empty. */
  lemma {:induction false} ChunksAreCapped(stream: seq<byte>)
    requires |stream| < 0x1_0000_0000
    ensures |Chunks(stream)| == (|stream| + 0x1F_FFFF) / 0x20_0000
    ensures forall i :: 0 <= i < |Chunks(stream)| - 1 ==> |Chunks(stream)[i]| == 0x20_0000
    ensures stream != [] ==> Chunks(stream) != [] && 0 < |Chunks(stream)[|Chunks(stream)| - 1]| <= 0x20_0000
    decreases |stream|
  {
    if stream != [] {
      var n := ChunkSize(stream);
      ChunksAreCapped(stream[n..]);
      if |stream| > CHUNK_CAP {
        CeilStep(|stream|);
      }
    }
  }

  /** The next chunk exceeds the cap exactly when the 32-bit length of a longer stream has wrapped to the cap or less. */
  lemma ChunkExceedsCapIff(stream: seq<byte>)
    ensures ChunkSize(stream) > 0x20_0000 <==> |stream| >= 0x1_0000_0000 && |stream| % 0x1_0000_0000 <= 0x20_0000
    ensures ChunkSize(stream) == if |stream| % 0x1_0000_0000 <= 0x20_0000 then |stream| else 0x20_0000
  {
  }

  // ----- Conservation -----

  function ChunksOf(attempts: seq<Attempt>): seq<seq<byte>> {
    seq(|attempts|, i requires 0 <= i < |attempts| => attempts[i].chunk)
  }

  /** Every chunk taken so far, sent or being sent. */
  function Taken(s: State): seq<seq<byte>> {
    if s.worker.Sending? then ChunksOf(s.attempts) + [s.worker.chunk] else ChunksOf(s.attempts)
  }

  function InFlight(s: State): seq<byte> {
    if s.worker.Sending? then s.worker.chunk else []
  }

  function Accepted(attempts: seq<Attempt>): seq<byte> {
    if attempts == [] then []
    else
      var rest := Accepted(attempts[..|attempts| - 1]);
      if attempts[|attempts| - 1].accepted then rest + attempts[|attempts| - 1].chunk else rest
  }

  ghost predicate Inv(s: State) {
    && Flatten(Taken(s)) + s.stream == s.appended
    && s.remote == Accepted(s.attempts)
    && (forall i :: 0 <= i < |s.attempts| ==> s.attempts[i].chunk != [])
    && (s.worker.Sending? ==> s.worker.chunk != [])
    && (s.worker.Ready? ==> s.stream != [])
    && (s.worker.Waiting? && s.stream == [] ==> s.finished)
  }

  lemma AppendInv(s: State, data: seq<byte>)
    requires Inv(s) && data != []
    ensures Inv(Do(s, Append(data)))
  {
    assert Flatten(Taken(s)) + (s.stream + data) == (Flatten(Taken(s)) + s.stream) + data;
  }

  lemma TakeInv(s: State)
    requires Inv(s) && Enabled(s, Take)
    ensures Inv(Do(s, Take))
  {
    hide Flatten;
    var n := ChunkSize(s.stream);
    assert Taken(Do(s, Take)) == Taken(s) + [s.stream[..n]];
    FlattenSnoc(Taken(s), s.stream[..n]);
    assert (Flatten(Taken(s)) + s.stream[..n]) + s.stream[n..] == Flatten(Taken(s)) + s.stream;
  }

  lemma AcceptedSnoc(attempts: seq<Attempt>, last: Attempt)
    ensures Accepted(attempts + [last]) == Accepted(attempts) + if last.accepted then last.chunk else []
  {
    assert (attempts + [last])[..|attempts|] == attempts;
  }

  lemma ReplyTaken(s: State, accepted: bool)
    requires Enabled(s, Reply(accepted))
    ensures Taken(Do(s, Reply(accepted))) == Taken(s)
  {
  }

  lemma ReplyInv(s: State, accepted: bool)
    requires Inv(s) && Enabled(s, Reply(accepted))
    ensures Inv(Do(s, Reply(accepted)))
  {
    hide Flatten, Accepted, Taken;
    ReplyTaken(s, accepted);
    AcceptedSnoc(s.attempts, Attempt(s.worker.chunk, accepted));
  }

  lemma StepInv(s: State, a: Action)
    requires Inv(s) && Enabled(s, a)
    ensures Inv(Do(s, a))
  {
    match a
    case Append(data) => AppendInv(s, data);
    case Take => TakeInv(s);
    case Reply(accepted) => ReplyInv(s, accepted);
    case _ => assert Taken(Do(s, a)) == Taken(s);
  }

  lemma {:induction false} RunsInv(s: State, run: seq<Action>, s': State)
    requires Inv(s) && Runs(s, run, s')
    ensures Inv(s')
    decreases |run|
  {
    if run != [] {
      StepInv(s, run[0]);
      RunsInv(Do(s, run[0]), run[1..], s');
    }
  }

  ghost predicate Reachable(s: State) {
    exists run :: Runs(INIT, run, s)
  }

  lemma ReachableInv(s: State)
    requires Reachable(s)
    ensures Inv(s)
  {
    var run :| Runs(INIT, run, s);
    RunsInv(INIT, run, s);
  }

  /** The bytes one action writes. */
  function WrittenBy(a: Action): seq<byte> {
    if a.Append? then a.data else []
  }

  /** The bytes passed to `append` in a run, in order. */
  function Written(run: seq<Action>): seq<byte>
    decreases |run|
  {
    if run == [] then [] else WrittenBy(run[0]) + Written(run[1..])
  }

  /** What has been appended is what the calls of `append` passed, in order. */
  lemma {:induction false} AppendedIsWritten(s: State, run: seq<Action>, s': State)
    requires Runs(s, run, s')
    ensures s'.appended == s.appended + Written(run)
    decreases |run|
  {
    if run != [] {
      AppendedIsWritten(Do(s, run[0]), run[1..], s');
      assert (s.appended + WrittenBy(run[0])) + Written(run[1..]) == s.appended + (WrittenBy(run[0]) + Written(run[1..]));
    }
  }

  /** The replies of a run, in order. */
  function Replies(run: seq<Action>): seq<bool>
    decreases |run|
  {
    if run == [] then []
    else (if run[0].Reply? then [run[0].accepted] else []) + Replies(run[1..])
  }

  function Outcomes(attempts: seq<Attempt>): seq<bool> {
    seq(|attempts|, i requires 0 <= i < |attempts| => attempts[i].accepted)
  }

  /** Each request that was answered is on record with its answer. */
  lemma {:induction false} AttemptsAreReplies(s: State, run: seq<Action>, s': State)
    requires Runs(s, run, s')
    ensures Outcomes(s'.attempts) == Outcomes(s.attempts) + Replies(run)
    decreases |run|
  {
    if run != [] {
      var m := Do(s, run[0]);
      AttemptsAreReplies(m, run[1..], s');
      assert Outcomes(m.attempts) == Outcomes(s.attempts) + if run[0].Reply? then [run[0].accepted] else [];
    }
  }

  /** Chunks are sent in the order they were written and nothing is duplicated or reordered. */
  lemma StreamIsConserved(s: State)
    requires Reachable(s)
    ensures forall run :: Runs(INIT, run, s) ==> s.appended == Written(run)
    ensures Flatten(ChunksOf(s.attempts)) + InFlight(s) + s.stream == s.appended
    ensures forall i :: 0 <= i < |s.attempts| ==> s.attempts[i].chunk != []
  {
    ReachableInv(s);
    forall run | Runs(INIT, run, s) ensures s.appended == Written(run) {
      AppendedIsWritten(INIT, run, s);
    }
    if s.worker.Sending? {
      FlattenSnoc(ChunksOf(s.attempts), s.worker.chunk);
    }
  }

  predicate AllAccepted(attempts: seq<Attempt>) {
    forall i :: 0 <= i < |attempts| ==> attempts[i].accepted
  }

  lemma {:induction false} AcceptedIsAllIff(attempts: seq<Attempt>)
    requires forall i :: 0 <= i < |attempts| ==> attempts[i].chunk != []
    ensures |Accepted(attempts)| <= |Flatten(ChunksOf(attempts))|
    ensures AllAccepted(attempts) ==> Accepted(attempts) == Flatten(ChunksOf(attempts))
    ensures !AllAccepted(attempts) ==> |Accepted(attempts)| < |Flatten(ChunksOf(attempts))|
    decreases |attempts|
  {
    if attempts != [] {
      var front, last := attempts[..|attempts| - 1], attempts[|attempts| - 1];
      AcceptedIsAllIff(front);
      FlattenSnoc(ChunksOf(front), last.chunk);
      assert ChunksOf(attempts) == ChunksOf(front) + [last.chunk];
      assert AllAccepted(attempts) <==> AllAccepted(front) && last.accepted by {
        assert forall i :: 0 <= i < |front| ==> front[i] == attempts[i];
      }
    }
  }

  /**
   * The blob, the chunk in flight and the stream make up everything appended exactly as long as no append request has
   * been refused: the worker drops a refused chunk and goes on.
   */
  lemma NothingIsDroppedIff(s: State)
    requires Reachable(s)
    ensures s.remote + InFlight(s) + s.stream == s.appended <==> AllAccepted(s.attempts)
  {
    ReachableInv(s);
    StreamIsConserved(s);
    AcceptedIsAllIff(s.attempts);
    assert |s.remote + InFlight(s) + s.stream| == |s.remote| + |InFlight(s)| + |s.stream|;
    assert |s.appended| == |Flatten(ChunksOf(s.attempts))| + |InFlight(s)| + |s.stream|;
  }

  // ----- Draining -----

  predicate ByWorker(run: seq<Action>) {
    forall i :: 0 <= i < |run| ==> !run[i].Append? && !run[i].Stop?
  }

  lemma StepSendsChunks(s: State, a: Action)
    requires Inv(s) && Enabled(s, a) && !a.Append?
    ensures Taken(Do(s, a)) + Chunks(Do(s, a).stream) == Taken(s) + Chunks(s.stream)
  {
    var m := Do(s, a);
    if a.Take? {
      assert Taken(m) == Taken(s) + [m.worker.chunk];
      assert Chunks(s.stream) == [m.worker.chunk] + Chunks(m.stream);
    } else {
      assert Taken(m) == Taken(s);
    }
  }

  /** While the worker runs alone, the chunks taken and the chunks still to be cut never change. */
  lemma {:induction false} WorkerSendsChunks(s: State, run: seq<Action>, s': State)
    requires Inv(s) && Runs(s, run, s') && ByWorker(run)
    ensures Taken(s') + Chunks(s'.stream) == Taken(s) + Chunks(s.stream)
    decreases |run|
  {
    if run != [] {
      StepInv(s, run[0]);
      StepSendsChunks(s, run[0]);
      WorkerSendsChunks(Do(s, run[0]), run[1..], s');
    }
  }

  function StageRank(worker: Stage): nat {
    match worker
    case Exited => 0
    case Ready => 1
    case Waiting => 2
    case Flushing => 3
    case Top => 4
    case Sending(_) => 5
  }

  function Rank(s: State): nat {
    5 * |Chunks(s.stream)| + StageRank(s.worker)
  }

  /** The worker alone takes at most five steps a chunk before it has to wait. */
  lemma {:induction false} WorkerRunIsFinite(s: State, run: seq<Action>, s': State)
    requires Inv(s) && Runs(s, run, s') && ByWorker(run)
    ensures |run| + Rank(s') <= Rank(s)
    decreases |run|
  {
    if run != [] {
      var m := Do(s, run[0]);
      StepInv(s, run[0]);
      WorkerRunIsFinite(m, run[1..], s');
      if run[0].Take? {
        assert Chunks(s.stream) == [m.worker.chunk] + Chunks(m.stream);
      }
    }
  }

  /** No step of the worker is enabled. */
  predicate Stuck(s: State) {
    s.worker.Exited? || (s.worker.Waiting? && !s.stopped && s.stream == [])
  }

  lemma StuckIsStuck(s: State)
    ensures Stuck(s) <==> forall a :: Enabled(s, a) ==> a.Append? || a.Stop?
  {
    if !Stuck(s) {
      var a := match s.worker
        case Top => Test
        case Flushing => Announce
        case Waiting => Wake
        case Ready => Take
        case Sending(_) => Reply(true)
        case Exited => Stop;
      assert Enabled(s, a);
    }
  }

  /** The worker exits only when it has been told to stop. */
  lemma {:induction false} ExitNeedsStop(s: State, run: seq<Action>, s': State)
    requires Runs(s, run, s') && ByWorker(run) && !s.stopped && !s.worker.Exited?
    ensures !s'.stopped && !s'.worker.Exited?
    decreases |run|
  {
    if run != [] {
      ExitNeedsStop(Do(s, run[0]), run[1..], s');
    }
  }

  /**
   * Once producers stop, the worker comes to rest waiting, with the stream empty, `finished` set, and exactly
   * ceil(length / 2 MiB) more chunks taken, which together are what the stream held.
   */
  lemma WorkerAloneDrains(s: State, run: seq<Action>, s': State)
    requires Reachable(s) && !s.stopped && !s.worker.Exited? && |s.stream| < 0x1_0000_0000
    requires Runs(s, run, s') && ByWorker(run) && forall a :: Enabled(s', a) ==> a.Append? || a.Stop?
    ensures s'.stream == [] && s'.finished
    ensures ChunksOf(s'.attempts) == Taken(s) + Chunks(s.stream)
    ensures |s'.attempts| == |Taken(s)| + (|s.stream| + 0x1F_FFFF) / 0x20_0000
  {
    hide Runs, Flatten, Accepted;
    StuckIsStuck(s');
    ReachableInv(s);
    RunsInv(s, run, s');
    ExitNeedsStop(s, run, s');
    WorkerSendsChunks(s, run, s');
    ChunksAreCapped(s.stream);
    assert Taken(s') + Chunks(s'.stream) == ChunksOf(s'.attempts);
  }

  // ----- What `finished` tells `flush` -----

  /** `finished` is set only when no byte is waiting or in flight. */
  predicate Truthful(s: State) {
    s.finished ==> s.stream == [] && !s.worker.Sending? && !s.worker.Ready?
  }

  predicate AlwaysTruthful(s: State, run: seq<Action>, s': State)
    requires Runs(s, run, s')
    decreases |run|
  {
    Truthful(s) && (run != [] ==> AlwaysTruthful(Do(s, run[0]), run[1..], s'))
  }

  /** No call of `append` falls between the emptiness test and the announcement: test and set are one step. */
  predicate TestAndSet(s: State, run: seq<Action>, s': State)
    requires Runs(s, run, s')
    decreases |run|
  {
    run != [] ==>
      && (run[0].Append? ==> !s.worker.Flushing?)
      && TestAndSet(Do(s, run[0]), run[1..], s')
  }

  /** What holds between the emptiness test and the announcement while no `append` has come between. */
  predicate Clean(s: State) {
    Truthful(s) && (s.worker.Flushing? ==> s.stream == [])
  }

  lemma {:induction false} TestAndSetIsTruthful(s: State, run: seq<Action>, s': State)
    requires Clean(s) && Runs(s, run, s') && TestAndSet(s, run, s')
    ensures AlwaysTruthful(s, run, s') && Truthful(s')
    decreases |run|
  {
    if run != [] {
      TestAndSetIsTruthful(Do(s, run[0]), run[1..], s');
    }
  }

  /** An announcement that comes over bytes appended after the test is bound to be false. */
  lemma {:induction false} LateAppendOverclaims(s: State, run: seq<Action>, s': State)
    requires s.worker.Flushing? && s.stream != [] && Runs(s, run, s') && !s'.worker.Flushing?
    ensures !AlwaysTruthful(s, run, s')
    decreases |run|
  {
    var m := Do(s, run[0]);
    if run[0].Announce? {
      assert !Truthful(m);
    } else {
      LateAppendOverclaims(m, run[1..], s');
    }
  }

  lemma {:induction false} CleanRunIsTruthfulIff(s: State, run: seq<Action>, s': State)
    requires Clean(s) && Runs(s, run, s') && !s'.worker.Flushing?
    ensures AlwaysTruthful(s, run, s') <==> TestAndSet(s, run, s')
    decreases |run|
  {
    if run != [] {
      var m := Do(s, run[0]);
      if run[0].Append? && s.worker.Flushing? {
        LateAppendOverclaims(m, run[1..], s');
      } else {
        CleanRunIsTruthfulIff(m, run[1..], s');
      }
    }
  }

  /**
   * `flush` is never released over unsent bytes if and only if no `append` ever falls between the worker's emptiness
   * test and its announcement. A run that ends between the two is not over: the announcement is still to come.
   */
  lemma FinishedIsTruthfulIff(run: seq<Action>, s: State)
    requires Runs(INIT, run, s) && !s.worker.Flushing?
    ensures AlwaysTruthful(INIT, run, s) <==> TestAndSet(INIT, run, s)
  {
    CleanRunIsTruthfulIff(INIT, run, s);
  }

  /** With an atomic test-and-set, a `flush` that returns has every appended byte sent; all of it is in the blob
   *  exactly when no append request was refused. */
  lemma FlushMeansUploadedIff(run: seq<Action>, s: State)
    requires Runs(INIT, run, s) && TestAndSet(INIT, run, s) && s.finished
    ensures Flatten(ChunksOf(s.attempts)) == s.appended
    ensures s.remote == s.appended <==> AllAccepted(s.attempts)
  {
    TestAndSetIsTruthful(INIT, run, s);
    StreamIsConserved(s);
    NothingIsDroppedIff(s);
  }

  /** As coded, any `append` landing between the test and the announcement makes `finished` overclaim. */
  lemma AppendDuringAnnouncementOverclaims(s: State, data: seq<byte>)
    requires s.worker.Flushing? && data != []
    ensures Runs(s, [Append(data), Announce], Do(Do(s, Append(data)), Announce))
    ensures !Truthful(Do(Do(s, Append(data)), Announce))
  {
    var m := Do(s, Append(data));
    assert [Append(data), Announce][1..] == [Announce] && [Announce][1..] == [];
    assert Runs(m, [Announce], Do(m, Announce));
  }

  // ----- Shutting down -----

  /** After the worker has exited, the blob never changes again. */
  lemma {:induction false} ExitIsFinal(s: State, run: seq<Action>, s': State)
    requires s.worker.Exited? && Runs(s, run, s')
    ensures s'.worker.Exited? && s'.remote == s.remote && s'.attempts == s.attempts && s.stream <= s'.stream
    decreases |run|
  {
    if run != [] {
      ExitIsFinal(Do(s, run[0]), run[1..], s');
    }
  }

  /** An uploader that has exited has uploaded everything exactly when its stream is empty and no request was refused. */
  lemma ExitIsCompleteIff(s: State)
    requires Reachable(s) && s.worker.Exited?
    ensures s.remote == s.appended <==> s.stream == [] && AllAccepted(s.attempts)
  {
    ReachableInv(s);
    StreamIsConserved(s);
    AcceptedIsAllIff(s.attempts);
  }

  /** `destroy` is `flush` then `stop`: a flush released early lets the worker exit with the last append unsent. */
  lemma DestroyCanDropAppend(data: seq<byte>)
    requires data != []
    ensures var s := State(data, true, true, Exited, [], data, []);
            Runs(INIT, [Test, Append(data), Announce, Stop, Wake], s) && s.finished && s.remote != s.appended
  {
    var run := [Test, Append(data), Announce, Stop, Wake];
    var flushing := Do(INIT, Test);
    var written := Do(flushing, Append(data));
    var announced := Do(written, Announce);
    var stopped := Do(announced, Stop);
    assert [] + data == data;
    assert run[1..] == [Append(data), Announce, Stop, Wake];
    assert run[1..][1..] == [Announce, Stop, Wake];
    assert run[1..][1..][1..] == [Stop, Wake];
    assert run[1..][1..][1..][1..] == [Wake];
    assert run[1..][1..][1..][1..][1..] == [];
    assert Runs(stopped, [Wake], Do(stopped, Wake));
    assert Runs(announced, [Stop, Wake], Do(stopped, Wake));
    assert Runs(written, [Announce, Stop, Wake], Do(stopped, Wake));
  }
}
