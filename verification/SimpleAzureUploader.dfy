/** `UploadWorker` and `SimpleAzureUploader`: the code whose steps the append protocol names. */
module AppendUploader {
  import opened Bytes
  import opened AppendProtocol

  /** The remote append blob. */
  class AppendBlob {
    var content: seq<byte>

    constructor ()
      ensures content == []
    {
      content := [];
    }

    method AppendBlock(chunk: seq<byte>, accepted: bool)
      modifies this
      ensures content == if accepted then old(content) + chunk else old(content)
    {
      if accepted {
        content := content + chunk;
      }
    }
  }

  // ----- The worker's loop as a function -----

  /** One turn of the loop: test, take, send. */
  function Round(s: State, accepted: bool): State
    requires s.worker.Top? && !s.stopped && s.stream != []
  {
    Do(Do(Do(s, Test), Take), Reply(accepted))
  }

  /** From `s` to `s'` the next chunk was sent. */
  ghost predicate SentNext(s: State, s': State, accepted: bool) {
    var chunks := Chunks(s.stream);
    && chunks != [] && Chunks(s'.stream) == chunks[1..]
    && s'.attempts == s.attempts + [Attempt(chunks[0], accepted)]
    && s'.remote == (if accepted then s.remote + chunks[0] else s.remote)
    && s'.appended == s.appended
  }

  lemma RoundSendsNext(s: State, accepted: bool)
    requires s.worker.Top? && !s.stopped && s.stream != []
    ensures SentNext(s, Round(s, accepted), accepted)
  {
  }

  predicate WorkerRuns(s: State, run: seq<Action>, s': State) {
    Runs(s, run, s') && ByWorker(run)
  }

  lemma ExitExtends(s: State)
    requires s.worker.Top? && s.stopped
    ensures WorkerRuns(s, [Test], s.(worker := Exited))
  {
    assert [Test][1..] == [];
  }

  lemma AnnounceExtends(start: State, run: seq<Action>, s: State)
    requires WorkerRuns(start, run, s) && s.worker.Top? && !s.stopped && s.stream == []
    ensures WorkerRuns(start, run + [Test, Announce], s.(worker := Waiting, finished := true))
  {
    var more := [Test, Announce];
    assert more[1..] == [Announce] && more[1..][1..] == [];
    assert Runs(Do(s, Test), [Announce], s.(worker := Waiting, finished := true));
    RunsJoin(start, run, s, more, s.(worker := Waiting, finished := true));
  }

  lemma RoundIsARun(s: State, accepted: bool)
    requires s.worker.Top? && !s.stopped && s.stream != []
    ensures Runs(s, [Test, Take, Reply(accepted)], Round(s, accepted))
  {
    var run := [Test, Take, Reply(accepted)];
    assert run[1..] == [Take, Reply(accepted)] && run[1..][1..] == [Reply(accepted)] && run[1..][1..][1..] == [];
    assert Runs(Do(Do(s, Test), Take), [Reply(accepted)], Round(s, accepted));
  }

  lemma RoundExtends(start: State, run: seq<Action>, s: State, replies: seq<bool>, accepted: bool)
    requires WorkerRuns(start, run, s) && Sent(start, s, replies)
    requires s.worker.Top? && !s.stopped && s.stream != []
    ensures WorkerRuns(start, run + [Test, Take, Reply(accepted)], Round(s, accepted))
    ensures Sent(start, Round(s, accepted), replies + [accepted])
  {
    RoundIsARun(s, accepted);
    RunsJoin(start, run, s, [Test, Take, Reply(accepted)], Round(s, accepted));
    RoundSendsNext(s, accepted);
    SentGrows(start, s, Round(s, accepted), replies, accepted);
  }

  function Attempts(chunks: seq<seq<byte>>, replies: seq<bool>): seq<Attempt>
    requires |replies| <= |chunks|
  {
    seq(|replies|, k requires 0 <= k < |replies| => Attempt(chunks[k], replies[k]))
  }

  /** Between the two states the first chunks of the stream were sent, one for each reply. */
  ghost predicate Sent(start: State, s: State, replies: seq<bool>) {
    var chunks := Chunks(start.stream);
    && |replies| <= |chunks|
    && Chunks(s.stream) == chunks[|replies|..]
    && s.attempts == start.attempts + Attempts(chunks, replies)
    && s.remote == start.remote + Accepted(Attempts(chunks, replies))
    && s.appended == start.appended
  }

  lemma NothingSent(s: State)
    ensures Sent(s, s, [])
  {
    assert Attempts(Chunks(s.stream), []) == [];
    assert s.attempts + [] == s.attempts && s.remote + [] == s.remote;
  }

  lemma AttemptsSnoc(chunks: seq<seq<byte>>, replies: seq<bool>, accepted: bool)
    requires |replies| < |chunks|
    ensures var sent, last := Attempts(chunks, replies), Attempt(chunks[|replies|], accepted);
            && Attempts(chunks, replies + [accepted]) == sent + [last]
            && Accepted(sent + [last]) == Accepted(sent) + (if accepted then last.chunk else [])
  {
    var sent, last := Attempts(chunks, replies), Attempt(chunks[|replies|], accepted);
    assert Attempts(chunks, replies + [accepted]) == sent + [last];
    assert (sent + [last])[..|sent|] == sent;
  }

  lemma SentGrows(start: State, s: State, s': State, replies: seq<bool>, accepted: bool)
    requires Sent(start, s, replies) && SentNext(s, s', accepted)
    ensures Sent(start, s', replies + [accepted])
  {
    var chunks := Chunks(start.stream);
    assert |replies| < |chunks| && s'.appended == start.appended;
    assert Chunks(s'.stream) == chunks[|replies + [accepted]|..];
    assert chunks[|replies|] == Chunks(s.stream)[0];
    AttemptsSnoc(chunks, replies, accepted);
    var sent, last := Attempts(chunks, replies), Attempt(chunks[|replies|], accepted);
    assert s'.attempts == start.attempts + (sent + [last]);
    assert s'.remote == start.remote + Accepted(sent + [last]);
  }

  /** When the whole stream has been sent, it is in the blob exactly when no request was refused. */
  lemma SentIsStoredIff(start: State, s: State, replies: seq<bool>)
    requires Sent(start, s, replies) && s.stream == []
    ensures s.remote == start.remote + start.stream <==> forall k :: 0 <= k < |replies| ==> replies[k]
  {
    var chunks := Chunks(start.stream);
    var sent := Attempts(chunks, replies);
    ChunksRejoin(start.stream);
    ChunksAreNotEmpty(start.stream);
    assert Chunks(s.stream) == [];
    assert ChunksOf(sent) == chunks;
    AcceptedIsAllIff(sent);
    assert AllAccepted(sent) <==> forall k :: 0 <= k < |replies| ==> replies[k] by {
      assert forall k :: 0 <= k < |replies| ==> sent[k].accepted == replies[k];
    }
  }

  lemma {:induction false} ChunksAreNotEmpty(stream: seq<byte>)
    ensures forall i :: 0 <= i < |Chunks(stream)| ==> Chunks(stream)[i] != []
    decreases |stream|
  {
    if stream != [] {
      ChunksAreNotEmpty(stream[ChunkSize(stream)..]);
    }
  }

  /** The ghost fields are the worker's place in `run` and the history of the step system. */
  class UploadWorker {
    const blob: AppendBlob
    var stream: seq<byte>
    var finished: bool
    var stopped: bool
    ghost var stage: Stage
    ghost var appended: seq<byte>
    ghost var attempts: seq<Attempt>

    ghost function View(): State
      reads this, blob
    {
      State(stream, finished, stopped, stage, blob.content, appended, attempts)
    }

    constructor ()
      ensures View() == INIT && fresh(blob)
    {
      blob := new AppendBlob();
      stream, finished, stopped := [], true, false;
      stage, appended, attempts := Top, [], [];
    }

    method Append(data: seq<byte>)
      requires data != []
      modifies this`stream, this`finished, this`appended
      ensures View() == Do(old(View()), Action.Append(data))
      ensures stream == old(stream) + data && !finished
    {
      stream := stream + data;
      finished := false;
      appended := appended + data;
    }

    /** Take at most the cap, or the whole stream when its 32-bit length is within the cap. */
    method TakeChunk() returns (chunk: seq<byte>)
      requires stage == Ready
      modifies this`stream, this`stage
      ensures View() == Do(old(View()), Take) && stage == Sending(chunk)
      ensures chunk + stream == old(stream)
      ensures |chunk| == if |old(stream)| % 0x1_0000_0000 <= 0x20_0000 then |old(stream)| else 0x20_0000
    {
      if StreamLen(stream) <= CHUNK_CAP {
        chunk := stream;
        stream := [];
      } else {
        chunk := stream[..CHUNK_CAP];
        stream := stream[CHUNK_CAP..];
      }
      assert chunk == old(stream)[..ChunkSize(old(stream))];
      assert stream == old(stream)[ChunkSize(old(stream))..];
      stage := Sending(chunk);
    }

    /** Send the chunk once; a refused request is logged and the chunk forgotten. */
    method SendChunk(chunk: seq<byte>, accepted: bool)
      requires stage == Sending(chunk)
      modifies this`stage, this`attempts, blob
      ensures View() == Do(old(View()), Reply(accepted))
    {
      blob.AppendBlock(chunk, accepted);
      attempts := attempts + [Attempt(chunk, accepted)];
      stage := Top;
    }

    /** One turn of the loop in `run` on a stream that is not empty. */
    method SendNext(accepted: bool)
      requires stage == Top && !stopped && stream != []
      modifies this`stream, this`stage, this`attempts, blob
      ensures View() == Round(old(View()), accepted)
    {
      stage := Ready;
      var chunk := TakeChunk();
      SendChunk(chunk, accepted);
    }

    /**
     * `run` from the head of its loop until it exits, has to wait, or `replies` give out, with nothing else running:
     * the next chunks are sent in order, each once, whatever the replies; the ghost result is the same behaviour as a
     * run of the step system.
     */
    method Run(replies: seq<bool>) returns (ghost run: seq<Action>)
      requires stage == Top
      modifies this`stream, this`finished, this`stage, this`attempts, blob
      ensures WorkerRuns(old(View()), run, View())
      ensures stopped ==> View() == old(View()).(worker := Exited)
      ensures !stopped ==>
        var chunks := |Chunks(old(stream))|;
        && Sent(old(View()), View(), replies[..if |replies| < chunks then |replies| else chunks])
        && (|replies| >= chunks ==> Stuck(View()) && stream == [] && finished)
    {
      run := [];
      ghost var start := View();
      var i := 0;
      NothingSent(start);
      while !stopped && stream != [] && i < |replies|
        invariant stage == Top && WorkerRuns(start, run, View())
        invariant stopped == start.stopped && (stopped ==> i == 0 && View() == start)
        invariant i <= |replies| && Sent(start, View(), replies[..i])
        decreases |stream|
      {
        RoundExtends(start, run, View(), replies[..i], replies[i]);
        run := run + [Test, Take, Reply(replies[i])];
        assert replies[..i + 1] == replies[..i] + [replies[i]];
        SendNext(replies[i]);
        i := i + 1;
      }
      if stopped {
        ExitExtends(start);
        run := [Test];
        stage := Exited;
      } else if stream == [] {
        AnnounceExtends(start, run, View());
        run := run + [Test, Announce];
        finished := true;
        stage := Waiting;
      }
    }

    /** Told to stop; the worker exits at its next test. */
    method Stop()
      modifies this`stopped
      ensures View() == Do(old(View()), Action.Stop)
    {
      stopped := true;
    }
  }

  /** The uploader in front of a worker; null stands for an uploader that was never initialised. */
  class SimpleAzureUploader {
    var worker: UploadWorker?

    constructor ()
      ensures worker == null
    {
      worker := null;
    }

    method Init()
      modifies this
      ensures worker != null && fresh(worker) && worker.View() == INIT
    {
      worker := new UploadWorker();
    }

    /** Writes nothing without a worker or without bytes. */
    method Upload(data: seq<byte>)
      modifies if worker != null then {worker} else {}
      ensures worker != null ==>
        worker.View() == if data == [] then old(worker.View()) else Do(old(worker.View()), Action.Append(data))
    {
      if worker == null || data == [] {
        return;
      }
      worker.Append(data);
    }
  }
}
