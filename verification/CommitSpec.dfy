/** One call of `doCommit` as a function, and as a run of the step system. */
module CommitSpec {
  import opened Ledgers
  import opened Batching
  import opened Bytes
  import opened BlockingQueues
  import opened UploadProtocol

  /** What becomes of one put: applied and acknowledged, applied without a reply, or refused. */
  datatype Fate = Acked(keep: set<nat>) | Unacked(keep: set<nat>) | Refused

  /** The puts of one `doCommit`, one fate after the other, up to the first acknowledged one. */
  function PutLoop(svc: Service, list: seq<Item>, fates: seq<Fate>): (Service, bool)
    decreases |fates|
  {
    if fates == [] then (svc, false)
    else if fates[0].Refused? || !Resolvable(svc, list) then PutLoop(svc, list, fates[1..])
    else if fates[0].Acked? then (Put(svc, list, fates[0].keep), true)
    else PutLoop(Put(svc, list, fates[0].keep), list, fates[1..])
  }

  /** The ledger after folding in the responses from first to last. */
  ghost function FoldAll(l: Ledger, ids: seq<nat>): Ledger {
    if ids == [] then l else CommitBlock(FoldAll(l, ids[..|ids| - 1]), ids[|ids| - 1])
  }

  /**
   * `WaitingForWorkers` is `waitFlush` with a worker still inside; `ResponsesClosed` is the exception of a `pop`
   * from the closed queue; `Retrying` is a put that has not been acknowledged yet.
   */
  datatype CommitResult = NothingToDo | WaitingForWorkers | ResponsesClosed | Retrying | Committed

  /** What `doCommit` reads and changes. */
  datatype CommitView = CommitView(ledger: Ledger, resps: Channel<nat>, gate: Gate, service: Service)

  /** `doCommit`, when no other thread moves meanwhile; `fates` are the replies it gets. */
  ghost function DoCommitSpec(v: CommitView, workerCount: nat, fates: seq<Fate>): (CommitView, CommitResult) {
    var shut := v.(gate := v.gate.(flushing := true));
    if NothingToCommit(v.ledger) then (v, NothingToDo)
    else if v.gate.sem != workerCount then (shut, WaitingForWorkers)
    else if v.resps.closed && v.resps.items != [] then (shut, ResponsesClosed)
    else
      var folded := FoldAll(v.ledger, v.resps.items);
      var drained := shut.(ledger := folded, resps := v.resps.(items := []));
      var (svc, acked) := PutLoop(v.service, folded.list, fates);
      if !acked then (drained.(service := svc), Retrying)
      else (CommitView(MarkCommitted(folded), drained.resps, v.gate.(flushing := false), svc), Committed)
  }

  function ViewOf(s: State): CommitView {
    CommitView(s.ledger, s.resps, s.gate, s.service)
  }

  /** The state with committer `c` at `pc` and the given view; no other thread has moved. */
  function Moved(s: State, c: nat, pc: Committer, v: CommitView): State
    requires c < |s.committers|
  {
    s.(committers := s.committers[c := pc], ledger := v.ledger, resps := v.resps, gate := v.gate, service := v.service)
  }

  ghost predicate Reaches(s: State, s': State) {
    exists run :: Runs(s, run, s')
  }

  lemma ReachesItself(s: State)
    ensures Reaches(s, s)
  {
    assert Runs(s, [], s);
  }

  lemma ReachesStep(s: State, m: State, c: nat, step: CommitStep)
    requires Reaches(s, m) && Enabled(m, ByCommitter(c, step))
    ensures Reaches(s, DoCommitter(m, c, step))
  {
    var run :| Runs(s, run, m);
    RunsSnoc(s, run, m, ByCommitter(c, step));
  }

  ghost function Folded(v: CommitView, n: nat): CommitView
    requires n <= |v.resps.items|
  {
    v.(ledger := FoldAll(v.ledger, v.resps.items[..n]), resps := v.resps.(items := v.resps.items[n..]))
  }

  /** `pop` and `commitBlock` once. */
  lemma DrainOne(s: State, m: State, c: nat)
    requires |m.committers| == 2 && c < 2 && m.committers[c].Draining? && Reaches(s, m)
    requires m.resps.items != [] && !m.resps.closed
    ensures var v := ViewOf(m).(ledger := CommitBlock(m.ledger, m.resps.items[0]), resps := PopOf(m.resps).0);
            Reaches(s, Moved(m, c, Draining, v))
  {
    hide Reaches, CommitBlock;
    ReachesStep(s, m, c, Take);
    var took := DoCommitter(m, c, Take);
    ReachesStep(s, took, c, Fold);
    var v := ViewOf(m).(ledger := CommitBlock(m.ledger, m.resps.items[0]), resps := PopOf(m.resps).0);
    assert DoCommitter(took, c, Fold) == Moved(m, c, Draining, v);
  }

  /** The drain loop: `n` times `pop` and `commitBlock`. */
  lemma {:induction false} DrainRun(s: State, m: State, c: nat, n: nat)
    requires |m.committers| == 2 && c < 2 && m.committers[c].Draining? && Reaches(s, m)
    requires n <= |m.resps.items| && (n > 0 ==> !m.resps.closed)
    ensures Reaches(s, Moved(m, c, Draining, Folded(ViewOf(m), n)))
  {
    hide Reaches, CommitBlock;
    var v := ViewOf(m);
    if n == 0 {
      assert v.resps.items[..0] == [] && v.resps.items[0..] == v.resps.items;
      assert Moved(m, c, Draining, Folded(v, 0)) == m;
    } else {
      DrainRun(s, m, c, n - 1);
      var before := Moved(m, c, Draining, Folded(v, n - 1));
      DrainOne(s, before, c);
      var ids := v.resps.items;
      assert ids[..n][..n - 1] == ids[..n - 1] && ids[n - 1..][1..] == ids[n..];
      assert FoldAll(v.ledger, ids[..n]) == CommitBlock(FoldAll(v.ledger, ids[..n - 1]), ids[n - 1]);
      assert before.committers[c := Draining] == m.committers[c := Draining];
    }
  }

  lemma UnackedStep(svc: Service, list: seq<Item>, fates: seq<Fate>)
    requires fates != [] && !fates[0].Acked?
    ensures PutLoop(svc, list, fates) == PutLoop(PutLoop(svc, list, [fates[0]]).0, list, fates[1..])
    ensures PutLoop(svc, list, [fates[0]]).0 ==
      if fates[0].Refused? || !Resolvable(svc, list) then svc else Put(svc, list, fates[0].keep)
  {
    assert [fates[0]][1..] == [];
  }

  /** A put that was refused, or applied without a reply, is sent again. */
  lemma UnackedRun(s: State, m: State, c: nat, fate: Fate)
    requires |m.committers| == 2 && c < 2 && Reaches(s, m) && !fate.Acked?
    requires m.committers[c].Posting? || (m.committers[c].Draining? && m.resps.items == [])
    ensures Reaches(s, Moved(m, c, Posting, ViewOf(m).(service := PutLoop(m.service, m.ledger.list, [fate]).0)))
  {
    ReachesStep(s, m, c, Send);
    var sent := DoCommitter(m, c, Send);
    UnackedStep(m.service, m.ledger.list, [fate]);
    if fate.Refused? || !Resolvable(m.service, m.ledger.list) {
      ReachesStep(s, sent, c, Fail);
      assert DoCommitter(sent, c, Fail) == Moved(m, c, Posting, ViewOf(m));
    } else {
      ReachesStep(s, sent, c, Apply(fate.keep));
      var applied := DoCommitter(sent, c, Apply(fate.keep));
      ReachesStep(s, applied, c, Fail);
      assert DoCommitter(applied, c, Fail)
          == Moved(m, c, Posting, ViewOf(m).(service := Put(m.service, m.ledger.list, fate.keep)));
    }
  }

  /** The retry loop. */
  lemma {:induction false} PutRun(s: State, m: State, c: nat, fates: seq<Fate>) returns (m': State)
    requires |m.committers| == 2 && c < 2 && Reaches(s, m)
    requires m.committers[c].Posting? || (m.committers[c].Draining? && m.resps.items == [])
    ensures Reaches(s, m') && |m'.committers| == 2
    ensures var (svc, acked) := PutLoop(m.service, m.ledger.list, fates);
            && m' == Moved(m, c, m'.committers[c], ViewOf(m).(service := svc))
            && (acked ==> m'.committers[c].Applied?)
            && (!acked ==> m'.committers[c].Draining? || m'.committers[c].Posting?)
    decreases |fates|
  {
    if fates == [] {
      m' := m;
      assert m.committers == m.committers[c := m.committers[c]];
    } else if fates[0].Acked? && Resolvable(m.service, m.ledger.list) {
      m' := AckedRun(s, m, c, fates[0].keep);
    } else {
      var fate := if fates[0].Acked? then Refused else fates[0];
      UnackedRun(s, m, c, fate);
      UnackedStep(m.service, m.ledger.list, [fate] + fates[1..]);
      assert ([fate] + fates[1..])[1..] == fates[1..];
      var next := Moved(m, c, Posting, ViewOf(m).(service := PutLoop(m.service, m.ledger.list, [fate]).0));
      m' := PutRun(s, next, c, fates[1..]);
      assert next.committers[c := m'.committers[c]] == m.committers[c := m'.committers[c]];
    }
  }

  lemma AckedRun(s: State, m: State, c: nat, keep: set<nat>) returns (m': State)
    requires |m.committers| == 2 && c < 2 && Reaches(s, m) && Resolvable(m.service, m.ledger.list)
    requires m.committers[c].Posting? || (m.committers[c].Draining? && m.resps.items == [])
    ensures Reaches(s, m') && m' == Moved(m, c, Applied(m.ledger.list), ViewOf(m).(service := Put(m.service, m.ledger.list, keep)))
  {
    ReachesStep(s, m, c, Send);
    var sent := DoCommitter(m, c, Send);
    ReachesStep(s, sent, c, Apply(keep));
    m' := DoCommitter(sent, c, Apply(keep));
    assert m'.committers == m.committers[c := Applied(m.ledger.list)];
  }

  /**
   * Every outcome of `doCommit` is one the step system has: the function describes a run of the calling thread, which
   * has returned, or stands at the wait, at the exception, or before its next put.
   */
  lemma DoCommitIsARun(s: State, c: nat, fates: seq<Fate>) returns (s': State)
    requires |s.committers| == 2 && c < 2 && s.committers[c].Ready?
    requires c == FLUSHER ==> s.reqs.items == [] && StreamLen(s.producer.batch.stream) == 0
    ensures Reaches(s, s') && |s'.committers| == 2
    ensures var (v, r) := DoCommitSpec(ViewOf(s), |s.workers|, fates);
            && s' == Moved(s, c, s'.committers[c], v)
            && (r == NothingToDo ==> s' == s)
            && (r == NothingToDo || r == Committed <==> s'.committers[c].Ready?)
            && (r == WaitingForWorkers <==> s'.committers[c].Waiting?)
            && (r == ResponsesClosed <==> s'.committers[c].Crashed?)
            && (r == Retrying <==> s'.committers[c].Draining? || s'.committers[c].Posting?)
            && (r == Retrying ==> s'.resps.items == [])
            && (r == NothingToDo ==> !Enabled(s, ByCommitter(c, Begin)))
            && (r == WaitingForWorkers ==> !Enabled(s', ByCommitter(c, Pass)))
            && (r == ResponsesClosed ==> s.resps.closed && s.resps.items != [])
  {
    hide Reaches, FoldAll, PutLoop, MarkCommitted;
    ReachesItself(s);
    if NothingToCommit(s.ledger) {
      s' := s;
    } else {
      ReachesStep(s, s, c, Begin);
      var entered := DoCommitter(s, c, Begin);
      ReachesStep(s, entered, c, Shut);
      var shut := DoCommitter(entered, c, Shut);
      if s.gate.sem != |s.workers| {
        s' := shut;
      } else {
        ReachesStep(s, shut, c, Pass);
        var passed := DoCommitter(shut, c, Pass);
        if s.resps.closed && s.resps.items != [] {
          ReachesStep(s, passed, c, Crash);
          s' := DoCommitter(passed, c, Crash);
        } else {
          s' := DrainAndPut(s, passed, c, fates);
        }
      }
    }
    assert s'.committers == s.committers[c := s'.committers[c]];
  }

  lemma DrainAndPut(s: State, m: State, c: nat, fates: seq<Fate>) returns (s': State)
    requires |m.committers| == 2 && c < 2 && m.committers[c].Draining? && Reaches(s, m)
    requires m.resps.closed ==> m.resps.items == []
    ensures Reaches(s, s') && |s'.committers| == 2
    ensures var folded := FoldAll(m.ledger, m.resps.items);
            var (svc, acked) := PutLoop(m.service, folded.list, fates);
            && (acked ==> s' == Moved(m, c, Ready, CommitView(MarkCommitted(folded), m.resps.(items := []),
                                                              m.gate.(flushing := false), svc)))
            && (!acked ==> s' == Moved(m, c, s'.committers[c], CommitView(folded, m.resps.(items := []), m.gate, svc))
                           && (s'.committers[c].Draining? || s'.committers[c].Posting?))
  {
    hide Reaches, CommitBlock, PutLoop;
    var n := |m.resps.items|;
    DrainRun(s, m, c, n);
    assert m.resps.items[..n] == m.resps.items && m.resps.items[n..] == [];
    var drained := Moved(m, c, Draining, Folded(ViewOf(m), n));
    var put := PutRun(s, drained, c, fates);
    if put.committers[c].Applied? {
      ReachesStep(s, put, c, Ack);
      var acked := DoCommitter(put, c, Ack);
      ReachesStep(s, acked, c, Release);
      s' := DoCommitter(acked, c, Release);
      assert s'.committers == m.committers[c := Ready];
    } else {
      s' := put;
      assert s'.committers == m.committers[c := s'.committers[c]];
    }
  }

  /**
   * A put applied without a reply does no harm: sending the same list again is accepted, and leaves the blob
   * as the first one made it.
   */
  lemma RepeatedPutIsIdempotent(svc: Service, list: seq<Item>, keep: set<nat>, again: set<nat>)
    requires Resolvable(svc, list)
    requires forall i, j :: 0 <= i < j < |list| ==> list[i].id != list[j].id
    ensures Resolvable(Put(svc, list, keep), list)
    ensures Put(Put(svc, list, keep), list, again).blob == Put(svc, list, keep).blob
  {
    var once := Put(svc, list, keep);
    forall i | 0 <= i < |list| ensures InBlob(once.blob, list[i].id) && list[i].id !in once.staged {
      assert once.blob[i].id == list[i].id;
    }
    var twice := Put(once, list, again);
    forall i | 0 <= i < |list| ensures twice.blob[i] == once.blob[i] {
      BlobDataIsAnEntry(once.blob, list[i].id);
      var k :| 0 <= k < |once.blob| && once.blob[k] == Job(list[i].id, BlobData(once.blob, list[i].id));
      assert once.blob[k].id == list[k].id;
    }
  }
}
