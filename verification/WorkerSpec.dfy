/** One turn of a worker's loop as a function, and as a run of the step system. */
module WorkerSpec {
  import opened Batching
  import opened Bytes
  import opened BlockingQueues
  import opened UploadProtocol
  import opened CommitSpec

  /** What becomes of one attempt to stage a block: acknowledged, stored without a reply, or refused. */
  datatype StageFate = StageAcked | StageUnacked | StageRefused

  /** The attempts of one job, one fate after the other, up to the first acknowledged one. */
  function StageLoop(staged: map<nat, seq<byte>>, job: Job, fates: seq<StageFate>): (map<nat, seq<byte>>, bool)
    decreases |fates|
  {
    if fates == [] then (staged, false)
    else if fates[0].StageRefused? then StageLoop(staged, job, fates[1..])
    else if fates[0].StageAcked? then (staged[job.id := job.data], true)
    else StageLoop(staged[job.id := job.data], job, fates[1..])
  }

  /** However often a block is retried, it ends up staged once, and no other block is touched. */
  lemma {:induction false} RetriesStageOnce(staged: map<nat, seq<byte>>, job: Job, fates: seq<StageFate>)
    ensures var (after, acked) := StageLoop(staged, job, fates);
            && (acked <==> StageAcked in fates)
            && (acked ==> after == staged[job.id := job.data])
            && (!acked ==> after == if StageUnacked in fates then staged[job.id := job.data] else staged)
    decreases |fates|
  {
    if fates != [] {
      assert fates == [fates[0]] + fates[1..];
      RetriesStageOnce(staged, job, fates[1..]);
      RetriesStageOnce(staged[job.id := job.data], job, fates[1..]);
    }
  }

  /**
   * `WaitingForJobs` is `pop` on an empty queue and `WaitingAtGate` is `enterJob` during a commit; `Retrying` is an
   * upload not acknowledged yet; `NoReceiver` is the exception of a `push` onto the closed response queue.
   */
  datatype JobResult = Exiting | WaitingForJobs | WaitingAtGate | Retrying | NoReceiver | Done

  /** What a worker reads and changes. */
  datatype JobView = JobView(reqs: Channel<Job>, gate: Gate, service: Service, resps: Channel<nat>)

  /** One turn of the loop in `run`, when no other thread moves meanwhile. */
  function DoJobSpec(v: JobView, fates: seq<StageFate>): (JobView, JobResult) {
    match PopOf(v.reqs)
    case (_, Closed) => (v, Exiting)
    case (_, Empty) => (v, WaitingForJobs)
    case (rest, Got(job)) =>
      if v.gate.flushing then (v.(reqs := rest), WaitingAtGate)
      else
        var (staged, acked) := StageLoop(v.service.staged, job, fates);
        var inside := v.(reqs := rest, gate := v.gate.(sem := v.gate.sem - 1), service := v.service.(staged := staged));
        if !acked then (inside, JobResult.Retrying)
        else if v.resps.closed then (inside, NoReceiver)
        else (inside.(gate := v.gate, resps := Pushed(v.resps, job.id).0), Done)
  }

  /** The outcome of a turn, each one exactly when its condition holds, and what each leaves behind. */
  lemma DoJobOutcome(v: JobView, fates: seq<StageFate>)
    ensures var (a, r) := DoJobSpec(v, fates);
            var has := !v.reqs.closed && v.reqs.items != [];
            && (r == Exiting <==> v.reqs.closed)
            && (r == WaitingForJobs <==> !v.reqs.closed && v.reqs.items == [])
            && (r == WaitingAtGate <==> has && v.gate.flushing)
            && (r == JobResult.Retrying <==> has && !v.gate.flushing && StageAcked !in fates)
            && (r == NoReceiver <==> has && !v.gate.flushing && StageAcked in fates && v.resps.closed)
            && (r == Done <==> has && !v.gate.flushing && StageAcked in fates && !v.resps.closed)
            && (r == Exiting || r == WaitingForJobs ==> a == v)
            && (has ==> a.reqs == Channel(v.reqs.items[1..], false) && a.service.blob == v.service.blob)
            && (r == WaitingAtGate ==> a.gate == v.gate && a.service == v.service && a.resps == v.resps)
            && (r == JobResult.Retrying || r == NoReceiver ==>
                a.gate == Gate(v.gate.sem - 1, false) && a.resps == v.resps)
            && (r == NoReceiver || r == Done ==>
                a.service.staged == v.service.staged[v.reqs.items[0].id := v.reqs.items[0].data])
            && (r == Done ==>
                a.gate == Gate(v.gate.sem, false) && a.resps == Channel(v.resps.items + [v.reqs.items[0].id], false))
  {
    if v.reqs.items != [] {
      RetriesStageOnce(v.service.staged, v.reqs.items[0], fates);
    }
  }

  function JobViewOf(s: State): JobView {
    JobView(s.reqs, s.gate, s.service, s.resps)
  }

  /** The state with worker `w` at `at` and the given view; no other thread has moved. */
  function Turned(s: State, w: nat, at: Worker, v: JobView): State
    requires w < |s.workers|
  {
    s.(workers := s.workers[w := at], reqs := v.reqs, gate := v.gate, service := v.service, resps := v.resps)
  }

  lemma WorkerReaches(s: State, m: State, w: nat, step: WorkerStep)
    requires Reaches(s, m) && Enabled(m, ByWorker(w, step))
    ensures Reaches(s, DoWorker(m, w, step))
  {
    var run :| Runs(s, run, m);
    RunsSnoc(s, run, m, ByWorker(w, step));
  }

  lemma {:induction false} StageRun(s: State, m: State, w: nat, fates: seq<StageFate>) returns (m': State)
    requires |m.committers| == 2 && w < |m.workers| && m.workers[w].Inside? && Reaches(s, m)
    ensures Reaches(s, m')
    ensures var job := m.workers[w].job;
            var (staged, acked) := StageLoop(m.service.staged, job, fates);
            m' == Turned(m, w, if acked then Staged(job) else Inside(job),
                         JobViewOf(m).(service := m.service.(staged := staged)))
    decreases |fates|
  {
    var job := m.workers[w].job;
    if fates == [] {
      m' := m;
      assert m.workers == m.workers[w := Inside(job)];
    } else if fates[0].StageRefused? {
      m' := StageRun(s, m, w, fates[1..]);
    } else {
      var acked := fates[0].StageAcked?;
      WorkerReaches(s, m, w, Stage(acked));
      m' := DoWorker(m, w, Stage(acked));
      if !acked {
        assert m.workers[w := Inside(job)] == m.workers;
        m' := StageRun(s, m', w, fates[1..]);
      }
    }
  }

  /** Every outcome of a turn is one the step system has: the function describes a run of that worker alone. */
  lemma DoJobIsARun(s: State, w: nat, fates: seq<StageFate>) returns (s': State)
    requires |s.committers| == 2 && w < |s.workers| && s.workers[w].Idle?
    ensures Reaches(s, s') && |s'.workers| == |s.workers|
    ensures var (v, r) := DoJobSpec(JobViewOf(s), fates);
            && s' == Turned(s, w, s'.workers[w], v)
            && (r == Exiting <==> s'.workers[w].Exited?)
            && (r == WaitingForJobs || r == Done <==> s'.workers[w].Idle?)
            && (r == WaitingAtGate <==> s'.workers[w].Popped?)
            && (r == JobResult.Retrying <==> s'.workers[w].Inside?)
            && (r == NoReceiver <==> s'.workers[w].Staged?)
  {
    ReachesItself(s);
    s' := s;
    match PopOf(s.reqs)
    case (_, Closed) =>
      WorkerReaches(s, s, w, Exit);
      s' := DoWorker(s, w, Exit);
    case (_, Empty) =>
      assert s.workers == s.workers[w := Idle];
    case (rest, Got(job)) =>
      WorkerReaches(s, s, w, WorkerStep.Pop);
      var popped := DoWorker(s, w, WorkerStep.Pop);
      if s.gate.flushing {
        s' := popped;
      } else {
        s' := EnteredJob(s, popped, w, job, fates);
        assert s'.workers == s.workers[w := s'.workers[w]];
      }
  }

  /** The rest of the turn once the gate is open. */
  lemma EnteredJob(s: State, m: State, w: nat, job: Job, fates: seq<StageFate>) returns (s': State)
    requires |m.committers| == 2 && w < |m.workers| && m.workers[w] == Popped(job) && !m.gate.flushing && Reaches(s, m)
    ensures Reaches(s, s') && |s'.workers| == |m.workers|
    ensures var (staged, acked) := StageLoop(m.service.staged, job, fates);
            var v := JobViewOf(m).(service := m.service.(staged := staged));
            if acked && !m.resps.closed then
              s' == Turned(m, w, Idle, v.(resps := Pushed(m.resps, job.id).0))
            else
              s' == Turned(m, w, if acked then Staged(job) else Inside(job), v.(gate := m.gate.(sem := m.gate.sem - 1)))
  {
    WorkerReaches(s, m, w, Enter);
    var inside := DoWorker(m, w, Enter);
    var staged := StageRun(s, inside, w, fates);
    s' := staged;
    if staged.workers[w].Staged? && !m.resps.closed {
      WorkerReaches(s, staged, w, Respond);
      var replied := DoWorker(staged, w, Respond);
      WorkerReaches(s, replied, w, Leave);
      s' := DoWorker(replied, w, Leave);
      assert s'.workers == m.workers[w := Idle];
      assert s'.gate == m.gate;
    } else {
      assert s'.workers == m.workers[w := s'.workers[w]];
    }
  }
}
