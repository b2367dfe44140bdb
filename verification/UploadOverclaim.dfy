/** What two committing threads at once can do to each other: everything here is about any run, serialised or not. */
module UploadOverclaim {
  import opened Bytes
  import opened Ledgers
  import opened Batching
  import opened BlockingQueues
  import opened UploadProtocol
  import opened UploadInvariant

  /** `committedId` claims no more than the blob holds. */
  ghost predicate Backed(s: State) {
    s.ledger.committedId <= |s.service.blob|
  }

  /** The service accepts every entry marked `committed` exactly when `committedId` claims no more than it holds. */
  lemma MarksResolveIff(s: State)
    requires Inv(s)
    ensures (forall i :: 0 <= i < |s.ledger.list| && s.ledger.list[i].committed ==> Resolves(s.service, s.ledger.list[i]))
       <==> Backed(s)
  {
    var n := s.ledger.committedId;
    if !Backed(s) {
      assert s.ledger.list[n - 1] == Item(n, true);
      assert !Resolves(s.service, s.ledger.list[n - 1]);
    } else {
      forall i | 0 <= i < |s.ledger.list| && s.ledger.list[i].committed ensures Resolves(s.service, s.ledger.list[i]) {
        assert s.service.blob[i].id == i + 1;
      }
    }
  }

  /** A put is recorded while the blob holds the whole list, and takes effect with a list that reaches `committedId`. */
  ghost predicate InTurn(s: State, a: Action)
    requires Enabled(s, a)
  {
    a.ByCommitter? ==>
      && (a.commit.Ack? ==> |s.ledger.list| <= |s.service.blob|)
      && (a.commit.Apply? ==> s.ledger.committedId <= |s.committers[a.c].list|)
  }

  /** One step makes `committedId` overclaim exactly when it is such a record, or such a late put. */
  lemma StepBackedIff(s: State, a: Action)
    requires Inv(s) && Backed(s) && Enabled(s, a)
    ensures Backed(Do(s, a)) <==> InTurn(s, a)
  {
    match a
    case ByProducer(p) => ProducerFrame(s, p);
    case ByWorker(w, step) => WorkerFrame(s, w, step);
    case ByCommitter(c, step) =>
      CommitterFrame(s, c, step);
      if step.Fold? {
        FoldKeepsLedger(s, c);
      }
  }

  ghost predicate AlwaysBacked(s: State, run: seq<Action>) {
    && (run != [] ==> AlwaysBacked(s, run[..|run| - 1]))
    && (Exec(s, run).Some? ==> Backed(Exec(s, run).value))
  }

  ghost predicate AlwaysInTurn(s: State, run: seq<Action>) {
    run == [] ||
    (AlwaysInTurn(s, run[..|run| - 1]) &&
     (Exec(s, run).Some? ==> InTurn(Exec(s, run[..|run| - 1]).value, run[|run| - 1])))
  }

  /** `committedId` never overclaims in a run exactly when all its puts are recorded and take effect in turn. */
  lemma {:induction false} RunBackedIff(s: State, run: seq<Action>, s': State)
    requires Inv(s) && Backed(s) && Runs(s, run, s')
    ensures AlwaysBacked(s, run) <==> AlwaysInTurn(s, run)
  {
    if run != [] {
      var front := run[..|run| - 1];
      var m := Exec(s, front).value;
      RunBackedIff(s, front, m);
      RunsInv(s, front, m);
      if AlwaysBacked(s, front) {
        BackedAtEnd(s, front, m);
        StepBackedIff(m, run[|run| - 1]);
      }
    }
  }

  lemma BackedAtEnd(s: State, run: seq<Action>, s': State)
    requires AlwaysBacked(s, run) && Runs(s, run, s')
    ensures Backed(s')
  {
  }

  // ----- What the other thread does while a put is in flight -----

  /** Taken to its end, a put keeps `committedId` honest exactly when no block has joined the list since it was sent. */
  lemma CompletedPutIsBackedIff(s: State, c: nat, keep: set<nat>)
    requires Inv(s) && Enabled(s, ByCommitter(c, Apply(keep)))
    ensures var applied := Do(s, ByCommitter(c, Apply(keep)));
            && Enabled(applied, ByCommitter(c, Ack))
            && (Backed(Do(applied, ByCommitter(c, Ack))) <==> |s.committers[c].list| == |s.ledger.list|)
  {
    CommitterFrame(s, c, Apply(keep));
  }

  predicate InFlight(pc: Committer) {
    pc.Sent? || pc.Applied?
  }

  /** `commitBlock` lengthens the list only while no put is in flight. */
  ghost predicate Quiet(s: State, a: Action)
    requires Enabled(s, a)
  {
    a.ByCommitter? && a.commit.Fold? && |Do(s, a).ledger.list| > |s.ledger.list| ==>
      forall c :: 0 <= c < 2 ==> !InFlight(s.committers[c])
  }

  ghost predicate QuietRun(s: State, run: seq<Action>) {
    run == [] ||
    (QuietRun(s, run[..|run| - 1]) &&
     (Exec(s, run).Some? ==> Quiet(Exec(s, run[..|run| - 1]).value, run[|run| - 1])))
  }

  /** Every list in flight is as long as the block list. */
  ghost predicate Current(s: State) {
    && Backed(s) && |s.committers| == 2
    && (forall c :: 0 <= c < 2 && InFlight(s.committers[c]) ==> |s.committers[c].list| == |s.ledger.list|)
    && (forall c :: 0 <= c < 2 && s.committers[c].Applied? ==> |s.service.blob| == |s.ledger.list|)
  }

  lemma StepCurrent(s: State, a: Action)
    requires Inv(s) && Current(s) && Enabled(s, a) && Quiet(s, a)
    ensures Current(Do(s, a))
  {
    match a
    case ByProducer(p) => ProducerFrame(s, p);
    case ByWorker(w, step) => WorkerFrame(s, w, step);
    case ByCommitter(c, step) =>
      CommitterFrame(s, c, step);
      if step.Fold? {
        FoldKeepsLedger(s, c);
      }
  }

  /** However the threads interleave, `committedId` never overclaims if the list grows only while no put is in flight. */
  lemma {:induction false} QuietRunsAreBacked(s: State, run: seq<Action>, s': State)
    requires Inv(s) && Current(s) && Runs(s, run, s') && QuietRun(s, run)
    ensures Current(s') && AlwaysBacked(s, run)
  {
    if run != [] {
      var front := run[..|run| - 1];
      var m := Exec(s, front).value;
      QuietRunsAreBacked(s, front, m);
      RunsInv(s, front, m);
      StepCurrent(m, run[|run| - 1]);
    }
  }

  /** And a block that joins the list while an acceptable put is in flight leaves a run that overclaims two steps later. */
  lemma GrowthInFlightOverclaims(s: State, d: nat, c: nat, keep: set<nat>)
    requires Inv(s) && d < 2 && c < 2 && Enabled(s, ByCommitter(d, Fold)) && s.committers[c].Sent?
    requires Resolvable(s.service, s.committers[c].list) && !Quiet(s, ByCommitter(d, Fold))
    ensures var grown := Do(s, ByCommitter(d, Fold));
            && Enabled(grown, ByCommitter(c, Apply(keep)))
            && Enabled(Do(grown, ByCommitter(c, Apply(keep))), ByCommitter(c, Ack))
            && !Backed(Do(Do(grown, ByCommitter(c, Apply(keep))), ByCommitter(c, Ack)))
  {
    var grown := Do(s, ByCommitter(d, Fold));
    CommitterFrame(s, d, Fold);
    StepInv(s, ByCommitter(d, Fold));
    CompletedPutIsBackedIff(grown, c, keep);
  }

  /** A published block disappears exactly when a put takes effect whose list is shorter than the blob. */
  lemma StepKeepsBlobIff(s: State, a: Action)
    requires Inv(s) && Enabled(s, a)
    ensures s.service.blob <= Do(s, a).service.blob
       <==> (a.ByCommitter? && a.commit.Apply? ==> |s.service.blob| <= |s.committers[a.c].list|)
  {
    StepInv(s, a);
    StepCut(s, a);
    var s' := Do(s, a);
    match a
    case ByProducer(p) => ProducerFrame(s, p);
    case ByWorker(w, step) => WorkerFrame(s, w, step);
    case ByCommitter(c, step) => CommitterFrame(s, c, step);
    if |s.service.blob| <= |s'.service.blob| {
      SameBlocks(s, s');
    }
  }

  /** Block `n` is marked `committed` and not published, and no list on its way could publish it. */
  ghost predicate Overclaimed(s: State, n: nat) {
    && |s.committers| == 2
    && |s.service.blob| < n <= s.ledger.committedId
    && forall c :: 0 <= c < 2 && s.committers[c].Sent? && n <= |s.committers[c].list| ==> s.committers[c].list[n - 1].committed
  }

  lemma OverclaimedList(s: State, n: nat, list: seq<Item>)
    requires BlobInOrder(s) && |s.service.blob| < n <= |list| && list[n - 1] == Item(n, true)
    ensures !Resolvable(s.service, list)
  {
    assert !Resolves(s.service, list[n - 1]);
  }

  lemma OverclaimedStep(s: State, a: Action, n: nat)
    requires Inv(s) && Overclaimed(s, n) && Enabled(s, a)
    ensures Overclaimed(Do(s, a), n)
  {
    match a
    case ByProducer(p) => ProducerFrame(s, p);
    case ByWorker(w, step) => WorkerFrame(s, w, step);
    case ByCommitter(c, step) =>
      CommitterFrame(s, c, step);
      if step.Fold? {
        FoldKeepsLedger(s, c);
      }
      if step.Send? {
        assert s.ledger.list[n - 1] == Item(n, true);
      }
      if step.Apply? && n <= |s.committers[c].list| {
        OverclaimedList(s, n, s.committers[c].list);
      }
  }

  /** Once overclaimed, block `n` is never published, and the block list is never accepted again. */
  lemma {:induction false} OverclaimIsForever(s: State, run: seq<Action>, s': State, n: nat)
    requires Inv(s) && Overclaimed(s, n) && Runs(s, run, s')
    ensures Inv(s') && Overclaimed(s', n) && |s'.service.blob| < n
    ensures !Resolvable(s'.service, s'.ledger.list)
  {
    if run != [] {
      var m := Exec(s, run[..|run| - 1]).value;
      OverclaimIsForever(s, run[..|run| - 1], m, n);
      StepInv(m, run[|run| - 1]);
      OverclaimedStep(m, run[|run| - 1], n);
    }
    OverclaimedList(s', n, s'.ledger.list);
  }
}
