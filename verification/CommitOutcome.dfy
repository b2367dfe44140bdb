/** How far one call of `doCommit` goes, and what it leaves behind, in terms of what it finds. */
module CommitOutcome {
  import opened Ledgers
  import opened Batching
  import opened Bytes
  import opened BlockingQueues
  import opened UploadProtocol
  import opened UploadInvariant
  import opened CommitSpec

  predicate SomeAcked(fates: seq<Fate>) {
    exists k :: 0 <= k < |fates| && fates[k].Acked?
  }

  ghost predicate DistinctIds(list: seq<Item>) {
    forall i, j :: 0 <= i < j < |list| ==> list[i].id != list[j].id
  }

  lemma StaysResolvable(svc: Service, list: seq<Item>, keep: set<nat>)
    requires Resolvable(svc, list)
    ensures Resolvable(Put(svc, list, keep), list)
  {
    var once := Put(svc, list, keep);
    forall i | 0 <= i < |list| ensures Resolves(once, list[i]) {
      assert once.blob[i].id == list[i].id;
    }
  }

  lemma SomeAckedRest(fates: seq<Fate>)
    requires fates != [] && !fates[0].Acked?
    ensures SomeAcked(fates) <==> SomeAcked(fates[1..])
  {
    if SomeAcked(fates) {
      var k :| 0 <= k < |fates| && fates[k].Acked?;
      assert fates[1..][k - 1].Acked?;
    }
    if SomeAcked(fates[1..]) {
      var k :| 0 <= k < |fates[1..]| && fates[1..][k].Acked?;
      assert fates[k + 1].Acked?;
    }
  }

  /** The retry loop ends exactly when the list resolves and some put is acknowledged; refused puts change nothing. */
  lemma {:induction false} PutLoopAckedIff(svc: Service, list: seq<Item>, fates: seq<Fate>)
    ensures PutLoop(svc, list, fates).1 <==> Resolvable(svc, list) && SomeAcked(fates)
    ensures !Resolvable(svc, list) || (forall k :: 0 <= k < |fates| ==> fates[k].Refused?) ==>
      PutLoop(svc, list, fates) == (svc, false)
    decreases |fates|
  {
    if fates != [] {
      if fates[0].Refused? || !Resolvable(svc, list) {
        PutLoopAckedIff(svc, list, fates[1..]);
        if fates[0].Refused? {
          SomeAckedRest(fates);
        }
      } else if fates[0].Unacked? {
        StaysResolvable(svc, list, fates[0].keep);
        PutLoopAckedIff(Put(svc, list, fates[0].keep), list, fates[1..]);
        SomeAckedRest(fates);
      }
    }
  }

  /** Each listed block, in the order of the list, with the content the service has for it. */
  ghost predicate Publishes(svc: Service, list: seq<Item>, blob: seq<Job>)
    requires Resolvable(svc, list)
  {
    && |blob| == |list|
    && forall i :: 0 <= i < |list| ==> blob[i] == Job(list[i].id, Resolve(svc, list[i]))
  }

  predicate SomeApplied(fates: seq<Fate>) {
    exists k :: 0 <= k < |fates| && !fates[k].Refused?
  }

  lemma SomeAppliedRest(fates: seq<Fate>)
    requires fates != [] && fates[0].Refused? && SomeApplied(fates)
    ensures SomeApplied(fates[1..])
  {
    var k :| 0 <= k < |fates| && !fates[k].Refused?;
    assert !fates[1..][k - 1].Refused?;
  }

  /** Once a put has been applied, acknowledged or not, the blob is the listed blocks, however often the list is put. */
  lemma {:induction false} PutLoopPublishes(svc: Service, list: seq<Item>, fates: seq<Fate>)
    requires Resolvable(svc, list) && DistinctIds(list) && SomeApplied(fates)
    ensures Publishes(svc, list, PutLoop(svc, list, fates).0.blob)
    decreases |fates|
  {
    if fates[0].Refused? {
      SomeAppliedRest(fates);
      PutLoopPublishes(svc, list, fates[1..]);
    } else if fates[0].Unacked? {
      var once := Put(svc, list, fates[0].keep);
      RepeatedPutIsIdempotent(svc, list, fates[0].keep, {});
      if SomeApplied(fates[1..]) {
        PutLoopPublishes(once, list, fates[1..]);
        SameContent(svc, once, list, fates[0].keep, PutLoop(once, list, fates[1..]).0.blob);
      } else {
        assert forall k :: 0 <= k < |fates[1..]| ==> fates[1..][k].Refused?;
        PutLoopAckedIff(once, list, fates[1..]);
      }
    }
  }

  lemma SameContent(svc: Service, once: Service, list: seq<Item>, keep: set<nat>, blob: seq<Job>)
    requires Resolvable(svc, list) && DistinctIds(list)
    requires once == Put(svc, list, keep) && Resolvable(once, list) && Publishes(once, list, blob)
    ensures Publishes(svc, list, blob)
  {
    RepeatedPutIsIdempotent(svc, list, keep, {});
    forall i | 0 <= i < |list| ensures blob[i] == Job(list[i].id, Resolve(svc, list[i])) {
      assert Put(once, list, {}).blob[i] == once.blob[i];
    }
  }

  /** Fresh responses, one after the other: exactly they are received besides, and `next` is the least id missing. */
  lemma {:induction false} FoldAllReceives(l: Ledger, ids: seq<nat>)
    requires WellFormed(l) && Distinct(ids) && 0 !in ids
    requires forall x :: l.pending[x] <= 1
    requires forall x :: x in ids ==> !Received(l, x)
    ensures var r := FoldAll(l, ids);
            && WellFormed(r) && r.committedId == l.committedId && l.list <= r.list
            && (forall x :: r.pending[x] <= 1)
            && (forall x :: Received(r, x) <==> Received(l, x) || x in ids)
            && !Received(r, r.next)
  {
    if ids != [] {
      var front, last := ids[..|ids| - 1], ids[|ids| - 1];
      assert ids == front + [last];
      FoldAllReceives(l, front);
      CommitBlockIsMex(FoldAll(l, front), last);
    }
  }

  /** The outcome of `doCommit`, each one exactly when its condition holds, and what each leaves behind. */
  lemma DoCommitOutcome(v: CommitView, workerCount: nat, fates: seq<Fate>)
    ensures var (a, r) := DoCommitSpec(v, workerCount, fates);
            var idle := v.ledger.next == v.ledger.committedId + 1;
            var passes := !idle && v.gate.sem == workerCount;
            var throws := v.resps.closed && v.resps.items != [];
            var folded := FoldAll(v.ledger, v.resps.items);
            var ends := Resolvable(v.service, folded.list) && SomeAcked(fates);
            && (r == NothingToDo <==> idle)
            && (r == WaitingForWorkers <==> !idle && v.gate.sem != workerCount)
            && (r == ResponsesClosed <==> passes && throws)
            && (r == Retrying <==> passes && !throws && !ends)
            && (r == Committed <==> passes && !throws && ends)
            && (r == NothingToDo ==> a == v)
            && (r == WaitingForWorkers || r == ResponsesClosed ==> a == v.(gate := Gate(v.gate.sem, true)))
            && (r == Retrying ==> a.ledger == folded && a.gate == Gate(v.gate.sem, true))
            && (r == Committed ==> a.gate == Gate(v.gate.sem, false))
            && (r == Committed ==>
                a.ledger == Ledger(folded.pending, folded.next, folded.next - 1, Marked(folded.list)))
            && (r == Retrying || r == Committed ==> a.resps == Channel([], v.resps.closed))
  {
    PutLoopAckedIff(v.service, FoldAll(v.ledger, v.resps.items).list, fates);
  }

  /** In any run, the responses queued are distinct, and new to the ledger. */
  lemma ResponsesAreFresh(s: State)
    requires Inv(s)
    ensures Distinct(s.resps.items) && 0 !in s.resps.items
    ensures forall x :: s.ledger.pending[x] <= 1
    ensures forall x :: x in s.resps.items ==> !Received(s.ledger, x)
  {
    forall x: nat ensures CountOf(s.resps.items, x) <= 1 && s.ledger.pending[x] <= 1
                       && (x in s.resps.items ==> x != 0 && !Received(s.ledger, x)) {
      OneResponse(s, x);
    }
    assert forall x :: multiset(s.resps.items)[x] == CountOf(s.resps.items, x);
    OnceEachIsDistinct(s.resps.items);
  }

  function CountOf(ids: seq<nat>, x: nat): nat {
    multiset(ids)[x]
  }

  lemma OneResponse(s: State, x: nat)
    requires Inv(s)
    ensures CountOf(s.resps.items, x) <= 1 && s.ledger.pending[x] <= 1
    ensures x in s.resps.items ==> x != 0 && !Received(s.ledger, x)
  {
    assert Places(s, x) == One(1 <= x < First(s));
    assert x in s.resps.items <==> x in multiset(s.resps.items);
  }

  /**
   * `doCommit` does its work: from any state of any run, with something uncommitted, every worker outside, the response
   * queue open, and a service that has what will be listed and acknowledges a put, the call commits. Every queued response
   * has been taken in, the blob is blocks 1 to `committedId`, which are all before the least id missing, and the gate is
   * open again.
   */
  lemma DoCommitPublishes(s: State, fates: seq<Fate>)
    requires Inv(s) && s.ledger.next > s.ledger.committedId + 1 && s.gate.sem == |s.workers|
    requires !s.resps.closed && SomeAcked(fates)
    requires Resolvable(s.service, FoldAll(s.ledger, s.resps.items).list)
    ensures var (a, r) := DoCommitSpec(ViewOf(s), |s.workers|, fates);
            && r == Committed && a.resps == Channel([], false) && a.gate == Gate(|s.workers|, false)
            && Publishes(s.service, FoldAll(s.ledger, s.resps.items).list, a.service.blob)
            && |a.service.blob| == a.ledger.committedId == a.ledger.next - 1
            && (forall i :: 0 <= i < |a.service.blob| ==> a.service.blob[i].id == i + 1)
            && (forall x :: Received(a.ledger, x) <==> Received(s.ledger, x) || x in s.resps.items)
            && !Received(a.ledger, a.ledger.next)
  {
    ResponsesAreFresh(s);
    FoldAllReceives(s.ledger, s.resps.items);
    var folded := FoldAll(s.ledger, s.resps.items);
    DoCommitOutcome(ViewOf(s), |s.workers|, fates);
    assert SomeApplied(fates) by {
      var k :| 0 <= k < |fates| && fates[k].Acked?;
      assert !fates[k].Refused?;
    }
    PutLoopPublishes(s.service, folded.list, fates);
    var a := DoCommitSpec(ViewOf(s), |s.workers|, fates).0;
    forall x ensures Received(a.ledger, x) <==> Received(folded, x) {
    }
  }
}
