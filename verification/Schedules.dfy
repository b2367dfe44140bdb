/**
 * When a read can be cut short: the turns of `read` and the steps of the workers, interleaved as the completion lock lets
 * them. The reader holds the lock except while it waits, so a response arrives only while no front is due, or after the
 * front has become due and before the reader has the lock back.
 */
module Schedules {
  import opened Prefetch

  /** The requests of a pool; since requests are cut alike, the front of the window is one that starts first. */
  datatype Stock = Stock(queued: seq<Req>, inflight: seq<Req>, window: multiset<Req>) {
    function Outstanding(): multiset<Req> {
      multiset(queued) + multiset(inflight)
    }

    function All(): multiset<Req> {
      Outstanding() + window
    }
  }

  function StockOf(p: Pool): Stock {
    Stock(p.queued, p.inflight, multiset(Reqs(p.window)))
  }

  function Started(s: Stock): Stock
    requires s.queued != []
  {
    s.(queued := s.queued[1..], inflight := s.inflight + [s.queued[0]])
  }

  function Finished(s: Stock, i: nat): Stock
    requires i < |s.inflight|
  {
    s.(inflight := Without(s.inflight, i), window := s.window + multiset{s.inflight[i]})
  }

  /** A free worker takes the oldest request, or any download completes. */
  ghost predicate WorkerMove(workers: nat, s: Stock, s': Stock) {
    || (s.queued != [] && |s.inflight| < workers && s' == Started(s))
    || (exists i :: 0 <= i < |s.inflight| && s' == Finished(s, i))
  }

  ghost predicate ReachIn(workers: nat, s: Stock, s': Stock, n: nat)
    decreases n
  {
    if n == 0 then s == s' else exists m :: WorkerMove(workers, s, m) && ReachIn(workers, m, s', n - 1)
  }

  /** The workers can get from the one to the other by themselves. */
  ghost predicate Reach(workers: nat, s: Stock, s': Stock) {
    exists n: nat :: ReachIn(workers, s, s', n)
  }

  ghost predicate Due(window: multiset<Req>, cursor: nat) {
    exists b :: b in window && b.off <= cursor
  }

  ghost predicate IsFront(window: multiset<Req>, b: Req) {
    b in window && forall x :: x in window ==> b.off <= x.off
  }

  /** The wait is over at once if the front is due, and otherwise after the workers have moved. */
  ghost predicate Waits(workers: nat, s: Stock, cursor: nat, w: Stock) {
    if Due(s.window, cursor) then w == s else Reach(workers, s, w) && Due(w.window, cursor)
  }

  /** The front is used up to its end, and leaves, or up to the target. */
  function Consumed(w: Stock, front: Req, target: nat): (Stock, nat) {
    if front.End() <= target then (w.(window := w.window - multiset{front}), front.End()) else (w, target)
  }

  ghost predicate Turn(workers: nat, s: Stock, cursor: nat, target: nat, s': Stock, cursor': nat) {
    cursor < target &&
    exists w, f :: Waits(workers, s, cursor, w) && IsFront(w.window, f) && f.off <= cursor <= f.End()
                && (s', cursor') == Consumed(w, f, target)
  }

  /** The next turn of the read can be its last, below the target. */
  ghost predicate GivesUp(workers: nat, s: Stock, cursor: nat, target: nat) {
    cursor < target && exists w, f :: Waits(workers, s, cursor, w) && IsFront(w.window, f) && Stale(f, cursor)
  }

  ghost predicate ShortIn(workers: nat, s: Stock, cursor: nat, target: nat, end: nat, n: nat)
    decreases n, 0
  {
    || (cursor == end && GivesUp(workers, s, cursor, target))
    || (n > 0 && TurnThenShortIn(workers, s, cursor, target, end, n - 1))
  }

  ghost predicate TurnThenShortIn(workers: nat, s: Stock, cursor: nat, target: nat, end: nat, n: nat)
    decreases n, 1
  {
    exists s', cursor' :: Turn(workers, s, cursor, target, s', cursor') && ShortIn(workers, s', cursor', target, end, n)
  }

  /** A read from `cursor` to `target` can be cut short at `end`. */
  ghost predicate ShortAt(workers: nat, s: Stock, cursor: nat, target: nat, end: nat) {
    exists n: nat :: ShortIn(workers, s, cursor, target, end, n)
  }

  ghost predicate CanBeShort(workers: nat, s: Stock, cursor: nat, target: nat) {
    exists end :: ShortAt(workers, s, cursor, target, end)
  }

  // ----- The workers -----

  lemma ReachSelf(workers: nat, s: Stock)
    ensures Reach(workers, s, s)
  {
    assert ReachIn(workers, s, s, 0);
  }

  lemma ReachAfter(workers: nat, s: Stock, m: Stock, s': Stock)
    requires WorkerMove(workers, s, m) && Reach(workers, m, s')
    ensures Reach(workers, s, s')
  {
    var n: nat :| ReachIn(workers, m, s', n);
    assert ReachIn(workers, s, s', n + 1);
  }

  lemma ReachMove(workers: nat, s: Stock, s': Stock)
    requires WorkerMove(workers, s, s')
    ensures Reach(workers, s, s')
  {
    ReachSelf(workers, s');
    ReachAfter(workers, s, s', s');
  }

  lemma {:induction false} ReachJoinIn(workers: nat, s: Stock, m: Stock, s': Stock, n: nat)
    requires ReachIn(workers, s, m, n) && Reach(workers, m, s')
    ensures Reach(workers, s, s')
    decreases n
  {
    if n > 0 {
      var k :| WorkerMove(workers, s, k) && ReachIn(workers, k, m, n - 1);
      ReachJoinIn(workers, k, m, s', n - 1);
      ReachAfter(workers, s, k, s');
    }
  }

  lemma ReachJoin(workers: nat, s: Stock, m: Stock, s': Stock)
    requires Reach(workers, s, m) && Reach(workers, m, s')
    ensures Reach(workers, s, s')
  {
    var n: nat :| ReachIn(workers, s, m, n);
    ReachJoinIn(workers, s, m, s', n);
  }

  lemma StartedKeeps(s: Stock)
    requires s.queued != []
    ensures Started(s).All() == s.All()
  {
    var r := s.queued[0];
    assert s.queued == [r] + s.queued[1..];
    assert multiset(s.queued) == multiset{r} + multiset(s.queued[1..]);
    assert multiset(s.inflight + [r]) == multiset(s.inflight) + multiset{r};
  }

  lemma FinishedKeeps(s: Stock, i: nat)
    requires i < |s.inflight|
    ensures Finished(s, i).All() == s.All()
    ensures Finished(s, i).window - s.window == multiset{s.inflight[i]}
  {
    var r := s.inflight[i];
    assert r in multiset(s.inflight);
    assert multiset(s.inflight) == multiset(Without(s.inflight, i)) + multiset{r};
  }

  lemma MoveKeeps(workers: nat, s: Stock, s': Stock)
    requires WorkerMove(workers, s, s')
    ensures s'.All() == s.All() && s.window <= s'.window
  {
    if s.queued != [] && s' == Started(s) {
      StartedKeeps(s);
    } else {
      var i :| 0 <= i < |s.inflight| && s' == Finished(s, i);
      FinishedKeeps(s, i);
    }
  }

  /** What the workers do does not depend on the window. */
  lemma MoveBeside(workers: nat, s: Stock, s': Stock, window: multiset<Req>)
    requires WorkerMove(workers, s, s')
    ensures WorkerMove(workers, s.(window := window), s'.(window := window + (s'.window - s.window)))
  {
    var t, t' := s.(window := window), s'.(window := window + (s'.window - s.window));
    if s.queued != [] && |s.inflight| < workers && s' == Started(s) {
      assert t' == Started(t);
    } else {
      var i :| 0 <= i < |s.inflight| && s' == Finished(s, i);
      FinishedKeeps(s, i);
      assert t' == Finished(t, i);
    }
  }

  lemma GrowthAdds(window: multiset<Req>, a: multiset<Req>, b: multiset<Req>, c: multiset<Req>)
    requires a <= b <= c
    ensures (window + (b - a)) + (c - b) == window + (c - a)
  {
  }

  lemma {:induction false} ReachKeepsIn(workers: nat, s: Stock, s': Stock, n: nat, window: multiset<Req>)
    requires ReachIn(workers, s, s', n)
    ensures s'.All() == s.All() && s.window <= s'.window
    ensures Reach(workers, s.(window := window), s'.(window := window + (s'.window - s.window)))
    decreases n
  {
    var t, t' := s.(window := window), s'.(window := window + (s'.window - s.window));
    if n == 0 {
      assert t == t';
      ReachSelf(workers, t);
    } else {
      var m :| WorkerMove(workers, s, m) && ReachIn(workers, m, s', n - 1);
      MoveKeeps(workers, s, m);
      MoveBeside(workers, s, m, window);
      var grown := window + (m.window - s.window);
      ReachKeepsIn(workers, m, s', n - 1, grown);
      GrowthAdds(window, s.window, m.window, s'.window);
      ReachAfter(workers, t, m.(window := grown), t');
    }
  }

  /** Workers neither lose nor invent a block, and would do the same beside any other window. */
  lemma ReachKeeps(workers: nat, s: Stock, s': Stock, window: multiset<Req>)
    requires Reach(workers, s, s')
    ensures s'.All() == s.All() && s.window <= s'.window
    ensures Reach(workers, s.(window := window), s'.(window := window + (s'.window - s.window)))
  {
    var n: nat :| ReachIn(workers, s, s', n);
    ReachKeepsIn(workers, s, s', n, window);
  }

  lemma ReachOnce(workers: nat, s: Stock, m: Stock, s': Stock)
    requires Reach(workers, s, m) && WorkerMove(workers, m, s')
    ensures Reach(workers, s, s')
  {
    ReachMove(workers, m, s');
    ReachJoin(workers, s, m, s');
  }

  /** The workers can finish everything before the reader has the lock back. */
  lemma {:induction false} FinishAll(workers: nat, s: Stock) returns (s': Stock)
    requires workers >= 1
    ensures Reach(workers, s, s') && s'.queued == [] && s'.inflight == []
    decreases 2 * |s.queued| + |s.inflight|
  {
    if s.inflight != [] {
      var m := Finished(s, 0);
      assert WorkerMove(workers, s, m);
      s' := FinishAll(workers, m);
      ReachAfter(workers, s, m, s');
    } else if s.queued != [] {
      var m := Started(s);
      assert WorkerMove(workers, s, m);
      s' := FinishAll(workers, m);
      ReachAfter(workers, s, m, s');
    } else {
      s' := s;
      ReachSelf(workers, s);
    }
  }

  // ----- The reader -----

  lemma {:induction false} FrontExists(window: multiset<Req>) returns (f: Req)
    requires window != multiset{}
    ensures IsFront(window, f)
    decreases |window|
  {
    f :| f in window;
    var rest := window - multiset{f};
    if rest == multiset{} {
      assert forall x :: x in window ==> x == f || x in rest;
    } else {
      var g := FrontExists(rest);
      forall x | x in window ensures x == f || g.off <= x.off {
        if x != f {
          assert x in rest;
        }
      }
      if g.off < f.off {
        f := g;
      }
    }
  }

  /** Requests cut alike end in the order in which they start. */
  lemma AlikeOrder(a: Req, b: Req, blockSize: nat, blobSize: nat)
    requires CutTo(blockSize, blobSize, a) && CutTo(blockSize, blobSize, b)
    ensures a.off <= b.off ==> a.End() <= b.End()
  {
  }

  /** Where a stale block has arrived, the front is stale. */
  lemma FrontOfStale(window: multiset<Req>, cursor: nat, blockSize: nat, blobSize: nat) returns (f: Req)
    requires Alike(window, blockSize, blobSize) && SomeStale(window, cursor)
    ensures IsFront(window, f) && Stale(f, cursor) && Due(window, cursor)
  {
    var b :| b in window && Stale(b, cursor);
    f := FrontExists(window);
    AlikeOrder(f, b, blockSize, blobSize);
  }

  lemma StaleNow(workers: nat, s: Stock, cursor: nat, target: nat, w: Stock, blockSize: nat, blobSize: nat)
    requires cursor < target && Alike(w.window, blockSize, blobSize) && SomeStale(w.window, cursor)
    requires w == s || (!Due(s.window, cursor) && Reach(workers, s, w))
    ensures ShortAt(workers, s, cursor, target, cursor)
  {
    var f := FrontOfStale(w.window, cursor, blockSize, blobSize);
    assert Waits(workers, s, cursor, w);
    assert GivesUp(workers, s, cursor, target);
    assert ShortIn(workers, s, cursor, target, cursor, 0);
  }

  /** A reader that waits can be overtaken by any request still outstanding that ends before the cursor. */
  lemma StaleLater(workers: nat, s: Stock, cursor: nat, target: nat, q: Stock, r: Req, blockSize: nat, blobSize: nat)
    requires workers >= 1 && cursor < target && !Due(s.window, cursor) && Alike(s.All(), blockSize, blobSize)
    requires Reach(workers, s, q) && r in q.Outstanding() && Stale(r, cursor)
    ensures ShortAt(workers, s, cursor, target, cursor)
  {
    var z := FinishAll(workers, q);
    ReachJoin(workers, s, q, z);
    ReachKeeps(workers, s, z, multiset{});
    ReachKeeps(workers, q, z, multiset{});
    assert r in q.All();
    assert r in z.window;
    assert forall b :: b in z.window ==> b in z.All();
    StaleNow(workers, s, cursor, target, z, blockSize, blobSize);
  }

  lemma TurnThenShort(workers: nat, s: Stock, cursor: nat, target: nat, s': Stock, cursor': nat, end: nat)
    requires Turn(workers, s, cursor, target, s', cursor') && ShortAt(workers, s', cursor', target, end)
    ensures ShortAt(workers, s, cursor, target, end)
  {
    var n: nat :| ShortIn(workers, s', cursor', target, end, n);
    assert TurnThenShortIn(workers, s, cursor, target, end, n);
    assert ShortIn(workers, s, cursor, target, end, n + 1);
  }

  /** Whatever cuts the read short from `m` on cuts it short from `s` on. */
  ghost predicate ShortCarries(workers: nat, m: Stock, at: nat, s: Stock, cursor: nat, target: nat) {
    forall end :: ShortAt(workers, m, at, target, end) ==> ShortAt(workers, s, cursor, target, end)
  }

  lemma GivesUpCarried(workers: nat, m: Stock, at: nat, s: Stock, cursor: nat, target: nat)
    requires ShortCarries(workers, m, at, s, cursor, target) && GivesUp(workers, m, at, target)
    ensures ShortAt(workers, s, cursor, target, at)
  {
    assert ShortIn(workers, m, at, target, at, 0);
  }

  lemma TurnCarries(workers: nat, m: Stock, at: nat, m': Stock, at': nat, s: Stock, cursor: nat, target: nat)
    requires ShortCarries(workers, m, at, s, cursor, target) && Turn(workers, m, at, target, m', at')
    ensures ShortCarries(workers, m', at', s, cursor, target)
  {
    forall end | ShortAt(workers, m', at', target, end) ensures ShortAt(workers, s, cursor, target, end) {
      TurnThenShort(workers, m, at, target, m', at', end);
    }
  }

  /** A wait for a due front may be taken together with the turn that follows. */
  lemma WaitThenShort(workers: nat, s: Stock, cursor: nat, target: nat, q: Stock, end: nat)
    requires !Due(s.window, cursor) && Reach(workers, s, q) && Due(q.window, cursor)
    requires ShortAt(workers, q, cursor, target, end)
    ensures ShortAt(workers, s, cursor, target, end)
  {
    var n: nat :| ShortIn(workers, q, cursor, target, end, n);
    if cursor == end && GivesUp(workers, q, cursor, target) {
      assert Waits(workers, s, cursor, q);
      assert GivesUp(workers, s, cursor, target);
      assert ShortIn(workers, s, cursor, target, end, 0);
    } else {
      assert TurnThenShortIn(workers, q, cursor, target, end, n - 1);
      var s', cursor': nat :| Turn(workers, q, cursor, target, s', cursor') && ShortIn(workers, s', cursor', target, end, n - 1);
      assert Waits(workers, s, cursor, q);
      assert Turn(workers, s, cursor, target, s', cursor');
      assert TurnThenShortIn(workers, s, cursor, target, end, n - 1);
      assert ShortIn(workers, s, cursor, target, end, n);
    }
  }

  /** The front is used up: nothing becomes stale, and what it did not cover is covered as before. */
  lemma UseFront(workers: nat, s: Stock, cursor: nat, target: nat, stop: nat, blockSize: nat, blobSize: nat) returns (f: Req)
    requires Alike(s.window, blockSize, blobSize) && !SomeStale(s.window, cursor) && Due(s.window, cursor)
    requires cursor <= stop < target && !IsCovered(s.window, stop)
    ensures f in s.window && cursor <= f.End() <= stop
    ensures var m := s.(window := s.window - multiset{f});
            && Turn(workers, s, cursor, target, m, f.End()) && !SomeStale(m.window, f.End())
            && (forall y :: y >= f.End() && IsCovered(s.window, y) ==> IsCovered(m.window, y))
  {
    f := FrontExists(s.window);
    var m := s.(window := s.window - multiset{f});
    assert f.End() <= stop by {
      assert !Covers(f, stop);
    }
    assert Waits(workers, s, cursor, s);
    assert (m, f.End()) == Consumed(s, f, target);
    forall b | b in m.window ensures !Stale(b, f.End()) {
      AlikeOrder(f, b, blockSize, blobSize);
    }
    forall y | y >= f.End() && IsCovered(s.window, y) ensures IsCovered(m.window, y) {
      var b :| b in s.window && Covers(b, y);
      assert b in m.window;
    }
  }

  /**
   * The reader consumes what is due until it has to wait: before `stop`, if the window does not cover `stop`; and exactly
   * where the window first fails to cover.
   */
  lemma {:induction false} ReadOn(
      workers: nat, s: Stock, cursor: nat, target: nat, stop: nat, blockSize: nat, blobSize: nat)
      returns (s': Stock, cursor': nat)
    requires Alike(s.window, blockSize, blobSize) && !SomeStale(s.window, cursor)
    requires cursor <= stop < target && !IsCovered(s.window, stop)
    ensures cursor <= cursor' <= stop && !Due(s'.window, cursor')
    ensures s' == s.(window := s'.window) && s'.window <= s.window
    ensures forall y :: y >= cursor' && IsCovered(s.window, y) ==> IsCovered(s'.window, y)
    ensures forall end :: ShortAt(workers, s', cursor', target, end) ==> ShortAt(workers, s, cursor, target, end)
    decreases |s.window|
  {
    if Due(s.window, cursor) {
      var f := UseFront(workers, s, cursor, target, stop, blockSize, blobSize);
      var m := s.(window := s.window - multiset{f});
      s', cursor' := ReadOn(workers, m, f.End(), target, stop, blockSize, blobSize);
      forall end | ShortAt(workers, s', cursor', target, end) ensures ShortAt(workers, s, cursor, target, end) {
        TurnThenShort(workers, s, cursor, target, m, f.End(), end);
      }
    } else {
      s', cursor' := s, cursor;
    }
  }

  // ----- When a read can be cut short -----

  /** The window covers every position from `cursor` to `x`, and not `x`: where a reader that sees it comes to wait. */
  ghost predicate Gap(window: multiset<Req>, cursor: nat, x: nat) {
    cursor <= x && (forall y :: cursor <= y < x ==> IsCovered(window, y)) && !IsCovered(window, x)
  }

  /**
   * The workers alone can bring about a window that carries the reader to a wait at `x`, below the target, while `r`,
   * which ends before `x`, is still outstanding.
   */
  ghost predicate Overtakes(workers: nat, s: Stock, cursor: nat, target: nat, q: Stock, x: nat, r: Req) {
    Reach(workers, s, q) && Gap(q.window, cursor, x) && x < target && r in q.Outstanding() && r.End() < x
  }

  ghost predicate OvertakenAt(workers: nat, s: Stock, cursor: nat, target: nat, x: nat) {
    exists q, r :: Overtakes(workers, s, cursor, target, q, x, r)
  }

  ghost predicate CanBeOvertaken(workers: nat, s: Stock, cursor: nat, target: nat) {
    exists x :: OvertakenAt(workers, s, cursor, target, x)
  }

  /** The stock as it would be had the reader not used the front. */
  lemma OvertakesBefore(workers: nat, s: Stock, cursor: nat, target: nat, w: Stock, f: Req, q: Stock, x: nat, r: Req)
    requires Waits(workers, s, cursor, w) && f in w.window && f.off <= cursor <= f.End()
    requires Overtakes(workers, w.(window := w.window - multiset{f}), f.End(), target, q, x, r)
    ensures OvertakenAt(workers, s, cursor, target, x)
  {
    var m := w.(window := w.window - multiset{f});
    ReachKeeps(workers, m, q, w.window);
    var q' := q.(window := w.window + (q.window - m.window));
    assert q'.window == q.window + multiset{f};
    assert w.(window := w.window) == w;
    ReachSelf(workers, s);
    ReachJoin(workers, s, w, q');
    forall y | cursor <= y < x ensures IsCovered(q'.window, y) {
      if y < f.End() {
        assert Covers(f, y) && f in q'.window;
      } else {
        assert IsCovered(q.window, y);
        var b :| b in q.window && Covers(b, y);
        assert b in q'.window;
      }
    }
    assert !IsCovered(q'.window, x) by {
      assert forall b :: b in q'.window ==> b == f || b in q.window;
    }
    assert Overtakes(workers, s, cursor, target, q', x, r);
  }

  lemma GivesUpIsOvertaken(workers: nat, s: Stock, cursor: nat, target: nat)
    requires GivesUp(workers, s, cursor, target)
    ensures SomeStale(s.window, cursor) || OvertakenAt(workers, s, cursor, target, cursor)
  {
    var w, f :| Waits(workers, s, cursor, w) && IsFront(w.window, f) && Stale(f, cursor);
    if !Due(s.window, cursor) {
      ReachKeeps(workers, s, w, multiset{});
      assert f in w.All();
      assert f in s.Outstanding();
      ReachSelf(workers, s);
      assert Overtakes(workers, s, cursor, target, s, cursor, f);
    }
  }

  lemma {:induction false} ShortIsOvertaken(
      workers: nat, s: Stock, cursor: nat, target: nat, end: nat, n: nat, blockSize: nat, blobSize: nat)
    requires Alike(s.All(), blockSize, blobSize) && ShortIn(workers, s, cursor, target, end, n)
    ensures cursor < target
    ensures (SomeStale(s.window, cursor) && end == cursor) || OvertakenAt(workers, s, cursor, target, end)
    decreases n
  {
    if cursor == end && GivesUp(workers, s, cursor, target) {
      GivesUpIsOvertaken(workers, s, cursor, target);
    } else {
      assert TurnThenShortIn(workers, s, cursor, target, end, n - 1);
      var s', cursor': nat :| Turn(workers, s, cursor, target, s', cursor') && ShortIn(workers, s', cursor', target, end, n - 1);
      TurnKeepsAlike(workers, s, cursor, target, s', cursor', blockSize, blobSize);
      ShortIsOvertaken(workers, s', cursor', target, end, n - 1, blockSize, blobSize);
      TurnIsOvertaken(workers, s, cursor, target, s', cursor', end, blockSize, blobSize);
    }
  }

  lemma TurnKeepsAlike(
      workers: nat, s: Stock, cursor: nat, target: nat, s': Stock, cursor': nat, blockSize: nat, blobSize: nat)
    requires Alike(s.All(), blockSize, blobSize) && Turn(workers, s, cursor, target, s', cursor')
    ensures Alike(s'.All(), blockSize, blobSize)
  {
    var w, f :| Waits(workers, s, cursor, w) && IsFront(w.window, f)
      && f.off <= cursor <= f.End() && (s', cursor') == Consumed(w, f, target);
    AlikeAfterWait(workers, s, cursor, w, blockSize, blobSize);
    ConsumedKeepsAlike(w, f, target, blockSize, blobSize);
  }

  lemma ConsumedKeepsAlike(w: Stock, f: Req, target: nat, blockSize: nat, blobSize: nat)
    requires Alike(w.All(), blockSize, blobSize)
    ensures Alike(Consumed(w, f, target).0.All(), blockSize, blobSize)
  {
    hide CutTo;
    assert forall b :: b in Consumed(w, f, target).0.All() ==> b in w.All();
  }

  lemma TurnIsOvertaken(
      workers: nat, s: Stock, cursor: nat, target: nat, s': Stock, cursor': nat, end: nat, blockSize: nat, blobSize: nat)
    requires Alike(s.All(), blockSize, blobSize) && Turn(workers, s, cursor, target, s', cursor')
    requires cursor' < target && (SomeStale(s'.window, cursor') || OvertakenAt(workers, s', cursor', target, end))
    ensures OvertakenAt(workers, s, cursor, target, end)
  {
    var w, f :| Waits(workers, s, cursor, w) && IsFront(w.window, f)
      && f.off <= cursor <= f.End() && (s', cursor') == Consumed(w, f, target);
    AlikeAfterWait(workers, s, cursor, w, blockSize, blobSize);
    forall b | b in s'.window ensures !Stale(b, cursor') {
      AlikeOrder(f, b, blockSize, blobSize);
    }
    var q, r :| Overtakes(workers, s', cursor', target, q, end, r);
    OvertakesBefore(workers, s, cursor, target, w, f, q, end, r);
  }

  lemma AlikeAfterWait(workers: nat, s: Stock, cursor: nat, w: Stock, blockSize: nat, blobSize: nat)
    requires Alike(s.All(), blockSize, blobSize) && Waits(workers, s, cursor, w)
    ensures Alike(w.All(), blockSize, blobSize) && w.All() == s.All()
    ensures forall b :: b in w.window ==> CutTo(blockSize, blobSize, b)
  {
    if w != s {
      ReachKeeps(workers, s, w, multiset{});
    }
    assert forall b :: b in w.window ==> b in w.All();
  }

  /** A window that carries the reader to a wait at `x`. */
  lemma CarriedOn(workers: nat, q: Stock, cursor: nat, target: nat, x: nat, r: Req, blockSize: nat, blobSize: nat)
    requires workers >= 1 && Alike(q.All(), blockSize, blobSize) && !SomeStale(q.window, cursor)
    requires Gap(q.window, cursor, x) && x < target && r in q.Outstanding() && r.End() < x
    ensures ShortAt(workers, q, cursor, target, x)
  {
    assert forall b :: b in q.window ==> b in q.All();
    var z, at := ReadOn(workers, q, cursor, target, x, blockSize, blobSize);
    assert !IsCovered(z.window, at);
    assert !IsCovered(q.window, at);
    assert at == x;
    assert forall b :: b in z.All() ==> b in q.All();
    ReachSelf(workers, z);
    StaleLater(workers, z, x, target, z, r, blockSize, blobSize);
  }

  /** The reader waits at `cursor`, and the workers bring about what carries it on to the wait at `x`. */
  lemma OvertakenAtWait(
      workers: nat, s: Stock, cursor: nat, target: nat, q: Stock, x: nat, r: Req, blockSize: nat, blobSize: nat)
    requires workers >= 1 && Alike(s.All(), blockSize, blobSize) && !Due(s.window, cursor)
    requires Overtakes(workers, s, cursor, target, q, x, r)
    ensures CanBeShort(workers, s, cursor, target)
  {
    ReachKeeps(workers, s, q, multiset{});
    assert forall b :: b in q.window ==> b in q.All();
    if Stale(r, cursor) {
      StaleLater(workers, s, cursor, target, q, r, blockSize, blobSize);
    } else if SomeStale(q.window, cursor) {
      StaleNow(workers, s, cursor, target, q, blockSize, blobSize);
    } else {
      CarriedOn(workers, q, cursor, target, x, r, blockSize, blobSize);
      assert IsCovered(q.window, cursor);
      WaitThenShort(workers, s, cursor, target, q, x);
    }
  }

  /** What the reader has used before it waits does not matter to what overtakes it later. */
  lemma OvertakesAfter(
      workers: nat, s: Stock, cursor: nat, target: nat, q: Stock, x: nat, r: Req, s': Stock, cursor': nat)
    requires Overtakes(workers, s, cursor, target, q, x, r)
    requires s' == s.(window := s'.window) && s'.window <= s.window && cursor <= cursor' <= x
    requires forall y :: y >= cursor' && IsCovered(s.window, y) ==> IsCovered(s'.window, y)
    ensures Overtakes(workers, s', cursor', target, q.(window := s'.window + (q.window - s.window)), x, r)
  {
    ReachKeeps(workers, s, q, s'.window);
    var q' := q.(window := s'.window + (q.window - s.window));
    forall y | cursor' <= y < x ensures IsCovered(q'.window, y) {
      assert IsCovered(q.window, y);
      var b :| b in q.window && Covers(b, y);
      if b in s.window {
        assert IsCovered(s.window, y);
        var c :| c in s'.window && Covers(c, y);
        assert c in q'.window;
      } else {
        assert b in q'.window;
      }
    }
    assert forall b :: b in q'.window ==> b in q.window;
  }

  lemma OvertakenIsShort(workers: nat, s: Stock, cursor: nat, target: nat, q: Stock, x: nat, r: Req, blockSize: nat, blobSize: nat)
    requires workers >= 1 && Alike(s.All(), blockSize, blobSize) && !SomeStale(s.window, cursor)
    requires Overtakes(workers, s, cursor, target, q, x, r)
    ensures CanBeShort(workers, s, cursor, target)
  {
    ReachKeeps(workers, s, q, multiset{});
    assert forall b :: b in s.window ==> b in q.window && b in s.All();
    var s', cursor' := ReadOn(workers, s, cursor, target, x, blockSize, blobSize);
    OvertakesAfter(workers, s, cursor, target, q, x, r, s', cursor');
    assert forall b :: b in s'.All() ==> b in s.All();
    OvertakenAtWait(workers, s', cursor', target, q.(window := s'.window + (q.window - s.window)), x, r, blockSize, blobSize);
  }

  /** A read that is cut short at `end` has been overtaken there. */
  lemma ShortAtIsOvertaken(
      workers: nat, s: Stock, cursor: nat, target: nat, end: nat, blockSize: nat, blobSize: nat)
    requires Alike(s.All(), blockSize, blobSize) && ShortAt(workers, s, cursor, target, end)
    ensures cursor < target
    ensures (SomeStale(s.window, cursor) && end == cursor) || OvertakenAt(workers, s, cursor, target, end)
  {
    var n: nat :| ShortIn(workers, s, cursor, target, end, n);
    ShortIsOvertaken(workers, s, cursor, target, end, n, blockSize, blobSize);
  }

  /**
   * For any number of workers and any blocks left from earlier reads and seeks: a read can be cut short exactly when a
   * stale block is in the window already, or the workers can bring about a window that carries the reader to a wait below
   * the target while a request that ends before that point is still outstanding.
   */
  lemma CanBeShortIff(workers: nat, s: Stock, cursor: nat, target: nat, blockSize: nat, blobSize: nat)
    requires workers >= 1 && Alike(s.All(), blockSize, blobSize)
    ensures CanBeShort(workers, s, cursor, target)
       <==> cursor < target && (SomeStale(s.window, cursor) || CanBeOvertaken(workers, s, cursor, target))
  {
    if CanBeShort(workers, s, cursor, target) {
      var end :| ShortAt(workers, s, cursor, target, end);
      ShortAtIsOvertaken(workers, s, cursor, target, end, blockSize, blobSize);
    }
    if cursor < target && SomeStale(s.window, cursor) {
      assert forall b :: b in s.window ==> b in s.All();
      StaleNow(workers, s, cursor, target, s, blockSize, blobSize);
    } else if cursor < target && CanBeOvertaken(workers, s, cursor, target) {
      var x: nat :| OvertakenAt(workers, s, cursor, target, x);
      var q, r :| Overtakes(workers, s, cursor, target, q, x, r);
      OvertakenIsShort(workers, s, cursor, target, q, x, r, blockSize, blobSize);
    }
  }
}
