/** When a read can be cut short by requests of an earlier position, in terms a caller can check before the call. */
module SeekReads {
  import opened Prefetch
  import opened Schedules
  import opened Arrivals

  function Requested(s: Stock, tiles: seq<Req>): Stock {
    s.(queued := s.queued + tiles)
  }

  /** What `read` has queued, in flight and in the window once its request loop is done. */
  function AfterRequests(
      s: Stock, write: nat, cursor: nat, size: nat, prefetch: nat, blockSize: nat, blobSize: nat): Stock
  {
    Requested(s, TileList(write, Min(blobSize, cursor + size + prefetch * blockSize), blockSize, blobSize))
  }

  // ----- The requests of one read -----

  lemma {:induction false} TilesApart(
      tiles: seq<Req>, read: nat, write: nat, blockSize: nat, blobSize: nat, i: nat, j: nat)
    requires Tiling(tiles, read, write, blockSize, blobSize) && i < j < |tiles|
    ensures tiles[i].End() <= tiles[j].off
    decreases j
  {
    if i < j - 1 {
      TilesApart(tiles, read, write, blockSize, blobSize, i, j - 1);
    }
  }

  /** A request is made once, and no other one of the same read covers its start. */
  lemma TileIsAlone(tiles: seq<Req>, read: nat, write: nat, blockSize: nat, blobSize: nat, r: Req, b: Req)
    requires Tiling(tiles, read, write, blockSize, blobSize) && blockSize >= 1 && r in tiles
    ensures multiset(tiles)[r] == 1
    ensures b in tiles && Covers(b, r.off) ==> b == r
  {
    var i :| 0 <= i < |tiles| && tiles[i] == r;
    forall j | 0 <= j < |tiles| && j != i ensures tiles[j] != r && !Covers(tiles[j], r.off) {
      TilesApart(tiles, read, write, blockSize, blobSize, if i < j then i else j, if i < j then j else i);
      assert tiles[i].len > 0 && tiles[j].len > 0;
    }
    OnceAt(tiles, i);
  }

  lemma OnceAt<T>(s: seq<T>, i: nat)
    requires i < |s| && forall j :: 0 <= j < |s| && j != i ==> s[j] != s[i]
    ensures multiset(s)[s[i]] == 1
  {
    var x, front, back := s[i], s[..i], s[i + 1..];
    assert s == front + [x] + back;
    assert x !in front && x !in back;
    assert multiset(s) == multiset(front) + multiset{x} + multiset(back);
  }

  lemma TileListShape(from: nat, upto: nat, blockSize: nat, blobSize: nat) returns (write: nat)
    requires blockSize >= 1 && upto <= blobSize
    ensures var tiles := TileList(from, upto, blockSize, blobSize);
            && Tiling(tiles, from, write, blockSize, blobSize) && write >= upto && write >= from
            && (tiles == [] ==> write == from)
            && Alike(multiset(tiles), blockSize, blobSize) && forall b :: b in tiles ==> b.off >= from
  {
    var tiles := TileList(from, upto, blockSize, blobSize);
    write := if tiles == [] then from else tiles[|tiles| - 1].End();
    TileListTiles(from, upto, write, blockSize, blobSize);
    forall b | b in tiles ensures b.off >= from && CutTo(blockSize, blobSize, b) {
      var i :| 0 <= i < |tiles| && tiles[i] == b;
      if i > 0 {
        TilesApart(tiles, from, write, blockSize, blobSize, 0, i);
      }
    }
    assert forall b :: b in multiset(tiles) ==> b in tiles;
  }

  lemma RequestedAll(s: Stock, tiles: seq<Req>, blockSize: nat, blobSize: nat)
    requires Alike(s.All(), blockSize, blobSize) && Alike(multiset(tiles), blockSize, blobSize)
    ensures Requested(s, tiles).All() == s.All() + multiset(tiles)
    ensures Alike(Requested(s, tiles).All(), blockSize, blobSize)
  {
    hide CutTo;
    assert Requested(s, tiles).All() == s.All() + multiset(tiles);
  }

  // ----- Necessary: an older request that ends too early -----

  /**
   * Where a read is overtaken at `x`, one of the requests made before it ends before `x`: a new request that arrives too
   * late was covered by an older one, which ended no later.
   */
  lemma OldIsOvertaken(
      workers: nat, s: Stock, from: nat, upto: nat, cursor: nat, target: nat, q: Stock, x: nat, r: Req,
      blockSize: nat, blobSize: nat)
    requires blockSize >= 1 && upto <= blobSize && cursor <= from && Alike(s.All(), blockSize, blobSize)
    requires Overtakes(workers, Requested(s, TileList(from, upto, blockSize, blobSize)), cursor, target, q, x, r)
    ensures SomeStale(s.All(), x)
  {
    var tiles := TileList(from, upto, blockSize, blobSize);
    var write := TileListShape(from, upto, blockSize, blobSize);
    RequestedAll(s, tiles, blockSize, blobSize);
    ReachKeeps(workers, Requested(s, tiles), q, multiset{});
    var all := s.All() + multiset(tiles);
    assert q.All() == all;
    assert r in all;
    if r !in s.All() {
      assert IsCovered(q.window, r.off);
      var b :| b in q.window && Covers(b, r.off);
      assert b in all;
      TileIsAlone(tiles, from, write, blockSize, blobSize, r, b);
      assert b == r ==> q.All()[r] >= 2;
      assert all[r] == 1;
      AlikeOrder(b, r, blockSize, blobSize);
      assert b in s.All() && Stale(b, x);
    }
  }

  /** In any run, a read cut short at `end` met `end` beyond the end of a request made before the read. */
  lemma ShortNeedsOld(
      workers: nat, s: Stock, from: nat, upto: nat, cursor: nat, target: nat, end: nat, blockSize: nat, blobSize: nat)
    requires blockSize >= 1 && upto <= blobSize && cursor <= from && Alike(s.All(), blockSize, blobSize)
    requires ShortAt(workers, Requested(s, TileList(from, upto, blockSize, blobSize)), cursor, target, end)
    ensures SomeStale(s.All(), end)
  {
    var tiles := TileList(from, upto, blockSize, blobSize);
    var write := TileListShape(from, upto, blockSize, blobSize);
    RequestedAll(s, tiles, blockSize, blobSize);
    ShortAtIsOvertaken(workers, Requested(s, tiles), cursor, target, end, blockSize, blobSize);
    if OvertakenAt(workers, Requested(s, tiles), cursor, target, end) {
      var q, r :| Overtakes(workers, Requested(s, tiles), cursor, target, q, end, r);
      OldIsOvertaken(workers, s, from, upto, cursor, target, q, end, r, blockSize, blobSize);
    } else {
      var b :| b in s.window && Stale(b, end);
      assert b in s.All();
    }
  }

  // ----- A read right after a seek -----

  /** A request left from before the seek ends before the cursor, or before the end of a block that ends below the target. */
  ghost predicate EndsTooEarly(left: multiset<Req>, tiles: multiset<Req>, cursor: nat, target: nat) {
    exists r :: r in left && (r.End() < cursor || EndBetween(left + tiles, r.End(), target))
  }

  ghost predicate EndBetween(blocks: multiset<Req>, low: nat, high: nat) {
    exists b :: b in blocks && low < b.End() < high
  }

  lemma GapIsAnEnd(window: multiset<Req>, cursor: nat, x: nat)
    requires Gap(window, cursor, x) && cursor < x
    ensures exists b :: b in window && b.End() == x
  {
    assert IsCovered(window, x - 1);
    var b :| b in window && Covers(b, x - 1);
    assert !Covers(b, x);
  }

  /**
   * A read with the write cursor at the cursor, as a seek leaves it, can be cut short only by a request made before the
   * seek, still out or arrived since, that ends too early.
   */
  lemma SeekReadNeedsOld(
      workers: nat, s: Stock, cursor: nat, upto: nat, target: nat, end: nat, blockSize: nat, blobSize: nat)
    requires blockSize >= 1 && upto <= blobSize && Alike(s.All(), blockSize, blobSize)
    requires ShortAt(workers, Requested(s, TileList(cursor, upto, blockSize, blobSize)), cursor, target, end)
    ensures EndsTooEarly(s.All(), multiset(TileList(cursor, upto, blockSize, blobSize)), cursor, target)
  {
    var tiles := TileList(cursor, upto, blockSize, blobSize);
    var write := TileListShape(cursor, upto, blockSize, blobSize);
    var after := Requested(s, tiles);
    RequestedAll(s, tiles, blockSize, blobSize);
    ShortNeedsOld(workers, s, cursor, upto, cursor, target, end, blockSize, blobSize);
    var r :| r in s.All() && Stale(r, end);
    ShortAtIsOvertaken(workers, after, cursor, target, end, blockSize, blobSize);
    if OvertakenAt(workers, after, cursor, target, end) && end > cursor {
      var q, r' :| Overtakes(workers, after, cursor, target, q, end, r');
      GapIsAnEnd(q.window, cursor, end);
      var b :| b in q.window && b.End() == end;
      ReachKeeps(workers, after, q, multiset{});
      assert b in q.All();
      assert EndBetween(s.All() + multiset(tiles), r.End(), target);
    }
  }

  /** After the seek and before the read, the workers may move. */
  ghost predicate SeekReadShortAt(
      workers: nat, s: Stock, cursor: nat, upto: nat, target: nat, end: nat, blockSize: nat, blobSize: nat)
  {
    exists q :: Reach(workers, s, q) &&
      ShortAt(workers, Requested(q, TileList(cursor, upto, blockSize, blobSize)), cursor, target, end)
  }

  ghost predicate SeekReadCanBeShort(
      workers: nat, s: Stock, cursor: nat, upto: nat, target: nat, blockSize: nat, blobSize: nat)
  {
    exists end :: SeekReadShortAt(workers, s, cursor, upto, target, end, blockSize, blobSize)
  }

  lemma SeekReadShortNeedsOld(
      workers: nat, s: Stock, cursor: nat, upto: nat, target: nat, end: nat, blockSize: nat, blobSize: nat)
    requires blockSize >= 1 && upto <= blobSize && Alike(s.All(), blockSize, blobSize)
    requires SeekReadShortAt(workers, s, cursor, upto, target, end, blockSize, blobSize)
    ensures EndsTooEarly(s.All(), multiset(TileList(cursor, upto, blockSize, blobSize)), cursor, target)
  {
    var q :| Reach(workers, s, q) &&
      ShortAt(workers, Requested(q, TileList(cursor, upto, blockSize, blobSize)), cursor, target, end);
    ReachKeeps(workers, s, q, multiset{});
    SeekReadNeedsOld(workers, q, cursor, upto, target, end, blockSize, blobSize);
  }

  // ----- What the workers do between the seek and the read -----

  lemma {:induction false} ReachBesideIn(workers: nat, s: Stock, q: Stock, n: nat, tiles: seq<Req>)
    requires ReachIn(workers, s, q, n)
    ensures Reach(workers, Requested(s, tiles), Requested(q, tiles))
    decreases n
  {
    hide Reach, WorkerMove;
    if n == 0 {
      ReachSelf(workers, Requested(s, tiles));
    } else {
      var m :| WorkerMove(workers, s, m) && ReachIn(workers, m, q, n - 1);
      MoveBefore(workers, s, m, tiles);
      ReachBesideIn(workers, m, q, n - 1, tiles);
      ReachAfter(workers, Requested(s, tiles), Requested(m, tiles), Requested(q, tiles));
    }
  }

  lemma MoveBefore(workers: nat, s: Stock, m: Stock, tiles: seq<Req>)
    requires WorkerMove(workers, s, m)
    ensures WorkerMove(workers, Requested(s, tiles), Requested(m, tiles))
  {
    var after := Requested(s, tiles);
    if s.queued != [] && |s.inflight| < workers && m == Started(s) {
      assert (s.queued + tiles)[1..] == s.queued[1..] + tiles;
      assert Started(after) == Requested(m, tiles);
    } else {
      var i :| 0 <= i < |s.inflight| && m == Finished(s, i);
      assert Finished(after, i) == Requested(m, tiles);
    }
  }

  /** What the workers could do before the read they can as well do during its first wait. */
  lemma MovesBeforeAddNothing(
      workers: nat, s: Stock, cursor: nat, upto: nat, target: nat, blockSize: nat, blobSize: nat)
    requires workers >= 1 && blockSize >= 1 && upto <= blobSize
    requires Alike(s.All(), blockSize, blobSize) && s.window == multiset{}
    ensures SeekReadCanBeShort(workers, s, cursor, upto, target, blockSize, blobSize)
       <==> CanBeShort(workers, Requested(s, TileList(cursor, upto, blockSize, blobSize)), cursor, target)
  {
    var tiles := TileList(cursor, upto, blockSize, blobSize);
    var after := Requested(s, tiles);
    if SeekReadCanBeShort(workers, s, cursor, upto, target, blockSize, blobSize) {
      var end: nat :| SeekReadShortAt(workers, s, cursor, upto, target, end, blockSize, blobSize);
      var q :| Reach(workers, s, q) && ShortAt(workers, Requested(q, tiles), cursor, target, end);
      MovedReadIsShort(workers, s, q, tiles, cursor, target, upto, blockSize, blobSize);
    }
    if CanBeShort(workers, after, cursor, target) {
      var end: nat :| ShortAt(workers, after, cursor, target, end);
      ReachSelf(workers, s);
      assert SeekReadShortAt(workers, s, cursor, upto, target, end, blockSize, blobSize);
    }
  }

  lemma MovedReadIsShort(
      workers: nat, s: Stock, q: Stock, tiles: seq<Req>, cursor: nat, target: nat, upto: nat,
      blockSize: nat, blobSize: nat)
    requires workers >= 1 && blockSize >= 1 && upto <= blobSize && tiles == TileList(cursor, upto, blockSize, blobSize)
    requires Alike(s.All(), blockSize, blobSize) && s.window == multiset{} && Reach(workers, s, q)
    requires CanBeShort(workers, Requested(q, tiles), cursor, target)
    ensures CanBeShort(workers, Requested(s, tiles), cursor, target)
  {
    hide Reach, CanBeShort, Gap;
    var after, moved := Requested(s, tiles), Requested(q, tiles);
    AlikeBeside(workers, s, q, tiles, cursor, upto, blockSize, blobSize);
    CanBeShortIff(workers, moved, cursor, target, blockSize, blobSize);
    CanBeShortIff(workers, after, cursor, target, blockSize, blobSize);
    if SomeStale(moved.window, cursor) {
      ArrivedIsOut(workers, s, q, tiles, cursor, target);
    } else {
      var x: nat :| OvertakenAt(workers, moved, cursor, target, x);
      var z, r :| Overtakes(workers, moved, cursor, target, z, x, r);
      ReachJoin(workers, after, moved, z);
      assert Overtakes(workers, after, cursor, target, z, x, r);
      assert OvertakenAt(workers, after, cursor, target, x);
    }
  }

  lemma AlikeBeside(
      workers: nat, s: Stock, q: Stock, tiles: seq<Req>, cursor: nat, upto: nat, blockSize: nat, blobSize: nat)
    requires blockSize >= 1 && upto <= blobSize && tiles == TileList(cursor, upto, blockSize, blobSize)
    requires Alike(s.All(), blockSize, blobSize) && Reach(workers, s, q)
    ensures Alike(Requested(s, tiles).All(), blockSize, blobSize) && Alike(Requested(q, tiles).All(), blockSize, blobSize)
    ensures Reach(workers, Requested(s, tiles), Requested(q, tiles))
  {
    hide CutTo;
    var write := TileListShape(cursor, upto, blockSize, blobSize);
    ReachKeeps(workers, s, q, multiset{});
    RequestedAll(s, tiles, blockSize, blobSize);
    RequestedAll(q, tiles, blockSize, blobSize);
    var n: nat :| ReachIn(workers, s, q, n);
    ReachBesideIn(workers, s, q, n, tiles);
  }

  /** A stale block that has arrived was out at the seek, and the reader can be overtaken by it at once. */
  lemma ArrivedIsOut(workers: nat, s: Stock, q: Stock, tiles: seq<Req>, cursor: nat, target: nat)
    requires Reach(workers, s, q) && s.window == multiset{} && SomeStale(q.window, cursor) && cursor < target
    ensures CanBeOvertaken(workers, Requested(s, tiles), cursor, target)
  {
    var after := Requested(s, tiles);
    ReachKeeps(workers, s, q, multiset{});
    var r :| r in q.window && Stale(r, cursor);
    assert r in q.All();
    assert r in s.queued || r in s.inflight;
    assert r in after.Outstanding();
    ReachSelf(workers, after);
    assert Overtakes(workers, after, cursor, target, after, cursor, r);
    assert OvertakenAt(workers, after, cursor, target, cursor);
  }

  // ----- Sufficient, with a worker to spare -----

  lemma StartOne(workers: nat, s: Stock)
    requires s.queued != [] && |s.inflight| < workers
    ensures Reach(workers, s, Started(s))
  {
    ReachMove(workers, s, Started(s));
  }

  lemma FinishOne(workers: nat, s: Stock, i: nat)
    requires i < |s.inflight|
    ensures Reach(workers, s, Finished(s, i))
  {
    assert WorkerMove(workers, s, Finished(s, i));
    ReachMove(workers, s, Finished(s, i));
  }

  lemma {:induction false} StartMany(workers: nat, s: Stock, k: nat)
    requires k <= |s.queued| && |s.inflight| + k <= workers
    ensures Reach(workers, s, Stock(s.queued[k..], s.inflight + s.queued[..k], s.window))
    decreases k
  {
    hide Reach;
    var t := Stock(s.queued[k..], s.inflight + s.queued[..k], s.window);
    if k == 0 {
      assert t == s;
      ReachSelf(workers, s);
    } else {
      var m := Started(s);
      StartOne(workers, s);
      StartMany(workers, m, k - 1);
      assert m.queued[k - 1..] == s.queued[k..];
      assert m.inflight + m.queued[..k - 1] == s.inflight + s.queued[..k];
      ReachJoin(workers, s, m, t);
    }
  }

  lemma PassOne(workers: nat, s: Stock)
    requires s.queued != [] && |s.inflight| < workers
    ensures Reach(workers, s, Stock(s.queued[1..], s.inflight, s.window + multiset{s.queued[0]}))
  {
    hide Reach;
    var m := Started(s);
    var t := Finished(m, |s.inflight|);
    assert t.inflight == s.inflight;
    StartOne(workers, s);
    FinishOne(workers, m, |s.inflight|);
    ReachJoin(workers, s, m, t);
  }

  /** One worker passes the next requests through while the others stay where they are. */
  lemma {:induction false} PassMany(workers: nat, s: Stock, k: nat)
    requires k <= |s.queued| && |s.inflight| < workers
    ensures Reach(workers, s, Stock(s.queued[k..], s.inflight, s.window + multiset(s.queued[..k])))
    decreases k
  {
    hide Reach;
    var t := Stock(s.queued[k..], s.inflight, s.window + multiset(s.queued[..k]));
    if k == 0 {
      assert t == s;
      ReachSelf(workers, s);
    } else {
      var m := Stock(s.queued[1..], s.inflight, s.window + multiset{s.queued[0]});
      PassOne(workers, s);
      PassMany(workers, m, k - 1);
      assert m.queued[k - 1..] == s.queued[k..];
      assert s.queued[..k] == [s.queued[0]] + m.queued[..k - 1];
      assert m.window + multiset(m.queued[..k - 1]) == t.window;
      ReachJoin(workers, s, m, t);
    }
  }

  /** Every request left from before is held by a worker, and `k` of the new ones have arrived. */
  lemma HoldOld(workers: nat, s: Stock, tiles: seq<Req>, k: nat)
    requires |s.queued| + |s.inflight| < workers && k <= |tiles| && s.window == multiset{}
    ensures Reach(workers, Requested(s, tiles), Stock(tiles[k..], s.inflight + s.queued, multiset(tiles[..k])))
  {
    hide Reach;
    var n := |s.queued|;
    var m := Stock(tiles, s.inflight + s.queued, s.window);
    var after, q := Requested(s, tiles), Stock(tiles[k..], s.inflight + s.queued, multiset(tiles[..k]));
    StartMany(workers, after, n);
    assert Stock(after.queued[n..], after.inflight + after.queued[..n], after.window) == m;
    PassMany(workers, m, k);
    var passed := Stock(m.queued[k..], m.inflight, m.window + multiset(m.queued[..k]));
    assert Reach(workers, m, passed) && passed.window == multiset(tiles[..k]);
    assert passed == q;
    ReachJoin(workers, after, m, q);
  }

  /** Where the first `k` tiles end. */
  function TilesEnd(tiles: seq<Req>, from: nat, k: nat): nat
    requires k <= |tiles|
  {
    if k == 0 then from else tiles[k - 1].End()
  }

  lemma {:induction false} TilesGap(tiles: seq<Req>, from: nat, write: nat, blockSize: nat, blobSize: nat, k: nat)
    requires Tiling(tiles, from, write, blockSize, blobSize) && blockSize >= 1 && k <= |tiles|
    requires tiles != [] ==> tiles[0].off == from
    ensures Gap(multiset(tiles[..k]), from, TilesEnd(tiles, from, k))
    ensures forall b :: b in multiset(tiles[..k]) ==> b.End() <= TilesEnd(tiles, from, k)
    ensures k < |tiles| ==> tiles[k].off == TilesEnd(tiles, from, k)
    ensures k == |tiles| ==> write == TilesEnd(tiles, from, k)
    decreases k
  {
    if k > 0 {
      var window, last := multiset(tiles[..k - 1]), tiles[k - 1];
      TilesGap(tiles, from, write, blockSize, blobSize, k - 1);
      assert tiles[..k] == tiles[..k - 1] + [last];
      GapGrows(window, last, from, last.off);
    }
  }

  /** A block that starts at the gap or before, and ends after it, moves the gap to its end. */
  lemma GapGrows(window: multiset<Req>, b: Req, from: nat, x: nat)
    requires Gap(window, from, x) && b.off <= x < b.End()
    requires forall c :: c in window ==> c.End() <= x
    ensures Gap(window + multiset{b}, from, b.End())
  {
    var grown := window + multiset{b};
    forall y | from <= y < b.End() ensures IsCovered(grown, y) {
      if y < x {
        assert IsCovered(window, y);
        var c :| c in window && Covers(c, y);
        assert c in grown;
      } else {
        assert b in grown && Covers(b, y);
      }
    }
    assert forall c :: c in grown ==> c == b || c in window;
  }

  /** The tiles that end at or before `e`. */
  lemma {:induction false} TilesUpTo(tiles: seq<Req>, from: nat, e: nat, k: nat) returns (j: nat)
    requires from <= e && k <= |tiles|
    ensures j <= k && TilesEnd(tiles, from, j) <= e
    ensures j < k ==> TilesEnd(tiles, from, j + 1) > e
    decreases k
  {
    if TilesEnd(tiles, from, k) <= e {
      j := k;
    } else {
      j := TilesUpTo(tiles, from, e, k - 1);
      if j == k - 1 {
        assert TilesEnd(tiles, from, j + 1) > e;
      }
    }
  }

  /** One more request that was held arrives. */
  lemma LetGo(workers: nat, s: Stock, q: Stock, e: Req, r: Req) returns (z: Stock)
    requires Reach(workers, s, q) && e in q.inflight && r in q.inflight && r != e
    ensures Reach(workers, s, z) && z.window == q.window + multiset{e} && r in z.Outstanding()
  {
    hide Reach;
    var i :| 0 <= i < |q.inflight| && q.inflight[i] == e;
    z := Finished(q, i);
    FinishOne(workers, q, i);
    ReachJoin(workers, s, q, z);
    assert r in multiset(q.inflight);
    assert r in multiset(z.inflight);
  }

  lemma EndsInOrder(tiles: seq<Req>, from: nat, write: nat, e: Req, k: nat, blockSize: nat, blobSize: nat)
    requires Tiling(tiles, from, write, blockSize, blobSize) && blockSize >= 1 && k <= |tiles|
    requires tiles != [] ==> tiles[0].off == from
    requires CutTo(blockSize, blobSize, e) && TilesEnd(tiles, from, k) < e.End()
    requires if k < |tiles| then e.End() < tiles[k].End() else e.End() <= write
    ensures e !in tiles && e.off <= TilesEnd(tiles, from, k)
  {
    TilesGap(tiles, from, write, blockSize, blobSize, k);
    if k < |tiles| {
      AlikeOrder(tiles[k], e, blockSize, blobSize);
      EndIsOld(tiles, from, write, e, k, blockSize, blobSize);
    }
  }

  /** A block of the old requests or of the tiles that ends at `e.End()`: the reader can come to wait there. */
  lemma WaitAtEnd(
      workers: nat, s: Stock, cursor: nat, upto: nat, target: nat, r: Req, e: Req, blockSize: nat, blobSize: nat)
      returns (q: Stock)
    requires |s.queued| + |s.inflight| < workers && blockSize >= 1 && Min(blobSize, target) <= upto <= blobSize
    requires Alike(s.All(), blockSize, blobSize) && s.window == multiset{}
    requires r in s.All() && cursor <= r.End() < e.End() < target
    requires e in s.All() || e in TileList(cursor, upto, blockSize, blobSize)
    ensures Overtakes(workers, Requested(s, TileList(cursor, upto, blockSize, blobSize)), cursor, target, q, e.End(), r)
  {
    hide Reach, Gap, Alike, Tiling;
    var tiles := TileList(cursor, upto, blockSize, blobSize);
    var write := TileListShape(cursor, upto, blockSize, blobSize);
    TileListTiles(cursor, upto, write, blockSize, blobSize);
    IsCut(s.All(), tiles, e, blockSize, blobSize);
    var k := TilesUpTo(tiles, cursor, e.End(), |tiles|);
    NextEndsLater(tiles, cursor, write, e, k);
    q := HoldAndLetGo(workers, s, tiles, cursor, write, r, e, k, blockSize, blobSize);
  }

  lemma HoldAndLetGo(
      workers: nat, s: Stock, tiles: seq<Req>, cursor: nat, write: nat, r: Req, e: Req, k: nat,
      blockSize: nat, blobSize: nat)
      returns (q: Stock)
    requires |s.queued| + |s.inflight| < workers && s.window == multiset{} && blockSize >= 1
    requires Tiling(tiles, cursor, write, blockSize, blobSize) && (tiles != [] ==> tiles[0].off == cursor)
    requires k <= |tiles| && TilesEnd(tiles, cursor, k) <= e.End() && CutTo(blockSize, blobSize, e)
    requires if k < |tiles| then e.End() < tiles[k].End() else e.End() <= write
    requires r in s.All() && r.End() < e.End() && (e in s.All() || e in tiles)
    ensures Reach(workers, Requested(s, tiles), q) && Gap(q.window, cursor, e.End()) && r in q.Outstanding()
  {
    hide Reach, Gap, Tiling, CutTo;
    TilesGap(tiles, cursor, write, blockSize, blobSize, k);
    HoldOld(workers, s, tiles, k);
    q := Stock(tiles[k..], s.inflight + s.queued, multiset(tiles[..k]));
    var y := TilesEnd(tiles, cursor, k);
    assert r in q.inflight;
    if y < e.End() {
      EndsInOrder(tiles, cursor, write, e, k, blockSize, blobSize);
      assert e in q.inflight;
      GapGrows(q.window, e, cursor, y);
      q := LetGo(workers, Requested(s, tiles), q, e, r);
    } else {
      assert r in multiset(q.inflight);
    }
  }

  lemma IsCut(all: multiset<Req>, tiles: seq<Req>, e: Req, blockSize: nat, blobSize: nat)
    requires Alike(all, blockSize, blobSize) && Alike(multiset(tiles), blockSize, blobSize) && (e in all || e in tiles)
    ensures CutTo(blockSize, blobSize, e)
  {
    assert e in all || e in multiset(tiles);
  }

  lemma NextEndsLater(tiles: seq<Req>, from: nat, write: nat, e: Req, k: nat)
    requires k <= |tiles| && (k < |tiles| ==> TilesEnd(tiles, from, k + 1) > e.End())
    requires e.End() <= write
    ensures if k < |tiles| then e.End() < tiles[k].End() else e.End() <= write
  {
  }

  /** A block that ends strictly between the end of one tile and the end of the next is not a tile. */
  lemma EndIsOld(tiles: seq<Req>, from: nat, write: nat, e: Req, k: nat, blockSize: nat, blobSize: nat)
    requires Tiling(tiles, from, write, blockSize, blobSize) && blockSize >= 1 && k <= |tiles|
    requires TilesEnd(tiles, from, k) < e.End() && (k < |tiles| ==> e.End() < tiles[k].End())
    ensures e !in tiles
  {
    if e in tiles {
      var j :| 0 <= j < |tiles| && tiles[j] == e;
      if j < k - 1 {
        TilesApart(tiles, from, write, blockSize, blobSize, j, k - 1);
      } else if j > k {
        TilesApart(tiles, from, write, blockSize, blobSize, k, j);
      }
    }
  }

  lemma SpareWorkerCutsShort(
      workers: nat, s: Stock, cursor: nat, upto: nat, target: nat, blockSize: nat, blobSize: nat)
    requires workers >= 1 && blockSize >= 1 && Min(blobSize, target) <= upto <= blobSize && cursor < target
    requires Alike(s.All(), blockSize, blobSize) && s.window == multiset{} && |s.queued| + |s.inflight| < workers
    requires EndsTooEarly(s.All(), multiset(TileList(cursor, upto, blockSize, blobSize)), cursor, target)
    ensures CanBeShort(workers, Requested(s, TileList(cursor, upto, blockSize, blobSize)), cursor, target)
  {
    var tiles := TileList(cursor, upto, blockSize, blobSize);
    var after := Requested(s, tiles);
    var write := TileListShape(cursor, upto, blockSize, blobSize);
    RequestedAll(s, tiles, blockSize, blobSize);
    var r :| r in s.All() && (r.End() < cursor || EndBetween(s.All() + multiset(tiles), r.End(), target));
    CanBeShortIff(workers, after, cursor, target, blockSize, blobSize);
    if r.End() < cursor {
      ReachSelf(workers, after);
      assert r in after.Outstanding();
      assert Overtakes(workers, after, cursor, target, after, cursor, r);
      assert OvertakenAt(workers, after, cursor, target, cursor);
    } else {
      var e :| e in s.All() + multiset(tiles) && r.End() < e.End() < target;
      var q := WaitAtEnd(workers, s, cursor, upto, target, r, e, blockSize, blobSize);
      assert OvertakenAt(workers, after, cursor, target, e.End());
    }
  }

  /**
   * A read after a seek, with requests left from before it, whatever the workers do between the two. It can be cut short
   * only if one of those requests ends before the cursor, or before the end of a block that ends below the target; and
   * whenever a worker is to spare, exactly then.
   */
  lemma SeekReadShortIff(
      workers: nat, s: Stock, cursor: nat, upto: nat, target: nat, blockSize: nat, blobSize: nat)
    requires workers >= 1 && blockSize >= 1 && Min(blobSize, target) <= upto <= blobSize && cursor < target
    requires Alike(s.All(), blockSize, blobSize) && s.window == multiset{}
    ensures var tiles := multiset(TileList(cursor, upto, blockSize, blobSize));
            && (SeekReadCanBeShort(workers, s, cursor, upto, target, blockSize, blobSize)
                ==> EndsTooEarly(s.All(), tiles, cursor, target))
            && (|s.queued| + |s.inflight| < workers ==>
                (SeekReadCanBeShort(workers, s, cursor, upto, target, blockSize, blobSize)
                 <==> EndsTooEarly(s.All(), tiles, cursor, target)))
  {
    hide EndsTooEarly, CanBeShort, SeekReadShortAt;
    MovesBeforeAddNothing(workers, s, cursor, upto, target, blockSize, blobSize);
    if SeekReadCanBeShort(workers, s, cursor, upto, target, blockSize, blobSize) {
      var end: nat :| SeekReadShortAt(workers, s, cursor, upto, target, end, blockSize, blobSize);
      SeekReadShortNeedsOld(workers, s, cursor, upto, target, end, blockSize, blobSize);
    } else if |s.queued| + |s.inflight| < workers
           && EndsTooEarly(s.All(), multiset(TileList(cursor, upto, blockSize, blobSize)), cursor, target) {
      SpareWorkerCutsShort(workers, s, cursor, upto, target, blockSize, blobSize);
    }
  }

  /**
   * For any number of workers, exactly when some choice of the requests still out, such that before each of them fewer
   * than `workers` are left behind, carries the reader to a wait below the target and past the end of one left behind.
   */
  lemma SeekReadShortExactly(
      workers: nat, s: Stock, cursor: nat, upto: nat, target: nat, blockSize: nat, blobSize: nat)
    requires workers >= 1 && |s.inflight| <= workers && blockSize >= 1 && upto <= blobSize && cursor < target
    requires Alike(s.All(), blockSize, blobSize) && s.window == multiset{}
    ensures SeekReadCanBeShort(workers, s, cursor, upto, target, blockSize, blobSize)
       <==> SomeLeftBehind(workers, Requested(s, TileList(cursor, upto, blockSize, blobSize)), cursor, target)
  {
    hide SomeLeftBehind, CanBeShort, SeekReadCanBeShort;
    var tiles := TileList(cursor, upto, blockSize, blobSize);
    var write := TileListShape(cursor, upto, blockSize, blobSize);
    RequestedAll(s, tiles, blockSize, blobSize);
    MovesBeforeAddNothing(workers, s, cursor, upto, target, blockSize, blobSize);
    CanBeShortExactly(workers, Requested(s, tiles), cursor, target, blockSize, blobSize);
  }

  // ----- Two runs -----

  const LATE := Req(3, 8)
  const TILE1 := Req(5, 8)
  const TILE2 := Req(13, 8)
  const TILE3 := Req(21, 3)

  /** The stock when a read of 12 bytes after a seek to 5 has made its requests, with one block of prefetching. */
  const AFTER_SEEK := Stock([TILE1, TILE2, TILE3], [LATE], multiset{})

  /** The reader has used up the first tile, and waits at 13. */
  const AT_13 := Stock([TILE2, TILE3], [LATE], multiset{})

  lemma FirstTileArrives()
    ensures Turn(2, AFTER_SEEK, 5, 17, AT_13, 13)
  {
    var started := Stock([TILE2, TILE3], [LATE, TILE1], multiset{});
    var arrived := Stock([TILE2, TILE3], [LATE], multiset{TILE1});
    assert Started(AFTER_SEEK) == started;
    StartOne(2, AFTER_SEEK);
    assert Finished(started, 1) == arrived;
    FinishOne(2, started, 1);
    ReachJoin(2, AFTER_SEEK, started, arrived);
    assert TILE1 in arrived.window;
    assert Waits(2, AFTER_SEEK, 5, arrived);
    assert IsFront(arrived.window, TILE1);
    assert Consumed(arrived, TILE1, 17) == (AT_13, 13);
  }

  lemma LateBlockArrives()
    ensures ShortAt(2, AT_13, 13, 17, 13)
  {
    var arrived := Stock([TILE2, TILE3], [], multiset{LATE});
    assert Finished(AT_13, 0) == arrived;
    FinishOne(2, AT_13, 0);
    assert LATE in arrived.window;
    assert Waits(2, AT_13, 13, arrived);
    assert IsFront(arrived.window, LATE) && Stale(LATE, 13);
    assert GivesUp(2, AT_13, 13, 17);
    assert ShortIn(2, AT_13, 13, 17, 13, 0);
  }

  lemma ThreeTiles()
    ensures TileList(5, 24, 8, 24) == [TILE1, TILE2, TILE3]
  {
    assert TileList(24, 24, 8, 24) == [];
    assert TileList(21, 24, 8, 24) == [TILE3] + TileList(24, 24, 8, 24);
    assert TileList(13, 24, 8, 24) == [TILE2] + TileList(21, 24, 8, 24);
  }

  /**
   * Blocks of 8 bytes, a blob of 24, two workers, the request of bytes 3 to 11 in flight when the reader seeks to 5 and
   * reads 12 bytes. Nothing ends before the cursor, but the reader has moved on to 13 when the old block arrives: the read
   * returns with 8 bytes copied.
   */
  lemma LateBlockCutsRead()
    ensures AFTER_SEEK == AfterRequests(Stock([], [LATE], multiset{}), 5, 5, 12, 1, 8, 24)
    ensures !SomeStale(AFTER_SEEK.All(), 5)
    ensures ShortAt(2, AFTER_SEEK, 5, 17, 13)
  {
    hide ShortAt, Turn;
    ThreeTiles();
    FirstTileArrives();
    LateBlockArrives();
    TurnThenShort(2, AFTER_SEEK, 5, 17, AT_13, 13, 13);
  }

  const FAR := Req(12, 8)

  /** The same seek with both workers taken: a second old request covers bytes 12 to 20. */
  const BOTH_TAKEN := Stock([TILE1, TILE2, TILE3], [LATE, FAR], multiset{})

  /** Either nothing has moved, or one of the old requests has arrived. */
  ghost predicate OneArrived(s: Stock) {
    s == BOTH_TAKEN || LATE in s.window || FAR in s.window
  }

  lemma OneArrivedStep(s: Stock, m: Stock)
    requires OneArrived(s) && WorkerMove(2, s, m)
    ensures OneArrived(m)
  {
    MoveKeeps(2, s, m);
    if s == BOTH_TAKEN {
      var i :| 0 <= i < |s.inflight| && m == Finished(s, i);
      assert s.inflight[i] in m.window;
    }
  }

  lemma {:induction false} OneArrivesFirst(s: Stock, q: Stock, n: nat)
    requires OneArrived(s) && ReachIn(2, s, q, n)
    ensures OneArrived(q)
    decreases n
  {
    hide OneArrived, WorkerMove;
    if n > 0 {
      var m :| WorkerMove(2, s, m) && ReachIn(2, m, q, n - 1);
      OneArrivedStep(s, m);
      OneArrivesFirst(m, q, n - 1);
    }
  }

  lemma FourBlocks()
    ensures BOTH_TAKEN.All() == multiset{LATE, FAR, TILE1, TILE2, TILE3}
  {
    assert multiset(BOTH_TAKEN.queued) == multiset{TILE1, TILE2, TILE3};
    assert multiset(BOTH_TAKEN.inflight) == multiset{LATE, FAR};
  }

  lemma OnePlace(s: Stock, b: Req)
    requires s.All() == multiset{LATE, FAR, TILE1, TILE2, TILE3}
    ensures b in s.Outstanding() ==> b !in s.window && (b == LATE || b == FAR || b == TILE1 || b == TILE2 || b == TILE3)
    ensures b in s.window ==> b == LATE || b == FAR || b == TILE1 || b == TILE2 || b == TILE3
  {
    assert s.Outstanding()[b] + s.window[b] == s.All()[b];
  }

  /** Where the reader comes to wait below 20, nothing outstanding ends before that point. */
  lemma NothingEndsBefore(q: Stock, x: nat, r: Req)
    requires OneArrived(q) && q.All() == multiset{LATE, FAR, TILE1, TILE2, TILE3}
    requires Gap(q.window, 5, x) && x < 20 && r in q.Outstanding()
    ensures r.End() >= x
  {
    OnePlace(q, r);
    if x > 11 {
      assert IsCovered(q.window, 11);
      var b :| b in q.window && Covers(b, 11);
      OnePlace(q, b);
      assert b == TILE1;
      assert FAR in q.window ==> !Covers(FAR, x);
      assert !Covers(TILE1, x);
    }
  }

  lemma NeverOvertaken(q: Stock, x: nat, r: Req)
    ensures !Overtakes(2, BOTH_TAKEN, 5, 20, q, x, r)
  {
    hide OneArrived, Gap;
    if Reach(2, BOTH_TAKEN, q) {
      var n: nat :| ReachIn(2, BOTH_TAKEN, q, n);
      assert OneArrived(BOTH_TAKEN) by {
        NothingMoved();
      }
      OneArrivesFirst(BOTH_TAKEN, q, n);
      ReachKeeps(2, BOTH_TAKEN, q, multiset{});
      FourBlocks();
      if Gap(q.window, 5, x) && x < 20 && r in q.Outstanding() {
        NothingEndsBefore(q, x, r);
      }
    }
  }

  lemma NothingMoved()
    ensures OneArrived(BOTH_TAKEN)
  {
  }

  /**
   * Without a worker to spare the condition is not enough: one of the old blocks has to arrive before the first tile can be
   * requested, and whichever it is, the read of 15 bytes is not cut short.
   */
  lemma FewWorkersSpareRead()
    ensures EndsTooEarly(multiset{LATE, FAR}, multiset{TILE1, TILE2, TILE3}, 5, 20)
    ensures !CanBeShort(2, BOTH_TAKEN, 5, 20)
  {
    assert TILE1 in multiset{LATE, FAR} + multiset{TILE1, TILE2, TILE3};
    assert EndBetween(multiset{LATE, FAR} + multiset{TILE1, TILE2, TILE3}, LATE.End(), 20);
    assert LATE in multiset{LATE, FAR};
    CanBeShortIff(2, BOTH_TAKEN, 5, 20, 8, 24);
    forall q, x: nat, r ensures !Overtakes(2, BOTH_TAKEN, 5, 20, q, x, r) {
      NeverOvertaken(q, x, r);
    }
  }
}
