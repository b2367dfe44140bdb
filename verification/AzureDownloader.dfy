/** `AzureDownloader`: prefetching reads over one blob. */
module Downloader {
  import opened Bytes
  import opened BlockingQueues
  import opened Prefetch
  import opened Schedules
  import opened SeekReads
  import MinHeap

  /**
   * `NotOpen` returns 0, `Returned` returns the size asked for; `stale` tells that the loop was left early.
   * `Waiting` is a wait with no request outstanding, which never ends.
   */
  datatype ReadResult = NotOpen | Returned(stale: bool) | Waiting

  /** The bytes of the blob between the two cursors are in the buffer from `at` on, and nothing else changed. */
  ghost predicate Copied(before: seq<byte>, after: seq<byte>, at: nat, from: nat, to: nat, blob: seq<byte>) {
    && |after| == |before| && from <= to && (from < to ==> to <= |blob|) && at + (to - from) <= |after|
    && (forall k :: 0 <= k < |after| ==>
        after[k] == if at <= k < at + (to - from) then blob[from + (k - at)] else before[k])
  }

  lemma CopiedIsSlice(before: seq<byte>, after: seq<byte>, from: nat, to: nat, blob: seq<byte>)
    requires Copied(before, after, 0, from, to, blob) && to <= |blob|
    ensures after[..to - from] == blob[from..to]
  {
  }

  lemma CopiedTransitive(a: seq<byte>, b: seq<byte>, c: seq<byte>, at: nat, from: nat, mid: nat, to: nat, blob: seq<byte>)
    requires Copied(a, b, at, from, mid, blob) && Copied(b, c, at + (mid - from), mid, to, blob)
    ensures Copied(a, c, at, from, to, blob)
  {
  }

  class AzureDownloader {
    const blob: seq<byte>
    const workerCount: nat
    const blockSize: nat
    const prefetch: nat
    const reqs: BlockingQueue<Req>
    var open: bool
    var inflight: seq<Req>
    var window: seq<Resp>
    var readCursor: nat
    var writeCursor: nat
    /** In a run without seeks, the requests not consumed yet, in order. */
    ghost var tiles: seq<Req>

    ghost function View(): Pool
      reads this, reqs
    {
      Pool(reqs.q, inflight, window)
    }

    ghost predicate Valid()
      reads this, reqs
    {
      && blockSize >= 1 && workerCount >= 1 && |inflight| <= workerCount && !reqs.closed
      && readCursor <= writeCursor
      && Sound(blob, View())
      && Covered(Blocks(View()), readCursor, writeCursor)
      && Alike(Blocks(View()), blockSize, |blob|)
    }

    ghost function Stocked(): Stock
      reads this, reqs
    {
      StockOf(View())
    }

    /** What a read of this size has to choose from once its request loop is done. */
    ghost function StockedFor(size: nat): Stock
      reads this, reqs
    {
      AfterRequests(Stocked(), writeCursor, readCursor, size, prefetch, blockSize, |blob|)
    }

    /** No request of an earlier position is outstanding: the blocks are the tiles from the cursor on. */
    ghost predicate Sequential()
      reads this, reqs
    {
      && Blocks(View()) == multiset(tiles)
      && Tiling(tiles, readCursor, writeCursor, blockSize, |blob|)
    }

    /** The last tile was requested within the prefetch distance. */
    ghost predicate Ahead(cursor: nat)
      reads this
    {
      tiles != [] ==> tiles[|tiles| - 1].off < cursor + prefetch * blockSize
    }

    constructor (blob: seq<byte>, workerCount: nat, blockSize: nat, prefetch: nat, found: bool)
      requires workerCount >= 1 && blockSize >= 1
      ensures Valid() && Sequential() && Ahead(0) && fresh(reqs)
      ensures View() == Pool([], [], [])
      ensures this.blob == blob && open == found && readCursor == writeCursor == 0
      ensures this.workerCount == workerCount && this.blockSize == blockSize && this.prefetch == prefetch
    {
      this.blob := blob;
      this.workerCount := workerCount;
      this.blockSize := blockSize;
      this.prefetch := prefetch;
      reqs := new BlockingQueue<Req>();
      open := found;
      inflight := [];
      window := [];
      readCursor := 0;
      writeCursor := 0;
      tiles := [];
      new;
      assert Reqs(window) == [];
      assert Blocks(View()) == multiset{};
    }

    /** A free worker takes the next request. */
    method WorkerPop()
      requires Valid() && reqs.q != [] && |inflight| < workerCount
      modifies this`inflight, reqs
      ensures Valid() && Blocks(View()) == old(Blocks(View()))
      ensures Stocked() == Started(old(Stocked()))
      ensures WorkerMove(workerCount, old(Stocked()), Stocked())
      ensures |reqs.q| == |old(reqs.q)| - 1 && |inflight| == |old(inflight)| + 1
    {
      StartKeeps(blob, View());
      var r := reqs.Pop();
      inflight := inflight + [r.value];
      assert View() == StartNext(old(View()));
    }

    /** A worker has downloaded its block and pushes it onto the heap. */
    method WorkerComplete(i: nat)
      requires Valid() && i < |inflight|
      modifies this`inflight, this`window
      ensures Valid() && Blocks(View()) == old(Blocks(View()))
      ensures Stocked() == Finished(old(Stocked()), i)
      ensures WorkerMove(workerCount, old(Stocked()), Stocked())
      ensures |inflight| == |old(inflight)| - 1
    {
      var req := inflight[i];
      assert Inside(blob, req);
      window := MinHeap.Push(window, Offset, Resp(req, Slice(blob, req)));
      inflight := Without(inflight, i);
      assert Completes(blob, old(View()), View(), i);
      CompleteKeeps(blob, old(View()), View(), i);
    }

    /** Between two calls: the workers start and complete requests as they like. */
    method WorkersRun()
      requires Valid()
      modifies this`inflight, this`window, reqs
      ensures Valid() && Blocks(View()) == old(Blocks(View()))
      ensures Reach(workerCount, old(Stocked()), Stocked())
      ensures old(Sequential()) ==> Sequential()
    {
      hide Reach, Sound, Covered, WorkerMove, StockOf, Alike, Tiling;
      ghost var start := Stocked();
      ReachSelf(workerCount, start);
      while |reqs.q| > 0 || |inflight| > 0
        invariant Valid() && Blocks(View()) == old(Blocks(View())) && Reach(workerCount, start, Stocked())
        decreases 2 * |reqs.q| + |inflight|
      {
        ghost var before := Stocked();
        if {
          case true =>
            return;
          case |reqs.q| > 0 && |inflight| < workerCount =>
            WorkerPop();
            ReachOnce(workerCount, start, before, Stocked());
          case |inflight| > 0 =>
            var i :| 0 <= i < |inflight|;
            WorkerComplete(i);
            ReachOnce(workerCount, start, before, Stocked());
        }
      }
    }

    predicate FrontIsDue()
      reads this
    {
      window != [] && window[0].req.off <= readCursor
    }

    /** The front of the heap is a response that starts first. */
    lemma FrontOfWindow()
      requires Valid()
      ensures FrontIsDue() <==> Due(Stocked().window, readCursor)
      ensures window != [] ==> IsFront(Stocked().window, window[0].req)
    {
      forall b | b in Stocked().window ensures window != [] && window[0].req.off <= b.off {
        assert b in Reqs(window);
        FrontIsFirst(View(), b);
      }
      if window != [] {
        assert Reqs(window)[0] == window[0].req;
      }
    }

    /**
     * The wait in `read`. If the front is due, nothing moves: the reader holds the lock. Otherwise workers start and
     * complete requests in any order, as many of them as they like, until the front is due and the reader has the lock
     * back; with no request left to wait for, the wait never ends.
     */
    method Await() returns (due: bool)
      requires Valid()
      modifies this`inflight, this`window, reqs
      ensures Valid() && Blocks(View()) == old(Blocks(View()))
      ensures due <==> FrontIsDue()
      ensures due ==> Waits(workerCount, old(Stocked()), readCursor, Stocked())
      ensures !due ==> reqs.q == [] && inflight == []
    {
      hide Reach, Sound, Covered, WorkerMove, StockOf, Alike;
      ghost var start := Stocked();
      FrontOfWindow();
      if FrontIsDue() {
        return true;
      }
      ReachSelf(workerCount, start);
      while |reqs.q| > 0 || |inflight| > 0
        invariant Valid() && Blocks(View()) == old(Blocks(View())) && Reach(workerCount, start, Stocked())
        decreases 2 * |reqs.q| + |inflight|
      {
        ghost var before := Stocked();
        if {
          case FrontIsDue() =>
            FrontOfWindow();
            return true;
          case |reqs.q| > 0 && |inflight| < workerCount =>
            WorkerPop();
            ReachOnce(workerCount, start, before, Stocked());
          case |inflight| > 0 =>
            var i :| 0 <= i < |inflight|;
            WorkerComplete(i);
            ReachOnce(workerCount, start, before, Stocked());
        }
      }
      FrontOfWindow();
      due := FrontIsDue();
    }

    /** How far a read up to `target` requests. */
    function Upto(target: nat): nat {
      Min(|blob|, target + prefetch * blockSize)
    }

    /** Push the next request. */
    method RequestNext() returns (ghost r: Req)
      requires Valid() && writeCursor < |blob|
      modifies this`writeCursor, this`tiles, reqs
      ensures Valid() && old(writeCursor) < writeCursor <= |blob|
      ensures r.off == old(writeCursor) && CutTo(blockSize, |blob|, r) && writeCursor == r.End()
      ensures reqs.q == old(reqs.q) + [r] && Blocks(View()) == old(Blocks(View())) + multiset{r}
      ensures old(Sequential()) ==> Sequential()
      ensures tiles != [] && tiles[|tiles| - 1] == r
    {
      hide Tiling, Sound, Covered, Blocks, Alike;
      var next := Req(writeCursor, Min(blockSize, |blob| - writeCursor));
      r := next;
      RequestKeeps(blob, View(), r, readCursor);
      AlikeGrows(Blocks(View()), r, blockSize, |blob|);
      if Sequential() {
        RequestTiles(tiles, r, readCursor, blockSize, |blob|);
      }
      var accepted := reqs.Push(next);
      writeCursor := writeCursor + next.len;
      tiles := tiles + [r];
    }

    /** The request loop of `read`: whole blocks until the prefetch distance beyond `target` is requested. */
    method RequestAhead(target: nat) returns (ghost added: seq<Req>)
      requires Valid()
      modifies this`writeCursor, this`tiles, reqs
      ensures Valid() && writeCursor >= old(writeCursor)
      ensures writeCursor >= Min(|blob|, target + prefetch * blockSize)
      ensures added != [] ==> added[|added| - 1].off < Min(|blob|, target + prefetch * blockSize)
      ensures RequestsMade(added, old(writeCursor), writeCursor, Upto(target), blockSize, |blob|)
      ensures reqs.q == old(reqs.q) + added && Blocks(View()) == old(Blocks(View())) + multiset(added)
      ensures Stocked() == Requested(old(Stocked()), TileList(old(writeCursor), Upto(target), blockSize, |blob|))
      ensures old(Sequential()) ==> Sequential()
      ensures old(Ahead(readCursor)) && readCursor <= target ==> Ahead(target)
    {
      hide Tiling, Sound, Covered, Blocks, Alike, RequestsSoFar, RequestsMade;
      var reqTarget := Min(|blob|, target + prefetch * blockSize);
      ghost var from := writeCursor;
      added := [];
      RequestsNone(from, reqTarget, blockSize, |blob|);
      assert reqs.q == old(reqs.q) + [];
      while writeCursor < reqTarget
        invariant Valid() && writeCursor >= from
        invariant RequestsSoFar(added, from, writeCursor, reqTarget, blockSize, |blob|)
        invariant reqs.q == old(reqs.q) + added && Blocks(View()) == old(Blocks(View())) + multiset(added)
        invariant old(Sequential()) ==> Sequential()
        invariant old(Ahead(readCursor)) && readCursor <= target ==> Ahead(target)
        decreases reqTarget - writeCursor
      {
        ghost var r := RequestNext();
        RequestsOneMore(added, from, reqTarget, r, blockSize, |blob|);
        added := added + [r];
      }
      RequestsDone(added, from, writeCursor, reqTarget, blockSize, |blob|);
      assert added == TileList(from, reqTarget, blockSize, |blob|) by {
        RequestsAre(added, from, writeCursor, reqTarget, blockSize, |blob|);
      }
      LastIsNeeded(added, from, writeCursor, reqTarget, blockSize, |blob|);
    }

    /** With nothing outstanding, a front that is not due means that nothing covers the cursor. */
    lemma NothingDue()
      requires Valid() && !FrontIsDue() && reqs.q == [] && inflight == []
      ensures !IsCovered(Blocks(View()), readCursor)
    {
      forall b | b in Blocks(View()) ensures !Covers(b, readCursor) {
        assert b in Reqs(window);
        FrontIsFirst(View(), b);
      }
    }

    /** In a run without seeks, the front that is due is the first tile. */
    lemma FrontIsFirstTile()
      requires Valid() && FrontIsDue() && Sequential()
      ensures tiles != [] && window[0].req == tiles[0] && Covers(tiles[0], readCursor)
    {
      var b := window[0].req;
      assert Reqs(window)[0] == b;
      assert b in multiset(Reqs(window)) && b in multiset(tiles);
      OnlyFirstTileIsDue(tiles, readCursor, writeCursor, blockSize, |blob|, b);
    }

    /** `pop_heap`, `pop_back`, and the new cursor. */
    method PopFront(moved: nat)
      requires Valid() && FrontIsDue() && readCursor <= moved <= writeCursor && window[0].req.End() <= moved
      modifies this`window, this`readCursor
      ensures Valid() && readCursor == moved
      ensures old(Blocks(View())) == Blocks(View()) + multiset{old(window[0].req)}
      ensures |Blocks(View())| < |old(Blocks(View()))|
      ensures Stocked() == old(Stocked()).(window := old(Stocked()).window - multiset{old(window[0].req)})
    {
      window := MinHeap.Pop(window, Offset);
      DropKeeps(blob, old(View()), View());
      DropCovered(Blocks(View()), old(window[0].req), readCursor, moved, writeCursor);
      readCursor := moved;
    }

    /** In a run without seeks, the tiles after the front are the rest of the blocks. */
    lemma RestTiles()
      requires Valid() && FrontIsDue() && Sequential()
      ensures tiles != [] && tiles[0] == window[0].req
      ensures Blocks(View()) == multiset(tiles[1..]) + multiset{window[0].req}
      ensures Tiling(tiles[1..], window[0].req.End(), writeCursor, blockSize, |blob|)
    {
      FrontIsFirstTile();
      DropTile(tiles, readCursor, writeCursor, blockSize, |blob|);
    }

    /** The record of unconsumed requests changes, and nothing else. */
    ghost method Retile(rest: seq<Req>)
      requires Valid()
      modifies this`tiles
      ensures Valid() && tiles == rest && Stocked() == old(Stocked())
    {
      tiles := rest;
    }

    /** The cursor moves on inside the front. */
    method MoveInFront(moved: nat)
      requires Valid() && FrontIsDue() && readCursor <= moved < window[0].req.End() && moved <= writeCursor
      modifies this`readCursor
      ensures Valid() && readCursor == moved
      ensures old(Sequential()) ==> Sequential()
    {
      if Sequential() {
        FrontIsFirstTile();
      }
      readCursor := moved;
    }

    /** The front leaves the window, and the cursor moves; in a run without seeks it is the first tile. */
    method DropFront(moved: nat)
      requires Valid() && FrontIsDue() && readCursor <= moved <= writeCursor && window[0].req.End() <= moved
      modifies this`window, this`readCursor, this`tiles
      ensures Valid() && readCursor == moved
      ensures |Blocks(View())| < |old(Blocks(View()))|
      ensures Blocks(View()) <= old(Blocks(View()))
      ensures Stocked() == old(Stocked()).(window := old(Stocked()).window - multiset{old(window[0].req)})
      ensures old(Sequential() && window[0].req.End() == moved) ==> Sequential()
      ensures tiles == old(tiles) || (old(tiles) != [] && tiles == old(tiles)[1..])
    {
      hide Tiling, Sound, Covered, Blocks, Alike, StockOf;
      ghost var b, rest := window[0].req, tiles;
      ghost var tiled := Sequential() && b.End() == moved;
      if tiled {
        RestTiles();
        rest := tiles[1..];
      }
      PopFront(moved);
      if tiled {
        CancelOne(Blocks(View()), multiset(rest), b);
      }
      Retile(rest);
    }

    /** `memcpy` out of the front's buffer. */
    method CopyFront(buffer: array<byte>, at: nat, moved: nat)
      requires Valid() && FrontIsDue() && readCursor <= moved <= window[0].req.End()
      requires at + (moved - readCursor) <= buffer.Length
      modifies buffer
      ensures Copied(old(buffer[..]), buffer[..], at, readCursor, moved, blob)
      ensures moved <= |blob|
    {
      var resp := window[0];
      assert resp in window && Filled(blob, resp);
      var skip := readCursor - resp.req.off;
      forall k | 0 <= k < moved - readCursor {
        buffer[at + k] := resp.data[skip + k];
      }
    }

    /** One turn of the loop in `read`: copy what the front holds up to `target`, and drop it once it is used up. */
    method ConsumeFront(buffer: array<byte>, at: nat, target: nat) returns (stale: bool)
      requires Valid() && FrontIsDue() && readCursor < target && Min(|blob|, target) <= writeCursor
      requires at + (target - readCursor) <= buffer.Length
      modifies buffer, this`window, this`readCursor, this`tiles
      ensures Valid() && old(readCursor) <= readCursor <= target
      ensures Copied(old(buffer[..]), buffer[..], at, old(readCursor), readCursor, blob)
      ensures stale <==> old(window[0].req.off + window[0].req.len) < old(readCursor)
      ensures stale ==> readCursor == old(readCursor)
      ensures Blocks(View()) <= old(Blocks(View()))
      ensures !stale ==> (Stocked(), readCursor) == Consumed(old(Stocked()), old(window[0].req), target)
      ensures readCursor < target ==> |Blocks(View())| < |old(Blocks(View()))|
      ensures old(Sequential()) ==> Sequential() && !stale
      ensures tiles == old(tiles) || (old(tiles) != [] && tiles == old(tiles)[1..])
    {
      hide Tiling, Sound, Covered, Blocks, Alike, StockOf;
      if Sequential() {
        FrontIsFirstTile();
      }
      var end := window[0].req.End();
      if end < readCursor {
        DropFront(readCursor);
        return true;
      }
      var moved := Min(target, end);
      CopyFront(buffer, at, moved);
      if moved == end {
        DropFront(moved);
      } else {
        MoveInFront(moved);
      }
      stale := false;
    }

    /** Wait for the front; a wait that never ends is one at the end of the blob. */
    method AwaitBelow(target: nat) returns (due: bool)
      requires Valid() && readCursor < target && Min(|blob|, target) <= writeCursor
      modifies this`inflight, this`window, reqs
      ensures Valid() && Blocks(View()) == old(Blocks(View()))
      ensures due ==> FrontIsDue() && Waits(workerCount, old(Stocked()), readCursor, Stocked())
      ensures !due ==> readCursor >= |blob|
    {
      due := Await();
      if !due {
        NothingDue();
        assert readCursor < writeCursor ==> IsCovered(Blocks(View()), readCursor);
      }
    }

    /** One turn of the loop of `read`; `Returned(false)` stands for going on. */
    method ReadTurn(buffer: array<byte>, at: nat, target: nat) returns (r: ReadResult)
      requires Valid() && readCursor < target && Min(|blob|, target) <= writeCursor
      requires at + (target - readCursor) <= buffer.Length
      modifies buffer, this`inflight, this`window, this`readCursor, this`tiles, reqs
      ensures Valid() && old(readCursor) <= readCursor <= target
      ensures Copied(old(buffer[..]), buffer[..], at, old(readCursor), readCursor, blob)
      ensures r != NotOpen
      ensures r == Returned(true) || r == Waiting ==> readCursor == old(readCursor)
      ensures r == Waiting ==> readCursor >= |blob|
      ensures r == Returned(true) ==> GivesUp(workerCount, old(Stocked()), readCursor, target)
      ensures r == Returned(false) ==> Turn(workerCount, old(Stocked()), old(readCursor), target, Stocked(), readCursor)
      ensures Blocks(View()) <= old(Blocks(View()))
      ensures r == Returned(false) && readCursor < target ==> |Blocks(View())| < |old(Blocks(View()))|
      ensures old(Sequential()) ==> Sequential() && r != Returned(true)
      ensures old(Ahead(target)) ==> Ahead(target)
    {
      hide Tiling, Sound, Covered, Blocks, Alike, Waits, StockOf, IsFront;
      var due := AwaitBelow(target);
      if !due {
        return Waiting;
      }
      FrontOfWindow();
      ghost var w, f := Stocked(), window[0].req;
      var stale := ConsumeFront(buffer, at, target);
      assert Waits(workerCount, old(Stocked()), old(readCursor), w) && IsFront(w.window, f);
      assert stale ==> Stale(f, readCursor);
      r := Returned(stale);
    }

    /** The loop of `read`. */
    method ReadUpTo(buffer: array<byte>, start: nat, target: nat) returns (r: ReadResult)
      requires Valid() && readCursor <= target && start + (target - readCursor) <= buffer.Length
      requires Min(|blob|, target) <= writeCursor
      modifies buffer, this`inflight, this`window, this`readCursor, this`tiles, reqs
      ensures Valid() && old(readCursor) <= readCursor <= target
      ensures Copied(old(buffer[..]), buffer[..], start, old(readCursor), readCursor, blob)
      ensures r != NotOpen
      ensures r.Returned? ==> (r.stale <==> readCursor < target)
      ensures r.Waiting? ==> readCursor < target && readCursor >= |blob|
      ensures r == Returned(true) ==> ShortAt(workerCount, old(Stocked()), old(readCursor), target, readCursor)
      ensures Blocks(View()) <= old(Blocks(View()))
      ensures old(Sequential()) ==> Sequential() && r != Returned(true)
      ensures old(Ahead(target)) ==> Ahead(target)
    {
      hide Tiling, Sound, Covered, Blocks, Alike, StockOf, ShortAt, Turn, GivesUp;
      var first := readCursor;
      ghost var stock := Stocked();
      r := Returned(false);
      while readCursor < target && r == Returned(false)
        invariant Valid() && first <= readCursor <= target && r != NotOpen
        invariant Copied(old(buffer[..]), buffer[..], start, first, readCursor, blob)
        invariant r == Returned(true) || r == Waiting ==> readCursor < target
        invariant r == Waiting ==> readCursor >= |blob|
        invariant Blocks(View()) <= old(Blocks(View()))
        invariant r == Returned(false) ==> ShortCarries(workerCount, Stocked(), readCursor, stock, first, target)
        invariant r == Returned(true) ==> ShortAt(workerCount, stock, first, target, readCursor)
        invariant old(Sequential()) ==> Sequential() && r != Returned(true)
        invariant old(Ahead(target)) ==> Ahead(target)
        decreases r == Returned(false), readCursor < target, |Blocks(View())|
      {
        ghost var before, mid, was := buffer[..], readCursor, Stocked();
        r := ReadTurn(buffer, start + (readCursor - first), target);
        if r == Returned(true) {
          GivesUpCarried(workerCount, was, mid, stock, first, target);
        } else if r == Returned(false) {
          TurnCarries(workerCount, was, mid, Stocked(), readCursor, stock, first, target);
        }
        CopiedTransitive(old(buffer[..]), before, buffer[..], start, first, mid, readCursor, blob);
      }
    }

    /** `read` on an open blob: request ahead, then take blocks until the target. */
    method ReadAhead(buffer: array<byte>, start: nat, size: nat) returns (r: ReadResult, ghost added: seq<Req>)
      requires Valid() && start + size <= buffer.Length
      modifies buffer, this`inflight, this`window, this`readCursor, this`writeCursor, this`tiles, reqs
      ensures Valid() && old(readCursor) <= readCursor <= old(readCursor) + size
      ensures Copied(old(buffer[..]), buffer[..], start, old(readCursor), readCursor, blob)
      ensures r != NotOpen
      ensures r.Returned? ==> (r.stale <==> readCursor < old(readCursor) + size)
      ensures r.Waiting? ==> readCursor < old(readCursor) + size && readCursor >= |blob|
      ensures r == Returned(true) ==>
        ShortAt(workerCount, old(StockedFor(size)), old(readCursor), old(readCursor) + size, readCursor)
      ensures RequestsMade(added, old(writeCursor), writeCursor, Upto(old(readCursor) + size), blockSize, |blob|)
      ensures writeCursor >= Min(|blob|, old(readCursor) + size + prefetch * blockSize)
      ensures added != [] ==> added[|added| - 1].off < Min(|blob|, old(readCursor) + size + prefetch * blockSize)
      ensures Blocks(View()) <= old(Blocks(View())) + multiset(added)
      ensures old(Sequential()) ==> Sequential() && r != Returned(true)
      ensures old(Ahead(readCursor)) ==> Ahead(old(readCursor) + size)
    {
      hide Tiling, Sound, Covered, Blocks, Alike, ShortAt, StockOf, Requested, RequestsMade, Copied, TileList;
      added := RequestAhead(readCursor + size);
      assert Stocked() == old(StockedFor(size));
      r := ReadUpTo(buffer, start, readCursor + size);
    }

    /** A short read has met the end of a request that was made before it. */
    lemma ShortMeetsOld(size: nat, end: nat)
      requires Valid() && ShortAt(workerCount, StockedFor(size), readCursor, readCursor + size, end)
      ensures SomeStale(Blocks(View()), end)
    {
      hide Covered, Sound, ShortAt, SomeStale, Alike;
      assert Stocked().All() == Blocks(View());
      ShortNeedsOld(workerCount, Stocked(), writeCursor, Min(|blob|, readCursor + size + prefetch * blockSize),
        readCursor, readCursor + size, end, blockSize, |blob|);
    }

    /**
     * A read with the write cursor at the cursor, as a seek leaves it, can be short only if a request made before the seek
     * ends too early, whether it has arrived since or not.
     */
    lemma SeekedReadNeedsOld(size: nat, end: nat)
      requires Valid() && readCursor == writeCursor
      requires ShortAt(workerCount, StockedFor(size), readCursor, readCursor + size, end)
      ensures EndsTooEarly(Blocks(View()),
        multiset(TileList(readCursor, Upto(readCursor + size), blockSize, |blob|)), readCursor, readCursor + size)
    {
      hide EndsTooEarly, Covered, Sound, ShortAt;
      assert Stocked().All() == Blocks(View());
      SeekReadNeedsOld(workerCount, Stocked(), readCursor, Upto(readCursor + size), readCursor + size, end, blockSize, |blob|);
    }

    /** `read(buffer + start, size)`; `added` are the requests it makes. */
    method Read(buffer: array<byte>, start: nat, size: nat) returns (r: ReadResult, ghost added: seq<Req>)
      requires Valid() && start + size <= buffer.Length
      modifies buffer, this`inflight, this`window, this`readCursor, this`writeCursor, this`tiles, reqs
      ensures Valid() && old(readCursor) <= readCursor <= old(readCursor) + size
      ensures Copied(old(buffer[..]), buffer[..], start, old(readCursor), readCursor, blob)
      ensures r == NotOpen <==> !open
      ensures r == NotOpen ==> readCursor == old(readCursor) && View() == old(View())
      ensures r.Returned? ==> (r.stale <==> readCursor < old(readCursor) + size)
      ensures r.Waiting? ==> readCursor < old(readCursor) + size && readCursor >= |blob|
      ensures r == Returned(true) ==>
        && ShortAt(workerCount, old(StockedFor(size)), old(readCursor), old(readCursor) + size, readCursor)
        && SomeStale(old(Blocks(View())), readCursor)
      ensures open ==>
        && RequestsMade(added, old(writeCursor), writeCursor, Upto(old(readCursor) + size), blockSize, |blob|)
        && Blocks(View()) <= old(Blocks(View())) + multiset(added)
      ensures open ==> writeCursor >= Min(|blob|, old(readCursor) + size + prefetch * blockSize)
      ensures added != [] ==> added[|added| - 1].off < Min(|blob|, old(readCursor) + size + prefetch * blockSize)
      ensures r == Returned(true) ==> exists b :: b in old(Blocks(View())) && b.off + b.len < readCursor
      ensures old(Sequential()) ==> Sequential() && r != Returned(true)
      ensures open && old(Sequential()) ==> (r == Waiting <==> size > 0 && old(readCursor) + size > |blob|)
      ensures old(Ahead(readCursor)) && r == Returned(false) ==> Ahead(readCursor)
      ensures old(Sequential() && Ahead(readCursor)) && r == Returned(false) ==> |tiles| <= prefetch + 1
    {
      hide Tiling, Sound, Covered, Blocks, Alike, ShortAt, SomeStale, RequestsMade;
      if !open {
        return NotOpen, [];
      }
      forall end | ShortAt(workerCount, StockedFor(size), readCursor, readCursor + size, end)
        ensures SomeStale(Blocks(View()), end)
      {
        ShortMeetsOld(size, end);
      }
      r, added := ReadAhead(buffer, start, size);
      if r == Returned(true) {
        EndsBelow(old(Blocks(View())), readCursor);
      }
      if Sequential() && Ahead(readCursor) {
        PrefetchIsBounded(tiles, readCursor, writeCursor, blockSize, |blob|, prefetch);
      }
    }

    /** `seek`: both cursors move and the window is cleared; requests queued or in flight are not. */
    method Seek(offset: nat)
      requires Valid()
      modifies this`readCursor, this`writeCursor, this`window, this`tiles
      ensures Valid() && readCursor == writeCursor == offset && Ahead(offset)
      ensures View() == old(View()).(window := [])
      ensures Stocked() == old(Stocked()).(window := multiset{})
      ensures old(reqs.q) == [] && old(inflight) == [] <==> Sequential()
    {
      readCursor := offset;
      writeCursor := offset;
      window := [];
      tiles := [];
      assert Reqs(window) == [];
      assert Blocks(View()) == multiset(reqs.q) + multiset(inflight);
    }
  }
}
