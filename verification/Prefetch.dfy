/** The downloader's blocks as values: requests queued, in flight, and downloaded into the window. */
module Prefetch {
  import opened Bytes
  import MinHeap

  datatype Req = Req(off: nat, len: nat) {
    function End(): nat {
      off + len
    }
  }

  datatype Resp = Resp(req: Req, data: seq<byte>)

  function Offset(r: Resp): int {
    r.req.off
  }

  predicate Covers(b: Req, p: nat) {
    b.off <= p < b.End()
  }

  function Min(a: int, b: int): int {
    if a < b then a else b
  }

  /** The bytes a download of the request yields. */
  function Slice(blob: seq<byte>, r: Req): seq<byte>
    requires r.End() <= |blob|
  {
    blob[r.off..r.End()]
  }

  function Reqs(window: seq<Resp>): seq<Req> {
    seq(|window|, i requires 0 <= i < |window| => window[i].req)
  }

  function Without<T>(s: seq<T>, j: nat): (r: seq<T>)
    requires j < |s|
    ensures multiset(r) == multiset(s) - multiset{s[j]}
  {
    assert s == s[..j] + [s[j]] + s[j + 1..];
    s[..j] + s[j + 1..]
  }

  lemma ReqsWithout(w: seq<Resp>, j: nat)
    requires j < |w|
    ensures multiset(Reqs(w)) == multiset(Reqs(Without(w, j))) + multiset{w[j].req}
  {
    assert Reqs(Without(w, j)) == Without(Reqs(w), j);
  }

  lemma {:induction false} SameRespsSameReqs(v: seq<Resp>, w: seq<Resp>)
    requires multiset(v) == multiset(w)
    ensures multiset(Reqs(v)) == multiset(Reqs(w))
  {
    if v == [] {
      assert |multiset(w)| == |multiset(v)| == 0;
    } else {
      assert v[0] in multiset(w);
      var j :| 0 <= j < |w| && w[j] == v[0];
      SameRespsSameReqs(Without(v, 0), Without(w, j));
      ReqsWithout(v, 0);
      ReqsWithout(w, j);
    }
  }

  /** One response more in the window is one request more. */
  lemma ReqsGain(v: seq<Resp>, w: seq<Resp>, x: Resp)
    requires multiset(w) == multiset(v) + multiset{x}
    ensures multiset(Reqs(w)) == multiset(Reqs(v)) + multiset{x.req}
  {
    SameRespsSameReqs(w, v + [x]);
    assert Reqs(v + [x]) == Reqs(v) + [x.req];
  }

  /** A request as `read` cuts it: of block size, or up to the end of the blob. */
  predicate CutTo(blockSize: nat, blobSize: nat, r: Req) {
    r.off < blobSize && r.len == Min(blockSize, blobSize - r.off)
  }

  ghost predicate Alike(blocks: multiset<Req>, blockSize: nat, blobSize: nat) {
    forall b :: b in blocks ==> CutTo(blockSize, blobSize, b)
  }

  /** The requests that the loop in `read` adds when the write cursor is at `from`. */
  function TileList(from: nat, upto: nat, blockSize: nat, blobSize: nat): seq<Req>
    decreases blobSize - from
  {
    if blockSize == 0 || from >= upto || from >= blobSize then []
    else
      var r := Req(from, Min(blockSize, blobSize - from));
      [r] + TileList(r.End(), upto, blockSize, blobSize)
  }

  /**
   * The unconsumed requests of a run without seeks, in order: the first one covers the read cursor, each starts
   * where the previous one ends, the last one ends at the write cursor, and all are of block size except one
   * that ends at the end of the blob.
   */
  ghost predicate Tiling(tiles: seq<Req>, read: nat, write: nat, blockSize: nat, blobSize: nat) {
    && (tiles == [] ==> read == write)
    && (tiles != [] ==> Covers(tiles[0], read) && tiles[|tiles| - 1].End() == write)
    && (forall i, j :: 0 <= i < j < |tiles| && j == i + 1 ==> tiles[j].off == tiles[i].End())
    && (forall i :: 0 <= i < |tiles| ==>
        tiles[i].off < blobSize && tiles[i].len == Min(blockSize, blobSize - tiles[i].off))
  }

  /** They tile without gap or overlap, and the last one is needed. */
  lemma {:induction false} TileListTiles(from: nat, upto: nat, write: nat, blockSize: nat, blobSize: nat)
    requires blockSize >= 1 && upto <= blobSize
    requires var tiles := TileList(from, upto, blockSize, blobSize);
             write == if tiles == [] then from else tiles[|tiles| - 1].End()
    ensures var tiles := TileList(from, upto, blockSize, blobSize);
            && Tiling(tiles, from, write, blockSize, blobSize)
            && (tiles == [] <==> from >= upto) && write >= upto
            && (tiles != [] ==> tiles[0].off == from && tiles[|tiles| - 1].off < upto)
    decreases blobSize - from
  {
    if from < upto {
      var r := Req(from, Min(blockSize, blobSize - from));
      TileListTiles(r.End(), upto, write, blockSize, blobSize);
    }
  }

  /** The requests of one read: the write cursor moves from `from` to `write`, to `upto` or beyond it. */
  ghost predicate RequestsMade(added: seq<Req>, from: nat, write: nat, upto: nat, blockSize: nat, blobSize: nat) {
    && added == TileList(from, upto, blockSize, blobSize)
    && Tiling(added, from, write, blockSize, blobSize) && write >= from && write >= upto
    && (added != [] ==> added[0].off == from && added[|added| - 1].off < upto)
  }

  /** The request loop has come from `from` to `write`. */
  ghost predicate RequestsSoFar(added: seq<Req>, from: nat, write: nat, upto: nat, blockSize: nat, blobSize: nat) {
    && added + TileList(write, upto, blockSize, blobSize) == TileList(from, upto, blockSize, blobSize)
    && write == if added == [] then from else added[|added| - 1].End()
  }

  lemma RequestsNone(from: nat, upto: nat, blockSize: nat, blobSize: nat)
    ensures RequestsSoFar([], from, from, upto, blockSize, blobSize)
  {
  }

  lemma RequestsOneMore(added: seq<Req>, from: nat, upto: nat, r: Req, blockSize: nat, blobSize: nat)
    requires RequestsSoFar(added, from, r.off, upto, blockSize, blobSize)
    requires blockSize >= 1 && r.off < upto <= blobSize && CutTo(blockSize, blobSize, r)
    ensures RequestsSoFar(added + [r], from, r.End(), upto, blockSize, blobSize)
  {
    assert TileList(r.off, upto, blockSize, blobSize) == [r] + TileList(r.End(), upto, blockSize, blobSize);
    assert added + ([r] + TileList(r.End(), upto, blockSize, blobSize))
        == (added + [r]) + TileList(r.End(), upto, blockSize, blobSize);
  }

  lemma RequestsDone(added: seq<Req>, from: nat, write: nat, upto: nat, blockSize: nat, blobSize: nat)
    requires RequestsSoFar(added, from, write, upto, blockSize, blobSize)
    requires blockSize >= 1 && upto <= blobSize && write >= upto
    ensures RequestsMade(added, from, write, upto, blockSize, blobSize)
  {
    assert added + [] == added;
    TileListTiles(from, upto, write, blockSize, blobSize);
  }

  lemma RequestsAre(added: seq<Req>, from: nat, write: nat, upto: nat, blockSize: nat, blobSize: nat)
    requires RequestsMade(added, from, write, upto, blockSize, blobSize)
    ensures added == TileList(from, upto, blockSize, blobSize)
  {
  }

  lemma LastIsNeeded(added: seq<Req>, from: nat, write: nat, upto: nat, blockSize: nat, blobSize: nat)
    requires RequestsMade(added, from, write, upto, blockSize, blobSize)
    ensures added != [] ==> added[|added| - 1].off < upto
  {
  }

  lemma AlikeGrows(blocks: multiset<Req>, r: Req, blockSize: nat, blobSize: nat)
    requires Alike(blocks, blockSize, blobSize) && CutTo(blockSize, blobSize, r)
    ensures Alike(blocks + multiset{r}, blockSize, blobSize)
  {
  }

  lemma {:induction false} TilesAscend(tiles: seq<Req>, read: nat, write: nat, blockSize: nat, blobSize: nat, i: nat)
    requires Tiling(tiles, read, write, blockSize, blobSize) && blockSize >= 1 && 0 < i < |tiles|
    ensures tiles[i].off >= tiles[0].End() + (i - 1) * blockSize
  {
    if i > 1 {
      TilesAscend(tiles, read, write, blockSize, blobSize, i - 1);
      assert tiles[i].off == tiles[i - 1].End();
      assert tiles[i - 1].len == blockSize;
      assert (i - 1) * blockSize == (i - 2) * blockSize + blockSize;
    }
  }

  lemma {:induction false} TilesFollow(tiles: seq<Req>, read: nat, write: nat, blockSize: nat, blobSize: nat, i: nat)
    requires Tiling(tiles, read, write, blockSize, blobSize) && 0 < i < |tiles|
    ensures tiles[i].off >= tiles[0].End()
  {
    if i > 1 {
      TilesFollow(tiles, read, write, blockSize, blobSize, i - 1);
    }
  }

  /** Only the first tile starts at or before the read cursor. */
  lemma OnlyFirstTileIsDue(tiles: seq<Req>, read: nat, write: nat, blockSize: nat, blobSize: nat, b: Req)
    requires Tiling(tiles, read, write, blockSize, blobSize)
    requires b in tiles && b.off <= read
    ensures b == tiles[0]
  {
    var i :| 0 <= i < |tiles| && tiles[i] == b;
    if i > 0 {
      TilesFollow(tiles, read, write, blockSize, blobSize, i);
    }
  }

  /** Prefetching stays bounded: a last tile requested within `prefetch` blocks of the cursor bounds their number. */
  lemma PrefetchIsBounded(tiles: seq<Req>, read: nat, write: nat, blockSize: nat, blobSize: nat, prefetch: nat)
    requires Tiling(tiles, read, write, blockSize, blobSize) && blockSize >= 1
    requires tiles != [] ==> tiles[|tiles| - 1].off < read + prefetch * blockSize
    ensures |tiles| <= prefetch + 1
  {
    var k := |tiles|;
    if k >= 2 {
      TilesAscend(tiles, read, write, blockSize, blobSize, k - 1);
      assert (k - 2) * blockSize < prefetch * blockSize;
      MulBelow(k - 2, prefetch, blockSize);
    }
  }

  lemma MulMonotone(a: nat, b: nat, n: nat)
    requires a >= b
    ensures a * n >= b * n
  {
    assert a * n == (a - b) * n + b * n;
  }

  lemma MulBelow(a: nat, b: nat, n: nat)
    requires a * n < b * n
    ensures a < b
  {
    if a >= b {
      MulMonotone(a, b, n);
    }
  }

  /** A request that ends before the read cursor: the branch of `read` that gives up. */
  predicate Stale(r: Req, cursor: nat) {
    r.End() < cursor
  }

  ghost predicate SomeStale(blocks: multiset<Req>, cursor: nat) {
    exists b :: b in blocks && Stale(b, cursor)
  }

  lemma EndsBelow(blocks: multiset<Req>, cursor: nat)
    requires SomeStale(blocks, cursor)
    ensures exists b :: b in blocks && b.off + b.len < cursor
  {
  }

  /** What the workers hold and what is left for them. */
  datatype Pool = Pool(queued: seq<Req>, inflight: seq<Req>, window: seq<Resp>)

  /** Every block requested and not dropped: queued, in flight, or in the window. */
  function Blocks(p: Pool): multiset<Req> {
    multiset(p.queued) + multiset(p.inflight) + multiset(Reqs(p.window))
  }

  predicate Inside(blob: seq<byte>, r: Req) {
    0 < r.len && r.End() <= |blob|
  }

  predicate Filled(blob: seq<byte>, x: Resp) {
    Inside(blob, x.req) && x.data == Slice(blob, x.req)
  }

  /** Requests lie inside the blob, responses hold its bytes, and the window is a heap by offset. */
  ghost predicate Sound(blob: seq<byte>, p: Pool) {
    && (forall r :: r in p.queued || r in p.inflight ==> Inside(blob, r))
    && (forall x :: x in p.window ==> Filled(blob, x))
    && MinHeap.IsHeap(p.window, Offset)
  }

  ghost predicate IsCovered(blocks: multiset<Req>, p: nat) {
    exists b :: b in blocks && Covers(b, p)
  }

  /** Nothing between the cursors is forgotten. */
  ghost predicate Covered(blocks: multiset<Req>, read: nat, write: nat) {
    forall p :: read <= p < write ==> IsCovered(blocks, p)
  }

  function StartNext(p: Pool): Pool
    requires p.queued != []
  {
    Pool(p.queued[1..], p.inflight + [p.queued[0]], p.window)
  }

  lemma StartKeeps(blob: seq<byte>, p: Pool)
    requires p.queued != [] && Sound(blob, p)
    ensures Sound(blob, StartNext(p)) && Blocks(StartNext(p)) == Blocks(p)
  {
    assert p.queued == [p.queued[0]] + p.queued[1..];
  }

  lemma CompleteKeeps(blob: seq<byte>, p: Pool, q: Pool, i: nat)
    requires i < |p.inflight| && Sound(blob, p) && Completes(blob, p, q, i)
    ensures Sound(blob, q) && Blocks(q) == Blocks(p)
    ensures multiset(Reqs(q.window)) == multiset(Reqs(p.window)) + multiset{p.inflight[i]}
  {
    var r := p.inflight[i];
    var x := Resp(r, Slice(blob, r));
    ReqsGain(p.window, q.window, x);
    assert multiset(p.inflight) == multiset(q.inflight) + multiset{r};
    forall s | s in q.queued || s in q.inflight ensures Inside(blob, s) {
      assert s in multiset(q.inflight) ==> s in multiset(p.inflight);
    }
    forall y | y in q.window ensures Filled(blob, y) {
      assert y in multiset(q.window);
      assert y == x || y in multiset(p.window);
    }
  }

  /** The front leaves the window. */
  lemma DropKeeps(blob: seq<byte>, p: Pool, q: Pool)
    requires Sound(blob, p) && p.window != []
    requires q.queued == p.queued && q.inflight == p.inflight && MinHeap.IsHeap(q.window, Offset)
    requires multiset(q.window) == multiset(p.window) - multiset{p.window[0]}
    ensures Sound(blob, q) && Blocks(p) == Blocks(q) + multiset{p.window[0].req}
    ensures multiset(Reqs(p.window)) == multiset(Reqs(q.window)) + multiset{p.window[0].req}
  {
    assert p.window[0] in multiset(p.window);
    ReqsGain(q.window, p.window, p.window[0]);
    forall y | y in q.window ensures Filled(blob, y) {
      assert y in multiset(q.window);
      assert y in multiset(p.window);
    }
  }

  /** One request more at the write cursor covers up to its end. */
  lemma RequestKeeps(blob: seq<byte>, p: Pool, r: Req, read: nat)
    requires Sound(blob, p) && Inside(blob, r) && Covered(Blocks(p), read, r.off)
    ensures var q := p.(queued := p.queued + [r]);
            Sound(blob, q) && Blocks(q) == Blocks(p) + multiset{r} && Covered(Blocks(q), read, r.End())
  {
    var q := p.(queued := p.queued + [r]);
    forall x | read <= x < r.End() ensures IsCovered(Blocks(q), x) {
      if x < r.off {
        assert IsCovered(Blocks(p), x);
        var b :| b in Blocks(p) && Covers(b, x);
        assert b in Blocks(q);
      } else {
        assert r in Blocks(q) && Covers(r, x);
      }
    }
  }

  lemma RequestTiles(tiles: seq<Req>, r: Req, read: nat, blockSize: nat, blobSize: nat)
    requires Tiling(tiles, read, r.off, blockSize, blobSize) && blockSize >= 1
    requires r.off < blobSize && r.len == Min(blockSize, blobSize - r.off)
    ensures Tiling(tiles + [r], read, r.End(), blockSize, blobSize)
  {
  }

  lemma CancelOne<T>(b: multiset<T>, c: multiset<T>, x: T)
    requires b + multiset{x} == c + multiset{x}
    ensures b == c
  {
    forall y ensures b[y] == c[y] {
      assert (b + multiset{x})[y] == (c + multiset{x})[y];
    }
  }

  /** Reading to the end of the first tile leaves the others. */
  lemma DropTile(tiles: seq<Req>, read: nat, write: nat, blockSize: nat, blobSize: nat)
    requires Tiling(tiles, read, write, blockSize, blobSize) && blockSize >= 1 && tiles != []
    ensures Tiling(tiles[1..], tiles[0].End(), write, blockSize, blobSize)
    ensures multiset(tiles) == multiset(tiles[1..]) + multiset{tiles[0]}
  {
    assert tiles == [tiles[0]] + tiles[1..];
  }

  /** A block that ends at or before the cursor covers nothing ahead of it. */
  lemma DropCovered(blocks: multiset<Req>, b: Req, read: nat, moved: nat, write: nat)
    requires Covered(blocks + multiset{b}, read, write) && read <= moved && b.End() <= moved
    ensures Covered(blocks, moved, write)
  {
    forall x | moved <= x < write ensures IsCovered(blocks, x) {
      assert IsCovered(blocks + multiset{b}, x);
      var a :| a in blocks + multiset{b} && Covers(a, x);
      assert a in blocks;
    }
  }

  /** The front of the window starts before every other response. */
  lemma FrontIsFirst(p: Pool, b: Req)
    requires MinHeap.IsHeap(p.window, Offset) && b in Reqs(p.window)
    ensures p.window[0].req.off <= b.off
  {
    var i :| 0 <= i < |Reqs(p.window)| && Reqs(p.window)[i] == b;
    MinHeap.FrontIsMinimum(p.window, Offset, i);
    assert Offset(p.window[0]) <= Offset(p.window[i]);
  }

  /** The `i`-th request in flight has been downloaded. */
  ghost predicate Completes(blob: seq<byte>, p: Pool, q: Pool, i: nat)
    requires i < |p.inflight|
  {
    && p.inflight[i].End() <= |blob|
    && q.queued == p.queued && q.inflight == Without(p.inflight, i)
    && MinHeap.IsHeap(q.window, Offset)
    && multiset(q.window) == multiset(p.window) + multiset{Resp(p.inflight[i], Slice(blob, p.inflight[i]))}
  }
}
