/** `gst_azure_src_fill`: the GStreamer source element on top of the downloader. */
module Src {
  import opened Bytes
  import opened Prefetch
  import opened Schedules
  import opened SeekReads
  import opened Downloader
  import opened Batching

  /** `NotStarted` returns FALSE; `Blocked` is a read that waits past the end of the blob. */
  datatype FillResult = NotStarted | Ok(bytesRead: nat) | Eos | Blocked

  /** Where a fill starts to read: it seeks only when the offset asked for is not the recorded position. */
  function FillStart(position: nat, cursor: nat, offset: Option<nat>): nat {
    if offset.Some? && offset.value != position then offset.value else cursor
  }

  /** Some schedule cuts a fill short that seeks first; the workers may move between the seek and the read. */
  ghost predicate CutsSeekFill(s: Stock, d: AzureDownloader, offset: nat, length: nat, end: nat) {
    SeekReadShortAt(d.workerCount, s.(window := multiset{}), offset, d.Upto(offset + length), offset + length, end,
      d.blockSize, |d.blob|)
  }

  /** The requests such a read makes. */
  function NewTiles(d: AzureDownloader, offset: nat, length: nat): multiset<Req> {
    multiset(TileList(offset, d.Upto(offset + length), d.blockSize, |d.blob|))
  }

  lemma CutShort(s: Stock, q: Stock, d: AzureDownloader, offset: nat, length: nat, end: nat)
    requires Reach(d.workerCount, s.(window := multiset{}), q)
    requires ShortAt(d.workerCount, Requested(q, TileList(offset, d.Upto(offset + length), d.blockSize, |d.blob|)),
      offset, offset + length, end)
    ensures CutsSeekFill(s, d, offset, length, end)
  {
  }

  /** Whatever cuts such a fill short needs a request from before the seek that ends too early. */
  lemma CutNeedsOld(s: Stock, d: AzureDownloader, offset: nat, length: nat, end: nat)
    requires d.blockSize >= 1 && Alike(s.Outstanding(), d.blockSize, |d.blob|) && CutsSeekFill(s, d, offset, length, end)
    ensures EndsTooEarly(s.Outstanding(), NewTiles(d, offset, length), offset, offset + length)
  {
    hide EndsTooEarly, SeekReadShortAt;
    var seeked := s.(window := multiset{});
    assert seeked.All() == s.Outstanding();
    SeekReadShortNeedsOld(d.workerCount, seeked, offset, d.Upto(offset + length), offset + length, end, d.blockSize, |d.blob|);
  }

  lemma OutstandingAlike(d: AzureDownloader)
    requires d.Valid()
    ensures Alike(d.Stocked().Outstanding(), d.blockSize, |d.blob|)
  {
    hide Sound, Covered;
    assert d.Stocked().All() == Blocks(d.View());
    assert forall b :: b in d.Stocked().Outstanding() ==> b in d.Stocked().All();
  }

  class GstAzureSrc {
    var downloader: AzureDownloader?
    var readPosition: nat

    constructor (downloader: AzureDownloader?)
      ensures this.downloader == downloader && readPosition == 0
    {
      this.downloader := downloader;
      readPosition := 0;
    }

    /** The recorded position is the downloader's cursor, and no request of an earlier position is outstanding. */
    ghost predicate InStep()
      requires downloader != null
      reads this, downloader, downloader.reqs
    {
      downloader.Valid() && downloader.open && downloader.Sequential() && readPosition == downloader.readCursor
    }

    /** The fill does not seek, and no request of an earlier position is outstanding. */
    ghost predicate Undisturbed(offset: Option<nat>)
      requires downloader != null
      reads this, downloader, downloader.reqs
    {
      downloader.open && downloader.Sequential() && (offset.Some? ==> offset.value == readPosition)
    }

    /** The fill seeks, and finds no request queued or in flight. */
    ghost predicate Resettable(offset: Option<nat>)
      requires downloader != null
      reads this, downloader, downloader.reqs
    {
      && downloader.open && downloader.reqs.q == [] && downloader.inflight == []
      && Seeks(offset)
    }

    predicate Seeks(offset: Option<nat>)
      reads this
    {
      offset.Some? && offset.value != readPosition
    }

    /** One call of `read` in the loop of the fill; it returns the number of bytes asked for unless it has no blob. */
    method FillMore(d: AzureDownloader, buffer: array<byte>, at: nat, length: nat) returns (blocked: bool, ret: nat)
      requires at < length <= buffer.Length && d.Valid()
      modifies this`readPosition, buffer, d, d.reqs
      ensures d.Valid() && d.open == old(d.open)
      ensures Copied(old(buffer[..]), buffer[..], at, old(d.readCursor), d.readCursor, d.blob)
      ensures old(d.readCursor) <= d.readCursor <= old(d.readCursor) + (length - at)
      ensures ret == if blocked || !d.open then 0 else length - at
      ensures blocked ==> d.readCursor < old(d.readCursor) + (length - at) && d.readCursor >= |d.blob|
      ensures !d.open ==> !blocked && d.readCursor == old(d.readCursor)
      ensures !blocked && d.open && d.readCursor < old(d.readCursor) + (length - at) ==>
        ShortAt(d.workerCount, old(d.StockedFor(length - at)), old(d.readCursor), old(d.readCursor) + (length - at), d.readCursor)
      ensures readPosition == old(readPosition) + ret
      ensures old(d.Sequential()) ==> d.Sequential()
      ensures old(d.Sequential()) && d.open ==>
        && (blocked <==> old(d.readCursor) + (length - at) > |d.blob|)
        && (!blocked ==> d.readCursor == old(d.readCursor) + (length - at))
    {
      hide Tiling, Sound, Covered, Blocks, Alike, ShortAt, StockOf, EndsTooEarly, AfterRequests;
      var got, _ := d.Read(buffer, at, length - at);
      blocked := got.Waiting?;
      ret := if got.Returned? then length - at else 0;
      readPosition := readPosition + ret;
    }

    /** The loop of the fill: `read` until the buffer is full, or nothing comes. */
    method FillFromCursor(d: AzureDownloader, length: nat, buffer: array<byte>) returns (r: FillResult)
      requires length <= buffer.Length && d.Valid()
      modifies this`readPosition, buffer, d, d.reqs
      ensures d.Valid()
      ensures Copied(old(buffer[..]), buffer[..], 0, old(d.readCursor), d.readCursor, d.blob)
      ensures d.readCursor <= old(d.readCursor) + length && d.open == old(d.open)
      ensures r == Ok(length) || r == Eos || r == Blocked
      ensures r == Ok(length) ==> length == 0 || d.open
      ensures r == Eos <==> length > 0 && !d.open
      ensures r == Blocked ==> d.readCursor < old(d.readCursor) + length && d.readCursor >= |d.blob|
      ensures r == Ok(length) && d.readCursor < old(d.readCursor) + length ==>
        ShortAt(d.workerCount, old(d.StockedFor(length)), old(d.readCursor), old(d.readCursor) + length, d.readCursor)
      ensures readPosition == old(readPosition) + (if r.Ok? then length else 0)
      ensures old(d.Sequential()) && d.open ==> d.Sequential()
      ensures old(d.Sequential()) && d.open ==> (r == Ok(length) <==> length == 0 || old(d.readCursor) + length <= |d.blob|)
      ensures old(d.Sequential()) && r == Ok(length) ==> d.readCursor == old(d.readCursor) + length
    {
      hide Tiling, Sound, Covered, Blocks, Alike, ShortAt, StockOf, EndsTooEarly, AfterRequests;
      ghost var start := d.readCursor;
      var bytesRead := 0;
      while bytesRead < length
        invariant d.Valid() && d.open == old(d.open)
        invariant bytesRead == 0 ==> d.readCursor == start && buffer[..] == old(buffer[..])
        invariant bytesRead == 0 ==> d.StockedFor(length) == old(d.StockedFor(length))
        invariant bytesRead == length && d.readCursor < start + length ==>
          ShortAt(d.workerCount, old(d.StockedFor(length)), start, start + length, d.readCursor)
        invariant bytesRead == 0 || (bytesRead == length && d.open)
        invariant readPosition == old(readPosition) + bytesRead
        invariant start <= d.readCursor <= start + bytesRead
        invariant Copied(old(buffer[..]), buffer[..], 0, start, d.readCursor, d.blob)
        invariant old(d.Sequential()) ==> d.Sequential() && d.readCursor == start + bytesRead
        invariant old(d.Sequential()) && bytesRead > 0 ==> start + length <= |d.blob|
        decreases length - bytesRead
      {
        var blocked, ret := FillMore(d, buffer, bytesRead, length);
        if blocked {
          return Blocked;
        }
        bytesRead := bytesRead + ret;
        if ret == 0 {
          if bytesRead == 0 {
            return Eos;
          } else {
            break;
          }
        }
      }
      r := Ok(bytesRead);
    }

    /** The seek of a fill; the workers do not stand still until the read. */
    method SeekFor(d: AzureDownloader, offset: nat)
      requires d.Valid()
      modifies d, d.reqs
      ensures d.Valid() && d.readCursor == d.writeCursor == offset && d.open == old(d.open)
      ensures Reach(d.workerCount, old(d.Stocked()).(window := multiset{}), d.Stocked())
      ensures old(d.reqs.q) == [] && old(d.inflight) == [] ==> d.Sequential()
    {
      hide Tiling, Sound, Covered, Blocks, Alike, Reach, StockOf;
      d.Seek(offset);
      d.WorkersRun();
    }

    /** A fill that seeks first. */
    method FillAt(d: AzureDownloader, offset: nat, length: nat, buffer: array<byte>) returns (r: FillResult)
      requires length <= buffer.Length && d.Valid()
      modifies this`readPosition, buffer, d, d.reqs
      ensures d.Valid()
      ensures Copied(old(buffer[..]), buffer[..], 0, offset, d.readCursor, d.blob)
      ensures offset <= d.readCursor <= offset + length && d.open == old(d.open)
      ensures r == Ok(length) || r == Eos || r == Blocked
      ensures r == Ok(length) ==> length == 0 || d.open
      ensures r == Eos <==> length > 0 && !d.open
      ensures r == Blocked ==> d.readCursor < offset + length && d.readCursor >= |d.blob|
      ensures r == Ok(length) && d.readCursor < offset + length ==>
        && CutsSeekFill(old(d.Stocked()), d, offset, length, d.readCursor)
        && EndsTooEarly(old(d.Stocked().Outstanding()), NewTiles(d, offset, length), offset, offset + length)
      ensures readPosition == old(readPosition) + (if r.Ok? then length else 0)
      ensures d.open && old(d.reqs.q) == [] && old(d.inflight) == [] ==>
        && d.Sequential()
        && (r == Ok(length) <==> length == 0 || offset + length <= |d.blob|)
        && (r.Ok? ==> d.readCursor == offset + length)
    {
      hide Tiling, Sound, Covered, Blocks, Alike, ShortAt, StockOf, EndsTooEarly, Reach, CutsSeekFill, Requested, TileList;
      ghost var before := d.Stocked();
      OutstandingAlike(d);
      SeekFor(d, offset);
      ghost var stock := d.Stocked();
      r := FillFromCursor(d, length, buffer);
      if r == Ok(length) && d.readCursor < offset + length {
        CutShort(before, stock, d, offset, length, d.readCursor);
        CutNeedsOld(before, d, offset, length, d.readCursor);
      }
    }

    /** `offset` is `None` for the offset -1. */
    method Fill(offset: Option<nat>, length: nat, buffer: array<byte>) returns (r: FillResult)
      requires length <= buffer.Length
      requires downloader != null ==> downloader.Valid()
      modifies this`readPosition, buffer
      modifies if downloader == null then {} else {downloader as object, downloader.reqs}
      ensures r.NotStarted? <==> downloader == null
      ensures downloader != null ==>
        var d := downloader;
        var start := FillStart(old(readPosition), old(d.readCursor), offset);
        && d.Valid() && d.open == old(d.open)
        && Copied(old(buffer[..]), buffer[..], 0, start, d.readCursor, d.blob)
        && start <= d.readCursor <= start + length
        && (r.Ok? ==> r.bytesRead == length && (length > 0 ==> d.open))
        && (r.Eos? <==> length > 0 && !d.open)
        && (r.Blocked? ==> d.readCursor < start + length && d.readCursor >= |d.blob|)
        && readPosition == old(readPosition) + (if r.Ok? then length else 0)
        && (r.Ok? && d.readCursor == start + length ==>
            (readPosition == d.readCursor <==> start == old(readPosition)))
      ensures downloader != null && r.Ok? ==>
        var d := downloader;
        var start := FillStart(old(readPosition), old(d.readCursor), offset);
        && (d.readCursor < start + length && !old(Seeks(offset)) ==>
            ShortAt(d.workerCount, old(d.StockedFor(length)), start, start + length, d.readCursor))
        && (d.readCursor < start + length && old(Seeks(offset)) ==>
            CutsSeekFill(old(d.Stocked()), d, start, length, d.readCursor))
        && (d.readCursor < start + length && old(Seeks(offset)) ==>
            EndsTooEarly(old(d.Stocked().Outstanding()), NewTiles(d, start, length), start, start + length))
      ensures downloader != null && old(Undisturbed(offset)) ==>
        var d := downloader;
        && d.Sequential()
        && (r == Ok(length) <==> length == 0 || old(d.readCursor) + length <= |d.blob|)
        && (r.Ok? ==> d.readCursor == old(d.readCursor) + length)
      ensures downloader != null && old(Resettable(offset)) ==>
        var d := downloader;
        && d.Sequential()
        && (r == Ok(length) <==> length == 0 || offset.value + length <= |d.blob|)
        && (r.Ok? ==> d.readCursor == offset.value + length)
    {
      hide Tiling, Sound, Covered, Blocks, Alike, ShortAt, StockOf, EndsTooEarly, AfterRequests;
      if downloader == null {
        return NotStarted;
      }
      if offset.Some? && offset.value != readPosition {
        r := FillAt(downloader, offset.value, length, buffer);
      } else {
        r := FillFromCursor(downloader, length, buffer);
      }
    }
  }

  /** A fill that goes on: it names the recorded position as its offset, or none. */
  datatype Ask = Ask(length: nat, named: bool)

  function Sum(asks: seq<Ask>): nat {
    if asks == [] then 0 else asks[0].length + Sum(asks[1..])
  }

  /** One such fill plays from the cursor. */
  method PlayNext(src: GstAzureSrc, ask: Ask) returns (bytes: seq<byte>)
    requires src.downloader != null && src.downloader.Valid() && src.Undisturbed(None)
    requires src.downloader.readCursor + ask.length <= |src.downloader.blob|
    modifies src`readPosition, src.downloader, src.downloader.reqs
    ensures src.downloader != null && src.downloader.Valid() && src.Undisturbed(None)
    ensures src.readPosition == old(src.readPosition) + ask.length
    ensures src.downloader.readCursor == old(src.downloader.readCursor) + ask.length
    ensures bytes == src.downloader.blob[old(src.downloader.readCursor)..src.downloader.readCursor]
  {
    hide Tiling, Sound, Covered, Blocks, Alike, ShortAt, StockOf, EndsTooEarly, AfterRequests;
    var buffer := new byte[ask.length];
    ghost var before, start := buffer[..], src.downloader.readCursor;
    var r := src.Fill(if ask.named then Some(src.readPosition) else None, ask.length, buffer);
    CopiedIsSlice(before, buffer[..], start, src.downloader.readCursor, src.downloader.blob);
    bytes := buffer[..];
    assert buffer[..] == buffer[..ask.length];
  }

  /**
   * Fill after fill without a seek, of any lengths, with the workers moving in between as they like, plays the blob from the cursor on without gap or repetition, whether
   * or not the recorded position is the cursor; and if it was, it still is.
   */
  method Play(src: GstAzureSrc, asks: seq<Ask>) returns (played: seq<byte>)
    requires src.downloader != null && src.downloader.Valid() && src.Undisturbed(None)
    requires src.downloader.readCursor + Sum(asks) <= |src.downloader.blob|
    modifies src`readPosition, src.downloader, src.downloader.reqs
    ensures src.downloader != null && src.downloader.Valid() && src.Undisturbed(None)
    ensures src.downloader.readCursor == old(src.downloader.readCursor) + Sum(asks)
    ensures src.readPosition == old(src.readPosition) + Sum(asks)
    ensures played == src.downloader.blob[old(src.downloader.readCursor)..src.downloader.readCursor]
    ensures old(src.InStep()) ==> src.InStep() && played == src.downloader.blob[old(src.readPosition)..src.readPosition]
  {
    hide Tiling, Sound, Covered, Blocks, Alike, ShortAt, StockOf, EndsTooEarly, AfterRequests;
    played := [];
    var i := 0;
    ghost var blob, start, end := src.downloader.blob, src.downloader.readCursor, src.downloader.readCursor + Sum(asks);
    assert asks[0..] == asks;
    while i < |asks|
      invariant i <= |asks| && src.downloader != null && src.downloader.Valid() && src.Undisturbed(None)
      invariant src.downloader.blob == blob
      invariant start <= src.downloader.readCursor && src.downloader.readCursor + Sum(asks[i..]) == end <= |blob|
      invariant src.readPosition - old(src.readPosition) == src.downloader.readCursor - start
      invariant played == blob[start..src.downloader.readCursor]
    {
      ghost var before := src.downloader.readCursor;
      assert asks[i..][1..] == asks[i + 1..];
      src.downloader.WorkersRun();
      var bytes := PlayNext(src, asks[i]);
      SlicesJoin(blob, start, before, src.downloader.readCursor);
      played := played + bytes;
      i := i + 1;
    }
  }

  lemma SlicesJoin(s: seq<byte>, a: nat, b: nat, c: nat)
    requires a <= b <= c <= |s|
    ensures s[a..b] + s[b..c] == s[a..c]
  {
  }

  /** A first fill at an offset other than 0: the cursor follows the offset, the position only the length. */
  method FirstFill(blob: seq<byte>, offset: nat, length: nat) returns (src: GstAzureSrc)
    requires 0 < offset && offset + length <= |blob|
    ensures fresh(src) && src.downloader != null && fresh(src.downloader) && fresh(src.downloader.reqs)
    ensures src.downloader.Valid() && src.downloader.Sequential() && src.downloader.open
    ensures src.downloader.blob == blob
    ensures src.readPosition == length && src.downloader.readCursor == offset + length
  {
    hide Tiling, Sound, Covered, Blocks, Alike, ShortAt, StockOf, EndsTooEarly, AfterRequests;
    var d := new AzureDownloader(blob, 4, 8, 4, true);
    src := new GstAzureSrc(d);
    var buffer := new byte[length];
    var r := src.Fill(Some(offset), length, buffer);
    assert r == Ok(length);
  }

  /**
   * A fill that seeks does not move the recorded position to the offset. After a first fill at any offset other
   * than 0, a second one that asks for the recorded position does not seek, and plays from somewhere else.
   */
  method FillAfterSeekIsMisplaced(blob: seq<byte>, offset: nat, length: nat, more: nat)
    returns (asked: nat, from: nat, played: seq<byte>)
    requires 0 < offset && offset + length + more <= |blob|
    ensures from == asked + offset
    ensures asked == length && played == blob[from..from + more]
  {
    hide Tiling, Sound, Covered, Blocks, Alike, ShortAt, StockOf, EndsTooEarly, AfterRequests;
    var src := FirstFill(blob, offset, length);
    asked := src.readPosition;
    from := src.downloader.readCursor;
    played := PlayNext(src, Ask(more, true));
  }
}
