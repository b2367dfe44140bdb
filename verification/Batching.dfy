/** The producer side of the block uploader as values: cutting the frame stream into numbered blocks. */
module Batching {
  import opened Bytes

  datatype Option<T> = None | Some(value: T)

  datatype Job = Job(id: nat, data: seq<byte>)

  /** `stream` and `nextId`. */
  datatype Batch = Batch(stream: seq<byte>, nextId: nat)

  function Cut(b: Batch): (Batch, Option<Job>) {
    (Batch([], b.nextId + 1), Some(Job(b.nextId, b.stream)))
  }

  /** `upload`: write the frame, then cut a block once the stream has reached the block size. */
  function Feed(blockSize: nat, b: Batch, frame: seq<byte>): (Batch, Option<Job>) {
    var grown := b.(stream := b.stream + frame);
    if StreamLen(grown.stream) >= blockSize then Cut(grown) else (grown, None)
  }

  /** The first half of `flush`: cut what is left. */
  function FeedRest(b: Batch): (Batch, Option<Job>) {
    if StreamLen(b.stream) > 0 then Cut(b) else (b, None)
  }

  /** Frames small enough that no stream length wraps: the sink's block size is at most 100 MiB. */
  predicate Small(blockSize: nat, frame: seq<byte>) {
    blockSize + |frame| <= WORD32
  }

  /** A block cut by `upload`: whole frames, the last of which took it to the block size. */
  ghost predicate FullGroup(blockSize: nat, group: seq<seq<byte>>) {
    group != [] && |Flatten(group)| >= blockSize && |Flatten(group[..|group| - 1])| < blockSize
  }

  /** A block cut by `flush`: what was left below the block size. */
  ghost predicate RestGroup(blockSize: nat, group: seq<seq<byte>>) {
    0 < |Flatten(group)| < blockSize
  }

  /** A cut made by `upload` closes a full group, and without a cut the stream stays below the block size. */
  lemma FeedCutsFullGroups(blockSize: nat, b: Batch, open: seq<seq<byte>>, frame: seq<byte>)
    requires b.stream == Flatten(open) && |b.stream| < blockSize && Small(blockSize, frame)
    ensures var (b', job) := Feed(blockSize, b, frame);
            if job.Some? then
              && FullGroup(blockSize, open + [frame]) && frame != []
              && job.value == Job(b.nextId, Flatten(open + [frame]))
              && b' == Batch([], b.nextId + 1)
            else
              b'.stream == Flatten(open + [frame]) && |b'.stream| < blockSize && b'.nextId == b.nextId
  {
    FlattenSnoc(open, frame);
    assert (open + [frame])[..|open|] == open;
  }

  /** The length lies less than `size` above a multiple of 2^32. */
  ghost predicate JustPastWrap(length: nat, size: nat) {
    exists k: nat :: k * WORD32 <= length < k * WORD32 + size
  }

  lemma WrapsIff(length: nat, size: nat)
    requires size <= WORD32
    ensures length % WORD32 < size <==> JustPastWrap(length, size)
  {
    var q := length / WORD32;
    assert length == q * WORD32 + length % WORD32;
    if length % WORD32 < size {
      assert q * WORD32 <= length < q * WORD32 + size;
    }
  }

  /**
   * `upload` leaves the stream uncut exactly when its length lies less than the block size above a multiple of 2^32:
   * below the block size, as it should, but also each time the 32-bit length has just wrapped.
   */
  lemma FeedLeavesUncutIff(blockSize: nat, b: Batch, frame: seq<byte>)
    requires blockSize <= WORD32
    ensures var (after, job) := Feed(blockSize, b, frame);
            && (job.None? <==> JustPastWrap(|b.stream + frame|, blockSize))
            && (job.None? ==> after == Batch(b.stream + frame, b.nextId))
            && (job.Some? ==> job.value == Job(b.nextId, b.stream + frame) && after == Batch([], b.nextId + 1))
  {
    WrapsIff(|b.stream + frame|, blockSize);
  }

  /** `flush` leaves data uncut exactly when its length is a positive multiple of 2^32. */
  lemma RestIsLeftUncutIff(b: Batch)
    ensures FeedRest(b).0.stream != [] <==> b.stream != [] && JustPastWrap(|b.stream|, 1)
    ensures FeedRest(b).0.stream != [] ==> FeedRest(b) == (b, None)
  {
    WrapsIff(|b.stream|, 1);
  }
}
