/** Byte strings as the streams and buffers of the plugin hold them. */
module Bytes {

  type byte = x: int | 0 <= x < 256

  const WORD32: int := 0x1_0000_0000

  /** `getStreamLen`: the unread length of a stream, returned as a 32-bit unsigned int. */
  function StreamLen(stream: seq<byte>): nat {
    |stream| % WORD32
  }

  /** It is the length, short of the multiples of 2^32 in it: below 2^32 bytes, the length itself. */
  lemma StreamLenIs(stream: seq<byte>)
    ensures StreamLen(stream) < 0x1_0000_0000 && StreamLen(stream) <= |stream|
    ensures (|stream| - StreamLen(stream)) % 0x1_0000_0000 == 0
    ensures |stream| < 0x1_0000_0000 ==> StreamLen(stream) == |stream|
  {
  }

  /** The parts one after the other: frames written to a stream, or groups of frames. */
  function Flatten<T>(frames: seq<seq<T>>): seq<T> {
    if frames == [] then [] else Flatten(frames[..|frames| - 1]) + frames[|frames| - 1]
  }

  lemma FlattenSnoc<T>(frames: seq<seq<T>>, frame: seq<T>)
    ensures Flatten(frames + [frame]) == Flatten(frames) + frame
  {
    assert (frames + [frame])[..|frames|] == frames;
  }

  /** A prefix of the frames writes a prefix of the bytes. */
  lemma {:induction false} FlattenPrefix<T>(frames: seq<seq<T>>, k: nat)
    requires k <= |frames|
    ensures Flatten(frames[..k]) <= Flatten(frames)
  {
    if k == |frames| {
      assert frames[..k] == frames;
    } else {
      var front := frames[..|frames| - 1];
      assert front[..k] == frames[..k];
      FlattenPrefix(front, k);
    }
  }
}
