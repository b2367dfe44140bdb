/** Binary min-heaps in a vector: `std::push_heap` and `std::pop_heap` ordered by `key`. */
module MinHeap {

  /** Slot `j` is a child of slot `i`. */
  predicate Edge(i: int, j: int) {
    j == 2 * i + 1 || j == 2 * i + 2
  }

  /** The entries on the edge from `i` to `j` are in order. */
  ghost predicate Ordered<T>(s: seq<T>, key: T -> int, i: int, j: int) {
    0 <= i < |s| && 0 <= j < |s| && key(s[i]) <= key(s[j])
  }

  ghost predicate IsHeap<T>(s: seq<T>, key: T -> int) {
    forall i, j :: 0 <= i < j < |s| && Edge(i, j) ==> Ordered(s, key, i, j)
  }

  /** Heap order makes `front()` a minimum. */
  lemma {:induction false} FrontIsMinimum<T>(s: seq<T>, key: T -> int, j: nat)
    requires IsHeap(s, key) && j < |s|
    ensures key(s[0]) <= key(s[j])
  {
    if j > 0 {
      var i := (j - 1) / 2;
      assert Edge(i, j) && Ordered(s, key, i, j);
      FrontIsMinimum(s, key, i);
    }
  }

  lemma FrontBelowAll<T>(s: seq<T>, key: T -> int)
    requires IsHeap(s, key) && s != []
    ensures s[0] in multiset(s)
    ensures forall x :: x in multiset(s) ==> key(s[0]) <= key(x)
  {
    forall x | x in multiset(s) ensures key(s[0]) <= key(x) {
      var j :| 0 <= j < |s| && s[j] == x;
      FrontIsMinimum(s, key, j);
    }
  }

  function Swap<T>(s: seq<T>, i: nat, j: nat): (r: seq<T>)
    requires i < j < |s|
    ensures |r| == |s| && multiset(r) == multiset(s)
  {
    s[i := s[j]][j := s[i]]
  }

  /** Heap order except on the edge into `j`, where `j`'s children still fit under `j`'s parent. */
  ghost predicate RisingAt<T>(s: seq<T>, key: T -> int, j: nat) {
    && (forall i, k :: 0 <= i < k < |s| && Edge(i, k) && k != j ==> Ordered(s, key, i, k))
    && (forall i, k :: 0 <= i < j < k < |s| && Edge(i, j) && Edge(j, k) ==> Ordered(s, key, i, k))
  }

  lemma Rise<T>(s: seq<T>, key: T -> int, i: nat, j: nat)
    requires i < j < |s| && Edge(i, j) && RisingAt(s, key, j) && key(s[j]) < key(s[i])
    ensures RisingAt(Swap(s, i, j), key, i)
  {
    var r := Swap(s, i, j);
    forall h, k | 0 <= h < k < |r| && Edge(h, k) && k != i ensures Ordered(r, key, h, k) {
      if h == j {
        assert Ordered(s, key, i, k);
      } else {
        if k != j {
          assert Ordered(s, key, h, k);
        }
      }
    }
    forall h, k | 0 <= h < i < k < |r| && Edge(h, i) && Edge(i, k) ensures Ordered(r, key, h, k) {
      assert Ordered(s, key, h, i);
      if k != j {
        assert Ordered(s, key, i, k);
      }
    }
  }

  /** `push_back` then `push_heap`. */
  method Push<T>(s: seq<T>, key: T -> int, x: T) returns (r: seq<T>)
    requires IsHeap(s, key)
    ensures IsHeap(r, key)
    ensures multiset(r) == multiset(s) + multiset{x}
  {
    r := s + [x];
    var j := |s|;
    assert RisingAt(r, key, j) by {
      forall i, k | 0 <= i < k < |r| && Edge(i, k) && k != j ensures Ordered(r, key, i, k) {
        assert Ordered(s, key, i, k);
      }
    }
    while j > 0 && key(r[j]) < key(r[(j - 1) / 2])
      invariant 0 <= j < |r|
      invariant multiset(r) == multiset(s) + multiset{x}
      invariant RisingAt(r, key, j)
    {
      var i := (j - 1) / 2;
      Rise(r, key, i, j);
      r := Swap(r, i, j);
      j := i;
    }
    forall i, k | 0 <= i < k < |r| && Edge(i, k) ensures Ordered(r, key, i, k) {
      if k == j {
        assert i == (j - 1) / 2;
      }
    }
  }

  /** Heap order except on the edges out of `i`, where `i`'s children still fit under `i`'s parent. */
  ghost predicate SinkingAt<T>(s: seq<T>, key: T -> int, i: nat) {
    && (forall h, k :: 0 <= h < k < |s| && Edge(h, k) && h != i ==> Ordered(s, key, h, k))
    && (forall h, k :: 0 <= h < i < k < |s| && Edge(h, i) && Edge(i, k) ==> Ordered(s, key, h, k))
  }

  lemma Sink<T>(s: seq<T>, key: T -> int, i: nat, c: nat)
    requires i < c < |s| && Edge(i, c) && SinkingAt(s, key, i) && key(s[c]) < key(s[i])
    requires forall k :: i < k < |s| && Edge(i, k) ==> Ordered(s, key, c, k)
    ensures SinkingAt(Swap(s, i, c), key, c)
  {
    var r := Swap(s, i, c);
    forall h, k | 0 <= h < k < |r| && Edge(h, k) && h != c ensures Ordered(r, key, h, k) {
      if h == i {
        if k != c {
          assert Ordered(s, key, c, k);
        }
      } else if k == i {
        assert Ordered(s, key, h, c);
      } else {
        assert Ordered(s, key, h, k);
      }
    }
    forall h, k | 0 <= h < c < k < |r| && Edge(h, c) && Edge(c, k) ensures Ordered(r, key, h, k) {
      assert h == i;
      assert Ordered(s, key, c, k);
    }
  }

  /** The child of `i` with the smaller key, or `i` itself when it has none. */
  function LeastChild<T>(s: seq<T>, key: T -> int, i: nat): (c: nat)
    requires i < |s|
    ensures c < |s| && (2 * i + 1 < |s| ==> i < c && Edge(i, c))
    ensures forall k :: i < k < |s| && Edge(i, k) ==> Ordered(s, key, c, k)
  {
    if 2 * i + 1 >= |s| then i
    else if 2 * i + 2 < |s| && key(s[2 * i + 2]) < key(s[2 * i + 1]) then 2 * i + 2
    else 2 * i + 1
  }

  lemma Settled<T>(s: seq<T>, key: T -> int, i: nat)
    requires i < |s| && SinkingAt(s, key, i) && key(s[i]) <= key(s[LeastChild(s, key, i)])
    ensures IsHeap(s, key)
  {
    forall h, k | 0 <= h < k < |s| && Edge(h, k) ensures Ordered(s, key, h, k) {
      if h == i {
        assert Ordered(s, key, LeastChild(s, key, i), k);
      }
    }
  }

  method SiftDown<T>(s: seq<T>, key: T -> int) returns (r: seq<T>)
    requires s != [] && SinkingAt(s, key, 0)
    ensures IsHeap(r, key) && multiset(r) == multiset(s)
  {
    r := s;
    var i := 0;
    var c := LeastChild(r, key, i);
    while key(r[c]) < key(r[i])
      invariant 0 <= i < |r| && c == LeastChild(r, key, i)
      invariant multiset(r) == multiset(s)
      invariant SinkingAt(r, key, i)
      decreases |r| - i
    {
      Sink(r, key, i, c);
      r := Swap(r, i, c);
      i := c;
      c := LeastChild(r, key, i);
    }
    Settled(r, key, i);
  }

  /** The last entry takes the front's slot. */
  function LastToFront<T>(s: seq<T>): (r: seq<T>)
    requires |s| > 1
    ensures |r| == |s| - 1 && multiset(r) == multiset(s) - multiset{s[0]}
  {
    assert s == [s[0]] + s[1..|s| - 1] + [s[|s| - 1]];
    [s[|s| - 1]] + s[1..|s| - 1]
  }

  lemma LastToFrontSinks<T>(s: seq<T>, key: T -> int)
    requires |s| > 1 && IsHeap(s, key)
    ensures SinkingAt(LastToFront(s), key, 0)
  {
    var r := LastToFront(s);
    assert forall k :: 0 < k < |r| ==> r[k] == s[k];
    forall h, k | 0 <= h < k < |r| && Edge(h, k) && h != 0 ensures Ordered(r, key, h, k) {
      assert Ordered(s, key, h, k);
    }
  }

  /** `pop_heap` then `pop_back`: the front leaves. */
  method Pop<T>(s: seq<T>, key: T -> int) returns (r: seq<T>)
    requires IsHeap(s, key) && s != []
    ensures IsHeap(r, key)
    ensures multiset(r) == multiset(s) - multiset{s[0]}
  {
    if |s| == 1 {
      assert s == [s[0]];
      r := [];
    } else {
      LastToFrontSinks(s, key);
      r := SiftDown(LastToFront(s), key);
    }
  }
}
