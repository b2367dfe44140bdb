/** The commit side of the block uploader as values: what `commitBlock` makes of one more id. */
module Ledgers {

  /** An entry of the block list: `latest` until a put has succeeded, `committed` afterwards. */
  datatype Item = Item(id: nat, committed: bool)

  /** Block ids start at 1. */
  type BlockId = id: nat | id >= 1 witness 1

  /** `window` (as the multiset of its ids), `nextCommitId`, `committedId` and `block_list`. */
  datatype Ledger = Ledger(pending: multiset<nat>, next: BlockId, committedId: nat, list: seq<Item>)

  const EMPTY_LEDGER := Ledger(multiset{}, 1, 0, [])

  /** The `while` loop of `commitBlock`; `front()` is the least id of the window. */
  ghost function Absorb(l: Ledger): Ledger
    decreases |l.pending|
  {
    if l.next in l.pending && (forall x :: x in l.pending ==> l.next <= x) then
      Absorb(l.(pending := l.pending - multiset{l.next}, next := l.next + 1,
        list := l.list + [Item(l.next, false)]))
    else
      l
  }

  ghost function CommitBlock(l: Ledger, id: nat): Ledger {
    Absorb(l.(pending := l.pending + multiset{id}))
  }

  /** After a successful put. */
  function MarkCommitted(l: Ledger): Ledger {
    l.(committedId := l.next - 1, list := Marked(l.list))
  }

  function Marked(list: seq<Item>): (r: seq<Item>)
    ensures |r| == |list|
    ensures forall i :: 0 <= i < |r| ==> r[i] == Item(list[i].id, true)
  {
    seq(|list|, i requires 0 <= i < |list| => list[i].(committed := true))
  }

  /** The ids `1 .. n - 1`, each once. */
  ghost function Upto(n: nat): (m: multiset<nat>)
    ensures forall x :: m[x] == if 1 <= x < n then 1 else 0
    ensures |m| == if n == 0 then 0 else n - 1
  {
    if n <= 1 then multiset{} else Upto(n - 1) + multiset{n - 1}
  }

  /** The list names `1, 2, ..`, and an entry is marked committed exactly up to `committedId`. */
  ghost predicate ListInOrder(list: seq<Item>, committedId: nat) {
    forall i :: 0 <= i < |list| ==> list[i] == Item(i + 1, i < committedId)
  }

  ghost predicate WellFormed(l: Ledger) {
    && l.next == |l.list| + 1
    && l.committedId < l.next
    && ListInOrder(l.list, l.committedId)
    && (forall x :: x in l.pending ==> l.next < x)
  }

  ghost predicate Received(l: Ledger, id: nat) {
    1 <= id < l.next || id in l.pending
  }

  /** What absorbing keeps, before the gap at `next` has been restored. */
  ghost predicate Absorbing(l: Ledger) {
    && l.next == |l.list| + 1
    && l.committedId < l.next
    && ListInOrder(l.list, l.committedId)
    && (forall x :: x in l.pending ==> l.next <= x)
    && l.pending[l.next] <= 1
  }

  lemma {:induction false} AbsorbRestores(l: Ledger)
    requires Absorbing(l)
    requires forall x :: l.pending[x] <= 1
    ensures var r := Absorb(l);
            && WellFormed(r)
            && r.committedId == l.committedId
            && l.list <= r.list
            && r.pending + Upto(r.next) == l.pending + Upto(l.next)
    decreases |l.pending|
  {
    if l.next in l.pending {
      var m := l.(pending := l.pending - multiset{l.next}, next := l.next + 1,
        list := l.list + [Item(l.next, false)]);
      AbsorbRestores(m);
      assert Upto(m.next) == Upto(l.next) + multiset{l.next};
      assert l.list <= m.list;
    }
  }

  /** One fresh id: the ledger gains exactly that id, its gap is the least id missing, the list only grows. */
  lemma CommitBlockIsMex(l: Ledger, id: nat)
    requires WellFormed(l) && !Received(l, id) && id >= 1
    requires forall x :: l.pending[x] <= 1
    ensures var r := CommitBlock(l, id);
            && WellFormed(r)
            && (forall x :: r.pending[x] <= 1)
            && r.committedId == l.committedId
            && l.list <= r.list
            && r.pending + Upto(r.next) == l.pending + multiset{id} + Upto(l.next)
            && (forall x :: Received(r, x) <==> Received(l, x) || x == id)
            && !Received(r, r.next) && (forall x :: 1 <= x < r.next ==> Received(r, x))
  {
    AbsorbRestores(l.(pending := l.pending + multiset{id}));
    var r := CommitBlock(l, id);
    var before, after := l.pending + multiset{id} + Upto(l.next), r.pending + Upto(r.next);
    forall x ensures r.pending[x] <= 1 && (Received(r, x) <==> Received(l, x) || x == id) {
      assert before[x] == after[x];
      assert before[x] == l.pending[x] + (if x == id then 1 else 0) + Upto(l.next)[x];
      assert after[x] == r.pending[x] + Upto(r.next)[x];
    }
  }

  /** The ledger after the ids arrived in this order. */
  ghost function Arrive(ids: seq<nat>): Ledger {
    if ids == [] then EMPTY_LEDGER else CommitBlock(Arrive(ids[..|ids| - 1]), ids[|ids| - 1])
  }

  ghost predicate Distinct(ids: seq<nat>) {
    forall i, j :: 0 <= i < j < |ids| ==> ids[i] != ids[j]
  }

  /** The ledger has received exactly these ids, each once. */
  ghost predicate HasReceived(l: Ledger, ids: seq<nat>) {
    && WellFormed(l)
    && (forall x :: l.pending[x] <= 1)
    && (forall x :: Received(l, x) <==> x in ids)
  }

  lemma {:induction false} ArrivalIsReceived(ids: seq<nat>)
    requires Distinct(ids) && 0 !in ids
    ensures HasReceived(Arrive(ids), ids)
  {
    if ids != [] {
      var front, last := ids[..|ids| - 1], ids[|ids| - 1];
      assert ids == front + [last];
      ArrivalIsReceived(front);
      CommitBlockIsMex(Arrive(front), last);
    }
  }

  lemma ReceivedOnce(l: Ledger, ids: seq<nat>)
    requires Distinct(ids) && HasReceived(l, ids)
    ensures l.pending + Upto(l.next) == multiset(ids)
  {
    DistinctOnce(ids);
    forall x ensures (l.pending + Upto(l.next))[x] == multiset(ids)[x] {
      assert Received(l, x) <==> x in multiset(ids);
    }
  }

  lemma {:induction false} DistinctOnce(ids: seq<nat>)
    requires Distinct(ids)
    ensures forall x :: multiset(ids)[x] <= 1
  {
    if ids != [] {
      var front, last := ids[..|ids| - 1], ids[|ids| - 1];
      assert ids == front + [last];
      DistinctOnce(front);
      assert last !in multiset(front);
    }
  }

  /** Whatever the order of arrival, `next` is the least id missing and the list is all ids below it. */
  lemma ArrivalIsMex(ids: seq<nat>)
    requires Distinct(ids) && 0 !in ids
    ensures var l := Arrive(ids);
            && WellFormed(l)
            && l.next !in ids && (forall x :: 1 <= x < l.next ==> x in ids)
            && (forall x :: x in l.pending <==> x in ids && x > l.next)
            && l.pending + Upto(l.next) == multiset(ids)
  {
    ArrivalIsReceived(ids);
    var l := Arrive(ids);
    ReceivedOnce(l, ids);
    assert !Received(l, l.next);
    forall x: nat ensures x in l.pending <==> x in ids && x > l.next {
      assert Received(l, x) <==> x in ids;
    }
    forall x: nat | 1 <= x < l.next ensures x in ids {
      assert Received(l, x);
    }
  }

  lemma OnceEachIsDistinct(ids: seq<nat>)
    requires forall x :: multiset(ids)[x] <= 1
    ensures Distinct(ids)
  {
    forall i, j | 0 <= i < j < |ids| ensures ids[i] != ids[j] {
      assert ids == ids[..j] + [ids[j]] + ids[j + 1..];
      assert ids[i] in multiset(ids[..j]);
      assert multiset(ids) == multiset(ids[..j]) + multiset{ids[j]} + multiset(ids[j + 1..]);
      assert multiset(ids)[ids[j]] >= multiset(ids[..j])[ids[j]] + 1;
    }
  }

  /** Any permutation of `1 .. n` empties the window. */
  lemma AnyPermutationIsAbsorbed(ids: seq<nat>, n: nat)
    requires multiset(ids) == Upto(n + 1)
    ensures Arrive(ids).pending == multiset{} && Arrive(ids).next == n + 1
    ensures |Arrive(ids).list| == n && forall i :: 0 <= i < n ==> Arrive(ids).list[i].id == i + 1
  {
    OnceEachIsDistinct(ids);
    assert 0 !in ids by {
      assert 0 !in multiset(ids);
    }
    ArrivalIsMex(ids);
    PendingEmptyIff(Arrive(ids));
    assert Upto(Arrive(ids).next) == Upto(n + 1);
    assert Upto(n + 1)[n + 1] == 0 && Upto(Arrive(ids).next)[Arrive(ids).next] == 0;
  }

  ghost predicate GapFree(ids: multiset<nat>) {
    exists n :: ids == Upto(n)
  }

  /** A window is empty exactly when the ids received are gap-free. */
  lemma PendingEmptyIff(l: Ledger)
    requires WellFormed(l)
    ensures l.pending == multiset{} <==> GapFree(l.pending + Upto(l.next))
  {
    var received := l.pending + Upto(l.next);
    if l.pending == multiset{} {
      assert received == Upto(l.next);
    }
    forall n | received == Upto(n) ensures l.pending == multiset{} {
      assert Upto(n)[l.next] == 0;
      assert forall x :: x in l.pending ==> Upto(n)[x] >= 1 && l.next < x;
    }
  }

  /**
   * `commitBlock` tests `window.front()` again after every pop. The window is empty at that test, and the
   * read is outside the vector, exactly when the ids received so far have no gap.
   */
  lemma FrontReadOnEmptyWindowIff(l: Ledger, id: nat)
    requires WellFormed(l) && !Received(l, id) && id >= 1
    requires forall x :: l.pending[x] <= 1
    ensures CommitBlock(l, id).pending == multiset{} <==> GapFree(l.pending + multiset{id} + Upto(l.next))
  {
    AbsorbRestores(l.(pending := l.pending + multiset{id}));
    PendingEmptyIff(CommitBlock(l, id));
  }
}
