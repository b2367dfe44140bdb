/** Which requests can have arrived, and so when a read can be cut short, without a word about schedules. */
module Arrivals {
  import opened Prefetch
  import opened Schedules

  /** How many of the marked places are unmarked. */
  function Unmarked(marks: seq<bool>): (n: nat)
    ensures n <= |marks|
  {
    if marks == [] then 0
    else Unmarked(marks[..|marks| - 1]) + if marks[|marks| - 1] then 0 else 1
  }

  /** The unmarked requests, in order. */
  function Kept(requests: seq<Req>, marks: seq<bool>): (kept: seq<Req>)
    requires |requests| == |marks|
    ensures |kept| == Unmarked(marks)
  {
    if marks == [] then []
    else
      var n := |marks| - 1;
      var front := Kept(requests[..n], marks[..n]);
      if marks[n] then front else front + [requests[n]]
  }

  /** The marked ones. */
  function Picked(requests: seq<Req>, marks: seq<bool>): multiset<Req>
    requires |requests| == |marks|
  {
    if marks == [] then multiset{}
    else
      var n := |marks| - 1;
      var front := Picked(requests[..n], marks[..n]);
      if marks[n] then front + multiset{requests[n]} else front
  }

  /**
   * The marked requests can be those that have arrived: before each of them, fewer requests are still out than there are
   * workers.
   */
  predicate CanHaveArrived(workers: nat, marks: seq<bool>) {
    forall d :: 0 <= d < |marks| && marks[d] ==> Unmarked(marks[..d]) < workers
  }

  /** The requests still out, oldest first. */
  function Requests(s: Stock): seq<Req> {
    s.inflight + s.queued
  }

  lemma MarksSnoc(requests: seq<Req>, marks: seq<bool>, r: Req, mark: bool)
    requires |requests| == |marks|
    ensures Unmarked(marks + [mark]) == Unmarked(marks) + if mark then 0 else 1
    ensures Kept(requests + [r], marks + [mark]) == Kept(requests, marks) + if mark then [] else [r]
    ensures Picked(requests + [r], marks + [mark]) == Picked(requests, marks) + if mark then multiset{r} else multiset{}
  {
    assert (requests + [r])[..|marks|] == requests && (marks + [mark])[..|marks|] == marks;
  }

  lemma {:induction false} NoneMarked(requests: seq<Req>, marks: seq<bool>)
    requires |requests| == |marks| && forall i :: 0 <= i < |marks| ==> !marks[i]
    ensures Kept(requests, marks) == requests && Picked(requests, marks) == multiset{}
    ensures Unmarked(marks) == |marks|
  {
    if marks != [] {
      var n := |marks| - 1;
      NoneMarked(requests[..n], marks[..n]);
      assert requests == requests[..n] + [requests[n]];
    }
  }

  lemma {:induction false} UnmarkedPrefix(marks: seq<bool>, k: nat)
    requires k <= |marks|
    ensures Unmarked(marks[..k]) <= Unmarked(marks)
  {
    if k == |marks| {
      assert marks[..k] == marks;
    } else {
      var front := marks[..|marks| - 1];
      assert front[..k] == marks[..k];
      UnmarkedPrefix(front, k);
    }
  }

  /** One more mark leaves no more places unmarked anywhere. */
  lemma {:induction false} UnmarkedFalls(marks: seq<bool>, at: nat, k: nat)
    requires at < |marks| && k <= |marks|
    ensures Unmarked(marks[at := true][..k]) <= Unmarked(marks[..k])
  {
    if k > 0 {
      UnmarkedFalls(marks, at, k - 1);
      assert marks[at := true][..k][..k - 1] == marks[at := true][..k - 1];
      assert marks[..k][..k - 1] == marks[..k - 1];
    }
  }

  lemma WithoutJoin<T>(s: seq<T>, tail: seq<T>, j: nat)
    requires j < |s|
    ensures Without(s + tail, j) == Without(s, j) + tail
  {
    assert (s + tail)[..j] == s[..j] && (s + tail)[j + 1..] == s[j + 1..] + tail;
  }

  lemma WithoutMiddle<T>(s: seq<T>, x: T, tail: seq<T>)
    ensures Without(s + [x] + tail, |s|) == s + tail
  {
    assert (s + [x] + tail)[..|s|] == s && (s + [x] + tail)[|s| + 1..] == tail;
  }

  lemma MarkLast(requests: seq<Req>, marks: seq<bool>, r: Req)
    requires |requests| == |marks|
    ensures Kept(requests + [r], marks + [true]) == Without(Kept(requests + [r], marks + [false]), |Kept(requests, marks)|)
    ensures Picked(requests + [r], marks + [true]) == Picked(requests + [r], marks + [false]) + multiset{r}
  {
    MarksSnoc(requests, marks, r, true);
    MarksSnoc(requests, marks, r, false);
    WithoutMiddle(Kept(requests, marks), r, []);
  }

  lemma MarkBefore(requests: seq<Req>, marks: seq<bool>, r: Req, mark: bool, j: nat, at: nat)
    requires |requests| == |marks| && j < |Kept(requests, marks)| && at < |marks|
    requires Kept(requests, marks[at := true]) == Without(Kept(requests, marks), j)
    requires Picked(requests, marks[at := true]) == Picked(requests, marks) + multiset{requests[at]}
    ensures Kept(requests + [r], marks[at := true] + [mark]) == Without(Kept(requests + [r], marks + [mark]), j)
    ensures Picked(requests + [r], marks[at := true] + [mark]) == Picked(requests + [r], marks + [mark]) + multiset{requests[at]}
  {
    hide Kept, Picked;
    MarksSnoc(requests, marks, r, mark);
    MarksSnoc(requests, marks[at := true], r, mark);
    WithoutJoin(Kept(requests, marks), if mark then [] else [r], j);
  }

  /** The `j`-th request kept is marked as well. */
  lemma {:induction false} MarkOne(requests: seq<Req>, marks: seq<bool>, j: nat) returns (at: nat)
    requires |requests| == |marks| && j < |Kept(requests, marks)|
    ensures at < |marks| && !marks[at] && requests[at] == Kept(requests, marks)[j] && Unmarked(marks[..at]) == j
    ensures Kept(requests, marks[at := true]) == Without(Kept(requests, marks), j)
    ensures Picked(requests, marks[at := true]) == Picked(requests, marks) + multiset{requests[at]}
  {
    hide Kept, Picked;
    var n := |marks| - 1;
    var front, m, r, mark := requests[..n], marks[..n], requests[n], marks[n];
    assert requests == front + [r] && marks == m + [mark];
    MarksSnoc(front, m, r, mark);
    if !mark && j == |Kept(front, m)| {
      at := n;
      assert marks[at := true] == m + [true];
      MarkLast(front, m, r);
    } else {
      at := MarkOne(front, m, j);
      assert marks[at := true] == m[at := true] + [mark];
      assert m[..at] == marks[..at];
      MarkBefore(front, m, r, mark, j, at);
    }
  }

  // ----- What the workers can bring about -----

  /** The stock when the first `|marks|` requests have been started and the marked ones have arrived. */
  function Marked(s: Stock, marks: seq<bool>): Stock
    requires |marks| <= |Requests(s)|
  {
    var k := |marks|;
    Stock(Requests(s)[k..], Kept(Requests(s)[..k], marks), s.window + Picked(Requests(s)[..k], marks))
  }

  ghost predicate CanBeMarked(workers: nat, s: Stock, marks: seq<bool>) {
    |s.inflight| <= |marks| <= |Requests(s)| && CanHaveArrived(workers, marks) && Unmarked(marks) <= workers
  }

  lemma MarkedSnoc(s: Stock, marks: seq<bool>, mark: bool)
    requires |marks| < |Requests(s)|
    ensures var m, r := Marked(s, marks), Requests(s)[|marks|];
            && m.queued != [] && m.queued[0] == r
            && Marked(s, marks + [mark])
               == if mark then Stock(m.queued[1..], m.inflight, m.window + multiset{r}) else Started(m)
  {
    hide Kept, Picked;
    var k, all := |marks|, Requests(s);
    MarksSnoc(all[..k], marks, all[k], mark);
    assert all[..k + 1] == all[..k] + [all[k]];
    assert all[k..][1..] == all[k + 1..];
  }

  lemma StartMarked(workers: nat, s: Stock, marks: seq<bool>)
    requires CanBeMarked(workers, s, marks) && Marked(s, marks).queued != [] && Unmarked(marks) < workers
    ensures CanBeMarked(workers, s, marks + [false]) && Started(Marked(s, marks)) == Marked(s, marks + [false])
  {
    hide Kept, Picked;
    var k, all := |marks|, Requests(s);
    MarkedSnoc(s, marks, false);
    MarksSnoc(all[..k], marks, all[k], false);
    assert forall d :: 0 <= d < k ==> (marks + [false])[..d] == marks[..d];
  }

  lemma FinishMarked(workers: nat, s: Stock, marks: seq<bool>, j: nat) returns (more: seq<bool>)
    requires CanBeMarked(workers, s, marks) && j < |Marked(s, marks).inflight|
    ensures CanBeMarked(workers, s, more) && Finished(Marked(s, marks), j) == Marked(s, more)
  {
    var k := |marks|;
    var at := MarkOne(Requests(s)[..k], marks, j);
    more := marks[at := true];
    forall d | 0 <= d < k && more[d] ensures Unmarked(more[..d]) < workers {
      UnmarkedFalls(marks, at, d);
      if d == at {
        assert more[..d] == marks[..d];
      }
    }
    UnmarkedFalls(marks, at, k);
    assert more[..k] == more && marks[..k] == marks;
  }

  lemma MoveMarked(workers: nat, s: Stock, marks: seq<bool>, q: Stock) returns (more: seq<bool>)
    requires CanBeMarked(workers, s, marks) && WorkerMove(workers, Marked(s, marks), q)
    ensures CanBeMarked(workers, s, more) && q == Marked(s, more)
  {
    var m := Marked(s, marks);
    if m.queued != [] && |m.inflight| < workers && q == Started(m) {
      StartMarked(workers, s, marks);
      more := marks + [false];
    } else {
      var j :| 0 <= j < |m.inflight| && q == Finished(m, j);
      more := FinishMarked(workers, s, marks, j);
    }
  }

  lemma {:induction false} ReachIsMarked(workers: nat, s: Stock, marks: seq<bool>, q: Stock, n: nat)
      returns (more: seq<bool>)
    requires CanBeMarked(workers, s, marks) && ReachIn(workers, Marked(s, marks), q, n)
    ensures CanBeMarked(workers, s, more) && q == Marked(s, more)
    decreases n
  {
    hide Marked, WorkerMove, CanHaveArrived;
    if n == 0 {
      more := marks;
    } else {
      var m :| WorkerMove(workers, Marked(s, marks), m) && ReachIn(workers, m, q, n - 1);
      var next := MoveMarked(workers, s, marks, m);
      more := ReachIsMarked(workers, s, next, q, n - 1);
    }
  }

  function NoMarks(n: nat): (marks: seq<bool>)
    ensures |marks| == n && forall i :: 0 <= i < n ==> !marks[i]
  {
    seq(n, _ => false)
  }

  lemma NothingMarked(workers: nat, s: Stock)
    requires |s.inflight| <= workers
    ensures CanBeMarked(workers, s, NoMarks(|s.inflight|)) && Marked(s, NoMarks(|s.inflight|)) == s
  {
    var k := |s.inflight|;
    NoneMarked(Requests(s)[..k], NoMarks(k));
    assert Requests(s)[..k] == s.inflight && Requests(s)[k..] == s.queued;
    assert s.window + multiset{} == s.window;
  }

  /** Of the requests in flight, the first `i` have been dealt with: those marked have arrived. */
  function Sifted(s: Stock, marks: seq<bool>, i: nat): Stock
    requires i <= |s.inflight| && i <= |marks|
  {
    Stock(s.queued, Kept(s.inflight[..i], marks[..i]) + s.inflight[i..], s.window + Picked(s.inflight[..i], marks[..i]))
  }

  lemma SiftOne(workers: nat, s: Stock, marks: seq<bool>, i: nat)
    requires i < |s.inflight| && i < |marks|
    ensures Reach(workers, Sifted(s, marks, i), Sifted(s, marks, i + 1))
  {
    hide Kept, Picked, Reach;
    var from, to := Sifted(s, marks, i), Sifted(s, marks, i + 1);
    var r, kept, rest := s.inflight[i], Kept(s.inflight[..i], marks[..i]), s.inflight[i + 1..];
    assert s.inflight[..i + 1] == s.inflight[..i] + [r] && marks[..i + 1] == marks[..i] + [marks[i]];
    assert s.inflight[i..] == [r] + rest;
    MarksSnoc(s.inflight[..i], marks[..i], r, marks[i]);
    assert from.inflight == kept + [r] + rest;
    if marks[i] {
      WithoutMiddle(kept, r, rest);
      assert Finished(from, |kept|) == to;
      FinishMove(workers, from, |kept|);
    } else {
      assert from == to;
      ReachSelf(workers, from);
    }
  }

  lemma FinishMove(workers: nat, s: Stock, i: nat)
    requires i < |s.inflight|
    ensures Reach(workers, s, Finished(s, i))
  {
    assert WorkerMove(workers, s, Finished(s, i));
    ReachMove(workers, s, Finished(s, i));
  }

  lemma {:induction false} Sift(workers: nat, s: Stock, marks: seq<bool>, i: nat)
    requires i <= |s.inflight| && i <= |marks|
    ensures Reach(workers, s, Sifted(s, marks, i))
    decreases i
  {
    if i == 0 {
      assert Sifted(s, marks, 0) == s;
      ReachSelf(workers, s);
    } else {
      Sift(workers, s, marks, i - 1);
      SiftOne(workers, s, marks, i - 1);
      ReachJoin(workers, s, Sifted(s, marks, i - 1), Sifted(s, marks, i));
    }
  }

  /** The next request is started, and passes through if it is marked. */
  lemma PassMarked(workers: nat, s: Stock, marks: seq<bool>, mark: bool)
    requires |s.inflight| <= |marks| < |Requests(s)| && Unmarked(marks) < workers
    ensures Reach(workers, Marked(s, marks), Marked(s, marks + [mark]))
  {
    var from, to := Marked(s, marks), Marked(s, marks + [mark]);
    MarkedSnoc(s, marks, mark);
    PassOn(workers, from, to, mark);
  }

  lemma PassOn(workers: nat, from: Stock, to: Stock, mark: bool)
    requires from.queued != [] && |from.inflight| < workers
    requires to == if mark then Stock(from.queued[1..], from.inflight, from.window + multiset{from.queued[0]})
                   else Started(from)
    ensures Reach(workers, from, to)
  {
    hide Reach;
    var m := Started(from);
    assert WorkerMove(workers, from, m);
    ReachMove(workers, from, m);
    if mark {
      WithoutMiddle(from.inflight, from.queued[0], []);
      assert m.inflight == from.inflight + [from.queued[0]] + [];
      assert Finished(m, |from.inflight|) == to;
      FinishMove(workers, m, |from.inflight|);
      ReachJoin(workers, from, m, to);
    }
  }

  lemma {:induction false} MarkedIsReached(workers: nat, s: Stock, marks: seq<bool>)
    requires CanBeMarked(workers, s, marks)
    ensures Reach(workers, s, Marked(s, marks))
    decreases |marks|
  {
    var k := |marks|;
    if k == |s.inflight| {
      Sift(workers, s, marks, k);
      assert Requests(s)[..k] == s.inflight == s.inflight[..k] && marks[..k] == marks;
      assert Requests(s)[k..] == s.queued;
      assert Sifted(s, marks, k) == Marked(s, marks);
    } else {
      var front := marks[..k - 1];
      assert marks == front + [marks[k - 1]];
      assert forall d :: 0 <= d < k - 1 ==> front[..d] == marks[..d];
      MarksSnoc(Requests(s)[..k - 1], front, Requests(s)[k - 1], marks[k - 1]);
      MarkedIsReached(workers, s, front);
      PassMarked(workers, s, front, marks[k - 1]);
      ReachJoin(workers, s, Marked(s, front), Marked(s, marks));
    }
  }

  // ----- When a read can be cut short -----

  /**
   * With the marked requests arrived, the window carries the reader to a wait at `x`, below the target, while request `i`,
   * which ends before `x`, is out.
   */
  ghost predicate LeavesBehind(
      workers: nat, s: Stock, cursor: nat, target: nat, marks: seq<bool>, x: nat, i: nat)
  {
    && |marks| == |Requests(s)| && CanHaveArrived(workers, marks)
    && Gap(s.window + Picked(Requests(s), marks), cursor, x) && x < target
    && i < |marks| && !marks[i] && Requests(s)[i].End() < x
  }

  ghost predicate SomeLeftBehind(workers: nat, s: Stock, cursor: nat, target: nat) {
    exists marks, x, i :: LeavesBehind(workers, s, cursor, target, marks, x, i)
  }

  /** Marks on the first requests only, and on all of them, say the same. */
  lemma {:induction false} MarksPadded(requests: seq<Req>, marks: seq<bool>, full: seq<bool>)
    requires |marks| <= |full| == |requests| && full[..|marks|] == marks
    requires forall i :: |marks| <= i < |full| ==> !full[i]
    ensures Picked(requests, full) == Picked(requests[..|marks|], marks)
    ensures Kept(requests, full) == Kept(requests[..|marks|], marks) + requests[|marks|..]
    decreases |full|
  {
    var n := |full| - 1;
    if |marks| == |full| {
      assert full == marks && requests[..|marks|] == requests;
    } else {
      assert full[..n][..|marks|] == marks && requests[..n][..|marks|] == requests[..|marks|];
      MarksPadded(requests[..n], marks, full[..n]);
      assert requests[..n][|marks|..] + [requests[n]] == requests[|marks|..];
    }
  }

  /** A request is kept exactly when it stands at an unmarked place. */
  lemma {:induction false} KeptAt(requests: seq<Req>, marks: seq<bool>, r: Req)
    requires |requests| == |marks|
    ensures r in Kept(requests, marks) <==> exists i :: 0 <= i < |marks| && !marks[i] && requests[i] == r
  {
    if marks != [] {
      var n := |marks| - 1;
      KeptAt(requests[..n], marks[..n], r);
      if i :| 0 <= i < |marks| && !marks[i] && requests[i] == r {
        assert i < n ==> !marks[..n][i] && requests[..n][i] == r;
      }
      if r in Kept(requests[..n], marks[..n]) {
        var i :| 0 <= i < n && !marks[..n][i] && requests[..n][i] == r;
        assert !marks[i] && requests[i] == r;
      }
    }
  }

  lemma OvertakenLeavesBehind(workers: nat, s: Stock, cursor: nat, target: nat, q: Stock, x: nat, r: Req)
    requires |s.inflight| <= workers && Overtakes(workers, s, cursor, target, q, x, r)
    ensures SomeLeftBehind(workers, s, cursor, target)
  {
    var n: nat :| ReachIn(workers, s, q, n);
    NothingMarked(workers, s);
    var marks := ReachIsMarked(workers, s, NoMarks(|s.inflight|), q, n);
    var all := Requests(s);
    var full := marks + NoMarks(|all| - |marks|);
    MarksPadded(all, marks, full);
    forall d | 0 <= d < |full| && full[d] ensures Unmarked(full[..d]) < workers {
      assert full[..d] == marks[..d];
    }
    assert r in Kept(all, full);
    KeptAt(all, full, r);
    var i :| 0 <= i < |full| && !full[i] && all[i] == r;
    assert LeavesBehind(workers, s, cursor, target, full, x, i);
  }

  /** The marks up to the last one that is set, or over the requests in flight. */
  lemma {:induction false} Trim(workers: nat, s: Stock, marks: seq<bool>, k: nat) returns (cut: seq<bool>)
    requires |s.inflight| <= workers && |s.inflight| <= k <= |marks| == |Requests(s)|
    requires CanHaveArrived(workers, marks) && forall i :: k <= i < |marks| ==> !marks[i]
    ensures CanBeMarked(workers, s, cut) && |cut| <= |marks| && cut == marks[..|cut|]
    ensures forall i :: |cut| <= i < |marks| ==> !marks[i]
    decreases k
  {
    if k == |s.inflight| || marks[k - 1] {
      cut := marks[..k];
      assert forall d :: 0 <= d < k ==> cut[..d] == marks[..d];
      if k > 0 && marks[k - 1] {
        assert cut == marks[..k - 1] + [true];
        MarksSnoc(Requests(s)[..k - 1], marks[..k - 1], Requests(s)[k - 1], true);
      }
    } else {
      cut := Trim(workers, s, marks, k - 1);
    }
  }

  lemma LeftBehindIsOvertaken(workers: nat, s: Stock, cursor: nat, target: nat, marks: seq<bool>, x: nat, i: nat)
    requires |s.inflight| <= workers && LeavesBehind(workers, s, cursor, target, marks, x, i)
    ensures CanBeOvertaken(workers, s, cursor, target)
  {
    var all := Requests(s);
    var cut := Trim(workers, s, marks, |marks|);
    MarkedIsReached(workers, s, cut);
    MarksPadded(all, cut, marks);
    KeptAt(all, marks, all[i]);
    var q := Marked(s, cut);
    assert all[i] in q.Outstanding() by {
      assert all[i] in Kept(all[..|cut|], cut) + all[|cut|..];
    }
    assert Overtakes(workers, s, cursor, target, q, x, all[i]);
    assert OvertakenAt(workers, s, cursor, target, x);
  }

  /**
   * For any number of workers and any blocks left from earlier reads and seeks, a read can be cut short exactly when a
   * stale block is in the window, or some choice of the requests still out, such that before each of them fewer than
   * `workers` are left behind, carries the reader to a wait below the target and past the end of one that is left behind.
   */
  lemma CanBeShortExactly(workers: nat, s: Stock, cursor: nat, target: nat, blockSize: nat, blobSize: nat)
    requires workers >= 1 && |s.inflight| <= workers && Alike(s.All(), blockSize, blobSize)
    ensures CanBeShort(workers, s, cursor, target)
       <==> cursor < target && (SomeStale(s.window, cursor) || SomeLeftBehind(workers, s, cursor, target))
  {
    CanBeShortIff(workers, s, cursor, target, blockSize, blobSize);
    if CanBeOvertaken(workers, s, cursor, target) {
      var x: nat :| OvertakenAt(workers, s, cursor, target, x);
      var q, r :| Overtakes(workers, s, cursor, target, q, x, r);
      OvertakenLeavesBehind(workers, s, cursor, target, q, x, r);
    }
    if SomeLeftBehind(workers, s, cursor, target) {
      var marks, x: nat, i: nat :| LeavesBehind(workers, s, cursor, target, marks, x, i);
      LeftBehindIsOvertaken(workers, s, cursor, target, marks, x, i);
    }
  }
}
