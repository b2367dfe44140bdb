/** `BlockingQueue`: a FIFO channel with `close`. */
module BlockingQueues {

  datatype Channel<T> = Channel(items: seq<T>, closed: bool)

  /** `Empty` is a `pop` that has to wait, or a `pop_for` whose time runs out. */
  datatype PopResult<T> = Got(value: T) | Closed | Empty

  /** A `push` onto a closed queue throws and leaves the queue alone. */
  function Pushed<T>(c: Channel<T>, x: T): (r: (Channel<T>, bool)) {
    if c.closed then (c, false) else (c.(items := c.items + [x]), true)
  }

  /** `closed` is tested first: a closed queue delivers nothing, even when it still holds items. */
  function PopOf<T>(c: Channel<T>): (Channel<T>, PopResult<T>) {
    if c.closed then (c, Closed)
    else if c.items == [] then (c, Empty)
    else (c.(items := c.items[1..]), Got(c.items[0]))
  }

  class BlockingQueue<T> {
    var q: seq<T>
    var closed: bool

    ghost function View(): Channel<T>
      reads this
    {
      Channel(q, closed)
    }

    constructor ()
      ensures View() == Channel([], false)
    {
      q := [];
      closed := false;
    }

    method Push(value: T) returns (accepted: bool)
      modifies this
      ensures (View(), accepted) == Pushed(old(View()), value)
    {
      if closed {
        return false;
      }
      q := q + [value];
      return true;
    }

    method Pop() returns (r: PopResult<T>)
      modifies this
      ensures (View(), r) == PopOf(old(View()))
    {
      if closed {
        return Closed;
      }
      if |q| == 0 {
        return Empty;
      }
      r := Got(q[0]);
      q := q[1..];
    }

    method IsEmpty() returns (empty: bool)
      ensures empty <==> View().items == []
    {
      empty := |q| == 0;
    }

    method Close()
      modifies this
      ensures View() == old(View()).(closed := true)
    {
      closed := true;
    }
  }

  datatype Op<T> = Push(x: T) | Pop | Close

  /** What a queue has accepted and delivered over a history of calls, and what it still holds. */
  datatype History<T> = History(channel: Channel<T>, accepted: seq<T>, delivered: seq<T>)

  function Play<T>(ops: seq<Op<T>>): History<T> {
    if ops == [] then History(Channel([], false), [], [])
    else
      var h := Play(ops[..|ops| - 1]);
      match ops[|ops| - 1]
      case Push(x) =>
        var (c, accepted) := Pushed(h.channel, x);
        History(c, if accepted then h.accepted + [x] else h.accepted, h.delivered)
      case Pop =>
        var (c, r) := PopOf(h.channel);
        History(c, h.accepted, if r.Got? then h.delivered + [r.value] else h.delivered)
      case Close => h.(channel := h.channel.(closed := true))
  }

  /** First in, first out: deliveries followed by what is still queued are the accepted pushes, in order. */
  lemma {:induction false} Fifo<T>(ops: seq<Op<T>>)
    ensures Play(ops).accepted == Play(ops).delivered + Play(ops).channel.items
    ensures Close in ops <==> Play(ops).channel.closed
  {
    if ops != [] {
      var front, last := ops[..|ops| - 1], ops[|ops| - 1];
      assert ops == front + [last];
      Fifo(front);
    }
  }

  /** What the calls of `push` passed, in order. */
  function Pushes<T>(ops: seq<Op<T>>): seq<T> {
    if ops == [] then []
    else Pushes(ops[..|ops| - 1]) + match ops[|ops| - 1] { case Push(x) => [x] case _ => [] }
  }

  /** A queue that has not been closed accepts every push. */
  lemma {:induction false} OpenQueueAccepts<T>(ops: seq<Op<T>>)
    requires Close !in ops
    ensures Play(ops).accepted == Pushes(ops)
  {
    if ops != [] {
      var front, last := ops[..|ops| - 1], ops[|ops| - 1];
      assert ops == front + [last];
      OpenQueueAccepts(front);
      Fifo(front);
    }
  }

  /** And as long as it holds an item, the next `pop` delivers the oldest one. */
  lemma OpenQueueDelivers<T>(ops: seq<Op<T>>)
    requires Close !in ops && Play(ops).channel.items != []
    ensures Play(ops + [Op.Pop]).delivered == Play(ops).delivered + [Play(ops).channel.items[0]]
  {
    assert (ops + [Op.Pop])[..|ops|] == ops;
    Fifo(ops);
  }

  /** Nothing moves after `close`: whatever was queued then is never delivered. */
  lemma {:induction false} CloseStopsDelivery<T>(ops: seq<Op<T>>, later: seq<Op<T>>)
    requires Close in ops
    ensures Play(ops + later) == Play(ops)
  {
    if later == [] {
      assert ops + later == ops;
    } else {
      CloseStopsDelivery(ops, later[..|later| - 1]);
      assert (ops + later)[..|ops + later| - 1] == ops + later[..|later| - 1];
      Fifo(ops);
    }
  }

  /** Every accepted item is delivered in the end exactly when the queue was empty at `close`. */
  lemma AllDeliveredIff<T>(ops: seq<Op<T>>, later: seq<Op<T>>)
    requires Close in ops
    ensures Play(ops + later).delivered == Play(ops).accepted <==> Play(ops).channel.items == []
  {
    CloseStopsDelivery(ops, later);
    Fifo(ops);
  }
}
