/**
 The bounded queue between submitters and a worker (src/ingest/queue.cpp:30-115). Its lock makes
 every operation one step; a blocking operation is the step it takes once its wait is over.
 */
module Queue {
  import opened Domain

  datatype QueueState<T> = QueueState(
    items: seq<T>, capacity: nat, closed: bool, highWater: nat,
    pushed: nat, popped: nat, rejectedFull: nat, rejectedClosed: nat, abandoned: nat)

  /** A capacity of zero is raised to one. */
  function NewQueue<T>(capacity: nat): QueueState<T> {
    QueueState([], if capacity == 0 then 1 else capacity, false, 0, 0, 0, 0, 0, 0)
  }

  predicate Room<T>(q: QueueState<T>) { |q.items| < q.capacity }

  function Larger(a: nat, b: nat): nat { if a > b then a else b }

  /** What a push does when it does not have to wait. */
  function Pushed<T>(q: QueueState<T>, item: T): QueueState<T> {
    if q.closed then q.(rejectedClosed := q.rejectedClosed + 1)
    else if !Room(q) then q.(rejectedFull := q.rejectedFull + 1)
    else q.(items := q.items + [item], pushed := q.pushed + 1, highWater := Larger(|q.items| + 1, q.highWater))
  }

  function Popped<T>(q: QueueState<T>): QueueState<T> {
    if q.items == [] then q else q.(items := q.items[1..], popped := q.popped + 1)
  }

  function Closed<T>(q: QueueState<T>): QueueState<T> { q.(closed := true) }

  function Discarded<T>(q: QueueState<T>): QueueState<T> {
    q.(items := [], abandoned := q.abandoned + |q.items|)
  }

  // ---------------------------------------------------------------------------
  // Runs
  // ---------------------------------------------------------------------------

  datatype QueueOp<T> = TryPush(item: T) | TryPop | Close | Discard

  function Act<T>(q: QueueState<T>, op: QueueOp<T>): QueueState<T> {
    match op
    case TryPush(item) => Pushed(q, item)
    case TryPop => Popped(q)
    case Close => Closed(q)
    case Discard => Discarded(q)
  }

  function ActAll<T>(q: QueueState<T>, ops: seq<QueueOp<T>>): QueueState<T> {
    if ops == [] then q else Act(ActAll(q, ops[..|ops| - 1]), ops[|ops| - 1])
  }

  ghost predicate QueueInv<T>(q: QueueState<T>) {
    && q.pushed == q.popped + q.abandoned + |q.items|
    && |q.items| <= q.highWater <= q.capacity
    && q.capacity > 0
  }

  lemma {:induction false} ActKeepsInv<T>(q: QueueState<T>, op: QueueOp<T>)
    requires QueueInv(q)
    ensures QueueInv(Act(q, op)) && Act(q, op).capacity == q.capacity
    ensures q.closed ==> Act(q, op).closed && Act(q, op).pushed == q.pushed && |Act(q, op).items| <= |q.items|
  {
  }

  /**
   Over every run of queue operations: what was pushed is popped, abandoned or still held; the size
   never exceeds the high-water mark, nor that the capacity; and after a close nothing enters.
   */
  lemma {:induction false} QueueRuns<T>(capacity: nat, ops: seq<QueueOp<T>>, k: nat)
    requires k <= |ops|
    ensures QueueInv(ActAll(NewQueue(capacity), ops))
    ensures
      var before, after := ActAll(NewQueue(capacity), ops[..k]), ActAll(NewQueue(capacity), ops);
      before.closed ==> after.closed && after.pushed == before.pushed && |after.items| <= |before.items|
    decreases |ops|
  {
    if ops != [] {
      var n := |ops| - 1;
      if k <= n {
        assert ops[..n][..k] == ops[..k];
        QueueRuns(capacity, ops[..n], k);
      } else {
        assert ops[..k] == ops;
        QueueRuns(capacity, ops[..n], n);
      }
      ActKeepsInv(ActAll(NewQueue(capacity), ops[..n]), ops[n]);
    } else {
      assert ops[..k] == ops;
    }
  }

  // ---------------------------------------------------------------------------
  // The monitor
  // ---------------------------------------------------------------------------

  class BoundedQueue<T> {
    var items: seq<T>
    const capacity: nat
    var closed: bool
    var highWater: nat
    var pushed: nat
    var popped: nat
    var rejectedFull: nat
    var rejectedClosed: nat
    var abandoned: nat

    function State(): QueueState<T>
      reads this
    {
      QueueState(items, capacity, closed, highWater, pushed, popped, rejectedFull, rejectedClosed, abandoned)
    }

    constructor (capacity: nat)
      ensures State() == NewQueue(capacity)
    {
      this.capacity := if capacity == 0 then 1 else capacity;
      items, closed, highWater := [], false, 0;
      pushed, popped, rejectedFull, rejectedClosed, abandoned := 0, 0, 0, 0, 0;
    }

    /** The blocking push once space appeared or the queue was closed. */
    method Push(item: T) returns (entered: bool)
      requires closed || Room(State())
      modifies this
      ensures State() == Pushed(old(State()), item)
      ensures entered == !old(closed)
    {
      if closed {
        rejectedClosed := rejectedClosed + 1;
        return false;
      }
      items := items + [item];
      pushed := pushed + 1;
      if |items| > highWater {
        highWater := |items|;
      }
      return true;
    }

    method TryPush(item: T) returns (entered: bool)
      modifies this
      ensures State() == Pushed(old(State()), item)
      ensures entered == (!old(closed) && Room(old(State())))
    {
      if closed {
        rejectedClosed := rejectedClosed + 1;
        return false;
      }
      if |items| >= capacity {
        rejectedFull := rejectedFull + 1;
        return false;
      }
      entered := Push(item);
    }

    /** The blocking pop once an item appeared or the queue was closed; None ends the worker. */
    method Pop() returns (out: Option<T>)
      requires items != [] || closed
      modifies this
      ensures State() == Popped(old(State()))
      ensures out == if old(items) == [] then Option.None else Some(old(items)[0])
    {
      if items == [] {
        return Option.None;
      }
      out := Some(items[0]);
      items := items[1..];
      popped := popped + 1;
    }

    method CloseQueue()
      modifies this
      ensures State() == Closed(old(State()))
    {
      closed := true;
    }

    method DiscardPending() returns (count: nat)
      modifies this
      ensures State() == Discarded(old(State())) && count == |old(items)|
    {
      count := |items|;
      items := [];
      abandoned := abandoned + count;
    }
  }
}
