/** The ingestion queue: bounded, leased to workers, with one notification per batch. */
module BatchQueue {
  import opened Wrappers
  import opened Wire

  datatype QueueState<T> = QueueState(items: seq<T>, inFlight: int, capacity: int)

  function NewQueue<T>(capacity: int): QueueState<T> {
    QueueState([], 0, if capacity < 1 then 1 else capacity)
  }

  predicate HasRoom<T>(q: QueueState<T>) {
    |q.items| + q.inFlight < q.capacity
  }

  function AfterEnqueue<T>(q: QueueState<T>, batch: T): QueueState<T> {
    if HasRoom(q) then q.(items := q.items + [batch]) else q
  }

  /** As many as asked for, at least one, but no more than there are. */
  function LeaseCount<T>(q: QueueState<T>, max: int): (n: nat)
    ensures n <= |q.items| && (q.items != [] ==> n > 0)
    ensures 1 <= max <= |q.items| ==> n == max
    ensures max > |q.items| ==> n == |q.items|
    ensures max < 1 && q.items != [] ==> n == 1
  {
    var wanted := if max < 1 then 1 else max;
    if wanted < |q.items| then wanted else |q.items|
  }

  function AfterAcquire<T>(q: QueueState<T>, max: int): QueueState<T> {
    var n := LeaseCount(q, max);
    q.(items := q.items[n..], inFlight := q.inFlight + n)
  }

  function AfterCommit<T>(q: QueueState<T>, leased: seq<T>): QueueState<T> {
    q.(inFlight := q.inFlight - |leased|)
  }

  function AfterRetry<T>(q: QueueState<T>, leased: seq<T>): QueueState<T> {
    q.(items := leased + q.items, inFlight := q.inFlight - |leased|)
  }

  // ---------------------------------------------------------------- whole runs

  datatype LeaseState<T> = LeaseState(items: seq<T>, settled: bool)

  /** The queue, every lease ever handed out, and two histories. */
  datatype World<T> = World(
    queue: QueueState<T>, leases: seq<LeaseState<T>>, enqueued: seq<T>, committed: seq<T>)

  datatype Event<T> =
    | Enqueue(batch: T) | Acquire(max: int) | Commit(lease: nat) | Retry(lease: nat)

  function Next<T>(w: World<T>, e: Event<T>): World<T> {
    match e
    case Enqueue(b) =>
      if HasRoom(w.queue) then w.(queue := AfterEnqueue(w.queue, b), enqueued := w.enqueued + [b]) else w
    case Acquire(max) =>
      if w.queue.items == [] then w else
        w.(queue := AfterAcquire(w.queue, max),
           leases := w.leases + [LeaseState(w.queue.items[..LeaseCount(w.queue, max)], false)])
    case Commit(i) =>
      if i >= |w.leases| || w.leases[i].settled then w else
        w.(queue := AfterCommit(w.queue, w.leases[i].items),
           leases := w.leases[i := w.leases[i].(settled := true)],
           committed := w.committed + w.leases[i].items)
    case Retry(i) =>
      if i >= |w.leases| || w.leases[i].settled then w else
        w.(queue := AfterRetry(w.queue, w.leases[i].items),
           leases := w.leases[i := w.leases[i].(settled := true)])
  }

  function Run<T>(w: World<T>, events: seq<Event<T>>): World<T> {
    if events == [] then w else Next(Run(w, events[..|events| - 1]), events[|events| - 1])
  }

  function Start<T>(capacity: int): World<T> {
    World(NewQueue(capacity), [], [], [])
  }

  /** Everything held by leases that are not settled yet, oldest lease first. */
  function Outstanding<T>(leases: seq<LeaseState<T>>): seq<T> {
    if leases == [] then [] else
      var last := leases[|leases| - 1];
      Outstanding(leases[..|leases| - 1]) + (if last.settled then [] else last.items)
  }

  /** One worker asks for a lease only after settling the previous one. */
  ghost predicate OneWorker<T>(w: World<T>, events: seq<Event<T>>) {
    forall n :: 0 <= n < |events| && events[n].Acquire? ==> AllSettled(Run(w, events[..n]).leases)
  }

  ghost predicate AllSettled<T>(leases: seq<LeaseState<T>>) {
    forall i :: 0 <= i < |leases| ==> leases[i].settled
  }

  ghost predicate Conserved<T>(w: World<T>) {
    && multiset(w.enqueued) == multiset(w.committed) + multiset(Outstanding(w.leases)) + multiset(w.queue.items)
    && w.queue.inFlight == |Outstanding(w.leases)|
    && |w.queue.items| + w.queue.inFlight <= w.queue.capacity
  }

  /** Settling a lease cuts its batches out of the outstanding ones, and nothing else. */
  lemma {:induction false} SettleCuts<T>(leases: seq<LeaseState<T>>, i: nat) returns (before: seq<T>, after: seq<T>)
    requires i < |leases| && !leases[i].settled
    ensures Outstanding(leases) == before + leases[i].items + after
    ensures Outstanding(leases[i := leases[i].(settled := true)]) == before + after
  {
    var n := |leases| - 1;
    var leases' := leases[i := leases[i].(settled := true)];
    if i == n {
      assert leases'[..n] == leases[..n];
      before, after := Outstanding(leases[..n]), [];
    } else {
      before, after := SettleCuts(leases[..n], i);
      assert leases'[..n] == leases[..n][i := leases[i].(settled := true)];
      var last := if leases[n].settled then [] else leases[n].items;
      assert before + leases[i].items + after + last == before + leases[i].items + (after + last);
      assert before + after + last == before + (after + last);
      after := after + last;
    }
  }

  lemma SettleOne<T>(leases: seq<LeaseState<T>>, i: nat)
    requires i < |leases| && !leases[i].settled
    ensures var after := Outstanding(leases[i := leases[i].(settled := true)]);
            && multiset(Outstanding(leases)) == multiset(after) + multiset(leases[i].items)
            && |Outstanding(leases)| == |after| + |leases[i].items|
  {
    var before, after := SettleCuts(leases, i);
    CutBag(before, leases[i].items, after);
  }

  lemma CutBag<T>(a: seq<T>, b: seq<T>, c: seq<T>)
    ensures multiset(a + b + c) == multiset(a + c) + multiset(b)
  {
  }

  lemma EnqueueConserves<T>(w: World<T>, b: T)
    requires Conserved(w)
    ensures Conserved(Next(w, Enqueue(b)))
  {
  }

  lemma AcquireConserves<T>(w: World<T>, max: int)
    requires Conserved(w)
    ensures Conserved(Next(w, Acquire(max)))
  {
    if w.queue.items != [] {
      var w' := Next(w, Acquire(max));
      var k := LeaseCount(w.queue, max);
      assert w'.leases[..|w.leases|] == w.leases;
      assert Outstanding(w'.leases) == Outstanding(w.leases) + w.queue.items[..k];
      assert w.queue.items == w.queue.items[..k] + w.queue.items[k..];
    }
  }

  lemma CommitConserves<T>(w: World<T>, i: nat)
    requires Conserved(w)
    ensures Conserved(Next(w, Commit(i)))
  {
    if i < |w.leases| && !w.leases[i].settled { SettleOne(w.leases, i); }
  }

  lemma RetryConserves<T>(w: World<T>, i: nat)
    requires Conserved(w)
    ensures Conserved(Next(w, Retry(i)))
  {
    if i < |w.leases| && !w.leases[i].settled { SettleOne(w.leases, i); }
  }

  /** Nothing is lost or duplicated and the bound holds after every step, for any number of workers. */
  lemma {:induction false} RunsConserve<T>(capacity: int, events: seq<Event<T>>)
    ensures Conserved(Run(Start<T>(capacity), events))
  {
    if events != [] {
      var n := |events| - 1;
      var w := Run(Start<T>(capacity), events[..n]);
      RunsConserve(capacity, events[..n]);
      match events[n]
      case Enqueue(b) => EnqueueConserves(w, b);
      case Acquire(max) => AcquireConserves(w, max);
      case Commit(i) => CommitConserves(w, i);
      case Retry(i) => RetryConserves(w, i);
    }
  }

  /** At most the newest lease is open. */
  ghost predicate OnlyLastOpen<T>(leases: seq<LeaseState<T>>) {
    leases == [] || AllSettled(leases[..|leases| - 1])
  }

  lemma {:induction false} SettledHoldNothing<T>(leases: seq<LeaseState<T>>)
    requires AllSettled(leases)
    ensures Outstanding(leases) == []
  {
    if leases != [] { SettledHoldNothing(leases[..|leases| - 1]); }
  }

  /** In every run a batch is taken exactly while fewer are waiting and leased than the capacity, which
      is the number given, or one. */
  lemma TakenExactly<T>(capacity: int, events: seq<Event<T>>, b: T)
    ensures var w := Run(Start<T>(capacity), events);
            var held := |w.queue.items| + |Outstanding(w.leases)|;
            && held <= (if capacity > 1 then capacity else 1)
            && (Next(w, Enqueue(b)).enqueued == w.enqueued + [b] <==> held < if capacity > 1 then capacity else 1)
            && (Next(w, Enqueue(b)) == w <==> held == if capacity > 1 then capacity else 1)
  {
    RunsConserve(capacity, events);
    CapacityStays(capacity, events);
    var w := Run(Start<T>(capacity), events);
    assert |w.enqueued + [b]| != |w.enqueued|;
  }

  lemma {:induction false} CapacityStays<T>(capacity: int, events: seq<Event<T>>)
    ensures Run(Start<T>(capacity), events).queue.capacity == if capacity > 1 then capacity else 1
  {
    if events != [] { CapacityStays(capacity, events[..|events| - 1]); }
  }

  /** With one worker, committed, leased and waiting batches are the enqueued ones in order. */
  lemma {:induction false} OneWorkerKeepsOrder<T>(capacity: int, events: seq<Event<T>>)
    requires OneWorker(Start<T>(capacity), events)
    ensures var w := Run(Start<T>(capacity), events);
            OnlyLastOpen(w.leases) && Ordered(w)
  {
    if events != [] {
      var n := |events| - 1;
      assert forall m :: 0 <= m < n ==> events[..n][..m] == events[..m] && events[..n][m] == events[m];
      OneWorkerKeepsOrder(capacity, events[..n]);
      OneWorkerStep(Run(Start<T>(capacity), events[..n]), events[n]);
    }
  }

  /** Committed, leased and waiting batches, one after the other, are the enqueued ones. */
  ghost predicate Ordered<T>(w: World<T>) {
    w.enqueued == w.committed + Outstanding(w.leases) + w.queue.items
  }

  ghost predicate InOrder<T>(w: World<T>) {
    OnlyLastOpen(w.leases) && Ordered(w)
  }

  lemma OneWorkerStep<T>(w: World<T>, e: Event<T>)
    requires InOrder(w)
    requires e.Acquire? ==> AllSettled(w.leases)
    ensures InOrder(Next(w, e))
  {
    match e
    case Enqueue(b) => EnqueueInOrder(w, b);
    case Acquire(max) => AcquireInOrder(w, max);
    case Commit(i) => CommitInOrder(w, i);
    case Retry(i) => RetryInOrder(w, i);
  }

  lemma EnqueueInOrder<T>(w: World<T>, b: T)
    requires InOrder(w)
    ensures InOrder(Next(w, Enqueue(b)))
  {
    var held := w.committed + Outstanding(w.leases);
    assert held + w.queue.items + [b] == held + (w.queue.items + [b]);
  }

  lemma CommitInOrder<T>(w: World<T>, i: nat)
    requires InOrder(w)
    ensures InOrder(Next(w, Commit(i)))
  {
    if i < |w.leases| && !w.leases[i].settled {
      SettleLast(w.leases, i);
      Shift(w.committed, w.leases[i].items, w.queue.items);
    }
  }

  lemma RetryInOrder<T>(w: World<T>, i: nat)
    requires InOrder(w)
    ensures InOrder(Next(w, Retry(i)))
  {
    if i < |w.leases| && !w.leases[i].settled {
      SettleLast(w.leases, i);
      Shift(w.committed, w.leases[i].items, w.queue.items);
    }
  }

  lemma Shift<T>(a: seq<T>, b: seq<T>, c: seq<T>)
    ensures a + b + c == (a + b) + [] + c
    ensures a + b + c == a + [] + (b + c)
  {
    assert (a + b) + [] == a + b && a + [] == a;
  }

  lemma AcquireInOrder<T>(w: World<T>, max: int)
    requires InOrder(w) && AllSettled(w.leases)
    ensures InOrder(Next(w, Acquire(max)))
  {
    if w.queue.items != [] {
      SettledHoldNothing(w.leases);
      NewestOutstanding(w.leases, w.queue.items[..LeaseCount(w.queue, max)]);
      Regroup(w.committed, w.queue.items, LeaseCount(w.queue, max));
    }
  }

  lemma NewestOutstanding<T>(leases: seq<LeaseState<T>>, items: seq<T>)
    requires AllSettled(leases)
    ensures var more := leases + [LeaseState(items, false)]; OnlyLastOpen(more) && Outstanding(more) == items
  {
    SettledHoldNothing(leases);
    assert (leases + [LeaseState(items, false)])[..|leases|] == leases;
  }

  lemma Regroup<T>(a: seq<T>, b: seq<T>, k: nat)
    requires k <= |b|
    ensures a + [] + b == a + b[..k] + b[k..]
  {
  }

  lemma SettleLast<T>(leases: seq<LeaseState<T>>, i: nat)
    requires OnlyLastOpen(leases) && i < |leases| && !leases[i].settled
    ensures var after := leases[i := leases[i].(settled := true)];
            Outstanding(leases) == leases[i].items && AllSettled(after) && Outstanding(after) == []
  {
    var n := |leases| - 1;
    var after := leases[i := leases[i].(settled := true)];
    assert after[..n] == leases[..n];
    SettledHoldNothing(leases[..n]);
    forall j | 0 <= j < |after| ensures after[j].settled {
      if j < n { assert after[j] == leases[..n][j]; }
    }
    SettledHoldNothing(after);
  }

  /** With two open leases the order is not kept: the second batch commits before the first. */
  lemma TwoWorkersReorder<T>(a: T, b: T)
    requires a != b
    ensures var w := Run(Start<T>(2), [Enqueue(a), Enqueue(b), Acquire(1), Acquire(1), Commit(1)]);
            w.enqueued == [a, b] && w.committed == [b]
  {
    var s := Start<T>(2);
    var events := [Enqueue(a), Enqueue(b), Acquire(1), Acquire(1), Commit(1)];
    assert events[..5] == events && events[..4][..3] == events[..3];
    var w0 := Run(s, events[..0]);
    Unroll(s, events, 0); Unroll(s, events, 1); Unroll(s, events, 2); Unroll(s, events, 3); Unroll(s, events, 4);
  }

  lemma Unroll<T>(w: World<T>, events: seq<Event<T>>, n: nat)
    requires n < |events|
    ensures Run(w, events[..n + 1]) == Next(Run(w, events[..n]), events[n])
  {
    assert events[..n + 1][..n] == events[..n];
  }

  /** When batches are distinct, each is committed (and so notified) at most once, and a batch
      still waiting or leased has not been. */
  lemma CommittedAtMostOnce<T>(capacity: int, events: seq<Event<T>>, batch: T)
    requires multiset(Run(Start<T>(capacity), events).enqueued)[batch] <= 1
    ensures var w := Run(Start<T>(capacity), events);
            && multiset(w.committed)[batch] <= 1
            && (batch in w.queue.items || batch in Outstanding(w.leases) ==> batch !in w.committed)
  {
    RunsConserve(capacity, events);
    var w := Run(Start<T>(capacity), events);
    var c, o, q := multiset(w.committed), multiset(Outstanding(w.leases)), multiset(w.queue.items);
    assert multiset(w.enqueued)[batch] == c[batch] + o[batch] + q[batch];
    assert batch in w.queue.items ==> batch in q;
    assert batch in Outstanding(w.leases) ==> batch in o;
    assert batch in w.committed ==> batch in c;
  }

  // ---------------------------------------------------------------- the objects

  /** A notification channel: closing it twice is a panic. */
  class Signal {
    var closed: bool

    constructor ()
      ensures !closed
    {
      closed := false;
    }

    method Close()
      requires !closed
      modifies this
      ensures closed
    {
      closed := true;
    }
  }

  datatype Batch = Batch(envelope: Envelope, persisted: Option<Signal>)

  function Signals(items: seq<Batch>): set<Signal> {
    set b | b in items && b.persisted.Some? :: b.persisted.value
  }

  /** Closing every signal once is possible: all open, none shared. */
  ghost predicate Closable(items: seq<Batch>)
    reads Signals(items)
  {
    && (forall s :: s in Signals(items) ==> !s.closed)
    && forall i, j :: 0 <= i < j < |items| && items[i].persisted.Some? && items[j].persisted.Some? ==>
                        items[i].persisted.value != items[j].persisted.value
  }

  class Queue {
    var items: seq<Batch>
    const capacity: int
    var inFlight: int

    function State(): QueueState<Batch>
      reads this
    {
      QueueState(items, inFlight, capacity)
    }

    constructor (capacity: int)
      ensures State() == NewQueue(capacity)
    {
      this.capacity := if capacity < 1 then 1 else capacity;
      items, inFlight := [], 0;
    }

    method TryEnqueue(batch: Batch) returns (ok: bool)
      modifies this
      ensures ok == old(HasRoom(State()))
      ensures State() == AfterEnqueue(old(State()), batch)
    {
      if |items| + inFlight >= capacity { return false; }
      items := items + [batch];
      return true;
    }

    /** `null` is the empty queue, where the worker waits. */
    method Acquire(max: int) returns (lease: Lease?)
      modifies this
      ensures lease == null <==> old(items) == []
      ensures lease == null ==> unchanged(this)
      ensures lease != null ==>
                && fresh(lease) && lease.queue == this && !lease.settled
                && lease.items == old(items)[..LeaseCount(old(State()), max)]
                && State() == AfterAcquire(old(State()), max)
    {
      var wanted := if max < 1 then 1 else max;
      if |items| == 0 { return null; }
      var count := if wanted < |items| then wanted else |items|;
      lease := new Lease(this, items[..count]);
      items := items[count..];
      inFlight := inFlight + count;
    }
  }

  class Lease {
    const queue: Queue
    const items: seq<Batch>
    var settled: bool

    constructor (queue: Queue, items: seq<Batch>)
      ensures this.queue == queue && this.items == items && !settled
    {
      this.queue, this.items, settled := queue, items, false;
    }

    /** The first settlement counts; a later one changes nothing. */
    method Commit()
      requires !settled ==> Closable(items)
      modifies this, queue, Signals(items)
      ensures settled
      ensures old(settled) ==> unchanged(queue) && forall s :: s in Signals(items) ==> s.closed == old(s.closed)
      ensures !old(settled) ==>
                && queue.State() == AfterCommit(old(queue.State()), items)
                && forall s :: s in Signals(items) ==> s.closed
    {
      if settled { return; }
      settled := true;
      var i := 0;
      while i < |items|
        modifies Signals(items)
        invariant 0 <= i <= |items|
        invariant forall j :: 0 <= j < i && items[j].persisted.Some? ==> items[j].persisted.value.closed
        invariant forall j :: i <= j < |items| && items[j].persisted.Some? ==> !items[j].persisted.value.closed
      {
        if items[i].persisted.Some? {
          assert items[i] in items;
          items[i].persisted.value.Close();
        }
        i := i + 1;
      }
      queue.inFlight := queue.inFlight - |items|;
    }

    method Retry()
      modifies this, queue
      ensures settled
      ensures old(settled) ==> unchanged(queue)
      ensures !old(settled) ==> queue.State() == AfterRetry(old(queue.State()), items)
    {
      if settled { return; }
      settled := true;
      queue.items := items + queue.items;
      queue.inFlight := queue.inFlight - |items|;
    }
  }
}
