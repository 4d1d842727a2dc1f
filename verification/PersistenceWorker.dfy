/** The persistence worker: lease, write, then commit or hand the lease back. */
module PersistenceWorker {
  import opened Wrappers
  import opened Wire
  import opened BatchQueue
  import opened Persistence

  datatype Round = Waited | Committed | Retried | Stopped

  function EnvelopesOf(items: seq<Batch>): seq<Envelope> {
    seq(|items|, i requires 0 <= i < |items| => items[i].envelope)
  }

  /** Some observation of the items is invalid inventory. */
  ghost predicate Unmappable(items: seq<Batch>) {
    Poison(EnvelopesOf(items))
  }

  /** The store gained exactly the planned rows of the items, which record their inventory. */
  ghost predicate Wrote(before: seq<Row>, after: seq<Row>, items: seq<Batch>, codec: Codec) {
    var envs := EnvelopesOf(items);
    var rows := MapAll(envs, codec);
    && rows.Some? && after == before + Inserted(Plan(rows.value))
    && StoresAll(after[|before|..], envs, codec) && AddsOnly(after[|before|..], envs, codec)
  }

  /** Handing a lease straight back restores the queue, order included. */
  lemma RetryUndoesAcquire<T>(q: QueueState<T>, max: int)
    ensures AfterRetry(AfterAcquire(q, max), Leased(q, max)) == q
  {
    var n := LeaseCount(q, max);
    assert q.items[..n] + q.items[n..] == q.items;
  }

  /** Signals of a part are signals of the whole, and no two parts share one. */
  lemma SplitSignals(items: seq<Batch>, n: nat)
    requires n <= |items| && Closable(items)
    ensures Closable(items[..n]) && Closable(items[n..])
    ensures Signals(items[..n]) <= Signals(items) && Signals(items[n..]) <= Signals(items)
    ensures Signals(items[..n]) !! Signals(items[n..])
  {
    var low, high := items[..n], items[n..];
    assert items == low + high;
    forall s | s in Signals(low) ensures s !in Signals(high) {
      var i :| 0 <= i < |low| && low[i].persisted == Some(s);
      forall j | 0 <= j < |high| ensures high[j].persisted != Some(s) {
        assert items[i] == low[i] && items[n + j] == high[j];
      }
    }
    assert forall i :: 0 <= i < |high| ==> high[i] == items[n + i];
  }

  class Worker {
    const queue: Queue
    const repository: Repository
    const leaseSize: int

    constructor (queue: Queue, repository: Repository, leaseSize: int)
      ensures this.queue == queue && this.repository == repository
      ensures this.leaseSize == if leaseSize > 0 then leaseSize else 20
    {
      this.queue, this.repository := queue, repository;
      this.leaseSize := if leaseSize <= 0 then 20 else leaseSize;
    }

    method Write(items: seq<Batch>, failAt: nat, landed: nat, codec: Codec) returns (outcome: Outcome)
      modifies repository
      ensures old(repository.store) <= repository.store
      ensures outcome == Poisoned <==> Unmappable(items)
      ensures outcome == Poisoned ==> repository.store == old(repository.store)
      ensures outcome == Stored ==> Wrote(old(repository.store), repository.store, items, codec)
    {
      var envelopes: seq<Envelope> := [];
      for i := 0 to |items|
        invariant |envelopes| == i && forall j :: 0 <= j < i ==> envelopes[j] == items[j].envelope
      {
        envelopes := envelopes + [items[i].envelope];
      }
      assert envelopes == EnvelopesOf(items);
      outcome := repository.Persist(envelopes, failAt, landed, codec);
    }

    /** Leased and waiting batches never share a notification. */
    method Take() returns (lease: Lease?)
      requires Closable(queue.items)
      modifies queue
      ensures lease == null <==> old(queue.items) == []
      ensures lease == null ==> queue.State() == old(queue.State())
      ensures lease != null ==>
                && fresh(lease) && lease.queue == queue && !lease.settled
                && lease.items == Leased(old(queue.State()), leaseSize)
                && queue.State() == AfterAcquire(old(queue.State()), leaseSize)
                && Closable(lease.items) && Closable(queue.items) && Signals(lease.items) !! Signals(queue.items)
                && Signals(lease.items) <= Signals(old(queue.items))
    {
      ghost var before, n := queue.items, LeaseCount(queue.State(), leaseSize);
      SplitSignals(before, n);
      lease := queue.Acquire(leaseSize);
      assert lease != null ==> lease.items == before[..n] && queue.items == before[n..];
    }

    /** A stored lease is committed, any other goes back to the front of the queue. */
    method Settle(lease: Lease, outcome: Outcome)
      requires !lease.settled && lease.queue == queue
      requires Closable(lease.items) && Closable(queue.items) && Signals(lease.items) !! Signals(queue.items)
      modifies lease, queue, Signals(lease.items)
      ensures outcome == Stored ==>
                && queue.State() == AfterCommit(old(queue.State()), lease.items) && Closable(queue.items)
                && forall s :: s in Signals(lease.items) ==> s.closed
      ensures outcome != Stored ==>
                && queue.State() == AfterRetry(old(queue.State()), lease.items)
                && forall s :: s in Signals(lease.items) + Signals(old(queue.items)) ==> !s.closed
    {
      if outcome == Stored {
        ghost var rest := queue.items;
        lease.Commit();
        assert Closable(rest) && queue.items == rest;
      } else {
        lease.Retry();
      }
    }

    method Work(lease: Lease, failAt: nat, landed: nat, codec: Codec) returns (outcome: Outcome)
      requires !lease.settled && lease.queue == queue
      requires Closable(lease.items) && Closable(queue.items) && Signals(lease.items) !! Signals(queue.items)
      modifies lease, queue, repository, Signals(lease.items)
      ensures old(repository.store) <= repository.store
      ensures outcome == Poisoned <==> Unmappable(lease.items)
      ensures outcome == Poisoned ==> repository.store == old(repository.store)
      ensures outcome == Stored ==>
                && Wrote(old(repository.store), repository.store, lease.items, codec)
                && queue.State() == AfterCommit(old(queue.State()), lease.items) && Closable(queue.items)
                && forall s :: s in Signals(lease.items) ==> s.closed
      ensures outcome != Stored ==>
                && queue.State() == AfterRetry(old(queue.State()), lease.items)
                && forall s :: s in Signals(lease.items) + Signals(old(queue.items)) ==> !s.closed
    {
      outcome := Write(lease.items, failAt, landed, codec);
      Settle(lease, outcome);
    }

    /** One turn of the loop. `failAt` and `landed` say how the database behaves. A batch's
        notification closes only with its commit; a failed or poisoned turn leaves the queue as it
        was and notifies nobody. */
    method RunOnce(failAt: nat, landed: nat, codec: Codec) returns (round: Round)
      requires Closable(queue.items)
      modifies queue, repository, Signals(queue.items)
      ensures old(repository.store) <= repository.store
      ensures round == Waited <==> old(queue.items) == []
      ensures round != Committed ==> queue.State() == old(queue.State()) && Closable(queue.items)
      ensures round == Waited || round == Stopped ==> repository.store == old(repository.store)
      ensures round != Waited ==> (round == Stopped <==> Unmappable(Leased(old(queue.State()), leaseSize)))
      ensures round == Committed ==>
                var leased := Leased(old(queue.State()), leaseSize);
                && Wrote(old(repository.store), repository.store, leased, codec)
                && queue.State() == AfterCommit(AfterAcquire(old(queue.State()), leaseSize), leased)
                && Closable(queue.items) && forall s :: s in Signals(leased) ==> s.closed
    {
      RetryUndoesAcquire(queue.State(), leaseSize);
      var lease := Take();
      if lease == null { return Waited; }
      var outcome := Work(lease, failAt, landed, codec);
      return if outcome == Stored then Committed else if outcome == Poisoned then Stopped else Retried;
    }
  }

  function Leased<T>(q: QueueState<T>, max: int): seq<T> { q.items[..LeaseCount(q, max)] }
}
