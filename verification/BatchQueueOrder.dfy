/** Exactly which settlements keep the ingestion queue in order, for any number of workers. */
module BatchQueueOrder {
  import opened Basics
  import opened BatchQueue

  /** No lease is ever empty. */
  ghost predicate Filled<T>(leases: seq<LeaseState<T>>) {
    forall i :: 0 <= i < |leases| ==> leases[i].items != []
  }

  /** A commit settles the oldest open lease, a retry the newest. */
  ghost predicate InTurn<T>(w: World<T>, e: Event<T>) {
    match e
    case Commit(i) => i < |w.leases| && !w.leases[i].settled ==> AllSettled(w.leases[..i])
    case Retry(i) => i < |w.leases| && !w.leases[i].settled ==> AllSettled(w.leases[i + 1..])
    case _ => true
  }

  // ---------------------------------------------------------------- one step

  lemma {:induction false} OutstandingConcat<T>(a: seq<LeaseState<T>>, b: seq<LeaseState<T>>)
    ensures Outstanding(a + b) == Outstanding(a) + Outstanding(b)
  {
    if b == [] {
      assert a + b == a;
    } else {
      var n := |b| - 1;
      assert (a + b)[..|a| + n] == a + b[..n];
      OutstandingConcat(a, b[..n]);
    }
  }

  /** What is outstanding around one lease, before and after it is settled. */
  lemma OutstandingAround<T>(leases: seq<LeaseState<T>>, i: nat)
    requires i < |leases| && !leases[i].settled
    ensures var older, newer := Outstanding(leases[..i]), Outstanding(leases[i + 1..]);
            && Outstanding(leases) == older + leases[i].items + newer
            && Outstanding(leases[i := leases[i].(settled := true)]) == older + newer
  {
    var older, newer, x := leases[..i], leases[i + 1..], leases[i];
    var done := x.(settled := true);
    assert leases == older + [x] + newer && leases[i := done] == older + [done] + newer;
    OutstandingConcat(older + [x], newer);
    OutstandingConcat(older, [x]);
    OutstandingConcat(older + [done], newer);
    OutstandingConcat(older, [done]);
    assert [x][..0] == [] && [done][..0] == [];
    assert Outstanding([x]) == x.items && Outstanding([done]) == [];
  }

  lemma {:induction false} NothingOutstanding<T>(leases: seq<LeaseState<T>>)
    requires Filled(leases)
    ensures Outstanding(leases) == [] <==> AllSettled(leases)
  {
    if leases != [] {
      var n := |leases| - 1;
      NothingOutstanding(leases[..n]);
      assert AllSettled(leases) <==> AllSettled(leases[..n]) && leases[n].settled;
    }
  }

  /** Two neighbouring stretches of a list without repetitions can change places only if one is empty. */
  lemma SwapShows<T>(a: seq<T>, x: seq<T>, y: seq<T>, z: seq<T>)
    requires Distinct(a + x + y + z) && x != []
    ensures a + x + y + z == a + y + x + z <==> y == []
  {
    if y == [] {
      assert a + x + y + z == a + y + x + z;
    } else {
      var n := |a|;
      assert (a + x + y + z)[n] == x[0] && (a + x + y + z)[n + |x|] == y[0];
      assert (a + y + x + z)[n] == y[0];
    }
  }

  lemma CommitInTurn<T>(w: World<T>, i: nat)
    requires Ordered(w) && Filled(w.leases) && Distinct(w.enqueued) && i < |w.leases| && !w.leases[i].settled
    ensures Ordered(Next(w, Commit(i))) <==> AllSettled(w.leases[..i])
  {
    var older, newer, x := Outstanding(w.leases[..i]), Outstanding(w.leases[i + 1..]), w.leases[i].items;
    OutstandingAround(w.leases, i);
    NothingOutstanding(w.leases[..i]);
    var rest := newer + w.queue.items;
    Grouped(w.committed, older, x, newer, w.queue.items);
    SwapBack(w.committed, older, x, rest);
  }

  lemma Grouped<T>(c: seq<T>, older: seq<T>, x: seq<T>, newer: seq<T>, q: seq<T>)
    ensures c + (older + x + newer) + q == c + older + x + (newer + q)
    ensures c + x + (older + newer) + q == c + x + older + (newer + q)
  {
  }

  lemma SwapBack<T>(a: seq<T>, y: seq<T>, x: seq<T>, z: seq<T>)
    requires Distinct(a + y + x + z) && x != []
    ensures a + y + x + z == a + x + y + z <==> y == []
  {
    if y == [] {
      assert a + y + x + z == a + x + y + z;
    } else {
      SwapShows(a, y, x, z);
    }
  }

  lemma RetryInTurn<T>(w: World<T>, i: nat)
    requires Ordered(w) && Filled(w.leases) && Distinct(w.enqueued) && i < |w.leases| && !w.leases[i].settled
    ensures Ordered(Next(w, Retry(i))) <==> AllSettled(w.leases[i + 1..])
  {
    var older, newer, x := Outstanding(w.leases[..i]), Outstanding(w.leases[i + 1..]), w.leases[i].items;
    OutstandingAround(w.leases, i);
    NothingOutstanding(w.leases[i + 1..]);
    var before := w.committed + older;
    assert w.enqueued == before + x + newer + w.queue.items;
    assert w.committed + (older + newer) + (x + w.queue.items) == before + newer + x + w.queue.items;
    SwapShows(before, x, newer, w.queue.items);
  }

  lemma AcquireStaysOrdered<T>(w: World<T>, max: int)
    requires Ordered(w) && w.queue.items != []
    ensures Ordered(Next(w, Acquire(max)))
  {
    var k := LeaseCount(w.queue, max);
    var lease := LeaseState(w.queue.items[..k], false);
    assert (w.leases + [lease])[..|w.leases|] == w.leases;
    assert w.committed + (Outstanding(w.leases) + w.queue.items[..k]) + w.queue.items[k..]
           == w.committed + Outstanding(w.leases) + w.queue.items;
  }

  /** From an ordered state, one step keeps the order exactly when it comes in turn. */
  lemma StepKeepsOrderExactly<T>(w: World<T>, e: Event<T>)
    requires Ordered(w) && Filled(w.leases) && Distinct(w.enqueued)
    ensures Ordered(Next(w, e)) <==> InTurn(w, e)
  {
    match e
    case Enqueue(b) =>
      assert w.committed + Outstanding(w.leases) + (w.queue.items + [b])
             == w.committed + Outstanding(w.leases) + w.queue.items + [b];
    case Acquire(max) => if w.queue.items != [] { AcquireStaysOrdered(w, max); }
    case Commit(i) => if i < |w.leases| && !w.leases[i].settled { CommitInTurn(w, i); }
    case Retry(i) => if i < |w.leases| && !w.leases[i].settled { RetryInTurn(w, i); }
  }

  // ---------------------------------------------------------------- whole runs

  lemma {:induction false} LeasesAreFilled<T>(capacity: int, events: seq<Event<T>>)
    ensures Filled(Run(Start<T>(capacity), events).leases)
  {
    if events != [] {
      var w := Run(Start<T>(capacity), events[..|events| - 1]);
      LeasesAreFilled(capacity, events[..|events| - 1]);
    }
  }

  lemma {:induction false} EnqueuedGrows<T>(capacity: int, events: seq<Event<T>>, n: nat)
    requires n <= |events|
    ensures Run(Start<T>(capacity), events[..n]).enqueued <= Run(Start<T>(capacity), events).enqueued
  {
    if n == |events| {
      assert events[..n] == events;
    } else {
      var k := |events| - 1;
      EnqueuedGrows(capacity, events[..k], n);
      assert events[..k][..n] == events[..n];
    }
  }

  lemma {:induction false} InTurnKeepsOrder<T>(capacity: int, events: seq<Event<T>>, n: nat)
    requires n <= |events| && Distinct(Run(Start<T>(capacity), events).enqueued)
    requires forall m :: 0 <= m < |events| ==> InTurn(Run(Start<T>(capacity), events[..m]), events[m])
    ensures Ordered(Run(Start<T>(capacity), events[..n]))
  {
    if n > 0 {
      InTurnKeepsOrder(capacity, events, n - 1);
      StepInRun(capacity, events, n - 1);
    }
  }

  lemma StepInRun<T>(capacity: int, events: seq<Event<T>>, n: nat)
    requires n < |events| && Distinct(Run(Start<T>(capacity), events).enqueued)
    requires Ordered(Run(Start<T>(capacity), events[..n]))
    ensures Ordered(Run(Start<T>(capacity), events[..n + 1])) <==>
            InTurn(Run(Start<T>(capacity), events[..n]), events[n])
  {
    LeasesAreFilled(capacity, events[..n]);
    EnqueuedGrows(capacity, events, n);
    Unroll(Start<T>(capacity), events, n);
    StepKeepsOrderExactly(Run(Start<T>(capacity), events[..n]), events[n]);
  }

  /** With any number of workers and distinct batches, committed, leased and waiting batches stay in
      the order of arrival throughout a run exactly when every commit settles the oldest open lease
      and every retry the newest. */
  lemma OrderKeptExactly<T>(capacity: int, events: seq<Event<T>>)
    requires Distinct(Run(Start<T>(capacity), events).enqueued)
    ensures (forall n :: 0 <= n <= |events| ==> Ordered(Run(Start<T>(capacity), events[..n])))
            <==> forall n :: 0 <= n < |events| ==> InTurn(Run(Start<T>(capacity), events[..n]), events[n])
  {
    var s := Start<T>(capacity);
    if forall n :: 0 <= n < |events| ==> InTurn(Run(s, events[..n]), events[n]) {
      forall n | 0 <= n <= |events| ensures Ordered(Run(s, events[..n])) { InTurnKeepsOrder(capacity, events, n); }
    }
    if forall n :: 0 <= n <= |events| ==> Ordered(Run(s, events[..n])) {
      forall n | 0 <= n < |events| ensures InTurn(Run(s, events[..n]), events[n]) {
        StepInRun(capacity, events, n);
        assert Ordered(Run(s, events[..n + 1]));
      }
    }
  }
}
