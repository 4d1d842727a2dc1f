/** Retrying a failed change is equivalent to one failure-free pass. */
module CollectorRetry {
  import opened Wire
  import opened Collector
  import opened CollectorLog
  import opened CollectorProgress
  import opened CollectorReadings

  /** A failed attempt at the change of `once`, whatever namespace UID it found. */
  predicate Retries(a: Attempt, once: Attempt) {
    a.change == once.change && a.stop < |a.events|
  }

  /** An attempt, failed or not, at a change without a key in common. */
  predicate Unrelated(a: Attempt, once: Attempt) {
    a.change != once.change && KeysOf(a.events) !! KeysOf(once.events)
  }

  ghost predicate Interleaved(attempts: seq<Attempt>, once: Attempt) {
    attempts == [] ||
      var a := attempts[|attempts| - 1];
      Interleaved(attempts[..|attempts| - 1], once) && (Retries(a, once) || Unrelated(a, once))
  }

  lemma {:induction false} InterleavedPrefix(attempts: seq<Attempt>, once: Attempt, n: nat)
    requires Interleaved(attempts, once) && n <= |attempts|
    ensures Interleaved(attempts[..n], once)
  {
    if n < |attempts| {
      InterleavedPrefix(attempts[..|attempts| - 1], once, n);
      assert attempts[..|attempts| - 1][..n] == attempts[..n];
    } else {
      assert attempts[..n] == attempts;
    }
  }

  function Others(attempts: seq<Attempt>, change: Change): seq<Attempt> {
    if attempts == [] then [] else
      var n := |attempts| - 1;
      Others(attempts[..n], change) + (if attempts[n].change == change then [] else [attempts[n]])
  }

  /** Every event that a failed attempt published has the content that the successful one gives its key. */
  ghost predicate NothingStale(t: Tracker, attempts: seq<Attempt>, once: Attempt, fp: Fingerprints) {
    forall n :: 0 <= n < |attempts| && attempts[n].change == once.change ==>
                  Truthful(AfterAll(t, attempts[..n], fp), Handled(attempts[n]), OperationOf(once.change), fp,
                           TargetOf(once.events))
  }

  // ---------------------------------------------------------------- the cache and the tracking

  /** Where a history with failed attempts stands next to the same history without them: the same
      tracking, and the same cache but for the keys of the change. */
  ghost predicate Abreast(now: Tracker, clean: Tracker, once: Attempt) {
    && now.pods == clean.pods && TrackingOk(now.pods)
    && IsEvents(clean.pods, once.change, once.events, once.reading)
    && SameOutside(clean.cache, now.cache, TargetOf(once.events).Keys)
  }

  lemma RetryKeepsPace(now: Tracker, clean: Tracker, a: Attempt, once: Attempt, fp: Fingerprints)
    requires Abreast(now, clean, once) && Retries(a, once) && DistinctKeys(once.events) && Possible(now, a)
    ensures Abreast(After(now, a, fp), clean, once)
  {
    var handled := a.events[..a.stop];
    SameChangeWithin(now.pods, once.change, once.events, once.reading, a.events, a.reading);
    AppliedKeepsPods(now, handled, OperationOf(a.change), fp);
    forall i | 0 <= i < |handled| ensures handled[i].key in TargetOf(once.events) { assert a.events[i] in a.events; }
    OneOutside(clean, now, handled, OperationOf(a.change), fp, TargetOf(once.events).Keys);
  }

  lemma OtherKeepsPace(now: Tracker, clean: Tracker, a: Attempt, once: Attempt, fp: Fingerprints)
    requires Abreast(now, clean, once) && Unrelated(a, once) && Possible(now, a)
    ensures Possible(clean, a) && Abreast(After(now, a, fp), After(clean, a, fp), once)
  {
    var handled, op := a.events[..a.stop], OperationOf(a.change);
    AppliedKeepsPods(now, handled, op, fp);
    AppliedKeepsPods(clean, handled, op, fp);
    AttemptKeepsTracking(now, a, fp);
    OtherPodsStay(clean.pods, a, once);
    BothOutside(clean, now, handled, op, fp, TargetOf(once.events).Keys);
  }

  /** Changes without a common key are not about the same pod. */
  lemma OtherPodsStay(pods: map<string, map<Key, Event>>, a: Attempt, once: Attempt)
    requires TrackingOk(pods) && Unrelated(a, once)
    requires IsEvents(pods, a.change, a.events, a.reading) && IsEvents(pods, once.change, once.events, once.reading)
    ensures IsEvents(AfterPods(pods, a.change, a.events), once.change, once.events, once.reading)
  {
    if a.change.PodChange? && once.change.PodChange? {
      PodEventKeys(pods, a.change, a.events, a.reading);
      PodEventKeys(pods, once.change, once.events, once.reading);
      assert a.events[0] in a.events && once.events[0] in once.events;
      assert PodKey(a.change.uid) in KeysOf(a.events) && PodKey(once.change.uid) in KeysOf(once.events);
      assert a.change.uid != once.change.uid;
      assert TrackedFor(AfterPods(pods, a.change, a.events), once.change.uid) == TrackedFor(pods, once.change.uid);
    }
  }

  lemma OthersAppended(attempts: seq<Attempt>, a: Attempt, change: Change)
    ensures Others(attempts + [a], change) == Others(attempts, change) + (if a.change == change then [] else [a])
  {
    assert (attempts + [a])[..|attempts|] == attempts;
  }

  /** The history without the attempts at the change is possible too, and abreast of the whole one. */
  ghost predicate Beside(t: Tracker, attempts: seq<Attempt>, once: Attempt, fp: Fingerprints) {
    var others := Others(attempts, once.change);
    Run(t, others, fp) && Abreast(AfterAll(t, attempts, fp), AfterAll(t, others, fp), once)
  }

  lemma RetryStaysBeside(t: Tracker, attempts: seq<Attempt>, a: Attempt, once: Attempt, fp: Fingerprints)
    requires Beside(t, attempts, once, fp) && Retries(a, once) && DistinctKeys(once.events)
    requires Possible(AfterAll(t, attempts, fp), a)
    ensures Beside(t, attempts + [a], once, fp)
  {
    OthersAppended(attempts, a, once.change);
    assert Others(attempts, once.change) + [] == Others(attempts, once.change);
    AttemptAppended(t, attempts, a, fp);
    RetryKeepsPace(AfterAll(t, attempts, fp), AfterAll(t, Others(attempts, once.change), fp), a, once, fp);
  }

  lemma OtherStaysBeside(t: Tracker, attempts: seq<Attempt>, a: Attempt, once: Attempt, fp: Fingerprints)
    requires Beside(t, attempts, once, fp) && Unrelated(a, once) && Possible(AfterAll(t, attempts, fp), a)
    ensures Beside(t, attempts + [a], once, fp)
  {
    var others := Others(attempts, once.change);
    OthersAppended(attempts, a, once.change);
    AttemptAppended(t, attempts, a, fp);
    AttemptAppended(t, others, a, fp);
    OtherKeepsPace(AfterAll(t, attempts, fp), AfterAll(t, others, fp), a, once, fp);
  }

  lemma {:induction false} HistoriesStayAbreast(t: Tracker, attempts: seq<Attempt>, once: Attempt, fp: Fingerprints)
    requires TrackingOk(t.pods) && Run(t, attempts, fp) && Interleaved(attempts, once)
    requires Possible(t, once) && DistinctKeys(once.events)
    ensures Beside(t, attempts, once, fp)
  {
    if attempts != [] {
      var before, a := attempts[..|attempts| - 1], attempts[|attempts| - 1];
      assert attempts == before + [a];
      HistoriesStayAbreast(t, before, once, fp);
      if Retries(a, once) {
        RetryStaysBeside(t, before, a, once, fp);
      } else {
        OtherStaysBeside(t, before, a, once, fp);
      }
    }
  }

  // ---------------------------------------------------------------- the log, if nothing stale was published

  ghost predicate OnTheWay(clean: Tracker, now: Tracker, once: Attempt, fp: Fingerprints) {
    exists done :: Progress(clean, now, TargetOf(once.events), OperationOf(once.change), fp, done)
  }

  lemma RetryOnTheWay(clean: Tracker, now: Tracker, a: Attempt, once: Attempt, fp: Fingerprints)
    requires OnTheWay(clean, now, once, fp) && Retries(a, once)
    requires Truthful(now, Handled(a), OperationOf(once.change), fp, TargetOf(once.events))
    ensures OnTheWay(clean, After(now, a, fp), once, fp)
  {
    var target, op := TargetOf(once.events), OperationOf(once.change);
    var done :| Progress(clean, now, target, op, fp, done);
    TruthfulProgress(clean, now, target, op, fp, done, Handled(a));
  }

  lemma OtherOnTheWay(clean: Tracker, now: Tracker, a: Attempt, once: Attempt, fp: Fingerprints)
    requires OnTheWay(clean, now, once, fp) && Unrelated(a, once) && DistinctKeys(once.events) && a.stop <= |a.events|
    ensures OnTheWay(After(clean, a, fp), After(now, a, fp), once, fp)
  {
    var target, op, other := TargetOf(once.events), OperationOf(once.change), OperationOf(a.change);
    TargetExactly(once.events);
    var done :| Progress(clean, now, target, op, fp, done);
    var handled := a.events[..a.stop];
    forall i | 0 <= i < |handled| ensures handled[i].key !in target { assert a.events[i] in a.events; }
    OtherApplied(clean, now, target, op, fp, done, handled, other);
    assert Progress(After(clean, a, fp), After(now, a, fp), target, op, fp, done);
  }

  lemma NothingStaleBefore(t: Tracker, attempts: seq<Attempt>, a: Attempt, once: Attempt, fp: Fingerprints)
    requires NothingStale(t, attempts + [a], once, fp)
    ensures NothingStale(t, attempts, once, fp)
    ensures a.change == once.change ==>
              Truthful(AfterAll(t, attempts, fp), Handled(a), OperationOf(once.change), fp, TargetOf(once.events))
  {
    var all := attempts + [a];
    assert all[..|attempts|] == attempts && all[|attempts|] == a;
    forall n | 0 <= n < |attempts| && attempts[n].change == once.change
      ensures Truthful(AfterAll(t, attempts[..n], fp), Handled(attempts[n]), OperationOf(once.change), fp,
                       TargetOf(once.events)) {
      assert all[..n] == attempts[..n] && all[n] == attempts[n];
    }
  }

  lemma {:induction false} HistoryOnTheWay(t: Tracker, attempts: seq<Attempt>, once: Attempt, fp: Fingerprints)
    requires Run(t, attempts, fp) && Interleaved(attempts, once) && NothingStale(t, attempts, once, fp)
    requires DistinctKeys(once.events)
    ensures OnTheWay(AfterAll(t, Others(attempts, once.change), fp), AfterAll(t, attempts, fp), once, fp)
  {
    if attempts == [] {
      StartsClean(t, TargetOf(once.events), OperationOf(once.change), fp);
    } else {
      var before, a := attempts[..|attempts| - 1], attempts[|attempts| - 1];
      assert attempts == before + [a];
      NothingStaleBefore(t, before, a, once, fp);
      HistoryOnTheWay(t, before, once, fp);
      HistoryStep(t, before, a, once, fp);
    }
  }

  lemma HistoryStep(t: Tracker, before: seq<Attempt>, a: Attempt, once: Attempt, fp: Fingerprints)
    requires OnTheWay(AfterAll(t, Others(before, once.change), fp), AfterAll(t, before, fp), once, fp)
    requires Retries(a, once) || Unrelated(a, once)
    requires DistinctKeys(once.events) && a.stop <= |a.events|
    requires a.change == once.change ==>
               Truthful(AfterAll(t, before, fp), Handled(a), OperationOf(once.change), fp, TargetOf(once.events))
    ensures OnTheWay(AfterAll(t, Others(before + [a], once.change), fp), AfterAll(t, before + [a], fp), once, fp)
  {
    var others := Others(before, once.change);
    OthersAppended(before, a, once.change);
    AttemptAppended(t, before, a, fp);
    if Retries(a, once) {
      assert others + [] == others;
      RetryOnTheWay(AfterAll(t, others, fp), AfterAll(t, before, fp), a, once, fp);
    } else {
      AttemptAppended(t, others, a, fp);
      OtherOnTheWay(AfterAll(t, others, fp), AfterAll(t, before, fp), a, once, fp);
    }
  }

  // ---------------------------------------------------------------- the log, if something stale was published

  lemma AttemptGrows(t: Tracker, a: Attempt, fp: Fingerprints, y: Entry)
    ensures multiset(t.log)[y] <= multiset(After(t, a, fp).log)[y]
  {
    assert Handled(a)[..0] == [];
    LogGrows(t, Handled(a), OperationOf(a.change), fp, 0, y);
  }

  lemma {:induction false} HistoryGrows(t: Tracker, attempts: seq<Attempt>, n: nat, fp: Fingerprints, y: Entry)
    requires n <= |attempts|
    ensures multiset(AfterAll(t, attempts[..n], fp).log)[y] <= multiset(AfterAll(t, attempts, fp).log)[y]
  {
    if n < |attempts| {
      var m := |attempts| - 1;
      HistoryGrows(t, attempts[..m], n, fp, y);
      assert attempts[..m][..n] == attempts[..n];
      AttemptGrows(AfterAll(t, attempts[..m], fp), attempts[m], fp, y);
    } else {
      assert attempts[..n] == attempts;
    }
  }

  /** An entry about a key of the change, published by a failed attempt, is one more than before. */
  lemma StaleCounts(t: Tracker, attempts: seq<Attempt>, n: nat, i: nat, fp: Fingerprints, y: Entry)
    requires n < |attempts| && i < |Handled(attempts[n])|
    requires Publishes(AfterAll(t, attempts[..n], fp), Handled(attempts[n]), OperationOf(attempts[n].change), fp, i)
    requires var e := Handled(attempts[n])[i];
             y == Entry(e.key, e.content, Deleting(e.content, OperationOf(attempts[n].change)))
    ensures multiset(t.log)[y] < multiset(AfterAll(t, attempts, fp).log)[y]
  {
    var before := AfterAll(t, attempts[..n], fp);
    HistoryGrows(t, attempts[..n], 0, fp, y);
    PublishedCounts(before, Handled(attempts[n]), OperationOf(attempts[n].change), fp, i, y);
    assert attempts[..n + 1][..n] == attempts[..n];
    assert AfterAll(t, attempts[..n + 1], fp) == After(before, attempts[n], fp);
    HistoryGrows(t, attempts, n + 1, fp, y);
  }

  lemma AttemptAvoids(t: Tracker, a: Attempt, fp: Fingerprints, y: Entry)
    requires Avoids(a.events, y)
    ensures multiset(After(t, a, fp).log)[y] == multiset(t.log)[y]
  {
    AvoidedStays(t, Handled(a), OperationOf(a.change), fp, y);
  }

  lemma {:induction false} OthersAvoid(t: Tracker, attempts: seq<Attempt>, once: Attempt, fp: Fingerprints, y: Entry)
    requires Interleaved(attempts, once) && y.key in KeysOf(once.events)
    ensures multiset(AfterAll(t, Others(attempts, once.change), fp).log)[y] == multiset(t.log)[y]
  {
    if attempts != [] {
      var n := |attempts| - 1;
      var before, a := attempts[..n], attempts[n];
      assert attempts == before + [a];
      OthersAvoid(t, before, once, fp, y);
      OthersAppended(before, a, once.change);
      if a.change == once.change {
        assert Others(before, once.change) + [] == Others(before, once.change);
      } else {
        assert Unrelated(attempts[n], once);
        AttemptAppended(t, Others(before, once.change), a, fp);
        forall i | 0 <= i < |a.events| ensures a.events[i].key != y.key { assert a.events[i] in a.events; }
        AttemptAvoids(AfterAll(t, Others(before, once.change), fp), a, fp, y);
      }
    }
  }

  lemma StaleShows(t: Tracker, attempts: seq<Attempt>, last: Attempt, once: Attempt, fp: Fingerprints)
    requires TrackingOk(t.pods) && Run(t, attempts, fp) && Interleaved(attempts, once) && Possible(t, once)
    requires DistinctKeys(once.events) && !NothingStale(t, attempts, once, fp)
    ensures multiset(AfterAll(t, attempts + [last], fp).log)
            != multiset(AfterAll(t, Others(attempts, once.change) + [once], fp).log)
  {
    var target, op, others := TargetOf(once.events), OperationOf(once.change), Others(attempts, once.change);
    var n :| 0 <= n < |attempts| && attempts[n].change == once.change
             && !Truthful(AfterAll(t, attempts[..n], fp), Handled(attempts[n]), op, fp, target);
    var handled := Handled(attempts[n]);
    var i :| 0 <= i < |handled| && Publishes(AfterAll(t, attempts[..n], fp), handled, op, fp, i)
             && !(handled[i].key in target && handled[i].content == target[handled[i].key]);
    var y := Entry(handled[i].key, handled[i].content, Deleting(handled[i].content, op));
    RetriedKeys(t, attempts, n, once, fp);
    assert handled[i] in attempts[n].events && y.key in KeysOf(once.events);
    StaleCounts(t, attempts, n, i, fp, y);
    AttemptAppended(t, attempts, last, fp);
    AttemptGrows(AfterAll(t, attempts, fp), last, fp, y);
    OthersAvoid(t, attempts, once, fp, y);
    TargetExactly(once.events);
    AttemptAppended(t, others, once, fp);
    AttemptAvoids(AfterAll(t, others, fp), once, fp, y);
  }

  lemma RetriedKeys(t: Tracker, attempts: seq<Attempt>, n: nat, once: Attempt, fp: Fingerprints)
    requires TrackingOk(t.pods) && Run(t, attempts, fp) && Interleaved(attempts, once) && Possible(t, once)
    requires DistinctKeys(once.events) && n < |attempts| && attempts[n].change == once.change
    ensures KeysOf(attempts[n].events) == KeysOf(once.events)
  {
    RunPrefix(t, attempts, n, fp);
    InterleavedPrefix(attempts, once, n);
    HistoriesStayAbreast(t, attempts[..n], once, fp);
    var now, a := AfterAll(t, attempts[..n], fp), attempts[n];
    SameChangeWithin(now.pods, once.change, once.events, once.reading, a.events, a.reading);
  }

  // ---------------------------------------------------------------- retries and one pass

  /** A change that is retried any number of times, with attempts at unrelated changes in between, ends
      in the cache and the tracking of the same history with one failure-free pass in place of all
      its attempts. It also publishes exactly what that history publishes, nothing twice and nothing
      left out, if and only if every event that a failed attempt published has the content that the
      successful one gives its key. */
  lemma RetriesEqualOnePass(t: Tracker, attempts: seq<Attempt>, last: Attempt, once: Attempt, fp: Fingerprints)
    requires TrackingOk(t.pods) && Run(t, attempts + [last], fp) && Interleaved(attempts, once)
    requires Possible(t, once) && once.stop == |once.events| && DistinctKeys(once.events)
    requires last.change == once.change && last.reading.namespace == once.reading.namespace
             && last.stop == |last.events|
    ensures var clean := Others(attempts, once.change) + [once];
            var many, one := AfterAll(t, attempts + [last], fp), AfterAll(t, clean, fp);
            && Run(t, clean, fp)
            && many.cache == one.cache
            && SameTracking(one.pods, many.pods)
            && (multiset(many.log) == multiset(one.log) <==> NothingStale(t, attempts, once, fp))
  {
    var others := Others(attempts, once.change);
    AttemptAppended(t, attempts, last, fp);
    HistoriesStayAbreast(t, attempts, once, fp);
    AttemptAppended(t, others, once, fp);
    SameEnd(AfterAll(t, attempts, fp), AfterAll(t, others, fp), last, once, fp);
    if NothingStale(t, attempts, once, fp) {
      HistoryOnTheWay(t, attempts, once, fp);
      SameLog(AfterAll(t, attempts, fp), AfterAll(t, others, fp), last, once, fp);
    } else {
      StaleShows(t, attempts, last, once, fp);
    }
  }

  lemma SameEnd(before: Tracker, clean: Tracker, last: Attempt, once: Attempt, fp: Fingerprints)
    requires Abreast(before, clean, once) && Possible(before, last) && Proper(once.change)
    requires last.change == once.change && last.reading.namespace == once.reading.namespace
    requires DistinctKeys(once.events) && last.stop == |last.events| && once.stop == |once.events|
    ensures After(before, last, fp).cache == After(clean, once, fp).cache
    ensures SameTracking(After(clean, once, fp).pods, After(before, last, fp).pods)
  {
    var target, op := TargetOf(once.events), OperationOf(once.change);
    StartsClean(before, target, op, fp);
    StartsClean(clean, target, op, fp);
    Completes(before, before, last, once, fp);
    Completes(clean, clean, once, once, fp);
    TargetExactly(once.events);
    SettledAlike(before.cache, clean.cache, After(before, last, fp).cache, After(clean, once, fp).cache,
                 target, op, fp);
    SameTrackingAfter(clean.pods, once.change, once.events, once.reading, last.events, last.reading);
  }

  lemma SameLog(before: Tracker, clean: Tracker, last: Attempt, once: Attempt, fp: Fingerprints)
    requires Abreast(before, clean, once) && OnTheWay(clean, before, once, fp)
    requires Possible(before, last) && Proper(once.change)
    requires last.change == once.change && last.reading.namespace == once.reading.namespace
    requires DistinctKeys(once.events) && last.stop == |last.events| && once.stop == |once.events|
    ensures multiset(After(before, last, fp).log) == multiset(After(clean, once, fp).log)
  {
    StartsClean(clean, TargetOf(once.events), OperationOf(once.change), fp);
    Completes(clean, before, last, once, fp);
    Completes(clean, clean, once, once, fp);
  }

  /** If every attempt finds the same namespace UID, nothing stale can be published. */
  lemma SameNamespaceSuffices(t: Tracker, attempts: seq<Attempt>, once: Attempt, fp: Fingerprints)
    requires TrackingOk(t.pods) && Run(t, attempts, fp) && Interleaved(attempts, once)
    requires Possible(t, once) && DistinctKeys(once.events)
    requires forall n :: 0 <= n < |attempts| && attempts[n].change == once.change ==>
                           attempts[n].reading.namespace == once.reading.namespace
    ensures NothingStale(t, attempts, once, fp)
  {
    forall n | 0 <= n < |attempts| && attempts[n].change == once.change
      ensures Truthful(AfterAll(t, attempts[..n], fp), Handled(attempts[n]), OperationOf(once.change), fp,
                       TargetOf(once.events)) {
      RunPrefix(t, attempts, n, fp);
      InterleavedPrefix(attempts, once, n);
      HistoriesStayAbreast(t, attempts[..n], once, fp);
      var now, a := AfterAll(t, attempts[..n], fp), attempts[n];
      SameChangeWithin(now.pods, once.change, once.events, once.reading, a.events, a.reading);
    }
  }

  /** A successful attempt completes the change, wherever the failed ones had got to. */
  lemma Completes(t0: Tracker, before: Tracker, a: Attempt, once: Attempt, fp: Fingerprints)
    requires TrackingOk(t0.pods) && before.pods == t0.pods && DistinctKeys(once.events)
    requires IsEvents(t0.pods, once.change, once.events, once.reading)
    requires Possible(before, a) && a.stop == |a.events|
    requires a.change == once.change && a.reading.namespace == once.reading.namespace
    requires OnTheWay(t0, before, once, fp)
    ensures Progress(t0, After(before, a, fp), TargetOf(once.events), OperationOf(once.change), fp,
                     TargetOf(once.events).Keys)
    ensures After(before, a, fp).pods == AfterPods(t0.pods, a.change, a.events)
  {
    TargetExactly(once.events);
    SameChangeWithin(t0.pods, once.change, once.events, once.reading, a.events, a.reading);
    assert a.events[..a.stop] == a.events;
    Finishes(t0, before, TargetOf(once.events), OperationOf(once.change), fp, a.events);
  }

  // ---------------------------------------------------------------- a namespace UID that changes

  const POD := PodChange("p", "", [Container(false, "c", "")], Upsert)

  /** An attempt at time zero that finds nothing to tombstone. */
  function Alone(change: Change, namespace: string, stop: nat): Attempt
    requires !change.Unusable?
  {
    Attempt(change, OwnEvents(change, Reading(namespace, 0)), Reading(namespace, 0), stop)
  }

  function PodContent(namespace: string): Content { Content(false, namespace, "") }

  const POD_KEY := PodKey("p")
  const CONTAINER_KEY := ContainerKey(false, "p", "c")

  lemma PodEvents(namespace: string)
    ensures OwnEvents(POD, Reading(namespace, 0))
            == [Event(POD_KEY, PodContent(namespace), 0), Event(CONTAINER_KEY, PodContent(namespace), 0)]
  {
  }

  lemma AppliedOne(t: Tracker, x: Event, y: Event, fp: Fingerprints)
    ensures Applied(t, [x, y][..1], Upsert, fp) == AfterDelta(t, x, Upsert, fp)
    ensures Applied(t, [x, y][..2], Upsert, fp) == AfterDelta(AfterDelta(t, x, Upsert, fp), y, Upsert, fp)
  {
    assert [x, y][..1] == [x] && [x, y][..2] == [x, y] && [x][..0] == [];
    assert Applied(t, [x], Upsert, fp) == AfterDelta(Applied(t, [], Upsert, fp), x, Upsert, fp);
  }

  /** The container was refused: only the pod was published, without its namespace. */
  lemma FirstTry(fp: Fingerprints)
    ensures Possible(EMPTY, Alone(POD, "", 1))
    ensures After(EMPTY, Alone(POD, "", 1), fp)
            == Tracker(map[POD_KEY := fp(PodContent(""))], map[], [Entry(POD_KEY, PodContent(""), false)])
  {
    PodEvents("");
    AppliedOne(EMPTY, Event(POD_KEY, PodContent(""), 0), Event(CONTAINER_KEY, PodContent(""), 0), fp);
    assert Alone(POD, "", 1).events[2..] == [];
  }

  lemma SecondTry(t: Tracker, fp: Fingerprints)
    requires t.pods == map[] && CONTAINER_KEY !in t.cache
    requires POD_KEY in t.cache ==> t.cache[POD_KEY] != fp(PodContent("u"))
    ensures Possible(t, Alone(POD, "u", 2))
    ensures |After(t, Alone(POD, "u", 2), fp).log| == |t.log| + 2
  {
    PodEvents("u");
    AppliedOne(t, Event(POD_KEY, PodContent("u"), 0), Event(CONTAINER_KEY, PodContent("u"), 0), fp);
    assert Alone(POD, "u", 2).events[2..] == [];
  }

  /** If the lister learns the namespace between two attempts, what the first one published is
      published again under the new UID. */
  lemma LateNamespacePublishesTwice(fp: Fingerprints)
    requires Faithful(fp)
    ensures var many := [Alone(POD, "", 1), Alone(POD, "u", 2)];
            && Run(EMPTY, many, fp) && Run(EMPTY, [Alone(POD, "u", 2)], fp)
            && |AfterAll(EMPTY, many, fp).log| == 3 && |AfterAll(EMPTY, [Alone(POD, "u", 2)], fp).log| == 2
  {
    var a0, a1 := Alone(POD, "", 1), Alone(POD, "u", 2);
    FirstTry(fp);
    assert PodContent("") != PodContent("u");
    SecondTry(EMPTY, fp);
    SecondTry(After(EMPTY, a0, fp), fp);
    OneAttempt(EMPTY, a1, fp);
    TwoAttempts(EMPTY, a0, a1, fp);
  }
}
