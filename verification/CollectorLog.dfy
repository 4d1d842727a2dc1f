/** The fingerprint cache and the published log agree after every history of the collector. */
module CollectorLog {
  import opened Collector

  // ---------------------------------------------------------------- the cache and the published log

  /** The inventory a consumer of the log ends up with. */
  function Replay(log: seq<Entry>): map<Key, Content> {
    if log == [] then map[] else
      var n := |log| - 1;
      var before := Replay(log[..n]);
      if log[n].deleted then before - {log[n].key} else before[log[n].key := log[n].content]
  }

  /** Replay keeps exactly the last entry of a key, when that is an upsert. */
  lemma {:induction false} ReplayIsLastEntry(log: seq<Entry>, k: Key, x: Content)
    ensures k in Replay(log) && Replay(log)[k] == x <==>
            exists i :: 0 <= i < |log| && log[i] == Entry(k, x, false) && forall j :: i < j < |log| ==> log[j].key != k
  {
    if log != [] {
      var n := |log| - 1;
      ReplayIsLastEntry(log[..n], k, x);
      if log[n].key != k {
        if k in Replay(log[..n]) && Replay(log[..n])[k] == x {
          var i :| 0 <= i < n && log[..n][i] == Entry(k, x, false) && forall j :: i < j < n ==> log[..n][j].key != k;
          assert forall j :: i < j < n ==> log[..n][j] == log[j];
          assert log[i] == Entry(k, x, false) && forall j :: i < j < |log| ==> log[j].key != k;
        }
        if i :| 0 <= i < |log| && log[i] == Entry(k, x, false) && forall j :: i < j < |log| ==> log[j].key != k {
          assert log[..n][i] == log[i] && forall j :: i < j < n ==> log[..n][j] == log[j];
        }
      } else if log[n] == Entry(k, x, false) {
        assert 0 <= n < |log| && log[n] == Entry(k, x, false);
      }
    }
  }

  /** A key is cached with the fingerprint of what the log last said about it, and only then. */
  ghost predicate Agrees(t: Tracker, fp: Fingerprints) {
    && t.cache.Keys == Replay(t.log).Keys
    && forall k :: k in t.cache ==> t.cache[k] == fp(Replay(t.log)[k])
  }

  /** A delete follows an upsert of its key; two upserts in a row differ. */
  ghost predicate Disciplined(log: seq<Entry>) {
    forall i :: 0 <= i < |log| ==>
                  var before := Replay(log[..i]);
                  && (log[i].deleted ==> log[i].key in before)
                  && (!log[i].deleted && log[i].key in before ==> before[log[i].key] != log[i].content)
  }

  lemma DeltaAgrees(t: Tracker, e: Event, op: Action, fp: Fingerprints)
    requires Agrees(t, fp) && Disciplined(t.log)
    ensures Agrees(AfterDelta(t, e, op, fp), fp) && Disciplined(AfterDelta(t, e, op, fp).log)
  {
    var t' := AfterDelta(t, e, op, fp);
    if t' != t {
      assert t'.log[..|t.log|] == t.log;
      assert forall i :: 0 <= i <= |t.log| ==> t'.log[..i] == t.log[..i];
    }
  }

  lemma {:induction false} AppliedAgrees(t: Tracker, events: seq<Event>, op: Action, fp: Fingerprints)
    requires Agrees(t, fp) && Disciplined(t.log)
    ensures Agrees(Applied(t, events, op, fp), fp) && Disciplined(Applied(t, events, op, fp).log)
  {
    if events != [] {
      var n := |events| - 1;
      AppliedAgrees(t, events[..n], op, fp);
      DeltaAgrees(Applied(t, events[..n], op, fp), events[n], op, fp);
    }
  }

  lemma AttemptKeepsTracking(t: Tracker, a: Attempt, fp: Fingerprints)
    requires TrackingOk(t.pods) && Possible(t, a)
    ensures TrackingOk(After(t, a, fp).pods)
  {
    AppliedKeepsPods(t, a.events[..a.stop], OperationOf(a.change), fp);
    PodsStayOk(t.pods, a.change, a.events, a.reading);
  }

  lemma {:induction false} RunPrefix(t: Tracker, attempts: seq<Attempt>, n: nat, fp: Fingerprints)
    requires Run(t, attempts, fp) && n <= |attempts|
    ensures Run(t, attempts[..n], fp)
    ensures n < |attempts| ==> Possible(AfterAll(t, attempts[..n], fp), attempts[n])
  {
    if n < |attempts| - 1 {
      RunPrefix(t, attempts[..|attempts| - 1], n, fp);
      assert attempts[..|attempts| - 1][..n] == attempts[..n];
    } else if n == |attempts| {
      assert attempts[..n] == attempts;
    }
  }

  lemma AttemptAppended(t: Tracker, attempts: seq<Attempt>, a: Attempt, fp: Fingerprints)
    ensures AfterAll(t, attempts + [a], fp) == After(AfterAll(t, attempts, fp), a, fp)
    ensures Run(t, attempts + [a], fp) <==> Run(t, attempts, fp) && Possible(AfterAll(t, attempts, fp), a)
  {
    assert (attempts + [a])[..|attempts|] == attempts;
  }

  lemma OneAttempt(t: Tracker, a: Attempt, fp: Fingerprints)
    requires Possible(t, a)
    ensures Run(t, [a], fp) && AfterAll(t, [a], fp) == After(t, a, fp)
  {
    AttemptAppended(t, [], a, fp);
    assert [] + [a] == [a];
  }

  lemma TwoAttempts(t: Tracker, a: Attempt, b: Attempt, fp: Fingerprints)
    requires Possible(t, a) && Possible(After(t, a, fp), b)
    ensures Run(t, [a, b], fp) && AfterAll(t, [a, b], fp) == After(After(t, a, fp), b, fp)
  {
    OneAttempt(t, a, fp);
    AttemptAppended(t, [a], b, fp);
    assert [a] + [b] == [a, b];
  }

  /** After every step of every history, failed attempts included, the cache is the fingerprint
      image of the replayed log, and the log is disciplined. */
  lemma {:induction false} CacheAgreesWithLog(attempts: seq<Attempt>, fp: Fingerprints)
    requires Run(EMPTY, attempts, fp)
    ensures var t := AfterAll(EMPTY, attempts, fp);
            Agrees(t, fp) && Disciplined(t.log) && TrackingOk(t.pods)
  {
    if attempts != [] {
      var n := |attempts| - 1;
      RunPrefix(EMPTY, attempts, n, fp);
      CacheAgreesWithLog(attempts[..n], fp);
      var t, a := AfterAll(EMPTY, attempts[..n], fp), attempts[n];
      AppliedAgrees(t, a.events[..a.stop], OperationOf(a.change), fp);
      AttemptKeepsTracking(t, a, fp);
    }
  }

  // ---------------------------------------------------------------- suppression is invisible

  /** What a collector without a cache would publish for the same events. */
  function Everything(events: seq<Event>, op: Action): seq<Entry> {
    if events == [] then [] else
      var n := |events| - 1;
      Everything(events[..n], op) + [Entry(events[n].key, events[n].content, Deleting(events[n].content, op))]
  }

  function NaiveLog(attempts: seq<Attempt>): seq<Entry> {
    if attempts == [] then [] else
      var a := attempts[|attempts| - 1];
      NaiveLog(attempts[..|attempts| - 1]) + Everything(Handled(a), OperationOf(a.change))
  }

  lemma {:induction false} AppliedReplays(t: Tracker, naive: seq<Entry>, events: seq<Event>, op: Action,
                                          fp: Fingerprints)
    requires Faithful(fp) && Agrees(t, fp) && Disciplined(t.log) && Replay(t.log) == Replay(naive)
    ensures Replay(Applied(t, events, op, fp).log) == Replay(naive + Everything(events, op))
  {
    if events == [] {
      assert naive + Everything(events, op) == naive;
    } else {
      var n := |events| - 1;
      AppliedReplays(t, naive, events[..n], op, fp);
      AppliedAgrees(t, events[..n], op, fp);
      var before := naive + Everything(events[..n], op);
      var last := Entry(events[n].key, events[n].content, Deleting(events[n].content, op));
      assert naive + Everything(events, op) == before + [last];
      DeltaReplays(Applied(t, events[..n], op, fp), before, events[n], op, fp);
    }
  }

  lemma ReplayAppended(log: seq<Entry>, x: Entry)
    ensures Replay(log + [x]) == if x.deleted then Replay(log) - {x.key} else Replay(log)[x.key := x.content]
  {
    assert (log + [x])[..|log|] == log;
  }

  lemma DeltaReplays(t: Tracker, naive: seq<Entry>, e: Event, op: Action, fp: Fingerprints)
    requires Faithful(fp) && Agrees(t, fp) && Replay(t.log) == Replay(naive)
    ensures Replay(AfterDelta(t, e, op, fp).log)
            == Replay(naive + [Entry(e.key, e.content, Deleting(e.content, op))])
  {
    var x := Entry(e.key, e.content, Deleting(e.content, op));
    ReplayAppended(naive, x);
    if Effective(t.cache, e.key, e.content, op, fp) {
      ReplayAppended(t.log, x);
    } else if !x.deleted {
      assert fp(Replay(t.log)[e.key]) == fp(e.content);
    }
  }

  /** Publishing only deltas tells a consumer exactly what publishing everything would. */
  lemma {:induction false} SuppressionIsInvisible(attempts: seq<Attempt>, fp: Fingerprints)
    requires Faithful(fp) && Run(EMPTY, attempts, fp)
    ensures Replay(AfterAll(EMPTY, attempts, fp).log) == Replay(NaiveLog(attempts))
  {
    if attempts != [] {
      var n := |attempts| - 1;
      RunPrefix(EMPTY, attempts, n, fp);
      SuppressionIsInvisible(attempts[..n], fp);
      CacheAgreesWithLog(attempts[..n], fp);
      var a := attempts[n];
      AppliedReplays(AfterAll(EMPTY, attempts[..n], fp), NaiveLog(attempts[..n]), a.events[..a.stop],
                     OperationOf(a.change), fp);
    }
  }
}
