/** What a consumer of the published log sees after a change, told by the fields of the change. */
module CollectorContents {
  import opened Wire
  import opened Collector
  import opened CollectorLog
  import opened CollectorOrder

  // ---------------------------------------------------------------- what a list of events says

  lemma {:induction false} LastMention(events: seq<Event>, op: Action, k: Key, i: nat)
    requires i < |events| && events[i].key == k && forall j :: i < j < |events| ==> events[j].key != k
    ensures VerdictOn(events, op, k) == if Deleting(events[i].content, op) then Absent else Holds(events[i].content)
  {
    if i < |events| - 1 { LastMention(events[..|events| - 1], op, k, i); }
  }

  lemma {:induction false} NoMention(events: seq<Event>, op: Action, k: Key)
    requires forall j :: 0 <= j < |events| ==> events[j].key != k
    ensures VerdictOn(events, op, k) == Silent
  {
    if events != [] { NoMention(events[..|events| - 1], op, k); }
  }

  // ---------------------------------------------------------------- what a change says

  predicate Same(before: map<Key, Content>, after: map<Key, Content>, k: Key) {
    (k in after <==> k in before) && (k in before ==> after[k] == before[k])
  }

  predicate Has(after: map<Key, Content>, k: Key, x: Content) {
    k in after && after[k] == x
  }

  function KeyOf(uid: string, x: Container): Key { ContainerKey(x.init, uid, x.name) }

  ghost predicate Lists(change: Change, k: Key)
    requires change.PodChange?
  {
    exists i :: 0 <= i < |change.containers| && k == KeyOf(change.uid, change.containers[i])
  }

  /** No later container of the pod has the same name. */
  ghost predicate LastOfName(change: Change, i: nat)
    requires change.PodChange? && i < |change.containers|
  {
    forall j :: i < j < |change.containers| ==>
                  KeyOf(change.uid, change.containers[j]) != KeyOf(change.uid, change.containers[i])
  }

  /** After a pod upsert: the pod and each of its containers, every vanished container gone, and
      nothing else changed. */
  ghost predicate ShowsUpsert(before: map<Key, Content>, after: map<Key, Content>, tracked: set<Key>, change: Change,
                              namespace: string)
    requires change.PodChange?
  {
    && Has(after, PodKey(change.uid), Content(false, namespace, change.body))
    && (forall i :: 0 <= i < |change.containers| && LastOfName(change, i) ==>
          Has(after, KeyOf(change.uid, change.containers[i]), Content(false, namespace, change.containers[i].body)))
    && (forall k :: k in tracked && !Lists(change, k) ==> k !in after)
    && forall k :: k != PodKey(change.uid) && !Lists(change, k) && k !in tracked ==> Same(before, after, k)
  }

  /** After a pod delete: neither the pod nor its listed containers, and nothing else changed. */
  ghost predicate ShowsDelete(before: map<Key, Content>, after: map<Key, Content>, change: Change)
    requires change.PodChange?
  {
    && PodKey(change.uid) !in after && (forall k :: Lists(change, k) ==> k !in after)
    && forall k :: k != PodKey(change.uid) && !Lists(change, k) ==> Same(before, after, k)
  }

  /** The inventory before and after a completed change. */
  ghost predicate Shows(before: map<Key, Content>, after: map<Key, Content>, tracked: set<Key>, change: Change,
                        namespace: string)
  {
    match change
    case Fixed(e) => after == before[e.key := e.content]
    case Object(key, body, op) =>
      if op == Delete then after == before - {key}
      else after == before[key := Content(false, if key.DeploymentKey? then namespace else "", body)]
    case PodChange(_, _, _, op) =>
      if op == Delete then ShowsDelete(before, after, change)
      else ShowsUpsert(before, after, tracked, change, namespace)
    case Unusable => false
  }

  // ---------------------------------------------------------------- pods

  /** The first events of a pod change: the pod, then its containers in order. */
  lemma OwnPodEvents(x: Change, reading: Reading, own: seq<Event>)
    requires x.PodChange? && own == OwnEvents(x, reading)
    ensures |own| == |x.containers| + 1
    ensures own[0] == Event(PodKey(x.uid), Content(x.operation == Delete, reading.namespace, x.body), reading.stamp)
    ensures forall i :: 0 <= i < |x.containers| ==>
              own[i + 1] == Event(KeyOf(x.uid, x.containers[i]),
                                  Content(x.operation == Delete, reading.namespace, x.containers[i].body),
                                  reading.stamp)
  {
  }

  lemma OwnComeFirst(t: Tracker, a: Attempt, own: seq<Event>)
    requires Possible(t, a) && a.change.PodChange? && own == OwnEvents(a.change, a.reading)
    ensures |own| <= |a.events| && (forall j :: 0 <= j < |own| ==> a.events[j] == own[j])
    ensures a.change.operation == Delete ==> |a.events| == |own|
  {
    assert a.events[..|own|] == own;
    forall j | 0 <= j < |own| ensures a.events[j] == own[j] { assert a.events[..|own|][j] == own[j]; }
  }

  lemma PodEventAt(t: Tracker, a: Attempt)
    requires Possible(t, a) && a.change.PodChange?
    ensures var n, x := |a.change.containers|, a.change;
            && |a.events| >= n + 1
            && a.events[0] == Event(PodKey(x.uid), Content(x.operation == Delete, a.reading.namespace, x.body),
                                    a.reading.stamp)
            && (forall i :: 0 <= i < n ==>
                  a.events[i + 1] == Event(KeyOf(x.uid, x.containers[i]),
                                           Content(x.operation == Delete, a.reading.namespace, x.containers[i].body),
                                           a.reading.stamp))
            && (x.operation == Delete ==> |a.events| == n + 1)
  {
    var own := OwnEvents(a.change, a.reading);
    OwnComeFirst(t, a, own);
    OwnPodEvents(a.change, a.reading, own);
    assert a.events[0] == own[0];
  }

  lemma ListedExactly(change: Change, k: Key)
    requires change.PodChange?
    ensures k in SpecKeys(change.uid, change.containers) <==> Lists(change, k)
  {
    if k in SpecKeys(change.uid, change.containers) {
      var x :| x in change.containers && k == ContainerKey(x.init, change.uid, x.name);
      var i :| 0 <= i < |change.containers| && change.containers[i] == x;
      assert k == KeyOf(change.uid, change.containers[i]);
    }
  }

  /** The other events of a pod upsert: one delete for each tracked container the pod does not list. */
  lemma TombstoneAt(t: Tracker, a: Attempt)
    requires Possible(t, a) && a.change.PodChange? && a.change.operation == Upsert
    ensures var n, tracked := |a.change.containers|, TrackedFor(t.pods, a.change.uid);
            && |a.events| >= n + 1
            && (forall j :: n + 1 <= j < |a.events| ==>
                  && a.events[j].key in tracked && !Lists(a.change, a.events[j].key) && a.events[j].content.deletes)
            && forall k :: k in tracked && !Lists(a.change, k) ==>
                             exists j :: n + 1 <= j < |a.events| && a.events[j].key == k
  {
    var own, tracked := OwnEvents(a.change, a.reading), TrackedFor(t.pods, a.change.uid);
    var tombs := a.events[|own|..];
    forall k ensures k in SpecKeys(a.change.uid, a.change.containers) <==> Lists(a.change, k) {
      ListedExactly(a.change, k);
    }
    forall j | |own| <= j < |a.events|
      ensures a.events[j].key in tracked && !Lists(a.change, a.events[j].key) && a.events[j].content.deletes {
      assert tombs[j - |own|] == a.events[j];
    }
    forall k | k in tracked && !Lists(a.change, k) ensures exists j :: |own| <= j < |a.events| && a.events[j].key == k {
      var i :| 0 <= i < |tombs| && tombs[i].key == k;
      assert a.events[|own| + i].key == k;
    }
  }

  lemma PodTells(t: Tracker, a: Attempt)
    requires TrackingOk(t.pods) && Possible(t, a) && Succeeds(a) && a.change.PodChange?
    ensures Tells(a, PodKey(a.change.uid)) ==
            if a.change.operation == Delete then Absent else Holds(Content(false, a.reading.namespace, a.change.body))
  {
    assert Handled(a) == a.events;
    PodEventAt(t, a);
    PodEventKeys(t.pods, a.change, a.events, a.reading);
    LastMention(a.events, OperationOf(a.change), PodKey(a.change.uid), 0);
  }

  lemma ContainerTells(t: Tracker, a: Attempt, i: nat)
    requires Possible(t, a) && Succeeds(a) && a.change.PodChange?
    requires i < |a.change.containers| && LastOfName(a.change, i)
    ensures Tells(a, KeyOf(a.change.uid, a.change.containers[i])) ==
            if a.change.operation == Delete then Absent
            else Holds(Content(false, a.reading.namespace, a.change.containers[i].body))
  {
    var k := KeyOf(a.change.uid, a.change.containers[i]);
    assert Handled(a) == a.events;
    PodEventAt(t, a);
    assert Lists(a.change, k);
    if a.change.operation == Upsert { TombstoneAt(t, a); }
    forall j | i + 1 < j < |a.events| ensures a.events[j].key != k {
      if j <= |a.change.containers| {
        assert a.events[(j - 1) + 1].key == KeyOf(a.change.uid, a.change.containers[j - 1]);
      }
    }
    LastMention(a.events, OperationOf(a.change), k, i + 1);
  }

  lemma OwnAreListed(t: Tracker, a: Attempt, i: nat)
    requires Possible(t, a) && a.change.PodChange? && i <= |a.change.containers|
    ensures i < |a.events| && (a.events[i].key == PodKey(a.change.uid) || Lists(a.change, a.events[i].key))
  {
    PodEventAt(t, a);
    if i > 0 { assert a.events[(i - 1) + 1].key == KeyOf(a.change.uid, a.change.containers[i - 1]); }
  }

  /** A vanished container is told to be gone. */
  lemma VanishedTells(t: Tracker, a: Attempt, k: Key)
    requires TrackingOk(t.pods) && Possible(t, a) && Succeeds(a) && a.change.PodChange? && a.change.operation == Upsert
    requires k in TrackedFor(t.pods, a.change.uid) && !Lists(a.change, k)
    ensures Tells(a, k) == Absent
  {
    assert Handled(a) == a.events;
    PodEventAt(t, a);
    TombstoneAt(t, a);
    TrackedKeys(t.pods, a.change.uid);
    var n := |a.change.containers|;
    forall i | 0 <= i < |a.events| && a.events[i].key == k ensures a.events[i].content.deletes {
      if i <= n { OwnAreListed(t, a, i); }
    }
    var j :| n + 1 <= j < |a.events| && a.events[j].key == k;
    AllAbsent(a.events, Upsert, k, j);
  }

  /** If every event about a key deletes it, it is told to be gone. */
  lemma {:induction false} AllAbsent(events: seq<Event>, op: Action, k: Key, j: nat)
    requires j < |events| && events[j].key == k
    requires forall i :: 0 <= i < |events| && events[i].key == k ==> Deleting(events[i].content, op)
    ensures VerdictOn(events, op, k) == Absent
  {
    if events[|events| - 1].key != k { AllAbsent(events[..|events| - 1], op, k, j); }
  }

  lemma OthersSilent(t: Tracker, a: Attempt, k: Key)
    requires Possible(t, a) && Succeeds(a) && a.change.PodChange? && k != PodKey(a.change.uid) && !Lists(a.change, k)
    requires a.change.operation == Upsert ==> k !in TrackedFor(t.pods, a.change.uid)
    ensures Tells(a, k) == Silent
  {
    assert Handled(a) == a.events;
    PodEventAt(t, a);
    if a.change.operation == Upsert { TombstoneAt(t, a); }
    forall j | 0 <= j < |a.events| ensures a.events[j].key != k {
      if 1 <= j <= |a.change.containers| {
        assert a.events[(j - 1) + 1].key == KeyOf(a.change.uid, a.change.containers[j - 1]);
      }
    }
    NoMention(a.events, OperationOf(a.change), k);
  }

  lemma ListedAbsent(t: Tracker, a: Attempt, k: Key)
    requires Possible(t, a) && Succeeds(a) && a.change.PodChange? && a.change.operation == Delete && Lists(a.change, k)
    ensures Tells(a, k) == Absent
  {
    assert Handled(a) == a.events;
    PodEventAt(t, a);
    var i :| 0 <= i < |a.change.containers| && k == KeyOf(a.change.uid, a.change.containers[i]);
    AllAbsent(a.events, Delete, k, i + 1);
  }

  // ---------------------------------------------------------------- every reachable state

  /** How the inventory follows from what the attempt tells. */
  ghost predicate Follows(before: map<Key, Content>, after: map<Key, Content>, a: Attempt) {
    forall k :: StateOn(after, k) == if Tells(a, k) == Silent then StateOn(before, k) else Tells(a, k)
  }

  lemma UpsertShows(t: Tracker, a: Attempt, before: map<Key, Content>, after: map<Key, Content>)
    requires TrackingOk(t.pods) && Possible(t, a) && Succeeds(a) && Follows(before, after, a)
    requires a.change.PodChange? && a.change.operation == Upsert
    ensures ShowsUpsert(before, after, TrackedFor(t.pods, a.change.uid).Keys, a.change, a.reading.namespace)
  {
    var uid, tracked := a.change.uid, TrackedFor(t.pods, a.change.uid).Keys;
    PodTells(t, a);
    assert StateOn(after, PodKey(uid)) == Tells(a, PodKey(uid));
    forall i | 0 <= i < |a.change.containers| && LastOfName(a.change, i)
      ensures Has(after, KeyOf(uid, a.change.containers[i]),
                  Content(false, a.reading.namespace, a.change.containers[i].body)) {
      ContainerTells(t, a, i);
      assert StateOn(after, KeyOf(uid, a.change.containers[i])) == Tells(a, KeyOf(uid, a.change.containers[i]));
    }
    forall k | k in tracked && !Lists(a.change, k) ensures k !in after {
      VanishedTells(t, a, k);
      assert StateOn(after, k) == Tells(a, k);
    }
    forall k | k != PodKey(uid) && !Lists(a.change, k) && k !in tracked ensures Same(before, after, k) {
      OthersSilent(t, a, k);
      assert StateOn(after, k) == StateOn(before, k);
    }
  }

  lemma DeleteShows(t: Tracker, a: Attempt, before: map<Key, Content>, after: map<Key, Content>)
    requires TrackingOk(t.pods) && Possible(t, a) && Succeeds(a) && Follows(before, after, a)
    requires a.change.PodChange? && a.change.operation == Delete
    ensures ShowsDelete(before, after, a.change)
  {
    var uid := a.change.uid;
    PodTells(t, a);
    assert StateOn(after, PodKey(uid)) == Tells(a, PodKey(uid));
    forall k | Lists(a.change, k) ensures k !in after {
      ListedAbsent(t, a, k);
      assert StateOn(after, k) == Tells(a, k);
    }
    forall k | k != PodKey(uid) && !Lists(a.change, k) ensures Same(before, after, k) {
      OthersSilent(t, a, k);
      assert StateOn(after, k) == StateOn(before, k);
    }
  }

  /** Changes with a single event. */
  lemma SingleShows(t: Tracker, a: Attempt, before: map<Key, Content>, after: map<Key, Content>)
    requires Possible(t, a) && Succeeds(a) && Follows(before, after, a) && !a.change.PodChange?
    ensures Shows(before, after, {}, a.change, a.reading.namespace)
  {
    assert |a.events| == 1 && Handled(a) == a.events;
    var e, op := a.events[0], OperationOf(a.change);
    LastMention(a.events, op, e.key, 0);
    forall k ensures StateOn(after, k) == if k == e.key then Tells(a, e.key) else StateOn(before, k) {
      if k != e.key { NoMention(a.events, op, k); }
    }
    assert forall k :: k in after <==> StateOn(after, k).Holds?;
    assert forall k :: k in before <==> StateOn(before, k).Holds?;
  }

  /** In every reachable state, a completed change leaves the consumer of the log with exactly what the
      change says: the pod and its containers with their contents and namespace, the object, or
      their absence; and everything else as it was. */
  lemma CompletedChangeShows(history: seq<Attempt>, a: Attempt, fp: Fingerprints)
    requires Faithful(fp) && Run(EMPTY, history + [a], fp) && Succeeds(a)
    ensures var t, t' := AfterAll(EMPTY, history, fp), AfterAll(EMPTY, history + [a], fp);
            Shows(Replay(t.log), Replay(t'.log),
                  if a.change.PodChange? then TrackedFor(t.pods, a.change.uid).Keys else {}, a.change,
                  a.reading.namespace)
  {
    AttemptAppended(EMPTY, history, a, fp);
    CacheAgreesWithLog(history, fp);
    var t := AfterAll(EMPTY, history, fp);
    var before, after := Replay(t.log), Replay(After(t, a, fp).log);
    forall k ensures StateOn(after, k) == if Tells(a, k) == Silent then StateOn(before, k) else Tells(a, k) {
      AttemptDecides(t, a, fp, k);
    }
    if !a.change.PodChange? {
      SingleShows(t, a, before, after);
    } else if a.change.operation == Upsert {
      UpsertShows(t, a, before, after);
    } else {
      DeleteShows(t, a, before, after);
    }
  }
}
