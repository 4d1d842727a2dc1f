/** Two readings of one change over the same tracking. */
module CollectorReadings {
  import opened Wire
  import opened Collector
  import opened CollectorProgress

  /** No two events of a change share a key: container names are distinct within a pod. */
  ghost predicate DistinctKeys(events: seq<Event>) {
    forall i, j :: 0 <= i < j < |events| ==> events[i].key != events[j].key
  }

  function TargetOf(events: seq<Event>): map<Key, Content> {
    if events == [] then map[] else
      TargetOf(events[..|events| - 1])[events[|events| - 1].key := events[|events| - 1].content]
  }

  lemma {:induction false} TargetExactly(events: seq<Event>)
    requires DistinctKeys(events)
    ensures TargetOf(events).Keys == KeysOf(events) && Within(events, TargetOf(events))
  {
    if events != [] {
      var n := |events| - 1;
      TargetExactly(events[..n]);
      assert events == events[..n] + [events[n]];
      forall i | 0 <= i < |events|
        ensures events[i].key in TargetOf(events) && events[i].content == TargetOf(events)[events[i].key] {
        if i < n { assert events[..n][i] == events[i]; }
      }
    }
  }

  /** Some event is about `k`; if `same`, it says `x`. */
  ghost predicate Says(events: seq<Event>, k: Key, x: Content, same: bool) {
    exists j :: 0 <= j < |events| && events[j].key == k && (same ==> events[j].content == x)
  }

  /** Two readings of one change over the same tracking have the same keys, and if they found the same
      namespace UID they differ only in time stamps and map order. */
  lemma SameChangeSameContent(pods: map<string, map<Key, Event>>, change: Change,
                              e1: seq<Event>, r1: Reading, e2: seq<Event>, r2: Reading, i: nat)
    requires TrackingOk(pods) && IsEvents(pods, change, e1, r1) && IsEvents(pods, change, e2, r2) && i < |e1|
    ensures Says(e2, e1[i].key, e1[i].content, r1.namespace == r2.namespace)
  {
    var own1, own2 := OwnEvents(change, r1), OwnEvents(change, r2);
    assert |own1| == |own2|;
    assert forall n :: 0 <= n < |own1| ==> own1[n].key == own2[n].key
                                           && (r1.namespace == r2.namespace ==> own1[n].content == own2[n].content);
    if !(change.PodChange? && change.operation == Upsert) {
      assert e2[i].key == e1[i].key;
    } else if i < |own1| {
      assert e1[..|own1|][i] == own1[i] && e2[..|own2|][i] == own2[i];
    } else {
      TrackedKeys(pods, change.uid);
      var tombs1, tombs2 := e1[|own1|..], e2[|own2|..];
      assert tombs1[i - |own1|] == e1[i];
      var j :| 0 <= j < |tombs2| && tombs2[j].key == e1[i].key;
      assert e2[|own2| + j] == tombs2[j];
    }
  }

  lemma SameChangeWithin(pods: map<string, map<Key, Event>>, change: Change,
                         e1: seq<Event>, r1: Reading, e2: seq<Event>, r2: Reading)
    requires TrackingOk(pods) && IsEvents(pods, change, e1, r1) && IsEvents(pods, change, e2, r2) && DistinctKeys(e1)
    ensures KeysOf(e2) == KeysOf(e1) == TargetOf(e1).Keys
    ensures r1.namespace == r2.namespace ==> Within(e2, TargetOf(e1))
  {
    var same := r1.namespace == r2.namespace;
    TargetExactly(e1);
    forall i | 0 <= i < |e1| ensures Says(e2, e1[i].key, e1[i].content, same) {
      SameChangeSameContent(pods, change, e1, r1, e2, r2, i);
    }
    forall i | 0 <= i < |e2| ensures Says(e1, e2[i].key, e2[i].content, same) {
      SameChangeSameContent(pods, change, e2, r2, e1, r1, i);
    }
    KeysIncluded(e1, e2, same);
    KeysIncluded(e2, e1, same);
    if same {
      forall i | 0 <= i < |e2| ensures e2[i].key in TargetOf(e1) && e2[i].content == TargetOf(e1)[e2[i].key] {
        assert Says(e1, e2[i].key, e2[i].content, same);
      }
    }
  }

  lemma KeysIncluded(e1: seq<Event>, e2: seq<Event>, same: bool)
    requires forall i :: 0 <= i < |e1| ==> Says(e2, e1[i].key, e1[i].content, same)
    ensures KeysOf(e1) <= KeysOf(e2)
  {
    forall k | k in KeysOf(e1) ensures k in KeysOf(e2) {
      var i :| 0 <= i < |e1| && e1[i].key == k;
      assert Says(e2, e1[i].key, e1[i].content, same);
      var j :| 0 <= j < |e2| && e2[j].key == k;
      assert e2[j] in e2;
    }
  }

  /** Same keys, same contents; only time stamps may differ. */
  ghost predicate SameTracking(p: map<string, map<Key, Event>>, q: map<string, map<Key, Event>>) {
    && p.Keys == q.Keys
    && forall uid :: uid in p ==>
                       && p[uid].Keys == q[uid].Keys
                       && forall k :: k in p[uid] ==>
                          p[uid][k].key == q[uid][k].key && p[uid][k].content == q[uid][k].content
  }

  lemma SameTrackingAfter(pods: map<string, map<Key, Event>>, change: Change,
                          e1: seq<Event>, r1: Reading, e2: seq<Event>, r2: Reading)
    requires TrackingOk(pods) && IsEvents(pods, change, e1, r1) && IsEvents(pods, change, e2, r2) && DistinctKeys(e1)
    requires r1.namespace == r2.namespace
    ensures SameTracking(AfterPods(pods, change, e1), AfterPods(pods, change, e2))
  {
    if change.PodChange? && change.operation == Upsert {
      SameCurrent(pods, change, e1, r1, e2, r2);
      SameTrackingUpdate(pods, change.uid, Current(e1[1..]), Current(e2[1..]));
    } else if change.PodChange? {
      PodEventKeys(pods, change, e1, r1);
      PodEventKeys(pods, change, e2, r2);
    }
  }

  lemma SameTrackingUpdate(pods: map<string, map<Key, Event>>, uid: string, c1: map<Key, Event>, c2: map<Key, Event>)
    requires c1.Keys == c2.Keys && forall k :: k in c1 ==> c1[k].key == c2[k].key && c1[k].content == c2[k].content
    ensures SameTracking(pods[uid := c1], pods[uid := c2])
  {
  }

  lemma SameCurrent(pods: map<string, map<Key, Event>>, change: Change,
                    e1: seq<Event>, r1: Reading, e2: seq<Event>, r2: Reading)
    requires TrackingOk(pods) && IsEvents(pods, change, e1, r1) && IsEvents(pods, change, e2, r2) && DistinctKeys(e1)
    requires r1.namespace == r2.namespace
    requires change.PodChange?
    ensures e1 != [] && e2 != []
    ensures var c1, c2 := Current(e1[1..]), Current(e2[1..]);
            c1.Keys == c2.Keys && forall k :: k in c1 ==> c1[k].key == c2[k].key && c1[k].content == c2[k].content
  {
    SameChangeWithin(pods, change, e1, r1, e2, r2);
    TargetExactly(e1);
    PodEventKeys(pods, change, e1, r1);
    PodEventKeys(pods, change, e2, r2);
    CurrentFromTarget(e1, TargetOf(e1), change.uid);
    CurrentFromTarget(e2, TargetOf(e1), change.uid);
  }

  lemma CurrentFromTarget(events: seq<Event>, target: map<Key, Content>, uid: string)
    requires events != [] && Within(events, target) && KeysOf(events) == target.Keys
    requires events[0].key == PodKey(uid) && forall i :: 1 <= i < |events| ==> events[i].key.ContainerKey?
    ensures var current := Current(events[1..]);
            && current.Keys == (set k | k in target && k.ContainerKey? && !target[k].deletes)
            && forall k :: k in current ==> current[k].key == k && current[k].content == target[k]
  {
    var rest := events[1..];
    CurrentExactly(rest);
    forall e | e in rest ensures e.key in target && e.content == target[e.key] && e.key.ContainerKey? {
      var i :| 0 <= i < |rest| && rest[i] == e;
      assert events[i + 1] == e;
    }
    forall k | k in target && k.ContainerKey? && !target[k].deletes ensures k in Current(rest) {
      assert k in KeysOf(events);
      var i :| 0 <= i < |events| && events[i].key == k;
      assert rest[i - 1] == events[i];
      assert rest[i - 1] in rest;
    }
  }
}
