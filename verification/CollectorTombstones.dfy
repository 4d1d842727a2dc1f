/** Container tombstones are exact. */
module CollectorTombstones {
  import opened Wire
  import opened Collector
  import opened CollectorLog
  import opened CollectorRetry

  function CachedContainers(cache: map<Key, string>, uid: string): set<Key> {
    set k | k in cache && k.ContainerKey? && k.podUid == uid
  }

  /** The cached container keys of every pod are the tracked ones. */
  ghost predicate Exact(t: Tracker) {
    forall uid :: CachedContainers(t.cache, uid) == TrackedFor(t.pods, uid).Keys
  }

  function DeletesOf(log: seq<Entry>, k: Key): nat {
    if log == [] then 0 else
      DeletesOf(log[..|log| - 1], k) + (if log[|log| - 1].key == k && log[|log| - 1].deleted then 1 else 0)
  }

  ghost predicate Mentions(events: seq<Event>, k: Key) {
    exists i :: 0 <= i < |events| && events[i].key == k
  }

  /** Events that all say the same about `k`. */
  ghost predicate AllDelete(events: seq<Event>, op: Action, k: Key) {
    forall i :: 0 <= i < |events| && events[i].key == k ==> Deleting(events[i].content, op)
  }

  ghost predicate NoneDelete(events: seq<Event>, op: Action, k: Key) {
    forall i :: 0 <= i < |events| && events[i].key == k ==> !Deleting(events[i].content, op)
  }

  lemma DeltaToKey(t: Tracker, e: Event, op: Action, fp: Fingerprints, k: Key)
    ensures var t' := AfterDelta(t, e, op, fp);
            && (e.key != k ==> (k in t'.cache <==> k in t.cache) && DeletesOf(t'.log, k) == DeletesOf(t.log, k))
            && (e.key == k && Deleting(e.content, op) ==>
                  k !in t'.cache && DeletesOf(t'.log, k) == DeletesOf(t.log, k) + (if k in t.cache then 1 else 0))
            && (e.key == k && !Deleting(e.content, op) ==> k in t'.cache && DeletesOf(t'.log, k) == DeletesOf(t.log, k))
  {
    var t' := AfterDelta(t, e, op, fp);
    if t'.log != t.log { assert t'.log[..|t.log|] == t.log; }
  }

  /** What a list of events says about a key, by its last event and the ones before. */
  lemma LastEvent(events: seq<Event>, op: Action, k: Key)
    requires events != []
    ensures var n := |events| - 1;
            && (Mentions(events, k) <==> Mentions(events[..n], k) || events[n].key == k)
            && (AllDelete(events, op, k) ==> AllDelete(events[..n], op, k))
            && (NoneDelete(events, op, k) ==> NoneDelete(events[..n], op, k))
  {
    var n := |events| - 1;
    assert forall i :: 0 <= i < n ==> events[..n][i] == events[i];
    if i :| 0 <= i < |events| && events[i].key == k && i < n { assert events[..n][i].key == k; }
  }

  lemma {:induction false} Unmentioned(t: Tracker, events: seq<Event>, op: Action, fp: Fingerprints, k: Key)
    requires !Mentions(events, k)
    ensures var t' := Applied(t, events, op, fp);
            (k in t'.cache <==> k in t.cache) && DeletesOf(t'.log, k) == DeletesOf(t.log, k)
  {
    if events != [] {
      var n := |events| - 1;
      LastEvent(events, op, k);
      Unmentioned(t, events[..n], op, fp, k);
      DeltaToKey(Applied(t, events[..n], op, fp), events[n], op, fp, k);
    }
  }

  lemma {:induction false} Tombstoned(t: Tracker, events: seq<Event>, op: Action, fp: Fingerprints, k: Key)
    requires Mentions(events, k) && AllDelete(events, op, k)
    ensures var t' := Applied(t, events, op, fp);
            k !in t'.cache && DeletesOf(t'.log, k) == DeletesOf(t.log, k) + if k in t.cache then 1 else 0
  {
    var n := |events| - 1;
    LastEvent(events, op, k);
    if Mentions(events[..n], k) {
      Tombstoned(t, events[..n], op, fp, k);
    } else {
      Unmentioned(t, events[..n], op, fp, k);
    }
    DeltaToKey(Applied(t, events[..n], op, fp), events[n], op, fp, k);
  }

  lemma {:induction false} Kept(t: Tracker, events: seq<Event>, op: Action, fp: Fingerprints, k: Key)
    requires Mentions(events, k) && NoneDelete(events, op, k)
    ensures var t' := Applied(t, events, op, fp); k in t'.cache && DeletesOf(t'.log, k) == DeletesOf(t.log, k)
  {
    var n := |events| - 1;
    LastEvent(events, op, k);
    if Mentions(events[..n], k) {
      Kept(t, events[..n], op, fp, k);
    } else {
      Unmentioned(t, events[..n], op, fp, k);
    }
    DeltaToKey(Applied(t, events[..n], op, fp), events[n], op, fp, k);
  }

  /** What handling the events does to one key: it is left alone, deleted once if cached, or upserted. */
  lemma AppliedToKey(t: Tracker, events: seq<Event>, op: Action, fp: Fingerprints, k: Key)
    ensures var t' := Applied(t, events, op, fp);
            && (!Mentions(events, k) ==>
                  (k in t'.cache <==> k in t.cache) && DeletesOf(t'.log, k) == DeletesOf(t.log, k))
            && (Mentions(events, k) && AllDelete(events, op, k) ==>
                  k !in t'.cache && DeletesOf(t'.log, k) == DeletesOf(t.log, k) + (if k in t.cache then 1 else 0))
            && (Mentions(events, k) && NoneDelete(events, op, k) ==>
                  k in t'.cache && DeletesOf(t'.log, k) == DeletesOf(t.log, k))
  {
    if !Mentions(events, k) { Unmentioned(t, events, op, fp, k); }
    if Mentions(events, k) && AllDelete(events, op, k) { Tombstoned(t, events, op, fp, k); }
    if Mentions(events, k) && NoneDelete(events, op, k) { Kept(t, events, op, fp, k); }
  }

  /** A successful pod upsert caches exactly the containers of its spec, publishes exactly one
      delete for each tracked container that is gone and none for any other key. */
  lemma UpsertTombstonesAreExact(t: Tracker, a: Attempt, fp: Fingerprints)
    requires TrackingOk(t.pods) && Exact(t) && Possible(t, a) && a.stop == |a.events|
    requires a.change.PodChange? && a.change.operation == Upsert
    ensures var t' := After(t, a, fp);
            var spec := SpecKeys(a.change.uid, a.change.containers);
            && Exact(t')
            && CachedContainers(t'.cache, a.change.uid) == spec == TrackedFor(t'.pods, a.change.uid).Keys
            && forall k :: DeletesOf(t'.log, k) == DeletesOf(t.log, k)
                           + if k in TrackedFor(t.pods, a.change.uid) && k !in spec then 1 else 0
  {
    var t', uid := After(t, a, fp), a.change.uid;
    var spec, tracked := SpecKeys(uid, a.change.containers), TrackedFor(t.pods, uid);
    assert a.events[..a.stop] == a.events;
    AppliedKeepsPods(t, a.events, Upsert, fp);
    forall k: Key {:trigger DeletesOf(t'.log, k)}
      ensures k.ContainerKey? && k.podUid == uid ==> (k in t'.cache <==> k in spec)
      ensures !(k.ContainerKey? && k.podUid == uid) && k.ContainerKey? ==> (k in t'.cache <==> k in t.cache)
      ensures DeletesOf(t'.log, k) == DeletesOf(t.log, k) + if k in tracked && k !in spec then 1 else 0 {
      UpsertEvents(t, a, k);
      AppliedToKey(t, a.events, Upsert, fp, k);
      assert k in tracked ==> k in CachedContainers(t.cache, uid);
    }
    forall k | k in CachedContainers(t'.cache, uid) ensures k in spec { assert DeletesOf(t'.log, k) >= 0; }
    forall k | k in spec ensures k in CachedContainers(t'.cache, uid) { assert DeletesOf(t'.log, k) >= 0; }
    forall u | u != uid ensures CachedContainers(t'.cache, u) == TrackedFor(t'.pods, u).Keys {
      forall k: Key ensures k in CachedContainers(t'.cache, u) <==> k in CachedContainers(t.cache, u) {
        assert DeletesOf(t'.log, k) >= 0;
      }
      assert CachedContainers(t'.cache, u) == CachedContainers(t.cache, u);
    }
    CurrentOfUpsert(t, a);
  }

  /** The events of a pod upsert are those of its spec, then the tombstones. */
  lemma UpsertEventKinds(t: Tracker, a: Attempt)
    requires TrackingOk(t.pods) && Possible(t, a) && a.change.PodChange? && a.change.operation == Upsert
    ensures var own, uid := OwnEvents(a.change, a.reading), a.change.uid;
            var spec, tracked := SpecKeys(uid, a.change.containers), TrackedFor(t.pods, uid);
            forall i :: 0 <= i < |a.events| ==>
                          && PodKey(uid) !in spec && PodKey(uid) !in tracked
                          && (i < |own| ==> a.events[i] == own[i] && !a.events[i].content.deletes
                                            && (a.events[i].key == PodKey(uid) || a.events[i].key in spec))
                          && (i >= |own| ==> a.events[i].content.deletes && a.events[i].key in tracked
                                             && a.events[i].key !in spec)
  {
    var uid, own := a.change.uid, OwnEvents(a.change, a.reading);
    var spec, tracked := SpecKeys(uid, a.change.containers), TrackedFor(t.pods, uid);
    TrackedKeys(t.pods, uid);
    CurrentIsSpec(a.change, a.reading);
    forall i | 0 <= i < |a.events|
      ensures i < |own| ==> a.events[i] == own[i] && !a.events[i].content.deletes
                            && (a.events[i].key == PodKey(uid) || a.events[i].key in spec)
      ensures i >= |own| ==> a.events[i].content.deletes && a.events[i].key in tracked && a.events[i].key !in spec {
      if i < |own| {
        assert a.events[..|own|][i] == own[i];
        if i > 0 { assert own[1..][i - 1] in own[1..]; }
      } else {
        assert a.events[|own|..][i - |own|] == a.events[i];
      }
    }
  }

  /** Every key of the pod, its spec and its tracked containers has an event in a pod upsert. */
  lemma UpsertMentions(t: Tracker, a: Attempt, k: Key)
    requires TrackingOk(t.pods) && Possible(t, a) && a.change.PodChange? && a.change.operation == Upsert
    requires k == PodKey(a.change.uid) || k in SpecKeys(a.change.uid, a.change.containers)
             || k in TrackedFor(t.pods, a.change.uid)
    ensures Mentions(a.events, k)
  {
    var uid, own := a.change.uid, OwnEvents(a.change, a.reading);
    var tombs := a.events[|own|..];
    assert a.events[..|own|] == own;
    if k == PodKey(uid) {
      assert a.events[0] == own[0];
    } else if k in SpecKeys(uid, a.change.containers) {
      CurrentIsSpec(a.change, a.reading);
      var e :| e in own[1..] && e.key == k;
      var j :| 0 <= j < |own[1..]| && own[1..][j] == e;
      assert a.events[j + 1] == own[j + 1] == e;
    } else {
      var j :| 0 <= j < |tombs| && tombs[j].key == k;
      assert a.events[|own| + j] == tombs[j];
    }
  }

  /** Which events of a pod upsert mention which keys. */
  lemma UpsertEvents(t: Tracker, a: Attempt, k: Key)
    requires TrackingOk(t.pods) && Possible(t, a) && a.change.PodChange? && a.change.operation == Upsert
    ensures var spec, tracked := SpecKeys(a.change.uid, a.change.containers), TrackedFor(t.pods, a.change.uid);
            && (Mentions(a.events, k) <==> k == PodKey(a.change.uid) || k in spec || k in tracked)
            && (k == PodKey(a.change.uid) || k in spec ==> NoneDelete(a.events, Upsert, k))
            && (k in tracked && k !in spec ==> AllDelete(a.events, Upsert, k))
  {
    var spec, tracked := SpecKeys(a.change.uid, a.change.containers), TrackedFor(t.pods, a.change.uid);
    UpsertEventKinds(t, a);
    if k == PodKey(a.change.uid) || k in spec || k in tracked { UpsertMentions(t, a, k); }
  }

  lemma CurrentOfUpsert(t: Tracker, a: Attempt)
    requires TrackingOk(t.pods) && Possible(t, a) && a.change.PodChange? && a.change.operation == Upsert
    ensures Current(a.events[1..]).Keys == SpecKeys(a.change.uid, a.change.containers)
  {
    var rest, spec := a.events[1..], SpecKeys(a.change.uid, a.change.containers);
    CurrentExactly(rest);
    PodEventKeys(t.pods, a.change, a.events, a.reading);
    forall k | k in Current(rest) ensures k in spec {
      var e := Current(rest)[k];
      var i :| 0 <= i < |rest| && rest[i] == e;
      assert a.events[i + 1] == e;
      UpsertEvents(t, a, k);
    }
    forall k | k in spec ensures k in Current(rest) {
      UpsertEvents(t, a, k);
      var i :| 0 <= i < |a.events| && a.events[i].key == k;
      assert rest[i - 1] == a.events[i];
      assert rest[i - 1] in rest;
    }
  }

  /** A successful pod delete leaves cached exactly the tracked containers its object does not
      list: none of the pod's keys stay behind if and only if the object lists them all. */
  lemma DeleteLeavesUnlistedContainers(t: Tracker, a: Attempt, fp: Fingerprints)
    requires TrackingOk(t.pods) && Exact(t) && Possible(t, a) && a.stop == |a.events|
    requires a.change.PodChange? && a.change.operation == Delete
    ensures var t', uid := After(t, a, fp), a.change.uid;
            var listed, tracked := SpecKeys(uid, a.change.containers), TrackedFor(t.pods, uid).Keys;
            && CachedContainers(t'.cache, uid) == tracked - listed
            && PodKey(uid) !in t'.cache && uid !in t'.pods
            && (CachedContainers(t'.cache, uid) == {} <==> tracked <= listed)
            && (Exact(t') <==> tracked <= listed)
  {
    var t', uid := After(t, a, fp), a.change.uid;
    var listed, tracked := SpecKeys(uid, a.change.containers), TrackedFor(t.pods, uid).Keys;
    assert a.events[..a.stop] == a.events;
    AppliedKeepsPods(t, a.events, Delete, fp);
    forall k ensures k in t'.cache <==> k in t.cache && k != PodKey(uid) && k !in listed {
      DeleteMentions(a.change, a.reading, k);
      AppliedToKey(t, a.events, Delete, fp, k);
    }
    assert tracked == CachedContainers(t.cache, uid);
    assert CachedContainers(t'.cache, uid) == tracked - listed;
    assert TrackedFor(t'.pods, uid).Keys == {};
    OthersUntouched(t, t', uid, listed);
    assert tracked - listed == {} <==> tracked <= listed by {
      if tracked - listed == {} { forall k | k in tracked ensures k in listed { assert k !in tracked - listed; } }
    }
  }

  lemma DeleteMentions(change: Change, reading: Reading, k: Key)
    requires change.PodChange?
    ensures Mentions(OwnEvents(change, reading), k) <==>
            k == PodKey(change.uid) || k in SpecKeys(change.uid, change.containers)
  {
    var events := OwnEvents(change, reading);
    CurrentIsSpec(change, reading);
    assert events[0].key == PodKey(change.uid);
    if k in SpecKeys(change.uid, change.containers) {
      var e :| e in events[1..] && e.key == k;
      var j :| 0 <= j < |events[1..]| && events[1..][j] == e;
      assert events[j + 1] == e;
    }
    if i :| 0 < i < |events| && events[i].key == k { assert events[1..][i - 1] in events[1..]; }
  }

  lemma OthersUntouched(t: Tracker, t': Tracker, uid: string, listed: set<Key>)
    requires Exact(t) && t'.pods == t.pods - {uid}
    requires forall k :: k in listed ==> k.ContainerKey? && k.podUid == uid
    requires forall k :: k in t'.cache <==> k in t.cache && k != PodKey(uid) && k !in listed
    ensures forall u :: u != uid ==> CachedContainers(t'.cache, u) == TrackedFor(t'.pods, u).Keys
  {
    forall u | u != uid ensures CachedContainers(t'.cache, u) == TrackedFor(t'.pods, u).Keys {
      assert CachedContainers(t'.cache, u) == CachedContainers(t.cache, u);
    }
  }

  // ---------------------------------------------------------------- histories with failures

  /** A pod delete lists every container tracked for the pod. */
  predicate Listed(t: Tracker, change: Change) {
    change.PodChange? && change.operation == Delete ==>
      TrackedFor(t.pods, change.uid).Keys <= SpecKeys(change.uid, change.containers)
  }

  /** The pod changes whose latest attempt failed. */
  function Open(attempts: seq<Attempt>): map<string, Change> {
    if attempts == [] then map[] else
      var n := |attempts| - 1;
      var before, a := Open(attempts[..n]), attempts[n];
      if !a.change.PodChange? then before
      else if Succeeds(a) then before - {a.change.uid}
      else before[a.change.uid := a.change]
  }

  /** The attempt retries the open change of its pod, if there is one. */
  predicate Resumes(open: map<string, Change>, change: Change) {
    change.PodChange? && change.uid in open ==> change == open[change.uid]
  }

  /** A failed pod change is retried until it succeeds before its pod changes again, and every pod
      delete lists what is tracked. */
  ghost predicate Orderly(attempts: seq<Attempt>, fp: Fingerprints) {
    attempts == [] ||
      var before, a := attempts[..|attempts| - 1], attempts[|attempts| - 1];
      var t := AfterAll(EMPTY, before, fp);
      Orderly(before, fp) && Possible(t, a) && Resumes(Open(before), a.change) && Listed(t, a.change)
  }

  /** Cached are the tracked containers; while a change is open perhaps fewer, or some of its own. */
  ghost predicate PodExact(t: Tracker, open: map<string, Change>, uid: string) {
    var cached, tracked := CachedContainers(t.cache, uid), TrackedFor(t.pods, uid).Keys;
    if uid !in open then cached == tracked
    else open[uid].PodChange? && cached <= tracked + SpecKeys(uid, open[uid].containers)
  }

  ghost predicate NearlyExact(t: Tracker, open: map<string, Change>) {
    forall uid :: PodExact(t, open, uid)
  }

  /** What an attempt handles belongs to its own pod. */
  lemma OtherPodsUnmentioned(t: Tracker, a: Attempt, k: Key)
    requires TrackingOk(t.pods) && Possible(t, a) && k.ContainerKey?
    requires a.change.PodChange? ==> a.change.uid != k.podUid
    ensures !Mentions(Handled(a), k)
  {
    if a.change.PodChange? { PodEventKeys(t.pods, a.change, a.events, a.reading); }
    assert forall i :: 0 <= i < |Handled(a)| ==> Handled(a)[i] == a.events[i];
  }

  lemma OtherPodsKept(t: Tracker, a: Attempt, fp: Fingerprints, uid: string)
    requires TrackingOk(t.pods) && Possible(t, a) && (a.change.PodChange? ==> a.change.uid != uid)
    ensures var t' := After(t, a, fp);
            CachedContainers(t'.cache, uid) == CachedContainers(t.cache, uid)
            && TrackedFor(t'.pods, uid) == TrackedFor(t.pods, uid)
  {
    var t' := After(t, a, fp);
    AppliedKeepsPods(t, Handled(a), OperationOf(a.change), fp);
    forall k: Key | k.ContainerKey? && k.podUid == uid ensures k in t'.cache <==> k in t.cache {
      OtherPodsUnmentioned(t, a, k);
      Unmentioned(t, Handled(a), OperationOf(a.change), fp, k);
    }
    assert CachedContainers(t'.cache, uid) == CachedContainers(t.cache, uid);
  }

  lemma {:induction false} NewlyCached(t: Tracker, events: seq<Event>, op: Action, fp: Fingerprints, k: Key)
    requires k in Applied(t, events, op, fp).cache && k !in t.cache
    ensures exists i :: 0 <= i < |events| && events[i].key == k && !Deleting(events[i].content, op)
  {
    var n := |events| - 1;
    DeltaToKey(Applied(t, events[..n], op, fp), events[n], op, fp, k);
    if k in Applied(t, events[..n], op, fp).cache {
      NewlyCached(t, events[..n], op, fp, k);
      var i :| 0 <= i < n && events[..n][i].key == k && !Deleting(events[..n][i].content, op);
      assert events[i].key == k;
    } else {
      assert events[n].key == k;
    }
  }

  /** An attempt caches nothing new but containers of its spec. */
  lemma NewContainersAreListed(t: Tracker, a: Attempt, fp: Fingerprints)
    requires TrackingOk(t.pods) && Possible(t, a) && a.change.PodChange?
    ensures var uid := a.change.uid;
            CachedContainers(After(t, a, fp).cache, uid)
            <= CachedContainers(t.cache, uid) + SpecKeys(uid, a.change.containers)
  {
    var uid, op, handled := a.change.uid, OperationOf(a.change), a.events[..a.stop];
    forall k | k in CachedContainers(After(t, a, fp).cache, uid) && k !in CachedContainers(t.cache, uid)
      ensures k in SpecKeys(uid, a.change.containers) {
      NewlyCached(t, handled, op, fp, k);
      var i :| 0 <= i < |handled| && handled[i].key == k && !Deleting(handled[i].content, op);
      assert handled[i] == a.events[i];
      UpsertEventKinds(t, a);
    }
  }

  lemma FailureKeepsNearlyExact(t: Tracker, open: map<string, Change>, a: Attempt, fp: Fingerprints)
    requires TrackingOk(t.pods) && NearlyExact(t, open) && Possible(t, a)
    requires a.change.PodChange? && !Succeeds(a) && Resumes(open, a.change)
    ensures NearlyExact(After(t, a, fp), open[a.change.uid := a.change])
  {
    var t', uid := After(t, a, fp), a.change.uid;
    var later := open[uid := a.change];
    AppliedKeepsPods(t, a.events[..a.stop], OperationOf(a.change), fp);
    NewContainersAreListed(t, a, fp);
    assert PodExact(t, open, uid);
    forall u ensures PodExact(t', later, u) {
      if u != uid {
        assert PodExact(t, open, u);
        OtherPodsKept(t, a, fp, u);
      }
    }
  }

  /** A successful upsert makes cached and tracked containers of its pod agree, wherever failed
      attempts had got to, exactly when nothing was cached but tracked containers and its own. */
  lemma UpsertRestoresExactly(t: Tracker, a: Attempt, fp: Fingerprints)
    requires TrackingOk(t.pods) && Possible(t, a) && Succeeds(a)
    requires a.change.PodChange? && a.change.operation == Upsert
    ensures var t', uid := After(t, a, fp), a.change.uid;
            var spec := SpecKeys(uid, a.change.containers);
            && TrackedFor(t'.pods, uid).Keys == spec
            && (CachedContainers(t'.cache, uid) == spec <==>
                CachedContainers(t.cache, uid) <= TrackedFor(t.pods, uid).Keys + spec)
  {
    var t', uid := After(t, a, fp), a.change.uid;
    var spec, tracked := SpecKeys(uid, a.change.containers), TrackedFor(t.pods, uid).Keys;
    assert a.events[..a.stop] == a.events;
    AppliedKeepsPods(t, a.events, Upsert, fp);
    forall k: Key | k.ContainerKey? && k.podUid == uid
      ensures k in t'.cache <==> k in spec || (k in t.cache && k !in tracked) {
      UpsertEvents(t, a, k);
      AppliedToKey(t, a.events, Upsert, fp, k);
    }
    CurrentOfUpsert(t, a);
    SpecOfPod(uid, a.change.containers);
    assert CachedContainers(t'.cache, uid) == spec + (CachedContainers(t.cache, uid) - tracked);
    Absorbed(CachedContainers(t.cache, uid), tracked, spec);
  }

  lemma SpecOfPod(uid: string, containers: seq<Container>)
    ensures forall k :: k in SpecKeys(uid, containers) ==> k.ContainerKey? && k.podUid == uid
  {
  }

  lemma Absorbed<K>(a: set<K>, b: set<K>, c: set<K>)
    ensures c + (a - b) == c <==> a <= b + c
  {
    if c + (a - b) == c { forall k | k in a ensures k in b + c { assert k in b || k in c + (a - b); } }
  }

  /** A successful delete leaves nothing of its pod exactly when it lists all that is cached. */
  lemma DeleteRestoresExactly(t: Tracker, a: Attempt, fp: Fingerprints)
    requires TrackingOk(t.pods) && Possible(t, a) && Succeeds(a)
    requires a.change.PodChange? && a.change.operation == Delete
    ensures var t', uid := After(t, a, fp), a.change.uid;
            && TrackedFor(t'.pods, uid).Keys == {}
            && (CachedContainers(t'.cache, uid) == {} <==>
                CachedContainers(t.cache, uid) <= SpecKeys(uid, a.change.containers))
  {
    var t', uid := After(t, a, fp), a.change.uid;
    var listed := SpecKeys(uid, a.change.containers);
    assert a.events[..a.stop] == a.events;
    AppliedKeepsPods(t, a.events, Delete, fp);
    forall k: Key | k.ContainerKey? && k.podUid == uid ensures k in t'.cache <==> k in t.cache && k !in listed {
      DeleteMentions(a.change, a.reading, k);
      AppliedToKey(t, a.events, Delete, fp, k);
    }
    assert CachedContainers(t'.cache, uid) == CachedContainers(t.cache, uid) - listed;
    Absorbed(CachedContainers(t.cache, uid), listed, {});
    assert {} + (CachedContainers(t.cache, uid) - listed) == CachedContainers(t.cache, uid) - listed;
    assert listed + {} == listed;
  }

  lemma SuccessKeepsNearlyExact(t: Tracker, open: map<string, Change>, a: Attempt, fp: Fingerprints)
    requires TrackingOk(t.pods) && NearlyExact(t, open) && Possible(t, a) && a.change.PodChange? && Succeeds(a)
    requires Resumes(open, a.change) && Listed(t, a.change)
    ensures NearlyExact(After(t, a, fp), open - {a.change.uid})
  {
    var t', uid := After(t, a, fp), a.change.uid;
    assert PodExact(t, open, uid);
    if a.change.operation == Upsert { UpsertRestoresExactly(t, a, fp); } else { DeleteRestoresExactly(t, a, fp); }
    forall u ensures PodExact(t', open - {uid}, u) {
      if u != uid {
        assert PodExact(t, open, u);
        OtherPodsKept(t, a, fp, u);
      }
    }
  }

  lemma OtherChangeKeepsNearlyExact(t: Tracker, open: map<string, Change>, a: Attempt, fp: Fingerprints)
    requires TrackingOk(t.pods) && NearlyExact(t, open) && Possible(t, a) && !a.change.PodChange?
    ensures NearlyExact(After(t, a, fp), open)
  {
    forall u ensures PodExact(After(t, a, fp), open, u) {
      assert PodExact(t, open, u);
      OtherPodsKept(t, a, fp, u);
    }
  }

  /** In orderly histories, failures and retries included, the cached container keys of every pod
      without an open change are those tracked for it, and with an open change they stray from
      them only within that change. */
  lemma {:induction false} OrderlyRunsStayExact(attempts: seq<Attempt>, fp: Fingerprints)
    requires Orderly(attempts, fp)
    ensures NearlyExact(AfterAll(EMPTY, attempts, fp), Open(attempts)) && TrackingOk(AfterAll(EMPTY, attempts, fp).pods)
    ensures Open(attempts) == map[] ==> Exact(AfterAll(EMPTY, attempts, fp))
  {
    if attempts != [] {
      OrderlyRunsStayExact(attempts[..|attempts| - 1], fp);
      OrderlyStep(attempts, fp);
    }
    if Open(attempts) == map[] { NothingOpen(AfterAll(EMPTY, attempts, fp)); }
  }

  lemma NothingOpen(t: Tracker)
    requires NearlyExact(t, map[])
    ensures Exact(t)
  {
    forall uid ensures CachedContainers(t.cache, uid) == TrackedFor(t.pods, uid).Keys {
      assert PodExact(t, map[], uid);
    }
  }

  lemma OrderlyStep(attempts: seq<Attempt>, fp: Fingerprints)
    requires attempts != [] && Orderly(attempts, fp)
    requires var before := attempts[..|attempts| - 1];
             var t := AfterAll(EMPTY, before, fp); TrackingOk(t.pods) && NearlyExact(t, Open(before))
    ensures NearlyExact(AfterAll(EMPTY, attempts, fp), Open(attempts)) && TrackingOk(AfterAll(EMPTY, attempts, fp).pods)
  {
    var before, a := attempts[..|attempts| - 1], attempts[|attempts| - 1];
    var t, open := AfterAll(EMPTY, before, fp), Open(before);
    AttemptKeepsTracking(t, a, fp);
    if !a.change.PodChange? {
      OtherChangeKeepsNearlyExact(t, open, a, fp);
    } else if Succeeds(a) {
      SuccessKeepsNearlyExact(t, open, a, fp);
    } else {
      FailureKeepsNearlyExact(t, open, a, fp);
    }
  }

  // ---------------------------------------------------------------- a change that is not retried

  const TWO_CONTAINERS := PodChange("p", "", [Container(false, "c", ""), Container(false, "d", "")], Upsert)

  const NO_CONTAINERS := PodChange("p", "", [], Upsert)

  lemma FirstContainerCached(fp: Fingerprints)
    ensures var a := Alone(TWO_CONTAINERS, "", 2);
            && Possible(EMPTY, a) && !Succeeds(a)
            && After(EMPTY, a, fp).pods == map[] && CONTAINER_KEY in After(EMPTY, a, fp).cache
  {
    var a, x := Alone(TWO_CONTAINERS, "", 2), Content(false, "", "");
    assert a.events[..2] == [Event(POD_KEY, x, 0), Event(CONTAINER_KEY, x, 0)];
    assert a.events[3..] == [];
    AppliedOne(EMPTY, Event(POD_KEY, x, 0), Event(CONTAINER_KEY, x, 0), fp);
    assert [Event(POD_KEY, x, 0), Event(CONTAINER_KEY, x, 0)][..2] == a.events[..2];
  }

  /** A newer spec overtakes a failed one that had published a container: the key stays cached, no
      later upsert of the pod knows of it. */
  lemma OvertakenChangeLeavesContainer(fp: Fingerprints)
    ensures var both := [Alone(TWO_CONTAINERS, "", 2), Alone(NO_CONTAINERS, "", 1)];
            var t := AfterAll(EMPTY, both, fp);
            && Run(EMPTY, both, fp) && Open(both) == map[] && !Exact(t)
            && CONTAINER_KEY in t.cache && TrackedFor(t.pods, "p") == map[]
  {
    var a0, a1 := Alone(TWO_CONTAINERS, "", 2), Alone(NO_CONTAINERS, "", 1);
    FirstContainerCached(fp);
    var t := After(EMPTY, a0, fp);
    EmptySpecKeeps(t, fp);
    TwoAttempts(EMPTY, a0, a1, fp);
    assert [a0, a1][..1] == [a0] && [a0][..0] == [];
    assert Open([a0]) == map["p" := TWO_CONTAINERS];
    assert CONTAINER_KEY in CachedContainers(After(t, a1, fp).cache, "p");
  }

  lemma EmptySpecKeeps(t: Tracker, fp: Fingerprints)
    requires t.pods == map[] && CONTAINER_KEY in t.cache
    ensures var a := Alone(NO_CONTAINERS, "", 1);
            && Possible(t, a) && Succeeds(a)
            && CONTAINER_KEY in After(t, a, fp).cache && TrackedFor(After(t, a, fp).pods, "p") == map[]
  {
    var a := Alone(NO_CONTAINERS, "", 1);
    assert a.events[1..] == [] && Handled(a) == a.events;
    Unmentioned(t, Handled(a), Upsert, fp, CONTAINER_KEY);
  }
}
