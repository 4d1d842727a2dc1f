/** The inventory delta collector: a fingerprint cache and per-pod container tracking decide
    which upserts and tombstones are published. */
module Collector {
  import opened Wire

  /** What the collector queues: no change leaves its operation unspecified. */
  type Action = o: Operation | o != Unspecified witness Upsert

  /** Stable resource keys. */
  datatype Key =
    | ClusterKey(id: string) | SnapshotKey(id: string, phase: string)
    | NodeKey(uid: string) | NamespaceKey(uid: string) | DeploymentKey(uid: string)
    | PodKey(uid: string) | ContainerKey(init: bool, podUid: string, name: string)

  /** The semantic payload: whether its record is a delete, the namespace UID of namespaced kinds,
      and everything else the fingerprint covers. */
  datatype Content = Content(deletes: bool, namespace: string, body: string)

  /** `stamp` stands for timestamps and the resource version, which the fingerprint leaves out. */
  datatype Event = Event(key: Key, content: Content, stamp: int)

  /** What one attempt reads besides the object: the namespace UID that the lister knows at that
      moment (empty if none) and the time. */
  datatype Reading = Reading(namespace: string, stamp: int)

  datatype Container = Container(init: bool, name: string, body: string)

  /** A queued change. `Fixed` is the prepared cluster or snapshot event; `Unusable` is an object
      of an unexpected type or an unsupported kind. */
  datatype Change =
    | Fixed(event: Event)
    | Object(key: Key, body: string, operation: Action)
    | PodChange(uid: string, body: string, containers: seq<Container>, operation: Action)
    | Unusable

  predicate Proper(change: Change) {
    match change
    case Fixed(e) => (e.key.ClusterKey? || e.key.SnapshotKey?) && !e.content.deletes
    case Object(key, _, _) => key.NodeKey? || key.NamespaceKey? || key.DeploymentKey?
    case _ => true
  }

  function OperationOf(change: Change): Action {
    if change.Object? || change.PodChange? then change.operation else Upsert
  }

  type Fingerprints = Content -> string

  /** A collision-free hash with a non-empty rendering. */
  ghost predicate Faithful(fp: Fingerprints) {
    && (forall a, b :: fp(a) == fp(b) ==> a == b)
    && forall a :: fp(a) != ""
  }

  /** One published event, with the way it was published. */
  datatype Entry = Entry(key: Key, content: Content, deleted: bool)

  datatype Tracker = Tracker(cache: map<Key, string>, pods: map<string, map<Key, Event>>, log: seq<Entry>)

  const EMPTY := Tracker(map[], map[], [])

  // ---------------------------------------------------------------- one event

  predicate Deleting(content: Content, operation: Action) {
    operation == Delete || content.deletes
  }

  /** Whether handling the event publishes it. */
  predicate Effective(cache: map<Key, string>, key: Key, content: Content, operation: Action, fp: Fingerprints) {
    if Deleting(content, operation) then key in cache
    else key !in cache || cache[key] != fp(content)
  }

  function AfterDelta(t: Tracker, e: Event, operation: Action, fp: Fingerprints): Tracker {
    if !Effective(t.cache, e.key, e.content, operation, fp) then t
    else
      var deleted := Deleting(e.content, operation);
      t.(cache := if deleted then t.cache - {e.key} else t.cache[e.key := fp(e.content)],
         log := t.log + [Entry(e.key, e.content, deleted)])
  }

  /** The events handled one after the other. */
  function Applied(t: Tracker, events: seq<Event>, operation: Action, fp: Fingerprints): Tracker {
    if events == [] then t else
      var n := |events| - 1;
      AfterDelta(Applied(t, events[..n], operation, fp), events[n], operation, fp)
  }

  // ---------------------------------------------------------------- one change

  function ContainerEvents(uid: string, containers: seq<Container>, operation: Action,
                           reading: Reading): seq<Event> {
    seq(|containers|, i requires 0 <= i < |containers| =>
      Event(ContainerKey(containers[i].init, uid, containers[i].name),
            Content(operation == Delete, reading.namespace, containers[i].body), reading.stamp))
  }

  function SpecKeys(uid: string, containers: seq<Container>): set<Key> {
    set x | x in containers :: ContainerKey(x.init, uid, x.name)
  }

  function TrackedFor(pods: map<string, map<Key, Event>>, uid: string): map<Key, Event> {
    if uid in pods then pods[uid] else map[]
  }

  function AsDelete(e: Event): Event {
    e.(content := e.content.(deletes := true))
  }

  /** `tombstones` lists, in some order, a delete for every tracked container missing from the spec. */
  ghost predicate IsTombstones(tombstones: seq<Event>, tracked: map<Key, Event>, spec: set<Key>) {
    && (forall i :: 0 <= i < |tombstones| ==>
          var k := tombstones[i].key; k in tracked && k !in spec && tombstones[i] == AsDelete(tracked[k]))
    && (forall i, j :: 0 <= i < j < |tombstones| ==> tombstones[i].key != tombstones[j].key)
    && forall k :: k in tracked && k !in spec ==> exists i :: 0 <= i < |tombstones| && tombstones[i].key == k
  }

  function OwnEvents(change: Change, reading: Reading): seq<Event>
    requires !change.Unusable?
  {
    match change
    case Fixed(e) => [e]
    case Object(key, body, op) =>
      [Event(key, Content(op == Delete, if key.DeploymentKey? then reading.namespace else "", body), reading.stamp)]
    case PodChange(uid, body, containers, op) =>
      [Event(PodKey(uid), Content(op == Delete, reading.namespace, body), reading.stamp)]
      + ContainerEvents(uid, containers, op, reading)
  }

  /** The events of a change: its own, then for a pod upsert the tombstones in map order. */
  ghost predicate IsEvents(pods: map<string, map<Key, Event>>, change: Change, events: seq<Event>, reading: Reading) {
    && !change.Unusable?
    && var own := OwnEvents(change, reading);
       if change.PodChange? && change.operation == Upsert then
         && |own| <= |events| && events[..|own|] == own
         && IsTombstones(events[|own|..], TrackedFor(pods, change.uid), SpecKeys(change.uid, change.containers))
       else events == own
  }

  /** The live container events by key; a later duplicate wins. */
  function Current(events: seq<Event>): map<Key, Event> {
    if events == [] then map[] else
      var n := |events| - 1;
      var before := Current(events[..n]);
      if events[n].content.deletes then before else before[events[n].key := events[n]]
  }

  function AfterPods(pods: map<string, map<Key, Event>>, change: Change,
                     events: seq<Event>): map<string, map<Key, Event>> {
    if !change.PodChange? || events == [] then pods
    else if change.operation == Delete then pods - {change.uid}
    else pods[change.uid := Current(events[1..])]
  }

  /** One attempt: the first `stop` events were handled; handling all of them is success. */
  datatype Attempt = Attempt(change: Change, events: seq<Event>, reading: Reading, stop: nat)

  ghost predicate Possible(t: Tracker, a: Attempt) {
    Proper(a.change) && IsEvents(t.pods, a.change, a.events, a.reading) && a.stop <= |a.events|
  }

  function Handled(a: Attempt): seq<Event> {
    a.events[..if a.stop <= |a.events| then a.stop else |a.events|]
  }

  predicate Succeeds(a: Attempt) { a.stop >= |a.events| }

  function After(t: Tracker, a: Attempt, fp: Fingerprints): Tracker {
    var t' := Applied(t, Handled(a), OperationOf(a.change), fp);
    if Succeeds(a) then t'.(pods := AfterPods(t.pods, a.change, a.events)) else t'
  }

  function AfterAll(t: Tracker, attempts: seq<Attempt>, fp: Fingerprints): Tracker {
    if attempts == [] then t else
      After(AfterAll(t, attempts[..|attempts| - 1], fp), attempts[|attempts| - 1], fp)
  }

  /** A history of the collector: every attempt fits the state it starts from. */
  ghost predicate Run(t: Tracker, attempts: seq<Attempt>, fp: Fingerprints) {
    attempts == [] ||
      var before := attempts[..|attempts| - 1];
      Run(t, before, fp) && Possible(AfterAll(t, before, fp), attempts[|attempts| - 1])
  }

  /** Tracked events are live container events of their pod, filed under their own key. */
  ghost predicate PodOk(uid: string, tracked: map<Key, Event>) {
    forall k :: k in tracked ==>
                  tracked[k].key == k && !tracked[k].content.deletes && k.ContainerKey? && k.podUid == uid
  }

  ghost predicate TrackingOk(pods: map<string, map<Key, Event>>) {
    forall uid :: uid in pods ==> PodOk(uid, pods[uid])
  }

  lemma CurrentIsSpec(change: Change, reading: Reading)
    requires change.PodChange?
    ensures (set e | e in OwnEvents(change, reading)[1..] :: e.key) == SpecKeys(change.uid, change.containers)
  {
    var events := OwnEvents(change, reading)[1..];
    assert events == ContainerEvents(change.uid, change.containers, change.operation, reading);
    forall x | x in change.containers
      ensures ContainerKey(x.init, change.uid, x.name) in set e | e in events :: e.key {
      var i :| 0 <= i < |change.containers| && change.containers[i] == x;
      assert events[i] in events;
    }
  }

  lemma {:induction false} CurrentExactly(events: seq<Event>)
    ensures forall k :: k in Current(events) ==> Current(events)[k] in events && Current(events)[k].key == k
                                                 && !Current(events)[k].content.deletes
    ensures forall e :: e in events && !e.content.deletes ==> e.key in Current(events)
  {
    if events != [] {
      CurrentExactly(events[..|events| - 1]);
      assert events == events[..|events| - 1] + [events[|events| - 1]];
    }
  }

  lemma TrackedKeys(pods: map<string, map<Key, Event>>, uid: string)
    requires TrackingOk(pods)
    ensures forall k :: k in TrackedFor(pods, uid) ==>
                          var e := TrackedFor(pods, uid)[k];
                          e.key == k && !e.content.deletes && k.ContainerKey? && k.podUid == uid
  {
  }

  lemma TombstonesGrow(tombstones: seq<Event>, tracked: map<Key, Event>, left: set<Key>, spec: set<Key>, k: Key)
    requires k in left && left <= tracked.Keys && tracked[k].key == k
    requires IsTombstones(tombstones, tracked - left, spec)
    ensures IsTombstones(if k in spec then tombstones else tombstones + [AsDelete(tracked[k])],
                         tracked - (left - {k}), spec)
  {
    var more := if k in spec then tombstones else tombstones + [AsDelete(tracked[k])];
    forall x | x in tracked - (left - {k}) && x !in spec ensures exists i :: 0 <= i < |more| && more[i].key == x {
      if x == k {
        assert more[|tombstones|].key == k;
      } else {
        var i :| 0 <= i < |tombstones| && tombstones[i].key == x;
        assert more[i].key == x;
      }
    }
  }

  /** Every event of a pod change after the first is a container event of that pod. */
  lemma PodEventKeys(pods: map<string, map<Key, Event>>, change: Change, events: seq<Event>, reading: Reading)
    requires TrackingOk(pods) && IsEvents(pods, change, events, reading) && change.PodChange?
    ensures events != [] && events[0].key == PodKey(change.uid)
    ensures forall i :: 1 <= i < |events| ==> events[i].key.ContainerKey? && events[i].key.podUid == change.uid
  {
    var own := OwnEvents(change, reading);
    forall i | 1 <= i < |events| ensures events[i].key.ContainerKey? && events[i].key.podUid == change.uid {
      if i < |own| { assert events[..|own|][i] == own[i]; } else { assert events[|own|..][i - |own|] == events[i]; }
    }
  }

  lemma PodsStayOk(pods: map<string, map<Key, Event>>, change: Change, events: seq<Event>, reading: Reading)
    requires TrackingOk(pods) && IsEvents(pods, change, events, reading)
    ensures TrackingOk(AfterPods(pods, change, events))
  {
    if change.PodChange? && change.operation == Upsert {
      PodEventKeys(pods, change, events, reading);
      var rest, uid := events[1..], change.uid;
      CurrentExactly(rest);
      forall k | k in Current(rest) ensures k.ContainerKey? && k.podUid == uid {
        var i :| 0 <= i < |rest| && rest[i] == Current(rest)[k];
        assert rest[i] == events[i + 1];
      }
      assert PodOk(uid, Current(rest));
    }
  }

  // ---------------------------------------------------------------- the objects

  class Cache {
    var entries: map<Key, string>

    constructor ()
      ensures entries == map[]
    {
      entries := map[];
    }

    /** An empty fingerprint is one that could not be computed. */
    method Changed(e: Event, fp: Fingerprints) returns (ok: bool, changed: bool, fingerprint: string)
      ensures ok <==> fp(e.content) != ""
      ensures ok ==> fingerprint == fp(e.content)
      ensures ok ==> (changed <==> !(e.key in entries && entries[e.key] == fingerprint))
    {
      fingerprint := fp(e.content);
      if fingerprint == "" { return false, false, ""; }
      return true, e.key !in entries || entries[e.key] != fingerprint, fingerprint;
    }

    predicate Exists(key: Key)
      reads this
    {
      key in entries
    }

    method Commit(key: Key, fingerprint: string) returns (ok: bool)
      modifies this
      ensures ok <==> fingerprint != ""
      ensures entries == if ok then old(entries)[key := fingerprint] else old(entries)
    {
      if fingerprint == "" { return false; }
      entries := entries[key := fingerprint];
      return true;
    }

    method Remove(key: Key)
      modifies this
      ensures entries == old(entries) - {key}
    {
      entries := entries - {key};
    }
  }

  /** `log` is ghost: what the publisher accepted so far. */
  class DeltaCollector {
    const cache: Cache
    const fp: Fingerprints
    var podContainers: map<string, map<Key, Event>>
    ghost var log: seq<Entry>

    ghost function State(): Tracker
      reads this, cache
    {
      Tracker(cache.entries, podContainers, log)
    }

    constructor (fp: Fingerprints)
      ensures State() == EMPTY && this.fp == fp && fresh(cache)
    {
      this.fp := fp;
      cache := new Cache();
      podContainers, log := map[], [];
    }

    /** `refuse` makes the publisher fail if it is asked. */
    method PublishDelta(e: Event, operation: Action, refuse: bool) returns (ok: bool)
      modifies this`log, cache
      ensures ok <==> && !(refuse && old(Effective(cache.entries, e.key, e.content, operation, fp)))
                      && (Deleting(e.content, operation) || fp(e.content) != "")
      ensures ok ==> State() == old(AfterDelta(State(), e, operation, fp))
      ensures !ok ==> State() == old(State())
    {
      if operation == Delete || e.content.deletes {
        if !cache.Exists(e.key) { return true; }
        if refuse { return false; }
        log := log + [Entry(e.key, e.content, true)];
        cache.Remove(e.key);
        return true;
      }
      var computed, changed, fingerprint := cache.Changed(e, fp);
      if !computed || !changed { return computed; }
      if refuse { return false; }
      log := log + [Entry(e.key, e.content, false)];
      ok := cache.Commit(e.key, fingerprint);
    }

    /** The events of a change; the tombstones come in whatever order the map yields. */
    method Events(change: Change, reading: Reading) returns (usable: bool, events: seq<Event>)
      requires TrackingOk(podContainers)
      ensures usable <==> !change.Unusable?
      ensures usable ==> IsEvents(podContainers, change, events, reading)
    {
      if change.Unusable? { return false, []; }
      events := OwnEvents(change, reading);
      if !(change.PodChange? && change.operation == Upsert) { return true, events; }
      var current := set e | e in events[1..] :: e.key;
      ghost var spec := SpecKeys(change.uid, change.containers);
      CurrentIsSpec(change, reading);
      var tracked := TrackedFor(podContainers, change.uid);
      TrackedKeys(podContainers, change.uid);
      var left, tombstones: seq<Event> := tracked.Keys, [];
      while left != {}
        invariant left <= tracked.Keys
        invariant IsTombstones(tombstones, tracked - left, spec)
        decreases left
      {
        var k :| k in left;
        TombstonesGrow(tombstones, tracked, left, spec, k);
        left := left - {k};
        if k !in current { tombstones := tombstones + [AsDelete(tracked[k])]; }
      }
      assert tracked - left == tracked;
      ghost var own := events;
      events := events + tombstones;
      assert events[..|own|] == own && events[|own|..] == tombstones;
      usable := true;
    }

    /** The loop that replaces the pod's tracked containers. */
    method UpdatePodContainers(change: Change, events: seq<Event>)
      modifies this`podContainers
      ensures podContainers == old(AfterPods(podContainers, change, events))
    {
      if !change.PodChange? || events == [] { return; }
      if change.operation == Delete {
        podContainers := podContainers - {change.uid};
        return;
      }
      var rest := events[1..];
      var current: map<Key, Event> := map[];
      for i := 0 to |rest|
        invariant current == Current(rest[..i])
      {
        assert rest[..i + 1][..i] == rest[..i];
        if !rest[i].content.deletes { current := current[rest[i].key := rest[i]]; }
      }
      assert rest[..|rest|] == rest;
      podContainers := podContainers[change.uid := current];
    }

    /** One attempt at a change; the publisher refuses event `refuseAt` if it is asked to publish it. */
    method Process(change: Change, reading: Reading, refuseAt: nat)
      returns (ok: bool, ghost attempt: Attempt)
      requires TrackingOk(podContainers) && Faithful(fp) && Proper(change)
      modifies this, cache
      ensures TrackingOk(podContainers)
      ensures change.Unusable? ==> !ok && State() == old(State())
      ensures !change.Unusable? ==>
                && attempt.change == change && attempt.reading == reading
                && Possible(old(State()), attempt)
                && State() == After(old(State()), attempt, fp)
                && (ok <==> attempt.stop == |attempt.events|)
    {
      var usable, events := Events(change, reading);
      attempt := Attempt(change, events, reading, 0);
      if !usable { return false, attempt; }
      var operation := OperationOf(change);
      for i := 0 to |events|
        invariant State() == Applied(old(State()), events[..i], operation, fp)
        invariant podContainers == old(podContainers)
      {
        assert events[..i + 1][..i] == events[..i];
        var published := PublishDelta(events[i], operation, i == refuseAt);
        if !published {
          AppliedKeepsPods(old(State()), events[..i], operation, fp);
          return false, attempt.(stop := i);
        }
      }
      assert events[..|events|] == events;
      AppliedKeepsPods(old(State()), events, operation, fp);
      PodsStayOk(podContainers, change, events, reading);
      UpdatePodContainers(change, events);
      return true, attempt.(stop := |events|);
    }
  }

  lemma {:induction false} AppliedKeepsPods(t: Tracker, events: seq<Event>, operation: Action, fp: Fingerprints)
    ensures Applied(t, events, operation, fp).pods == t.pods
  {
    if events != [] { AppliedKeepsPods(t, events[..|events| - 1], operation, fp); }
  }
}
