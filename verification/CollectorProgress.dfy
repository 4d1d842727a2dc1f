/** How far a change has got: the cache and the log after some of its events have been handled. */
module CollectorProgress {
  import opened Collector

  /** Every event says what `target` says about its key. */
  ghost predicate Within(events: seq<Event>, target: map<Key, Content>) {
    forall i :: 0 <= i < |events| ==> events[i].key in target && events[i].content == target[events[i].key]
  }

  function KeysOf(events: seq<Event>): set<Key> {
    set e | e in events :: e.key
  }

  /** The cache when the keys in `done` have been handled and the others not. */
  ghost predicate Settled(was: map<Key, string>, now: map<Key, string>, target: map<Key, Content>, op: Action,
                          fp: Fingerprints, done: set<Key>)
  {
    && done <= target.Keys
    && (forall k :: k in done ==> if Deleting(target[k], op) then k !in now else k in now && now[k] == fp(target[k]))
    && (forall k :: k !in done ==> (k in now <==> k in was) && (k in was ==> now[k] == was[k]))
  }

  /** The entries a change publishes for the keys in `done`: each effective one once. */
  function Owed(was: map<Key, string>, target: map<Key, Content>, op: Action, fp: Fingerprints,
                done: set<Key>): set<Entry>
    requires done <= target.Keys
  {
    set k | k in done && Effective(was, k, target[k], op, fp) :: Entry(k, target[k], Deleting(target[k], op))
  }

  /** `t` is ahead of `t0` by the keys in `done`: in the cache, and in what was published. */
  ghost predicate Progress(t0: Tracker, t: Tracker, target: map<Key, Content>, op: Action, fp: Fingerprints,
                           done: set<Key>) {
    && Settled(t0.cache, t.cache, target, op, fp, done)
    && multiset(t.log) == multiset(t0.log) + multiset(Owed(t0.cache, target, op, fp, done))
  }

  lemma DeltaSettles(t0: Tracker, t: Tracker, target: map<Key, Content>, op: Action, fp: Fingerprints,
                     done: set<Key>, e: Event)
    requires Settled(t0.cache, t.cache, target, op, fp, done)
    requires e.key in target && e.content == target[e.key]
    ensures Settled(t0.cache, AfterDelta(t, e, op, fp).cache, target, op, fp, done + {e.key})
    ensures Effective(t.cache, e.key, e.content, op, fp) <==>
            e.key !in done && Effective(t0.cache, e.key, e.content, op, fp)
  {
  }

  lemma OwedGrows(was: map<Key, string>, target: map<Key, Content>, op: Action, fp: Fingerprints, done: set<Key>,
                  k: Key)
    requires done <= target.Keys && k in target
    ensures var owed, more := Owed(was, target, op, fp, done), Owed(was, target, op, fp, done + {k});
            multiset(more) == multiset(owed) +
              (if k !in done && Effective(was, k, target[k], op, fp)
               then multiset{Entry(k, target[k], Deleting(target[k], op))} else multiset{})
  {
    var owed, more := Owed(was, target, op, fp, done), Owed(was, target, op, fp, done + {k});
    var x := Entry(k, target[k], Deleting(target[k], op));
    if k !in done && Effective(was, k, target[k], op, fp) {
      assert x !in owed;
      assert more == owed + {x};
    } else {
      assert more == owed;
    }
  }

  lemma DeltaProgress(t0: Tracker, t: Tracker, target: map<Key, Content>, op: Action, fp: Fingerprints,
                      done: set<Key>, e: Event)
    requires Progress(t0, t, target, op, fp, done)
    requires e.key in target && e.content == target[e.key]
    ensures Progress(t0, AfterDelta(t, e, op, fp), target, op, fp, done + {e.key})
  {
    DeltaSettles(t0, t, target, op, fp, done, e);
    OwedGrows(t0.cache, target, op, fp, done, e.key);
    var t' := AfterDelta(t, e, op, fp);
    if Effective(t.cache, e.key, e.content, op, fp) {
      assert t'.log == t.log + [Entry(e.key, e.content, Deleting(e.content, op))];
    }
  }

  lemma KeysOfLast(events: seq<Event>)
    requires events != []
    ensures KeysOf(events) == KeysOf(events[..|events| - 1]) + {events[|events| - 1].key}
  {
    assert events == events[..|events| - 1] + [events[|events| - 1]];
  }

  lemma {:induction false} AppliedProgress(t0: Tracker, t: Tracker, target: map<Key, Content>, op: Action,
                                           fp: Fingerprints, done: set<Key>, events: seq<Event>)
    requires Progress(t0, t, target, op, fp, done) && Within(events, target)
    ensures Progress(t0, Applied(t, events, op, fp), target, op, fp, done + KeysOf(events))
  {
    if events == [] {
      assert done + KeysOf(events) == done;
    } else {
      var n := |events| - 1;
      KeysOfLast(events);
      assert Within(events[..n], target);
      AppliedProgress(t0, t, target, op, fp, done, events[..n]);
      DeltaProgress(t0, Applied(t, events[..n], op, fp), target, op, fp, done + KeysOf(events[..n]), events[n]);
      assert done + KeysOf(events) == done + KeysOf(events[..n]) + {events[n].key};
    }
  }

  lemma StartsClean(t: Tracker, target: map<Key, Content>, op: Action, fp: Fingerprints)
    ensures Progress(t, t, target, op, fp, {})
  {
    assert Owed(t.cache, target, op, fp, {}) == {};
  }

  /** Handling every event of the change completes it, wherever it had got to. */
  lemma Finishes(t0: Tracker, t: Tracker, target: map<Key, Content>, op: Action, fp: Fingerprints,
                 events: seq<Event>)
    requires exists done :: Progress(t0, t, target, op, fp, done)
    requires Within(events, target) && KeysOf(events) == target.Keys
    ensures Progress(t0, Applied(t, events, op, fp), target, op, fp, target.Keys)
  {
    var done :| Progress(t0, t, target, op, fp, done);
    AppliedProgress(t0, t, target, op, fp, done, events);
    assert done + KeysOf(events) == target.Keys;
  }

  // ---------------------------------------------------------------- events of other keys

  lemma OwedSame(was: map<Key, string>, now: map<Key, string>, target: map<Key, Content>, op: Action,
                 fp: Fingerprints, done: set<Key>)
    requires done <= target.Keys
    requires forall k :: k in done ==> (k in was <==> k in now) && (k in was ==> was[k] == now[k])
    ensures Owed(was, target, op, fp, done) == Owed(now, target, op, fp, done)
  {
  }

  /** An event of another key does the same on both sides. */
  lemma OtherDelta(t0: Tracker, t: Tracker, target: map<Key, Content>, op: Action, fp: Fingerprints, done: set<Key>,
                   e: Event, other: Action)
    requires Progress(t0, t, target, op, fp, done) && e.key !in target
    ensures Progress(AfterDelta(t0, e, other, fp), AfterDelta(t, e, other, fp), target, op, fp, done)
  {
    var t0', t' := AfterDelta(t0, e, other, fp), AfterDelta(t, e, other, fp);
    assert Effective(t0.cache, e.key, e.content, other, fp) <==> Effective(t.cache, e.key, e.content, other, fp);
    OwedSame(t0.cache, t0'.cache, target, op, fp, done);
  }

  lemma {:induction false} OtherApplied(t0: Tracker, t: Tracker, target: map<Key, Content>, op: Action,
                                        fp: Fingerprints, done: set<Key>, events: seq<Event>, other: Action)
    requires Progress(t0, t, target, op, fp, done)
    requires forall i :: 0 <= i < |events| ==> events[i].key !in target
    ensures Progress(Applied(t0, events, other, fp), Applied(t, events, other, fp), target, op, fp, done)
  {
    if events != [] {
      var n := |events| - 1;
      OtherApplied(t0, t, target, op, fp, done, events[..n], other);
      OtherDelta(Applied(t0, events[..n], other, fp), Applied(t, events[..n], other, fp), target, op, fp, done,
                 events[n], other);
    }
  }

  /** Caches that may differ only on `keys`. */
  ghost predicate SameOutside(a: map<Key, string>, b: map<Key, string>, keys: set<Key>) {
    forall k :: k !in keys ==> (k in a <==> k in b) && (k in a ==> a[k] == b[k])
  }

  lemma DeltaOutside(s: Tracker, t: Tracker, e: Event, op: Action, fp: Fingerprints, keys: set<Key>)
    requires SameOutside(s.cache, t.cache, keys)
    ensures SameOutside(AfterDelta(s, e, op, fp).cache, AfterDelta(t, e, op, fp).cache, keys)
    ensures e.key in keys ==> SameOutside(s.cache, AfterDelta(t, e, op, fp).cache, keys)
  {
  }

  lemma {:induction false} BothOutside(s: Tracker, t: Tracker, events: seq<Event>, op: Action, fp: Fingerprints,
                                       keys: set<Key>)
    requires SameOutside(s.cache, t.cache, keys)
    ensures SameOutside(Applied(s, events, op, fp).cache, Applied(t, events, op, fp).cache, keys)
  {
    if events != [] {
      var n := |events| - 1;
      BothOutside(s, t, events[..n], op, fp, keys);
      DeltaOutside(Applied(s, events[..n], op, fp), Applied(t, events[..n], op, fp), events[n], op, fp, keys);
    }
  }

  lemma {:induction false} OneOutside(s: Tracker, t: Tracker, events: seq<Event>, op: Action, fp: Fingerprints,
                                      keys: set<Key>)
    requires SameOutside(s.cache, t.cache, keys) && forall i :: 0 <= i < |events| ==> events[i].key in keys
    ensures SameOutside(s.cache, Applied(t, events, op, fp).cache, keys)
  {
    if events != [] {
      var n := |events| - 1;
      OneOutside(s, t, events[..n], op, fp, keys);
      DeltaOutside(s, Applied(t, events[..n], op, fp), events[n], op, fp, keys);
    }
  }

  /** Where every key is settled, what was cached before matters only outside. */
  lemma SettledAlike(was1: map<Key, string>, was2: map<Key, string>, a: map<Key, string>, b: map<Key, string>,
                     target: map<Key, Content>, op: Action, fp: Fingerprints)
    requires Settled(was1, a, target, op, fp, target.Keys) && Settled(was2, b, target, op, fp, target.Keys)
    requires SameOutside(was2, was1, target.Keys)
    ensures a == b
  {
    assert forall k :: k in a <==> k in b;
  }

  // ---------------------------------------------------------------- what handling events publishes

  /** The events publish the `i`-th of them when they are handled from `t` on. */
  predicate Publishes(t: Tracker, events: seq<Event>, op: Action, fp: Fingerprints, i: nat)
    requires i < |events|
  {
    Effective(Applied(t, events[..i], op, fp).cache, events[i].key, events[i].content, op, fp)
  }

  /** Whatever handling the events publishes says what `target` says. */
  ghost predicate Truthful(t: Tracker, events: seq<Event>, op: Action, fp: Fingerprints, target: map<Key, Content>) {
    forall i :: 0 <= i < |events| && Publishes(t, events, op, fp, i) ==>
                  events[i].key in target && events[i].content == target[events[i].key]
  }

  lemma TruthfulPrefix(t: Tracker, events: seq<Event>, op: Action, fp: Fingerprints, target: map<Key, Content>, n: nat)
    requires Truthful(t, events, op, fp, target) && n <= |events|
    ensures Truthful(t, events[..n], op, fp, target)
  {
    forall i | 0 <= i < n && Publishes(t, events[..n], op, fp, i)
      ensures events[i].key in target && events[i].content == target[events[i].key] {
      assert events[..n][..i] == events[..i];
      assert Publishes(t, events, op, fp, i);
    }
  }

  lemma {:induction false} TruthfulProgress(t0: Tracker, t: Tracker, target: map<Key, Content>, op: Action,
                                            fp: Fingerprints, done: set<Key>, events: seq<Event>)
    requires Progress(t0, t, target, op, fp, done) && Truthful(t, events, op, fp, target)
    ensures exists d :: Progress(t0, Applied(t, events, op, fp), target, op, fp, d)
  {
    if events == [] {
      assert Progress(t0, Applied(t, events, op, fp), target, op, fp, done);
    } else {
      var n := |events| - 1;
      TruthfulPrefix(t, events, op, fp, target, n);
      TruthfulProgress(t0, t, target, op, fp, done, events[..n]);
      var d :| Progress(t0, Applied(t, events[..n], op, fp), target, op, fp, d);
      if Publishes(t, events, op, fp, n) {
        DeltaProgress(t0, Applied(t, events[..n], op, fp), target, op, fp, d, events[n]);
        assert Progress(t0, Applied(t, events, op, fp), target, op, fp, d + {events[n].key});
      } else {
        assert Applied(t, events, op, fp) == Applied(t, events[..n], op, fp);
      }
    }
  }

  /** No event is the source of the entry. */
  ghost predicate Avoids(events: seq<Event>, y: Entry) {
    forall i :: 0 <= i < |events| ==> events[i].key != y.key || events[i].content != y.content
  }

  lemma {:induction false} AvoidedStays(t: Tracker, events: seq<Event>, op: Action, fp: Fingerprints, y: Entry)
    requires Avoids(events, y)
    ensures multiset(Applied(t, events, op, fp).log)[y] == multiset(t.log)[y]
  {
    if events != [] { AvoidedStays(t, events[..|events| - 1], op, fp, y); }
  }

  lemma {:induction false} LogGrows(t: Tracker, events: seq<Event>, op: Action, fp: Fingerprints, n: nat, y: Entry)
    requires n <= |events|
    ensures multiset(Applied(t, events[..n], op, fp).log)[y] <= multiset(Applied(t, events, op, fp).log)[y]
  {
    if n < |events| {
      LogGrows(t, events[..|events| - 1], op, fp, n, y);
      assert events[..|events| - 1][..n] == events[..n];
    } else {
      assert events[..n] == events;
    }
  }

  lemma PublishedCounts(t: Tracker, events: seq<Event>, op: Action, fp: Fingerprints, i: nat, y: Entry)
    requires i < |events| && Publishes(t, events, op, fp, i)
    requires y == Entry(events[i].key, events[i].content, Deleting(events[i].content, op))
    ensures multiset(t.log)[y] < multiset(Applied(t, events, op, fp).log)[y]
  {
    assert events[..i][..0] == [];
    LogGrows(t, events[..i], op, fp, 0, y);
    assert events[..i + 1][..i] == events[..i];
    assert Applied(t, events[..i + 1], op, fp).log == Applied(t, events[..i], op, fp).log + [y];
    LogGrows(t, events, op, fp, i + 1, y);
  }
}
