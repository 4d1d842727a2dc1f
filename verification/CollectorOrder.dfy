/** What a retry does to newer changes. */
module CollectorOrder {
  import opened Wire
  import opened Collector
  import opened CollectorLog
  import opened CollectorRetry

  /** What a list of events, or a replayed log, says about a key. */
  datatype Verdict = Silent | Absent | Holds(content: Content)

  function VerdictOn(events: seq<Event>, op: Action, k: Key): Verdict {
    if events == [] then Silent else
      var n := |events| - 1;
      if events[n].key != k then VerdictOn(events[..n], op, k)
      else if Deleting(events[n].content, op) then Absent
      else Holds(events[n].content)
  }

  function StateOn(inventory: map<Key, Content>, k: Key): Verdict {
    if k in inventory then Holds(inventory[k]) else Absent
  }

  /** What an attempt says about a key, as far as it got. */
  function Tells(a: Attempt, k: Key): Verdict {
    VerdictOn(Handled(a), OperationOf(a.change), k)
  }

  lemma {:induction false} ReplayedOnTop(log: seq<Entry>, events: seq<Event>, op: Action, k: Key)
    ensures var said := VerdictOn(events, op, k);
            StateOn(Replay(log + Everything(events, op)), k) == if said == Silent then StateOn(Replay(log), k) else said
  {
    if events == [] {
      assert log + Everything(events, op) == log;
    } else {
      var n := |events| - 1;
      ReplayedOnTop(log, events[..n], op, k);
      var before := log + Everything(events[..n], op);
      var last := Entry(events[n].key, events[n].content, Deleting(events[n].content, op));
      assert log + Everything(events, op) == before + [last];
      assert (before + [last])[..|before|] == before;
    }
  }

  /** After any attempt the consumer of the log sees what the attempt said, and what it saw before
      where the attempt was silent. */
  lemma AttemptDecides(t: Tracker, a: Attempt, fp: Fingerprints, k: Key)
    requires Faithful(fp) && Agrees(t, fp) && Disciplined(t.log)
    ensures StateOn(Replay(After(t, a, fp).log), k)
            == if Tells(a, k) == Silent then StateOn(Replay(t.log), k) else Tells(a, k)
  {
    AppliedReplays(t, t.log, Handled(a), OperationOf(a.change), fp);
    ReplayedOnTop(t.log, Handled(a), OperationOf(a.change), k);
  }

  /** For every reachable state and every late attempt: what the log says about a key survives
      exactly when the attempt is silent on the key or says the same. */
  lemma KeySurvivesExactly(history: seq<Attempt>, late: Attempt, fp: Fingerprints, k: Key)
    requires Faithful(fp) && Run(EMPTY, history + [late], fp)
    ensures var t, t' := AfterAll(EMPTY, history, fp), AfterAll(EMPTY, history + [late], fp);
            StateOn(Replay(t'.log), k) == StateOn(Replay(t.log), k) <==>
              Tells(late, k) == Silent || Tells(late, k) == StateOn(Replay(t.log), k)
  {
    AttemptAppended(EMPTY, history, late, fp);
    CacheAgreesWithLog(history, fp);
    AttemptDecides(AfterAll(EMPTY, history, fp), late, fp, k);
  }

  /** The two changes say the same about every key that both mention. */
  ghost predicate Compatible(newer: Attempt, late: Attempt) {
    forall k :: Tells(newer, k) != Silent && Tells(late, k) != Silent ==> Tells(newer, k) == Tells(late, k)
  }

  /** The log still says about every key of `newer` what `newer` said. */
  ghost predicate Survives(log: seq<Entry>, newer: Attempt) {
    forall k :: Tells(newer, k) != Silent ==> StateOn(Replay(log), k) == Tells(newer, k)
  }

  /** A newer change survives a late retry exactly when the two touch different keys or say the
      same about the shared ones. */
  lemma NewerSurvivesExactly(history: seq<Attempt>, newer: Attempt, late: Attempt, fp: Fingerprints)
    requires Faithful(fp) && Run(EMPTY, history + [newer] + [late], fp)
    ensures Survives(AfterAll(EMPTY, history + [newer] + [late], fp).log, newer) <==> Compatible(newer, late)
  {
    AttemptAppended(EMPTY, history + [newer], late, fp);
    AttemptAppended(EMPTY, history, newer, fp);
    CacheAgreesWithLog(history, fp);
    CacheAgreesWithLog(history + [newer], fp);
    var t1 := AfterAll(EMPTY, history + [newer], fp);
    forall k ensures StateOn(Replay(After(t1, late, fp).log), k)
                     == if Tells(late, k) != Silent then Tells(late, k)
                        else if Tells(newer, k) != Silent then Tells(newer, k)
                        else StateOn(Replay(AfterAll(EMPTY, history, fp).log), k) {
      AttemptDecides(AfterAll(EMPTY, history, fp), newer, fp, k);
      AttemptDecides(t1, late, fp, k);
    }
  }

  predicate SameBody(a: Attempt, b: Attempt)
    requires a.change.Object? && b.change.Object?
  {
    OwnEvents(a.change, a.reading)[0].content == OwnEvents(b.change, b.reading)[0].content
  }

  /** For single objects: the newer state survives a completed late retry exactly when the retry is
      about another object, or both are deletes, or both upsert the same content. */
  lemma ObjectSurvivesExactly(history: seq<Attempt>, newer: Attempt, late: Attempt, fp: Fingerprints)
    requires Faithful(fp) && Run(EMPTY, history + [newer] + [late], fp)
    requires newer.change.Object? && late.change.Object? && newer.stop == late.stop == 1
    ensures Survives(AfterAll(EMPTY, history + [newer] + [late], fp).log, newer) <==>
            || newer.change.key != late.change.key
            || (newer.change.operation == late.change.operation == Delete)
            || (newer.change.operation == late.change.operation && SameBody(newer, late))
  {
    NewerSurvivesExactly(history, newer, late, fp);
    AttemptAppended(EMPTY, history + [newer], late, fp);
    AttemptAppended(EMPTY, history, newer, fp);
    ObjectsCompatible(newer, late);
  }

  lemma ObjectsCompatible(newer: Attempt, late: Attempt)
    requires newer.change.Object? && newer.events == OwnEvents(newer.change, newer.reading) && newer.stop == 1
    requires late.change.Object? && late.events == OwnEvents(late.change, late.reading) && late.stop == 1
    ensures Compatible(newer, late) <==>
            || newer.change.key != late.change.key
            || (newer.change.operation == late.change.operation == Delete)
            || (newer.change.operation == late.change.operation && SameBody(newer, late))
  {
    var k := newer.change.key;
    ObjectTells(newer, k);
    ObjectTells(late, k);
    forall j | Tells(newer, j) != Silent ensures j == k { ObjectTells(newer, j); }
  }

  lemma ObjectTells(a: Attempt, k: Key)
    requires a.change.Object? && a.events == OwnEvents(a.change, a.reading) && a.stop == 1
    ensures Tells(a, k) == if k != a.change.key then Silent
                          else if a.change.operation == Delete then Absent
                          else Holds(a.events[0].content)
  {
    var e := a.events[0];
    assert Handled(a) == [e] && [e][..0] == [];
    assert VerdictOn([e], a.change.operation, k)
           == if e.key != k then Silent
              else if Deleting(e.content, a.change.operation) then Absent else Holds(e.content);
  }

  const OLD_NODE := Object(NodeKey("n"), "old", Upsert)
  const NEW_NODE := Object(NodeKey("n"), "new", Upsert)

  /** With another change to the same object in between it is not equivalent: a failed update
      retried after a newer one leaves the older state as the last word. */
  lemma LateRetryRevertsTheInventory(fp: Fingerprints)
    requires Faithful(fp)
    ensures var attempts := [Alone(OLD_NODE, "", 0), Alone(NEW_NODE, "", 1), Alone(OLD_NODE, "", 1)];
            && Run(EMPTY, attempts, fp)
            && NodeKey("n") in Replay(AfterAll(EMPTY, attempts, fp).log)
            && Replay(AfterAll(EMPTY, attempts, fp).log)[NodeKey("n")] == Content(false, "", "old")
  {
    var a0, a1, a2 := Alone(OLD_NODE, "", 0), Alone(NEW_NODE, "", 1), Alone(OLD_NODE, "", 1);
    var k, stale, recent := NodeKey("n"), Content(false, "", "old"), Content(false, "", "new");
    SingleAttempt(EMPTY, OLD_NODE, 0, fp);
    SingleAttempt(EMPTY, NEW_NODE, 1, fp);
    var t2 := After(EMPTY, a1, fp);
    assert t2 == Tracker(map[k := fp(recent)], map[], [Entry(k, recent, false)]);
    SingleAttempt(t2, OLD_NODE, 1, fp);
    assert fp(stale) != fp(recent);
    assert After(t2, a2, fp).log == t2.log + [Entry(k, stale, false)];
    ThreeAttempts(EMPTY, a0, a1, a2, fp);
  }

  lemma ThreeAttempts(t: Tracker, a0: Attempt, a1: Attempt, a2: Attempt, fp: Fingerprints)
    requires Possible(t, a0) && Possible(After(t, a0, fp), a1) && Possible(After(After(t, a0, fp), a1, fp), a2)
    ensures Run(t, [a0, a1, a2], fp)
    ensures AfterAll(t, [a0, a1, a2], fp) == After(After(After(t, a0, fp), a1, fp), a2, fp)
  {
    TwoAttempts(t, a0, a1, fp);
    AttemptAppended(t, [a0, a1], a2, fp);
    assert [a0, a1] + [a2] == [a0, a1, a2];
  }

  lemma SingleAttempt(t: Tracker, change: Change, stop: nat, fp: Fingerprints)
    requires change.Object? && stop <= 1
    ensures After(t, Alone(change, "", stop), fp) ==
            if stop == 0 then t else AfterDelta(t, OwnEvents(change, Reading("", 0))[0], change.operation, fp)
  {
    var events := OwnEvents(change, Reading("", 0));
    assert events[..0] == [] && events[..1] == events;
    assert Applied(t, [], change.operation, fp) == t;
  }
}
