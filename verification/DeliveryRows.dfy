/** What the stored rows of every run say, traced back to what was published and when it arrived. */
module DeliveryRows {
  import opened Wrappers
  import opened Wire
  import opened AgentClient
  import opened BatchRules
  import opened IngestionServer
  import opened Persistence
  import opened Delivery
  import opened DeliveryProof
  import opened DeliveryTheorems
  import opened DeliveryRejections
  import B = AgentBuffer

  // ---------------------------------------------------------------- what was published

  /** The observation that publishing `e` as number n puts on record: the payload and time of the
      event, the number, and an id made of the key and the event as it was. */
  ghost predicate Publishes(o: Observation, e: B.Event, n: nat, codec: Codec) {
    && o.sequence == n && o.payload == e.observation.payload && o.observedAt == e.observation.observedAt
    && o.eventId == codec.eventId(e.key, Observation(0, "", e.observation.observedAt, e.observation.payload))
  }

  ghost predicate Published(o: Observation, events: seq<Event>, n: nat, codec: Codec) {
    exists j :: 0 <= j < |events| && events[j].Publish? && Publishes(o, events[j].event, n, codec)
  }

  ghost predicate FromEvents(published: seq<Observation>, events: seq<Event>, codec: Codec) {
    forall i :: 0 <= i < |published| ==> Published(published[i], events, i + 1, codec)
  }

  lemma FromEventsGrows(published: seq<Observation>, events: seq<Event>, e: Event, codec: Codec)
    requires FromEvents(published, events, codec)
    ensures FromEvents(published, events + [e], codec)
  {
    var more := events + [e];
    forall i | 0 <= i < |published| ensures Published(published[i], more, i + 1, codec) {
      assert Published(published[i], events, i + 1, codec);
      var j :| 0 <= j < |events| && events[j].Publish? && Publishes(published[i], events[j].event, i + 1, codec);
      assert more[j] == events[j];
    }
  }

  lemma PublishRecords(c: Settings, s: State, events: seq<Event>, event: B.Event)
    requires Inv(c, s) && FromEvents(s.past.published, events, c.codec)
    ensures FromEvents(Next(c, s, Publish(event)).past.published, events + [Publish(event)], c.codec)
  {
    var more := events + [Publish(event)];
    FromEventsGrows(s.past.published, events, Publish(event), c.codec);
    if B.PublishOutcomeOf(s.buffer, event) == B.Published {
      var o := B.Stamp(event, s.buffer.next, c.codec);
      assert more[|events|] == Publish(event) && Publishes(o, event, |s.past.published| + 1, c.codec);
      assert Published(o, more, |s.past.published| + 1, c.codec);
    }
  }

  /** Every numbered observation keeps payload and time of the event it was published from. */
  lemma {:induction false} PublishedFromEvents(c: Settings, events: seq<Event>)
    requires Legal(c)
    ensures FromEvents(Reached(c, events).past.published, events, c.codec)
  {
    if events != [] {
      var before, e := events[..|events| - 1], events[|events| - 1];
      assert events == before + [e];
      PublishedFromEvents(c, before);
      ReachedOk(c, before);
      Unroll(c, Start(c, 0), before, e);
      var s := Reached(c, before);
      if e.Publish? {
        PublishRecords(c, s, before, e.event);
      } else {
        if e.HandleBatch? {
          HandlePublishesNothing(c, s, e.receivedAt, e.archived);
        } else {
          OthersPublishNothing(c, s, e);
        }
        FromEventsGrows(s.past.published, before, e, c.codec);
      }
    }
  }

  // ---------------------------------------------------------------- when it arrived

  /** The times at which the server took batches of the cluster. */
  function Receipts(events: seq<Event>): set<int> {
    set i | 0 <= i < |events| && events[i].HandleBatch? :: events[i].receivedAt
  }

  lemma ReceiptsGrow(events: seq<Event>, e: Event)
    ensures Receipts(events + [e]) == Receipts(events) + if e.HandleBatch? then {e.receivedAt} else {}
  {
    var more := events + [e];
    forall t | t in Receipts(events) ensures t in Receipts(more) {
      var i :| 0 <= i < |events| && events[i].HandleBatch? && events[i].receivedAt == t;
      assert more[i] == events[i];
    }
    if e.HandleBatch? { assert more[|events|] == e; }
  }

  ghost predicate HeldArrived(c: Settings, held: seq<Queued>, times: set<int>) {
    forall q :: q in held && Focus(c, q.envelope) ==> q.envelope.receivedAt in times
  }

  /** A stored row of the cluster records the observation of its version, received at one of the times. */
  ghost predicate RowArrived(c: Settings, published: seq<Observation>, times: set<int>, r: Row) {
    && 1 <= r.version <= |published|
    && exists at :: (at in times && Records(r, c.tenant, c.cluster, at, published[r.version - 1], c.codec))
  }

  ghost predicate RowsArrived(c: Settings, published: seq<Observation>, store: seq<Row>, times: set<int>) {
    forall r :: r in store && r.tenant == c.tenant && r.cluster == c.cluster ==> RowArrived(c, published, times, r)
  }

  ghost predicate Arrived(c: Settings, s: State, times: set<int>) {
    HeldArrived(c, Held(s.queue.items, s.work), times) && RowsArrived(c, s.past.published, s.store, times)
  }

  lemma RowsArriveLater(c: Settings, s: State, t: State, times: set<int>, later: set<int>)
    requires RowsArrived(c, s.past.published, s.store, times) && times <= later
    requires t.store == s.store && s.past.published <= t.past.published
    ensures RowsArrived(c, t.past.published, t.store, later)
  {
    forall r | r in t.store && r.tenant == c.tenant && r.cluster == c.cluster
      ensures RowArrived(c, t.past.published, later, r) {
      assert RowArrived(c, s.past.published, times, r);
      assert t.past.published[r.version - 1] == s.past.published[r.version - 1];
    }
  }

  /** A row of the lease records an observation of a leased batch, at the time that arrived. */
  lemma LeasedRowArrived(c: Settings, s: State, times: set<int>, r: Row)
    requires Inv(c, s) && Arrived(c, s, times) && s.work.Some? && r in Inserted(s.work.value.pending)
    requires r.tenant == c.tenant && r.cluster == c.cluster
    ensures RowArrived(c, s.past.published, times, r)
  {
    var items := s.work.value.items;
    var e, o :| e in Envelopes(items) && o in e.batch.observations && IsInventory(o) && r == RowOf(e, o, c.codec);
    EnvelopeOf(items, e);
    var q :| q in items && q.envelope == e;
    assert q in Held(s.queue.items, s.work);
    assert B.Genuine(e.batch.observations, s.past.published);
    RowExactly(e, o, c.codec, r);
    assert Records(r, c.tenant, c.cluster, e.receivedAt, s.past.published[r.version - 1], c.codec);
  }

  lemma LandedArrived(c: Settings, s: State, times: set<int>, landed: seq<Row>)
    requires Inv(c, s) && Arrived(c, s, times) && s.work.Some?
    requires forall r :: r in landed ==> r in Inserted(s.work.value.pending)
    ensures RowsArrived(c, s.past.published, s.store + landed, times)
  {
    forall r | r in s.store + landed && r.tenant == c.tenant && r.cluster == c.cluster
      ensures RowArrived(c, s.past.published, times, r) {
      if r in landed { LeasedRowArrived(c, s, times, r); }
    }
  }

  lemma WorkerArrives(c: Settings, s: State, e: Event, times: set<int>)
    requires Inv(c, s) && Arrived(c, s, times)
    requires e.AcquireLease? || e.InsertSucceeds? || e.InsertFails? || e.CommitLease?
    ensures Arrived(c, Next(c, s, e), times)
  {
    WorkerHolds(c, s, e);
    if s.work.Some? && s.work.value.pending != [] {
      InsertedHead(s.work.value.pending);
      if e.InsertSucceeds? { LandedArrived(c, s, times, s.work.value.pending[0].rows); }
      if e.InsertFails? && Next(c, s, e) != s { LandedArrived(c, s, times, e.landed); }
    }
  }

  /** The worker takes nothing in, and stores only what is pending. */
  lemma WorkerHolds(c: Settings, s: State, e: Event)
    requires e.AcquireLease? || e.InsertSucceeds? || e.InsertFails? || e.CommitLease?
    ensures var t := Next(c, s, e);
            && (forall q :: q in Held(t.queue.items, t.work) ==> q in Held(s.queue.items, s.work))
            && t.past.published == s.past.published
  {
  }

  lemma HandleArrives(c: Settings, s: State, at: int, archived: bool, times: set<int>)
    requires Arrived(c, s, times)
    ensures Arrived(c, Next(c, s, HandleBatch(at, archived)), times + {at})
  {
    var t := Next(c, s, HandleBatch(at, archived));
    HandleStores(c, s, at, archived);
    HandlePublishesNothing(c, s, at, archived);
    var q: Queued :| q.envelope.receivedAt == at && HoldsWith(s, t, [q]);
    HeldWith(s, t, [q]);
    RowsArriveLater(c, s, t, times, times + {at});
  }

  /** What is held afterwards: what was held, without what a restart forgets, and `more`. */
  ghost predicate HoldsWith(s: State, t: State, more: seq<Queued>) {
    && (t.work == s.work || t.work == None)
    && (t.queue.items == s.queue.items || t.queue.items == [] || t.queue.items == s.queue.items + more)
  }

  lemma HeldWith(s: State, t: State, more: seq<Queued>)
    requires HoldsWith(s, t, more)
    ensures forall q :: q in Held(t.queue.items, t.work) ==> q in Held(s.queue.items, s.work) || q in more
  {
  }

  lemma BegunHolds(c: Settings, s: State, n: Session, at: int, begun: Begun)
    requires n.inbox != []
    ensures var t := AfterBegun(c, s, n, at, begun);
            && t.store == s.store && t.past == s.past && t.work == s.work
            && (t.queue.items == s.queue.items
                || (begun.accepted.Some? &&
                    var env := Envelope(c.tenant, c.cluster, at, begun.accepted.value);
                    t.queue.items == s.queue.items + [Queued(s.ids, env)]))
  {
  }

  ghost predicate HoldsFrom(s: State, t: State, at: int) {
    exists q: Queued :: q.envelope.receivedAt == at && HoldsWith(s, t, [q])
  }

  lemma NothingNewHeld(s: State, t: State, at: int)
    requires t.work == s.work && t.queue.items == s.queue.items
    ensures HoldsFrom(s, t, at)
  {
    var q := Queued(0, Envelope("", "", at, ObservationBatch("", 0, 0, "", [])));
    assert HoldsWith(s, t, [q]);
  }

  lemma HandleStores(c: Settings, s: State, at: int, archived: bool)
    ensures var t := Next(c, s, HandleBatch(at, archived)); t.store == s.store && HoldsFrom(s, t, at)
  {
    var t := Next(c, s, HandleBatch(at, archived));
    if s.session.None? || s.session.value.phase != Ready || s.session.value.inbox == [] || s.watermark.None? {
      NothingNewHeld(s, t, at);
    } else {
      var b := s.session.value.inbox[0];
      var refused := if Validate(b, c.config, c.codec).Some? then TerminalSet(RejectionsFor(b)) else {};
      var begun := BegunFor(c, s, b, s.watermark.value, archived);
      var past := s.past.(rejected := s.past.rejected + refused);
      BegunHolds(c, s.(past := past), s.session.value, at, begun);
      if t.queue.items == s.queue.items {
        NothingNewHeld(s, t, at);
      } else {
        assert HoldsWith(s, t, [Queued(s.ids, Envelope(c.tenant, c.cluster, at, begun.accepted.value))]);
      }
    }
  }

  predicate Aside(e: Event) {
    && !e.AcquireLease? && !e.InsertSucceeds? && !e.InsertFails? && !e.CommitLease? && !e.HandleBatch?
    && !e.ForeignEnqueue?
  }

  /** Every other event queues nothing and stores nothing. */
  lemma OthersHold(c: Settings, s: State, e: Event)
    requires Aside(e)
    ensures HoldsWith(s, Next(c, s, e), [])
  {
  }

  lemma OthersStore(c: Settings, s: State, e: Event)
    requires Aside(e)
    ensures Next(c, s, e).store == s.store
  {
  }

  lemma ForeignHolds(c: Settings, s: State, env: Envelope)
    requires Legal(c)
    ensures var t, q := Next(c, s, ForeignEnqueue(env)), Queued(s.ids, env);
            && t.store == s.store && s.past.published == t.past.published
            && HoldsWith(s, t, if Focus(c, env) then [] else [q])
  {
  }

  lemma OtherArrives(c: Settings, s: State, e: Event, times: set<int>)
    requires Legal(c) && Arrived(c, s, times)
    requires !e.AcquireLease? && !e.InsertSucceeds? && !e.InsertFails? && !e.CommitLease? && !e.HandleBatch?
    ensures Arrived(c, Next(c, s, e), times)
  {
    var t := Next(c, s, e);
    if e.ForeignEnqueue? {
      ForeignHolds(c, s, e.envelope);
      HeldWith(s, t, if Focus(c, e.envelope) then [] else [Queued(s.ids, e.envelope)]);
    } else {
      OthersHold(c, s, e);
      OthersStore(c, s, e);
      PublishedGrows(c, s, e);
      HeldWith(s, t, []);
    }
    RowsArriveLater(c, s, t, times, times);
  }

  lemma StepArrives(c: Settings, s: State, e: Event, times: set<int>)
    requires Legal(c) && Inv(c, s) && Arrived(c, s, times)
    ensures Arrived(c, Next(c, s, e), times + if e.HandleBatch? then {e.receivedAt} else {})
  {
    var later := times + if e.HandleBatch? then {e.receivedAt} else {};
    match e
    case HandleBatch(at, archived) => HandleArrives(c, s, at, archived, times);
    case _ =>
      assert later == times;
      if e.AcquireLease? || e.InsertSucceeds? || e.InsertFails? || e.CommitLease? {
        WorkerArrives(c, s, e, times);
      } else {
        OtherArrives(c, s, e, times);
      }
  }

  lemma {:induction false} RunArrives(c: Settings, events: seq<Event>)
    requires Legal(c)
    ensures Arrived(c, Reached(c, events), Receipts(events))
  {
    if events != [] {
      var before, e := events[..|events| - 1], events[|events| - 1];
      assert events == before + [e];
      RunArrives(c, before);
      ReachedOk(c, before);
      Unroll(c, Start(c, 0), before, e);
      ReceiptsGrow(before, e);
      StepArrives(c, Reached(c, before), e, Receipts(before));
    }
  }

  /** Every stored row of the cluster records an inventory observation that was published: table,
      identity, operation, event id and version are those of the observation, its time is the
      observation's or, where that has none, a time at which the server took a batch. */
  lemma StoredRowRecordsItsObservation(c: Settings, events: seq<Event>, r: Row)
    requires Legal(c) && r in Reached(c, events).store && r.tenant == c.tenant && r.cluster == c.cluster
    ensures RowArrived(c, Reached(c, events).past.published, Receipts(events), r)
  {
    RunArrives(c, events);
  }
}
