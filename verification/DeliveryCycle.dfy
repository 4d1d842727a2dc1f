/** One undisturbed round of the protocol: a batch is sent, queued, stored, saved and acknowledged. */
module DeliveryCycle {
  import opened Wrappers
  import opened Wire
  import opened AgentClient
  import opened BatchRules
  import opened Persistence
  import opened IngestionServer
  import opened Delivery
  import opened DeliveryProof
  import opened DeliveryTheorems
  import B = AgentBuffer
  import Q = BatchQueue

  /** Connected, nothing under way, and the buffer holds the run right after the server's mark. */
  ghost predicate Quiet(c: Settings, s: State, w: nat, rest: seq<Observation>) {
    && s.buffer.entries == rest && Numbered(rest, w + 1)
    && s.session.Some? && s.session.value.phase == Ready && s.session.value.inbox == []
    && s.link == Some(Link(s.session.value.id, Idle, []))
    && s.watermark == Some(w) && s.queue == Q.NewQueue(c.queueCapacity) && s.work == None && !s.poisoned
    && NotifiedOk(s.ids, s.notified)
  }

  /** What the next batch carries. */
  function NextRun(c: Settings, rest: seq<Observation>): seq<Observation> {
    rest[..if c.batchSize < |rest| then c.batchSize else |rest|]
  }

  function NextBatch(c: Settings, rest: seq<Observation>): ObservationBatch
    requires NextRun(c, rest) != []
  {
    BuildBatch(c.cluster, NextRun(c, rest), c.codec)
  }

  /** The agent waits for the answer to the batch; nothing else has reached it. */
  ghost predicate Awaiting(s: State, w: nat, rest: seq<Observation>, b: ObservationBatch) {
    && s.buffer.entries == rest && s.session.Some?
    && s.link == Some(Link(s.session.value.id, AwaitAck(b.batchId), []))
    && s.watermark == Some(w) && !s.poisoned && NotifiedOk(s.ids, s.notified)
  }

  ghost predicate SamePast(s: State, t: State) {
    t.past.published == s.past.published && t.past.rejected == s.past.rejected
  }

  // ---------------------------------------------------------------- the agent sends

  ghost predicate Sent(c: Settings, s: State, w: nat, rest: seq<Observation>, b: ObservationBatch) {
    && Awaiting(s, w, rest, b) && s.session.value.phase == Ready && s.session.value.inbox == [b]
    && s.queue == Q.NewQueue(c.queueCapacity) && s.work == None
  }

  lemma FrontIsRun(c: Settings, rest: seq<Observation>, w: nat)
    requires c.batchSize > 0 && rest != [] && Numbered(rest, w + 1)
    ensures B.Front(rest, c.batchSize) == NextRun(c, rest) != []
    ensures var b := NextBatch(c, rest); b.first == w + 1 && b.last == w + |NextRun(c, rest)|
  {
  }

  lemma SendsRun(c: Settings, s: State, w: nat, rest: seq<Observation>)
    requires c.batchSize > 0 && rest != [] && Quiet(c, s, w, rest)
    ensures NextRun(c, rest) != []
    ensures Sent(c, Next(c, s, SendBatch), w, rest, NextBatch(c, rest)) && SamePast(s, Next(c, s, SendBatch))
  {
    FrontIsRun(c, rest, w);
    assert [] + [NextBatch(c, rest)] == [NextBatch(c, rest)];
  }

  // ---------------------------------------------------------------- the server queues

  /** The handler waits for the batch, which is on its way through queue and worker. */
  ghost predicate Waiting(c: Settings, s: State, w: nat, rest: seq<Observation>, b: ObservationBatch, item: Queued) {
    && Awaiting(s, w, rest, b) && s.session.value.inbox == []
    && s.session.value.phase == AwaitCommit(b, b, item.id)
    && item.envelope == Envelope(c.tenant, c.cluster, 0, b) && item.id < s.ids
  }

  ghost predicate QueuedAlone(c: Settings, s: State, item: Queued) {
    s.queue == Q.NewQueue<Queued>(c.queueCapacity).(items := [item]) && s.work == None
  }

  lemma QueuesRun(c: Settings, s: State, w: nat, rest: seq<Observation>, b: ObservationBatch)
    requires Sent(c, s, w, rest, b) && b.first == w + 1 && b.last > w && Validate(b, c.config, c.codec) == None
    ensures var t, item := Next(c, s, HandleBatch(0, true)), Queued(s.ids, Envelope(c.tenant, c.cluster, 0, b));
            Waiting(c, t, w, rest, b, item) && QueuedAlone(c, t, item) && SamePast(s, t)
  {
    var item := Queued(s.ids, Envelope(c.tenant, c.cluster, 0, b));
    var none: seq<Frame> := [];
    assert [b][1..] == [] && [] + [item] == [item] && none + none == none;
    assert Admit(b, w, c.config, c.codec) == Admitted(b);
    assert BegunFor(c, s, b, w, true) == Begun([], Some(b));
    assert s.past.rejected + {} == s.past.rejected;
  }

  // ---------------------------------------------------------------- the worker stores

  ghost predicate LeasedAlone(c: Settings, s: State, item: Queued) {
    && s.queue == Q.NewQueue<Queued>(c.queueCapacity).(inFlight := 1)
    && s.work.Some? && s.work.value.items == [item]
  }

  lemma LeasesRun(c: Settings, s: State, w: nat, rest: seq<Observation>, b: ObservationBatch, item: Queued)
    requires Legal(c) && Waiting(c, s, w, rest, b, item) && QueuedAlone(c, s, item) && Sound(b, c.codec)
    ensures var t := Next(c, s, AcquireLease);
            Waiting(c, t, w, rest, b, item) && LeasedAlone(c, t, item) && SamePast(s, t)
  {
    var items := s.queue.items;
    assert items[..Q.LeaseCount(s.queue, c.leaseSize)] == items && items[1..] == [];
    assert Envelopes(items) == [item.envelope];
    AcceptedNeverPoisons(Envelopes(items), c.codec);
    AcquireTakes(c, s, items, MapAll(Envelopes(items), c.codec).value);
  }

  function Inserts(k: nat): seq<Event> {
    seq(k, _ => InsertSucceeds)
  }

  lemma InsertsOne(c: Settings, s: State, w: nat, rest: seq<Observation>, b: ObservationBatch, item: Queued)
    requires Waiting(c, s, w, rest, b, item) && LeasedAlone(c, s, item) && s.work.value.pending != []
    ensures var t := Next(c, s, InsertSucceeds);
            && Waiting(c, t, w, rest, b, item) && LeasedAlone(c, t, item) && SamePast(s, t)
            && t.work.value.pending == s.work.value.pending[1..]
  {
  }

  lemma {:induction false} InsertsAll(c: Settings, s: State, w: nat, rest: seq<Observation>, b: ObservationBatch,
                                      item: Queued, k: nat)
    requires Waiting(c, s, w, rest, b, item) && LeasedAlone(c, s, item) && k <= |s.work.value.pending|
    ensures var t := Run(c, s, Inserts(k));
            && Waiting(c, t, w, rest, b, item) && LeasedAlone(c, t, item) && SamePast(s, t)
            && t.work.value.pending == s.work.value.pending[k..]
  {
    if k > 0 {
      InsertsAll(c, s, w, rest, b, item, k - 1);
      assert Inserts(k) == Inserts(k - 1) + [InsertSucceeds];
      Unroll(c, s, Inserts(k - 1), InsertSucceeds);
      InsertsOne(c, Run(c, s, Inserts(k - 1)), w, rest, b, item);
    }
  }

  ghost predicate Done(c: Settings, s: State, item: Queued) {
    s.queue == Q.NewQueue(c.queueCapacity) && s.work == None && item.id in s.notified
  }

  lemma CommitsRun(c: Settings, s: State, w: nat, rest: seq<Observation>, b: ObservationBatch, item: Queued)
    requires Waiting(c, s, w, rest, b, item) && LeasedAlone(c, s, item) && s.work.value.pending == []
    ensures var t := Next(c, s, CommitLease);
            Waiting(c, t, w, rest, b, item) && Done(c, t, item) && SamePast(s, t)
  {
    assert item in s.work.value.items;
  }

  // ---------------------------------------------------------------- checkpoint and answer

  ghost predicate SavedRun(c: Settings, s: State, w: nat, rest: seq<Observation>, b: ObservationBatch) {
    && Awaiting(s, w, rest, b) && s.session.value.inbox == [] && s.session.value.phase == Saved(b)
    && s.queue == Q.NewQueue(c.queueCapacity) && s.work == None && (c.durable ==> s.checkpoint == b.last)
  }

  lemma SavesRun(c: Settings, s: State, w: nat, rest: seq<Observation>, b: ObservationBatch, item: Queued)
    requires Waiting(c, s, w, rest, b, item) && Done(c, s, item)
    ensures var t := Next(c, s, SaveSucceeds); SavedRun(c, t, w, rest, b) && SamePast(s, t)
  {
  }

  /** From the quiet state to the saved checkpoint. */
  lemma StoresRun(c: Settings, s: State, w: nat, rest: seq<Observation>) returns (more: seq<Event>)
    requires Legal(c) && rest != [] && Quiet(c, s, w, rest) && NextRun(c, rest) != []
    requires Validate(NextBatch(c, rest), c.config, c.codec) == None
    ensures var t := Run(c, s, more); SavedRun(c, t, w, rest, NextBatch(c, rest)) && SamePast(s, t)
  {
    var b := NextBatch(c, rest);
    FrontIsRun(c, rest, w);
    SendsRun(c, s, w, rest);
    var s1 := Next(c, s, SendBatch);
    var item := Queued(s1.ids, Envelope(c.tenant, c.cluster, 0, b));
    QueuesRun(c, s1, w, rest, b);
    UnrollTwo(c, s, SendBatch, HandleBatch(0, true));
    more := LeaseToSave(c, Run(c, s, [SendBatch, HandleBatch(0, true)]), w, rest, b, item);
    RunConcat(c, s, [SendBatch, HandleBatch(0, true)], more);
    more := [SendBatch, HandleBatch(0, true)] + more;
  }

  lemma LeaseToSave(c: Settings, s: State, w: nat, rest: seq<Observation>, b: ObservationBatch, item: Queued)
    returns (more: seq<Event>)
    requires Legal(c) && Waiting(c, s, w, rest, b, item) && QueuedAlone(c, s, item)
    requires Validate(b, c.config, c.codec) == None
    ensures var t := Run(c, s, more); SavedRun(c, t, w, rest, b) && SamePast(s, t)
  {
    ValidateExactly(b, c.config, c.codec);
    LeasesRun(c, s, w, rest, b, item);
    UnrollOne(c, s, AcquireLease);
    var s1 := Run(c, s, [AcquireLease]);
    var inserts := Inserts(|s1.work.value.pending|);
    InsertsAll(c, s1, w, rest, b, item, |s1.work.value.pending|);
    var s2 := Run(c, s1, inserts);
    CommitsRun(c, s2, w, rest, b, item);
    SavesRun(c, Next(c, s2, CommitLease), w, rest, b, item);
    UnrollTwo(c, s2, CommitLease, SaveSucceeds);
    RunConcat(c, s, [AcquireLease], inserts);
    RunConcat(c, s, [AcquireLease] + inserts, [CommitLease, SaveSucceeds]);
    more := [AcquireLease] + inserts + [CommitLease, SaveSucceeds];
  }

  /** The acknowledgement of everything up to the end of the batch waits for the agent. */
  ghost predicate Acknowledged(c: Settings, s: State, rest: seq<Observation>, b: ObservationBatch) {
    && s.buffer.entries == rest
    && s.session.Some? && s.session.value.phase == Ready && s.session.value.inbox == []
    && s.link == Some(Link(s.session.value.id, AwaitAck(b.batchId), [Ack(b.batchId, b.last, b.last, None, [])]))
    && s.watermark == Some(b.last) && s.queue == Q.NewQueue(c.queueCapacity) && s.work == None && !s.poisoned
    && NotifiedOk(s.ids, s.notified)
  }

  lemma AdvancesRun(c: Settings, s: State, w: nat, rest: seq<Observation>, b: ObservationBatch)
    requires SavedRun(c, s, w, rest, b)
    ensures var t := Next(c, s, Advance);
            Acknowledged(c, t, rest, b) && SamePast(s, t) && t.checkpoint == s.checkpoint
  {
    var ack := Ack(b.batchId, b.last, b.last, None, []);
    assert [] + [ack] == [ack];
  }

  /** Acknowledging a prefix of a run leaves the rest of it. */
  lemma {:induction false} KeptSuffix(rest: seq<Observation>, w: nat, k: nat)
    requires Numbered(rest, w + 1) && k <= |rest|
    ensures B.Kept(rest, w + k, {}) == rest[k..]
    decreases |rest|
  {
    if rest != [] {
      var n := |rest| - 1;
      if k <= n {
        KeptSuffix(rest[..n], w, k);
        assert rest[k..] == rest[..n][k..] + [rest[n]];
      } else {
        KeptSuffix(rest[..n], w, n);
        NothingAbove(rest[..n], w + k);
      }
    }
  }

  lemma {:induction false} NothingAbove(entries: seq<Observation>, through: nat)
    requires forall o :: o in entries ==> o.sequence <= through
    ensures B.Kept(entries, through, {}) == []
  {
    if entries != [] { NothingAbove(entries[..|entries| - 1], through); }
  }

  lemma ReceivesAck(c: Settings, s: State, w: nat, rest: seq<Observation>, b: ObservationBatch, k: nat)
    requires Acknowledged(c, s, rest, b) && Numbered(rest, w + 1) && k <= |rest| && b.last == w + k
    ensures var t := Next(c, s, ReceiveFrame);
            Quiet(c, t, w + k, rest[k..]) && SamePast(s, t) && t.checkpoint == s.checkpoint
  {
    KeptSuffix(rest, w, k);
    var ack := Ack(b.batchId, b.last, b.last, None, []);
    assert [ack][1..] == [] && TerminalSet([]) == {};
    assert Concerns(ack, b.batchId);
  }

  /** A whole round: one batch more is stored, saved and gone from the buffer. */
  lemma RoundDelivers(c: Settings, s: State, w: nat, rest: seq<Observation>) returns (more: seq<Event>)
    requires Legal(c) && c.durable && rest != [] && Quiet(c, s, w, rest) && NextRun(c, rest) != []
    requires Validate(NextBatch(c, rest), c.config, c.codec) == None
    ensures var t, k := Run(c, s, more), |NextRun(c, rest)|;
            k > 0 && Quiet(c, t, w + k, rest[k..]) && SamePast(s, t) && t.checkpoint == w + k
  {
    var b, k := NextBatch(c, rest), |NextRun(c, rest)|;
    FrontIsRun(c, rest, w);
    more := StoresRun(c, s, w, rest);
    var s1 := Run(c, s, more);
    AdvancesRun(c, s1, w, rest, b);
    ReceivesAck(c, Next(c, s1, Advance), w, rest, b, k);
    UnrollTwo(c, s1, Advance, ReceiveFrame);
    RunConcat(c, s, more, [Advance, ReceiveFrame]);
    more := more + [Advance, ReceiveFrame];
  }
}
