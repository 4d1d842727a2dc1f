/** What a rejection for good costs, and when there is one. */
module DeliveryRejections {
  import opened Wrappers
  import opened Wire
  import opened AgentClient
  import opened BatchRules
  import opened IngestionServer
  import opened Delivery
  import opened DeliveryProof
  import opened DeliveryTheorems
  import B = AgentBuffer

  // ---------------------------------------------------------------- the price of a terminal rejection

  ghost predicate Without(observations: seq<Observation>, q: nat) {
    forall o :: o in observations ==> o.sequence != q
  }

  /** Sequence q is numbered, not committed, and nowhere on its way. */
  ghost predicate Gone(c: Settings, s: State, q: nat) {
    && 1 <= q <= |s.past.published| && q !in s.past.committed
    && Without(s.buffer.entries, q)
    && (s.session.Some? ==> forall i :: 0 <= i < |s.session.value.inbox| ==>
                                          Without(s.session.value.inbox[i].observations, q))
    && forall x :: x in Held(s.queue.items, s.work) && Focus(c, x.envelope) ==>
       Without(x.envelope.batch.observations, q)
  }

  lemma GoneStep(c: Settings, s: State, q: nat, e: Event)
    requires Legal(c) && Inv(c, s) && Gone(c, s, q)
    ensures Gone(c, Next(c, s, e), q)
  {
    match e
    case SendBatch => GoneSend(c, s, q);
    case ReceiveFrame => GoneReceive(c, s, q);
    case HandleBatch(at, archived) => GoneHandle(c, s, q, at, archived);
    case AcquireLease => GoneWorker(c, s, q, e);
    case InsertSucceeds => GoneWorker(c, s, q, e);
    case InsertFails(_) => GoneWorker(c, s, q, e);
    case CommitLease => GoneCommit(c, s, q);
    case ForeignEnqueue(env) => GoneForeign(c, s, q, env);
    case _ => GoneElsewhere(c, s, q, e);
  }

  /** The other events add nothing to buffer, inbox or queue but a new observation under a new number. */
  lemma GoneElsewhere(c: Settings, s: State, q: nat, e: Event)
    requires Inv(c, s) && Gone(c, s, q)
    requires !e.SendBatch? && !e.ReceiveFrame? && !e.HandleBatch? && !e.ForeignEnqueue?
    requires !e.AcquireLease? && !e.InsertSucceeds? && !e.InsertFails? && !e.CommitLease?
    ensures Gone(c, Next(c, s, e), q)
  {
  }

  lemma GoneForeign(c: Settings, s: State, q: nat, env: Envelope)
    requires Legal(c) && Inv(c, s) && Gone(c, s, q)
    ensures Gone(c, Next(c, s, ForeignEnqueue(env)), q)
  {
    if Next(c, s, ForeignEnqueue(env)) != s { EnqueueKeepsHeld(c, s, Queued(s.ids, env)); }
  }

  lemma GoneSend(c: Settings, s: State, q: nat)
    requires Gone(c, s, q)
    ensures Gone(c, Next(c, s, SendBatch), q)
  {
    assert Without(B.Front(s.buffer.entries, c.batchSize), q);
  }

  /** Only a commit touches the history, and what it commits was leased. */
  lemma GoneWorker(c: Settings, s: State, q: nat, e: Event)
    requires Gone(c, s, q)
    requires e.AcquireLease? || e.InsertSucceeds? || e.InsertFails?
    ensures Gone(c, Next(c, s, e), q)
  {
    var s' := Next(c, s, e);
    assert forall x :: x in Held(s'.queue.items, s'.work) ==> x in Held(s.queue.items, s.work);
  }

  lemma GoneCommit(c: Settings, s: State, q: nat)
    requires Gone(c, s, q)
    ensures Gone(c, Next(c, s, CommitLease), q)
  {
    var s' := Next(c, s, CommitLease);
    assert forall x :: x in Held(s'.queue.items, s'.work) ==> x in Held(s.queue.items, s.work);
    if s' != s {
      assert forall x :: x in s.work.value.items ==> x in Held(s.queue.items, s.work);
      assert q !in FocusSequences(c, s.work.value.items);
    }
  }

  lemma GoneReceive(c: Settings, s: State, q: nat)
    requires Inv(c, s) && Gone(c, s, q)
    ensures Gone(c, Next(c, s, ReceiveFrame), q)
  {
    if s.link.Some? && s.link.value.incoming != [] {
      var l := s.link.value;
      var f := l.incoming[0];
      if l.phase == AwaitHello && f.Hello? { B.KeptExactly(s.buffer.entries, f.acceptedThrough, {}); }
      if l.phase.AwaitAck? && Concerns(f, l.phase.batchId) {
        B.KeptExactly(s.buffer.entries, f.persisted, TerminalSet(f.rejections));
      }
    }
  }

  lemma GoneHandle(c: Settings, s: State, q: nat, at: int, archived: bool)
    requires Legal(c) && Inv(c, s) && Gone(c, s, q)
    ensures Gone(c, Next(c, s, HandleBatch(at, archived)), q)
  {
    if s.session.None? || s.session.value.phase != Ready || s.session.value.inbox == [] || s.watermark.None? { return; }
    var n, w := s.session.value, s.watermark.value;
    var b := n.inbox[0];
    var r := BegunFor(c, s, b, w, archived);
    AdmissionIsGapFree(b, w, c.config, c.codec);
    if r.accepted.Some? {
      var a := r.accepted.value;
      GenuineSuffix(a, b, s.past.published);
      assert Without(a.observations, q);
      EnqueueKeepsHeld(c, s, Queued(s.ids, Envelope(c.tenant, c.cluster, at, a)));
    }
  }

  lemma {:induction false} GoneForever(c: Settings, s: State, q: nat, events: seq<Event>)
    requires Legal(c) && Inv(c, s) && Gone(c, s, q)
    ensures Inv(c, Run(c, s, events)) && Gone(c, Run(c, s, events), q)
  {
    if events != [] {
      var n := |events| - 1;
      GoneForever(c, s, q, events[..n]);
      GoneStep(c, Run(c, s, events[..n]), q, events[n]);
      StepKeeps(c, Run(c, s, events[..n]), events[n]);
    }
  }

  /** Once a sequence has left the agent without being committed, the watermark stays below it
      in every continuation: the server asks for the gap for ever. */
  lemma RejectionStopsTheWatermark(c: Settings, events: seq<Event>, q: nat, more: seq<Event>)
    requires Legal(c) && Isolated(c) && Gone(c, Reached(c, events), q)
    ensures var t := Run(c, Reached(c, events), more);
            && Mark(t) < q && t.checkpoint < q
            && (t.link.Some? ==> forall i :: 0 <= i < |t.link.value.incoming| && t.link.value.incoming[i].Ack? ==>
                                               t.link.value.incoming[i].persisted < q)
  {
    ReachedOk(c, events);
    GoneForever(c, Reached(c, events), q, more);
    var t := Run(c, Reached(c, events), more);
    assert forall n: nat :: Prefix(t.past, n) ==> n < q;
    if t.link.Some? {
      forall i | 0 <= i < |t.link.value.incoming| && t.link.value.incoming[i].Ack?
        ensures t.link.value.incoming[i].persisted < q {
        assert FrameOk(c, t.past, t.link.value.incoming[i]);
      }
    }
  }

  // ---------------------------------------------------------------- how a sequence vanishes

  /** The server is about to handle the only batch in flight, for which the agent waits. */
  ghost predicate InFlight(s: State, b: ObservationBatch) {
    && s.session.Some? && s.session.value.phase == Ready && s.session.value.inbox == [b] && s.watermark.Some?
    && s.link == Some(Link(s.session.value.id, AwaitAck(b.batchId), []))
  }

  /** No copy of sequence q has been committed, leased or queued. */
  ghost predicate NoCopy(c: Settings, s: State, q: nat) {
    && q !in s.past.committed
    && forall x :: x in Held(s.queue.items, s.work) && Focus(c, x.envelope) ==>
       Without(x.envelope.batch.observations, q)
  }

  /** The answer to a batch that fails validation: nothing queued, everything rejected. */
  lemma RefusalAnswers(c: Settings, s: State, b: ObservationBatch, at: int, archived: bool)
    requires InFlight(s, b) && Validate(b, c.config, c.codec).Some?
    ensures var w, n := s.watermark.value, s.session.value;
            Next(c, s, HandleBatch(at, archived))
            == s.(past := s.past.(rejected := s.past.rejected + TerminalSet(RejectionsFor(b))),
                  session := Some(n.(inbox := [])),
                  link := Some(Link(n.id, AwaitAck(b.batchId), [Ack(b.batchId, w, w, None, RejectionsFor(b))])))
  {
    assert [b][1..] == [];
    var ack := Ack(b.batchId, s.watermark.value, s.watermark.value, None, RejectionsFor(b));
    assert [] + [ack] == [ack];
    assert BegunFor(c, s, b, s.watermark.value, archived) == Begun([ack], None);
  }

  /** When validation fails and the rejection is received, every sequence of the batch without a
      copy elsewhere is gone. */
  lemma RefusalIsTerminal(c: Settings, s: State, b: ObservationBatch, at: int, archived: bool, q: nat)
    requires InFlight(s, b) && Validate(b, c.config, c.codec).Some?
    requires q in TerminalSet(RejectionsFor(b)) && 1 <= q <= |s.past.published| && NoCopy(c, s, q)
    ensures Gone(c, Next(c, Next(c, s, HandleBatch(at, archived)), ReceiveFrame), q)
  {
    RefusalAnswers(c, s, b, at, archived);
    B.KeptExactly(s.buffer.entries, s.watermark.value, TerminalSet(RejectionsFor(b)));
  }

  /** So the refusal of one batch stops the stream: from then on no mark reaches its sequences. */
  lemma RefusalStopsTheStream(c: Settings, events: seq<Event>, b: ObservationBatch, at: int, archived: bool,
                              q: nat, more: seq<Event>)
    requires Legal(c) && Isolated(c)
    requires var s := Reached(c, events);
             && InFlight(s, b) && Validate(b, c.config, c.codec).Some? && q in TerminalSet(RejectionsFor(b))
             && 1 <= q <= |s.past.published| && NoCopy(c, s, q)
    ensures Mark(Run(c, Reached(c, events + [HandleBatch(at, archived), ReceiveFrame]), more)) < q
  {
    var s := Reached(c, events);
    RefusalIsTerminal(c, s, b, at, archived, q);
    Unroll(c, Start(c, 0), events, HandleBatch(at, archived));
    Unroll(c, Start(c, 0), events + [HandleBatch(at, archived)], ReceiveFrame);
    var all := events + [HandleBatch(at, archived), ReceiveFrame];
    assert events + [HandleBatch(at, archived)] + [ReceiveFrame] == all;
    RejectionStopsTheWatermark(c, all, q, more);
  }

  // ---------------------------------------------------------------- an example

  const BAD_EVENT := B.Event("node/", Observation(0, "", None, Some(NodeInventory(Upsert, "", ""))))

  const PUBLISHED := [Publish(NODE_EVENT), Publish(BAD_EVENT)]

  const SENT := [Connect(false), ReceiveFrame, SendBatch]

  /** A good and a bad observation in one batch on its way. */
  ghost predicate Paired(c: Settings, s: State) {
    var good, bad := B.Stamp(NODE_EVENT, 1, c.codec), B.Stamp(BAD_EVENT, 2, c.codec);
    && InFlight(s, BuildBatch(c.cluster, [good, bad], c.codec))
    && s.past == History([good, bad], {}, {}) && s.buffer.entries == [good, bad]
    && s.queue.items == [] && s.work == None
  }

  ghost predicate Buffered(c: Settings, s: State) {
    var good, bad := B.Stamp(NODE_EVENT, 1, c.codec), B.Stamp(BAD_EVENT, 2, c.codec);
    && s.past == History([good, bad], {}, {}) && s.buffer.entries == [good, bad]
    && s.link == None && s.session == None && Mark(s) == 0 && s.queue.items == [] && s.work == None
  }

  lemma TwoPublished(c: Settings)
    requires c.bufferCapacity >= 2
    ensures Buffered(c, Reached(c, PUBLISHED))
  {
    var good, bad := B.Stamp(NODE_EVENT, 1, c.codec), B.Stamp(BAD_EVENT, 2, c.codec);
    UnrollOne(c, Start(c, 0), Publish(NODE_EVENT));
    Unroll(c, Start(c, 0), [Publish(NODE_EVENT)], Publish(BAD_EVENT));
    assert [Publish(NODE_EVENT)] + [Publish(BAD_EVENT)] == PUBLISHED;
    assert [] + [good] == [good] && [good] + [bad] == [good, bad];
  }

  /** Connected and idle, with both observations buffered. */
  ghost predicate Connected(c: Settings, s: State) {
    var good, bad := B.Stamp(NODE_EVENT, 1, c.codec), B.Stamp(BAD_EVENT, 2, c.codec);
    && s.past == History([good, bad], {}, {}) && s.buffer.entries == [good, bad]
    && s.session.Some? && s.session.value.phase == Ready && s.session.value.inbox == [] && s.watermark.Some?
    && s.link == Some(Link(s.session.value.id, Idle, [])) && s.queue.items == [] && s.work == None
  }

  lemma TwoConnected(c: Settings, s: State)
    requires Buffered(c, s)
    ensures Connected(c, Next(c, Next(c, s, Connect(false)), ReceiveFrame))
  {
    NothingDropped([B.Stamp(NODE_EVENT, 1, c.codec), B.Stamp(BAD_EVENT, 2, c.codec)]);
    assert [Hello(0)][1..] == [];
  }

  lemma TwoInFlight(c: Settings, s: State)
    requires c.batchSize >= 2 && Connected(c, s)
    ensures Paired(c, Next(c, s, SendBatch))
  {
    var good, bad := B.Stamp(NODE_EVENT, 1, c.codec), B.Stamp(BAD_EVENT, 2, c.codec);
    var b := BuildBatch(c.cluster, [good, bad], c.codec);
    assert B.Front([good, bad], c.batchSize) == [good, bad];
    assert [] + [b] == [b];
  }

  lemma TwoSent(c: Settings, s: State)
    requires c.batchSize >= 2 && Buffered(c, s)
    ensures Paired(c, Run(c, s, SENT))
  {
    UnrollThree(c, s, Connect(false), ReceiveFrame, SendBatch);
    TwoConnected(c, s);
    TwoInFlight(c, Next(c, Next(c, s, Connect(false)), ReceiveFrame));
  }

  lemma NothingDropped(entries: seq<Observation>)
    requires |entries| == 2 && entries[0].sequence > 0 && entries[1].sequence > 0
    ensures B.Kept(entries, 0, {}) == entries
  {
    assert entries[..1] == [entries[0]] && [entries[0]][..0] == [];
    assert B.Kept(entries[..1], 0, {}) == [entries[0]];
  }

  /** One node without a UID drags a good neighbour along: both are rejected, the good one is
      neither stored nor buffered any more, and nothing is ever acknowledged again. */
  lemma BadNeighbourStopsTheStream(c: Settings, more: seq<Event>)
    requires Legal(c) && Isolated(c) && c.bufferCapacity >= 2 && c.batchSize >= 2
    ensures var s := Reached(c, PUBLISHED + SENT + [HandleBatch(0, true), ReceiveFrame]);
            && s.past.published != [] && Acceptable(s.past.published[0]) && 1 in s.past.rejected
            && Gone(c, s, 1) && Mark(Run(c, s, more)) == 0
  {
    var events, last := PUBLISHED + SENT, [HandleBatch(0, true), ReceiveFrame];
    TwoPublished(c);
    TwoSent(c, Reached(c, PUBLISHED));
    RunConcat(c, Start(c, 0), PUBLISHED, SENT);
    PairRefused(c, Reached(c, events));
    UnrollTwo(c, Reached(c, events), HandleBatch(0, true), ReceiveFrame);
    RunConcat(c, Start(c, 0), events, last);
    RejectionStopsTheWatermark(c, events + last, 1, more);
  }

  lemma PairRefused(c: Settings, s: State)
    requires Legal(c) && Paired(c, s)
    ensures var t := Next(c, Next(c, s, HandleBatch(0, true)), ReceiveFrame);
            t.past.published != [] && Acceptable(t.past.published[0]) && 1 in t.past.rejected && Gone(c, t, 1)
  {
    var good, bad := B.Stamp(NODE_EVENT, 1, c.codec), B.Stamp(BAD_EVENT, 2, c.codec);
    var b := BuildBatch(c.cluster, [good, bad], c.codec);
    BadBatchRefused(c, good, bad);
    assert NoCopy(c, s, 1);
    RefusalAnswers(c, s, b, 0, true);
    RefusalIsTerminal(c, s, b, 0, true, 1);
  }

  lemma BadBatchRefused(c: Settings, good: Observation, bad: Observation)
    requires bad.payload.Some? && !Complete(bad.payload.value) && good.sequence == 1
    ensures var b := BuildBatch(c.cluster, [good, bad], c.codec);
            Validate(b, c.config, c.codec).Some? && 1 in TerminalSet(RejectionsFor(b))
  {
    var b := BuildBatch(c.cluster, [good, bad], c.codec);
    ValidateExactly(b, c.config, c.codec);
    assert !Acceptable(b.observations[1]) && b.observations[0] == good;
  }

  // ---------------------------------------------------------------- when nothing is rejected

  /** What the agent puts into one batch. */
  ghost predicate IsRun(c: Settings, published: seq<Observation>, run: seq<Observation>) {
    run != [] && |run| <= c.batchSize && B.Genuine(run, published) && Numbered(run, run[0].sequence)
  }

  ghost predicate Built(c: Settings, published: seq<Observation>, b: ObservationBatch) {
    exists run :: IsRun(c, published, run) && b == BuildBatch(c.cluster, run, c.codec)
  }

  ghost predicate InboxBuilt(c: Settings, s: State) {
    s.session.Some? ==>
      forall i :: 0 <= i < |s.session.value.inbox| ==> Built(c, s.past.published, s.session.value.inbox[i])
  }

  lemma BuiltGrows(c: Settings, published: seq<Observation>, o: Observation, b: ObservationBatch)
    requires Built(c, published, b)
    ensures Built(c, published + [o], b)
  {
    var run :| IsRun(c, published, run) && b == BuildBatch(c.cluster, run, c.codec);
    assert IsRun(c, published + [o], run);
  }

  lemma FrontIsBuilt(c: Settings, entries: seq<Observation>, published: seq<Observation>)
    requires Legal(c) && entries != [] && B.Genuine(entries, published) && B.Increasing(entries)
    ensures var run := B.Front(entries, c.batchSize);
            run != [] && Built(c, published, BuildBatch(c.cluster, run, c.codec))
  {
    B.FrontIsLongestRun(entries, c.batchSize);
    assert IsRun(c, published, B.Front(entries, c.batchSize));
  }

  lemma SendBuilds(c: Settings, s: State)
    requires Legal(c) && Inv(c, s) && InboxBuilt(c, s)
    ensures InboxBuilt(c, Next(c, s, SendBatch))
  {
    if s.buffer.entries != [] { FrontIsBuilt(c, s.buffer.entries, s.past.published); }
  }

  lemma HandleTakes(c: Settings, s: State, at: int, archived: bool)
    requires InboxBuilt(c, s)
    ensures InboxBuilt(c, Next(c, s, HandleBatch(at, archived)))
  {
  }

  lemma PublishBuilds(c: Settings, s: State, event: B.Event)
    requires InboxBuilt(c, s)
    ensures InboxBuilt(c, Next(c, s, Publish(event)))
  {
    if s.session.Some? && B.PublishOutcomeOf(s.buffer, event) == B.Published {
      var o := B.Stamp(event, s.buffer.next, c.codec);
      forall i | 0 <= i < |s.session.value.inbox|
        ensures Built(c, s.past.published + [o], s.session.value.inbox[i]) {
        BuiltGrows(c, s.past.published, o, s.session.value.inbox[i]);
      }
    }
  }

  /** Whoever neither publishes nor adds to an inbox leaves every inbox built. */
  lemma InboxStaysBuilt(c: Settings, s: State, t: State)
    requires InboxBuilt(c, s) && t.past.published == s.past.published
    requires t.session.Some? ==>
               t.session.value.inbox == [] || (s.session.Some? && t.session.value.inbox == s.session.value.inbox)
    ensures InboxBuilt(c, t)
  {
  }

  lemma OthersPublishNothing(c: Settings, s: State, e: Event)
    requires !e.Publish? && !e.HandleBatch?
    ensures Next(c, s, e).past.published == s.past.published
  {
  }

  lemma OthersAddNothing(c: Settings, s: State, e: Event)
    requires !e.Publish? && !e.SendBatch? && !e.HandleBatch?
    ensures var t := Next(c, s, e);
            t.session.Some? ==>
              t.session.value.inbox == [] || (s.session.Some? && t.session.value.inbox == s.session.value.inbox)
  {
  }

  lemma OtherEventsBuild(c: Settings, s: State, e: Event)
    requires InboxBuilt(c, s) && !e.Publish? && !e.SendBatch? && !e.HandleBatch?
    ensures InboxBuilt(c, Next(c, s, e))
  {
    OthersPublishNothing(c, s, e);
    OthersAddNothing(c, s, e);
    InboxStaysBuilt(c, s, Next(c, s, e));
  }

  lemma StepBuilds(c: Settings, s: State, e: Event)
    requires Legal(c) && Inv(c, s) && InboxBuilt(c, s)
    ensures InboxBuilt(c, Next(c, s, e))
  {
    match e
    case Publish(event) => PublishBuilds(c, s, event);
    case SendBatch => SendBuilds(c, s);
    case HandleBatch(at, archived) => HandleTakes(c, s, at, archived);
    case _ => OtherEventsBuild(c, s, e);
  }

  /** Every observation is valid inventory and every batch the agent can build fits the limits. */
  ghost predicate Harmless(c: Settings, published: seq<Observation>) {
    && (forall o :: o in published && o.payload.Some? ==> Complete(o.payload.value))
    && forall run :: IsRun(c, published, run) ==> WithinLimits(BuildBatch(c.cluster, run, c.codec), c.config, c.codec)
  }

  lemma BuiltIsAccepted(c: Settings, s: State, b: ObservationBatch)
    requires Inv(c, s) && Harmless(c, s.past.published) && Built(c, s.past.published, b)
    ensures Validate(b, c.config, c.codec) == None
  {
    var run: seq<Observation> :| IsRun(c, s.past.published, run) && b == BuildBatch(c.cluster, run, c.codec);
    forall i | 0 <= i < |run| ensures run[i] in s.past.published && run[i].eventId != "" && run[i].payload.Some? {
      assert run[i] == s.past.published[run[i].sequence - 1];
    }
    ClientBatchesMeetSequenceRules(c.cluster, run, run[0].sequence, c.config, c.codec);
  }

  lemma PublishedGrows(c: Settings, s: State, e: Event)
    ensures s.past.published <= Next(c, s, e).past.published
  {
    if e.HandleBatch? { HandlePublishesNothing(c, s, e.receivedAt, e.archived); }
  }

  lemma HandlePublishesNothing(c: Settings, s: State, at: int, archived: bool)
    ensures Next(c, s, HandleBatch(at, archived)).past.published == s.past.published
  {
  }

  lemma HarmlessBefore(c: Settings, before: seq<Observation>, after: seq<Observation>)
    requires before <= after && Harmless(c, after)
    ensures Harmless(c, before)
  {
    forall run | IsRun(c, before, run) ensures IsRun(c, after, run) {}
  }

  lemma StepRejects(c: Settings, s: State, e: Event)
    requires Inv(c, s) && InboxBuilt(c, s) && Harmless(c, s.past.published) && s.past.rejected == {}
    ensures Next(c, s, e).past.rejected == {}
  {
    if e.HandleBatch? && s.session.Some? && s.session.value.inbox != [] {
      BuiltIsAccepted(c, s, s.session.value.inbox[0]);
      AcceptedRejectsNothing(c, s, e.receivedAt, e.archived);
    }
  }

  lemma AcceptedRejectsNothing(c: Settings, s: State, at: int, archived: bool)
    requires s.session.Some? && s.session.value.inbox != []
    requires Validate(s.session.value.inbox[0], c.config, c.codec) == None
    ensures Next(c, s, HandleBatch(at, archived)).past.rejected == s.past.rejected
  {
  }

  lemma {:induction false} RejectionNeedsCause(c: Settings, events: seq<Event>)
    requires Legal(c) && Harmless(c, Reached(c, events).past.published)
    ensures Reached(c, events).past.rejected == {} && InboxBuilt(c, Reached(c, events))
  {
    if events != [] {
      var n := |events| - 1;
      var s := Reached(c, events[..n]);
      assert events == events[..n] + [events[n]];
      Unroll(c, Start(c, 0), events[..n], events[n]);
      PublishedGrows(c, s, events[n]);
      HarmlessBefore(c, s.past.published, Reached(c, events).past.published);
      RejectionNeedsCause(c, events[..n]);
      ReachedOk(c, events[..n]);
      StepBuilds(c, s, events[n]);
      StepRejects(c, s, events[n]);
    }
  }

  /** In a run whose observations are all valid and whose batches fit, nothing is ever rejected, so
      every inventory observation that left the buffer is in the store. */
  lemma HarmlessRunsStoreEverything(c: Settings, events: seq<Event>)
    requires Legal(c) && Isolated(c) && Harmless(c, Reached(c, events).past.published)
    ensures var s := Reached(c, events);
            && s.past.rejected == {}
            && forall o :: o in s.past.published && IsInventory(o) ==> o in s.buffer.entries || InStore(c, s.store, o)
  {
    RejectionNeedsCause(c, events);
    NothingIsLost(c, events);
    var s := Reached(c, events);
    forall o | o in s.past.published && IsInventory(o) ensures o in s.buffer.entries || InStore(c, s.store, o) {
      var i :| 0 <= i < |s.past.published| && s.past.published[i] == o;
      assert i + 1 !in s.past.rejected && s.past.published[(i + 1) - 1] == o;
    }
  }
}
