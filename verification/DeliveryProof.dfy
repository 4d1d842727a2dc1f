/** The invariant of the delivery protocol and its preservation by every event. */
module DeliveryProof {
  import opened Wrappers
  import opened Wire
  import opened AgentClient
  import opened BatchRules
  import opened Persistence
  import opened IngestionServer
  import opened Delivery
  import B = AgentBuffer
  import Q = BatchQueue

  /** What a mark says, as long as no other sender can move it. */
  ghost predicate Sure(c: Settings, past: History, n: nat) {
    Isolated(c) ==> Prefix(past, n)
  }

  ghost predicate FrameOk(c: Settings, past: History, f: Frame) {
    match f
    case Hello(w) => Sure(c, past, w)
    case Ack(_, _, w, _, rejections) => Sure(c, past, w) && TerminalSet(rejections) <= past.rejected
    case FlowControl => true
  }

  ghost predicate LinkOk(c: Settings, past: History, link: Option<Link>) {
    link.Some? ==> forall i :: 0 <= i < |link.value.incoming| ==> FrameOk(c, past, link.value.incoming[i])
  }

  /** Every published sequence is committed, rejected or still buffered. */
  ghost predicate Accounted(c: Settings, past: History, entries: seq<Observation>) {
    Isolated(c) ==>
      forall q :: 1 <= q <= |past.published| ==>
                    q in past.committed || q in past.rejected || past.published[q - 1] in entries
  }

  predicate InSaved(session: Option<Session>) {
    session.Some? && session.value.phase.Saved?
  }

  ghost predicate MarksOk(c: Settings, s: State) {
    && Sure(c, s.past, s.checkpoint)
    && (s.watermark.Some? ==> Sure(c, s.past, s.watermark.value))
    && (Aligned(c) && c.durable && s.watermark.Some? && !InSaved(s.session) ==> s.watermark.value == s.checkpoint)
  }

  ghost predicate ItemOk(c: Settings, ids: nat, published: seq<Observation>, q: Queued) {
    && q.id < ids
    && q.envelope.tenant != "" && q.envelope.cluster != ""
    && Sound(q.envelope.batch, c.codec)
    && (Focus(c, q.envelope) ==> B.Genuine(q.envelope.batch.observations, published))
  }

  /** Leased and waiting batches. */
  function Held(items: seq<Queued>, work: Option<Work>): seq<Queued> {
    (if work.Some? then work.value.items else []) + items
  }

  ghost predicate HeldOk(c: Settings, ids: nat, published: seq<Observation>, held: seq<Queued>) {
    forall q :: q in held ==> ItemOk(c, ids, published, q)
  }

  ghost predicate NotifiedOk(ids: nat, notified: set<nat>) {
    forall n :: n in notified ==> n < ids
  }

  /** What the handler knows while it waits for `a`, queued under `id`. */
  ghost predicate WaitOk(c: Settings, past: History, ids: nat, notified: set<nat>, held: seq<Queued>,
                         a: ObservationBatch, id: nat)
  {
    && Sound(a, c.codec) && B.Genuine(a.observations, past.published)
    && id < ids
    && (id in notified ==> forall q: nat :: a.first <= q <= a.last ==> q in past.committed)
    && forall q :: q in held && q.id == id ==> q.envelope.batch == a && Focus(c, q.envelope)
  }

  ghost predicate PhaseOk(c: Settings, s: State, p: ServerPhase, w: nat) {
    match p
    case Ready => true
    case AwaitCommit(b, a, id) =>
      && a.first == w + 1 && a.last == b.last
      && WaitOk(c, s.past, s.ids, s.notified, Held(s.queue.items, s.work), a, id)
    case Saved(b) =>
      Sure(c, s.past, b.last) && w <= b.last && (Aligned(c) && c.durable ==> s.checkpoint == b.last)
  }

  ghost predicate InboxOk(published: seq<Observation>, inbox: seq<ObservationBatch>) {
    forall i :: 0 <= i < |inbox| ==> B.Genuine(inbox[i].observations, published)
  }

  ghost predicate SessionOk(c: Settings, s: State) {
    s.session.Some? ==>
      && s.watermark.Some?
      && PhaseOk(c, s, s.session.value.phase, s.watermark.value)
      && InboxOk(s.past.published, s.session.value.inbox)
  }

  /** Everything the lease still owes is stored or planned, and nothing else is planned. */
  ghost predicate WorkOk(c: Settings, work: Option<Work>, store: seq<Row>) {
    work.Some? ==>
      var w := work.value;
      && (forall r :: r in Inserted(w.pending) ==> RowFrom(Envelopes(w.items), r, c.codec))
      && forall q, o :: q in w.items && o in q.envelope.batch.observations && IsInventory(o) ==>
                          RowOf(q.envelope, o, c.codec) in store || RowOf(q.envelope, o, c.codec) in Inserted(w.pending)
  }

  ghost predicate StoreOk(c: Settings, published: seq<Observation>, store: seq<Row>) {
    forall r :: r in store && r.tenant == c.tenant && r.cluster == c.cluster ==>
                  1 <= r.version <= |published| && RowFor(c, published[r.version - 1], r)
  }

  ghost predicate CommittedOk(c: Settings, past: History, store: seq<Row>) {
    forall q :: q in past.committed ==>
                  && 1 <= q <= |past.published|
                  && Acceptable(past.published[q - 1])
                  && (IsInventory(past.published[q - 1]) ==> InStore(c, store, past.published[q - 1]))
  }

  ghost predicate Inv(c: Settings, s: State) {
    && B.Consistent(s.buffer, s.past.published)
    && Accounted(c, s.past, s.buffer.entries)
    && LinkOk(c, s.past, s.link)
    && MarksOk(c, s)
    && !s.poisoned && NotifiedOk(s.ids, s.notified)
    && HeldOk(c, s.ids, s.past.published, Held(s.queue.items, s.work))
    && SessionOk(c, s)
    && WorkOk(c, s.work, s.store)
    && StoreOk(c, s.past.published, s.store)
    && CommittedOk(c, s.past, s.store)
  }

  // ---------------------------------------------------------------- agent events

  lemma GenuineGrows(p: seq<Observation>, o: Observation)
    ensures forall obs :: B.Genuine(obs, p) ==> B.Genuine(obs, p + [o])
  {
  }

  lemma PublishKeeps(c: Settings, s: State, event: B.Event)
    requires Legal(c) && Inv(c, s)
    ensures Inv(c, Next(c, s, Publish(event)))
  {
    if B.PublishOutcomeOf(s.buffer, event) == B.Published {
      var s' := Next(c, s, Publish(event));
      var o := B.Stamp(event, s.buffer.next, c.codec);
      B.PublishKeepsConsistent(s.buffer, s.past.published, event, c.codec);
      GenuineGrows(s.past.published, o);
      assert s'.buffer.entries[|s.buffer.entries|] == o;
      assert Held(s'.queue.items, s'.work) == Held(s.queue.items, s.work);
    }
  }

  lemma ConnectKeeps(c: Settings, s: State, loadFails: bool)
    requires Inv(c, s)
    ensures Inv(c, Next(c, s, Connect(loadFails)))
  {
  }

  lemma LinkChangeKeeps(c: Settings, s: State, link: Option<Link>)
    requires Inv(c, s) && LinkOk(c, s.past, link)
    ensures Inv(c, s.(link := link))
  {
  }

  lemma InboxChangeKeeps(c: Settings, s: State, inbox: seq<ObservationBatch>)
    requires Inv(c, s) && s.session.Some? && InboxOk(s.past.published, inbox)
    ensures Inv(c, s.(session := Some(s.session.value.(inbox := inbox))))
  {
  }

  lemma SendKeeps(c: Settings, s: State)
    requires Inv(c, s)
    ensures Inv(c, Next(c, s, SendBatch))
  {
    if Next(c, s, SendBatch) != s {
      var front := B.Front(s.buffer.entries, c.batchSize);
      var b := BuildBatch(c.cluster, front, c.codec);
      var link := Some(s.link.value.(phase := AwaitAck(b.batchId)));
      LinkChangeKeeps(c, s, link);
      if s.session.Some? && s.session.value.id == s.link.value.session {
        assert B.Genuine(front, s.past.published);
        InboxChangeKeeps(c, s.(link := link), s.session.value.inbox + [b]);
      }
    }
  }

  /** Dropping acknowledged entries loses nothing: what goes is committed or rejected. */
  lemma AcknowledgeAccounts(c: Settings, past: History, b: B.BufferState, through: nat, terminal: set<nat>)
    requires B.Consistent(b, past.published) && Accounted(c, past, b.entries)
    requires Sure(c, past, through) && terminal <= past.rejected
    ensures Accounted(c, past, B.AfterAcknowledge(b, through, terminal).entries)
    ensures B.Consistent(B.AfterAcknowledge(b, through, terminal), past.published)
  {
    B.AcknowledgeKeepsConsistent(b, past.published, through, terminal);
    B.KeptExactly(b.entries, through, terminal);
  }

  lemma ReceiveKeeps(c: Settings, s: State)
    requires Inv(c, s)
    ensures Inv(c, Next(c, s, ReceiveFrame))
  {
    if s.link.Some? && s.link.value.incoming != [] {
      var l := s.link.value;
      var frame := l.incoming[0];
      assert FrameOk(c, s.past, frame);
      if l.phase == AwaitHello && frame.Hello? { AcknowledgeAccounts(c, s.past, s.buffer, frame.acceptedThrough, {}); }
      if l.phase.AwaitAck? && Concerns(frame, l.phase.batchId) {
        AcknowledgeAccounts(c, s.past, s.buffer, frame.persisted, TerminalSet(frame.rejections));
      }
    }
  }

  // ---------------------------------------------------------------- server events

  lemma DeliverKeeps(c: Settings, s: State, session: nat, frames: seq<Frame>)
    requires LinkOk(c, s.past, s.link)
    requires forall i :: 0 <= i < |frames| ==> FrameOk(c, s.past, frames[i])
    ensures LinkOk(c, s.past, Deliver(s, session, frames).link)
  {
  }

  lemma RejectingKeeps(c: Settings, s: State, more: set<nat>)
    requires Inv(c, s)
    ensures Inv(c, s.(past := s.past.(rejected := s.past.rejected + more)))
  {
  }

  lemma HandleKeeps(c: Settings, s: State, at: int, archived: bool)
    requires Legal(c) && Inv(c, s)
    ensures Inv(c, Next(c, s, HandleBatch(at, archived)))
  {
    if s.session.Some? && s.session.value.phase == Ready && s.session.value.inbox != [] && s.watermark.Some? {
      var b := s.session.value.inbox[0];
      var refused := if Validate(b, c.config, c.codec).Some? then TerminalSet(RejectionsFor(b)) else {};
      RejectingKeeps(c, s, refused);
      BegunKeeps(c, s.(past := s.past.(rejected := s.past.rejected + refused)), at, archived);
    }
  }

  /** With the rejections on record, answering or queueing keeps the invariant. */
  lemma BegunKeeps(c: Settings, s: State, at: int, archived: bool)
    requires Legal(c) && Inv(c, s)
    requires s.session.Some? && s.session.value.phase == Ready && s.session.value.inbox != [] && s.watermark.Some?
    requires var b := s.session.value.inbox[0];
             Validate(b, c.config, c.codec).Some? ==> TerminalSet(RejectionsFor(b)) <= s.past.rejected
    ensures Inv(c, AfterBegun(c, s, s.session.value, at,
                              BegunFor(c, s, s.session.value.inbox[0], s.watermark.value, archived)))
  {
    var n, w := s.session.value, s.watermark.value;
    var b := n.inbox[0];
    var r := BegunFor(c, s, b, w, archived);
    AnswerFrames(c, s, b, w, r);
    DeliverKeeps(c, s, n.id, r.frames);
    if r.accepted.Some? {
      AdmissionIsGapFree(b, w, c.config, c.codec);
      GenuineSuffix(r.accepted.value, b, s.past.published);
      QueuedKeeps(c, s, n, at, r);
    } else {
      AnsweredKeeps(c, s, n, at, r);
    }
  }

  lemma AnsweredKeeps(c: Settings, s: State, n: Session, at: int, r: Begun)
    requires Inv(c, s) && s.session == Some(n) && n.inbox != []
    requires LinkOk(c, s.past, Deliver(s, n.id, r.frames).link) && r.accepted == None
    ensures Inv(c, AfterBegun(c, s, n, at, r))
  {
    var link := Deliver(s, n.id, r.frames).link;
    LinkChangeKeeps(c, s, link);
    assert InboxOk(s.past.published, n.inbox[1..]);
    InboxChangeKeeps(c, s.(link := link), n.inbox[1..]);
  }

  /** Entering the wait: the accepted suffix is queued under a fresh id. */
  lemma QueuedKeeps(c: Settings, s: State, n: Session, at: int, r: Begun)
    requires Legal(c) && Inv(c, s) && s.session == Some(n) && n.phase == Ready && n.inbox != []
    requires LinkOk(c, s.past, Deliver(s, n.id, r.frames).link)
    requires r.accepted.Some? && Q.HasRoom(s.queue)
    requires var a := r.accepted.value;
             && Sound(a, c.codec) && a.first == s.watermark.value + 1 && a.last == n.inbox[0].last
             && B.Genuine(a.observations, s.past.published)
    ensures Inv(c, AfterBegun(c, s, n, at, r))
  {
    var a := r.accepted.value;
    var s' := AfterBegun(c, s, n, at, r);
    EnqueueKeepsHeld(c, s, Queued(s.ids, Envelope(c.tenant, c.cluster, at, a)));
    assert InboxOk(s.past.published, n.inbox[1..]);
  }

  lemma EnqueueKeepsHeld(c: Settings, s: State, q: Queued)
    requires HeldOk(c, s.ids, s.past.published, Held(s.queue.items, s.work))
    requires ItemOk(c, s.ids + 1, s.past.published, q)
    ensures var held := Held(s.queue.items + [q], s.work);
            && HeldOk(c, s.ids + 1, s.past.published, held)
            && forall x :: x in held <==> x in Held(s.queue.items, s.work) || x == q
  {
    assert Held(s.queue.items + [q], s.work) == Held(s.queue.items, s.work) + [q];
  }

  lemma GenuineSuffix(a: ObservationBatch, b: ObservationBatch, published: seq<Observation>)
    requires B.Genuine(b.observations, published)
    requires forall o :: o in a.observations ==> o in b.observations
    ensures B.Genuine(a.observations, published)
  {
    forall i | 0 <= i < |a.observations|
      ensures 1 <= a.observations[i].sequence <= |published|
              && a.observations[i] == published[a.observations[i].sequence - 1] {
      assert a.observations[i] in b.observations;
    }
  }

  lemma AnswerFrames(c: Settings, s: State, b: ObservationBatch, w: nat, r: Begun)
    requires Sure(c, s.past, w)
    requires exists high, archived, room :: r == Begin(b, w, high, archived, room, c.config, c.codec)
    requires Validate(b, c.config, c.codec).Some? ==> TerminalSet(RejectionsFor(b)) <= s.past.rejected
    ensures forall i :: 0 <= i < |r.frames| ==> FrameOk(c, s.past, r.frames[i])
  {
    assert TerminalSet([]) == {};
    var high, archived, room :| r == Begin(b, w, high, archived, room, c.config, c.codec);
    BeginAcknowledgesNothingNew(b, w, high, archived, room, c.config, c.codec);
  }

  lemma SaveFailsKeeps(c: Settings, s: State)
    requires Inv(c, s)
    ensures Inv(c, Next(c, s, SaveFails))
  {
    assert TerminalSet([]) == {};
  }

  lemma SaveSucceedsKeeps(c: Settings, s: State)
    requires Inv(c, s)
    ensures Inv(c, Next(c, s, SaveSucceeds))
  {
    if Notified(s) {
      var a := s.session.value.phase.accepted;
      assert a.observations[|a.observations| - 1].sequence == a.last;
      assert Sure(c, s.past, a.last);
    }
  }

  lemma AdvanceKeeps(c: Settings, s: State)
    requires Inv(c, s)
    ensures Inv(c, Next(c, s, Advance))
  {
    assert TerminalSet([]) == {};
  }

  lemma EndSessionKeeps(c: Settings, s: State)
    requires Inv(c, s)
    ensures Inv(c, Next(c, s, EndSession))
  {
  }

  lemma RestartKeeps(c: Settings, s: State)
    requires Inv(c, s)
    ensures Inv(c, Next(c, s, RestartServer))
  {
  }

  lemma ForeignConnectKeeps(c: Settings, s: State, o: Sender, own: nat)
    requires Inv(c, s)
    ensures Inv(c, Next(c, s, ForeignConnect(o, own)))
  {
  }

  lemma ForeignSaveKeeps(c: Settings, s: State, o: Sender, sequence: nat)
    requires Inv(c, s)
    ensures Inv(c, Next(c, s, ForeignSave(o, sequence)))
  {
  }

  lemma ForeignKeeps(c: Settings, s: State, env: Envelope)
    requires Legal(c) && Inv(c, s)
    ensures Inv(c, Next(c, s, ForeignEnqueue(env)))
  {
    if Next(c, s, ForeignEnqueue(env)) != s { EnqueueKeepsHeld(c, s, Queued(s.ids, env)); }
  }

  // ---------------------------------------------------------------- worker events

  lemma EnvelopeOf(items: seq<Queued>, e: Envelope)
    ensures e in Envelopes(items) <==> exists q :: q in items && q.envelope == e
  {
    if q :| q in items && q.envelope == e {
      var i :| 0 <= i < |items| && items[i] == q;
      assert Envelopes(items)[i] == e;
    }
  }

  /** The front of the queue always maps: it was validated. */
  lemma FrontMaps(c: Settings, s: State, items: seq<Queued>)
    requires HeldOk(c, s.ids, s.past.published, Held(s.queue.items, s.work)) && items <= s.queue.items
    ensures MapAll(Envelopes(items), c.codec).Some?
  {
    forall e | e in Envelopes(items) ensures e.tenant != "" && e.cluster != "" && Sound(e.batch, c.codec) {
      EnvelopeOf(items, e);
      var q :| q in items && q.envelope == e;
      assert q in Held(s.queue.items, s.work);
    }
    AcceptedNeverPoisons(Envelopes(items), c.codec);
  }

  /** Moving items from the queue into a lease changes nothing that is held. */
  lemma LeasingKeeps(c: Settings, s: State, queue: Q.QueueState<Queued>, work: Option<Work>)
    requires Inv(c, s) && Held(queue.items, work) == Held(s.queue.items, s.work) && WorkOk(c, work, s.store)
    ensures Inv(c, s.(queue := queue, work := work))
  {
  }

  lemma AcquireTakes(c: Settings, s: State, items: seq<Queued>, rows: seq<Row>)
    requires s.work.None? && !s.poisoned && s.queue.items != []
    requires items == s.queue.items[..Q.LeaseCount(s.queue, c.leaseSize)]
    requires MapAll(Envelopes(items), c.codec) == Some(rows)
    ensures Next(c, s, AcquireLease)
            == s.(queue := Q.AfterAcquire(s.queue, c.leaseSize), work := Some(Work(items, Plan(rows))))
  {
  }

  lemma TakenKeeps(c: Settings, s: State, k: nat, rows: seq<Row>)
    requires Inv(c, s) && s.work.None? && k == Q.LeaseCount(s.queue, c.leaseSize) && 0 < k <= |s.queue.items|
    requires MapAll(Envelopes(s.queue.items[..k]), c.codec) == Some(rows)
    ensures Inv(c, s.(queue := Q.AfterAcquire(s.queue, c.leaseSize),
                      work := Some(Work(s.queue.items[..k], Plan(rows)))))
  {
    var items := s.queue.items[..k];
    LeaseOwes(c, items, rows, s.store);
    assert Held(s.queue.items[k..], Some(Work(items, Plan(rows)))) == Held(s.queue.items, s.work);
    LeasingKeeps(c, s, Q.AfterAcquire(s.queue, c.leaseSize), Some(Work(items, Plan(rows))));
  }

  lemma AcquireKeeps(c: Settings, s: State)
    requires Inv(c, s)
    ensures Inv(c, Next(c, s, AcquireLease))
  {
    if s.work.None? && s.queue.items != [] {
      var k := Q.LeaseCount(s.queue, c.leaseSize);
      var items := s.queue.items[..k];
      FrontMaps(c, s, items);
      var rows := MapAll(Envelopes(items), c.codec).value;
      AcquireTakes(c, s, items, rows);
      TakenKeeps(c, s, k, rows);
    }
  }

  lemma LeaseOwes(c: Settings, items: seq<Queued>, rows: seq<Row>, store: seq<Row>)
    requires MapAll(Envelopes(items), c.codec) == Some(rows)
    ensures WorkOk(c, Some(Work(items, Plan(rows))), store)
  {
    var envs := Envelopes(items);
    MapAllExactly(envs, c.codec);
    PlanIsPartition(rows);
    assert forall r :: r in Inserted(Plan(rows)) <==> r in rows by { SameMembers(Inserted(Plan(rows)), rows); }
    forall q, o | q in items && o in q.envelope.batch.observations && IsInventory(o)
      ensures RowOf(q.envelope, o, c.codec) in rows {
      EnvelopeOf(items, q.envelope);
    }
  }

  lemma SameMembers(a: seq<Row>, b: seq<Row>)
    requires multiset(a) == multiset(b)
    ensures forall r :: r in a <==> r in b
  {
    forall r ensures r in a <==> r in b {
      assert r in a <==> r in multiset(a);
      assert r in b <==> r in multiset(b);
    }
  }

  lemma {:induction false} InsertedHead(plan: seq<Insert>)
    requires plan != []
    ensures Inserted(plan) == plan[0].rows + Inserted(plan[1..])
  {
    var n := |plan| - 1;
    if n > 0 {
      InsertedHead(plan[..n]);
      assert plan[..n][1..] == plan[1..][..n - 1];
      assert plan[1..][n - 1] == plan[n];
    }
  }

  /** A leased row of the followed cluster is the row of the observation published under its version. */
  lemma LeasedRowIsGenuine(c: Settings, s: State, r: Row)
    requires Inv(c, s) && s.work.Some? && RowFrom(Envelopes(s.work.value.items), r, c.codec)
    requires r.tenant == c.tenant && r.cluster == c.cluster
    ensures 1 <= r.version <= |s.past.published| && RowFor(c, s.past.published[r.version - 1], r)
  {
    var items := s.work.value.items;
    var e, o :| e in Envelopes(items) && o in e.batch.observations && IsInventory(o) && r == RowOf(e, o, c.codec);
    EnvelopeOf(items, e);
    var q :| q in items && q.envelope == e;
    assert q in Held(s.queue.items, s.work);
    assert B.Genuine(e.batch.observations, s.past.published);
  }

  lemma InsertKeepsStore(c: Settings, s: State, landed: seq<Row>)
    requires Inv(c, s) && s.work.Some?
    requires forall r :: r in landed ==> r in Inserted(s.work.value.pending)
    ensures StoreOk(c, s.past.published, s.store + landed)
    ensures CommittedOk(c, s.past, s.store + landed)
  {
    forall r | r in landed && r.tenant == c.tenant && r.cluster == c.cluster
      ensures 1 <= r.version <= |s.past.published| && RowFor(c, s.past.published[r.version - 1], r) {
      LeasedRowIsGenuine(c, s, r);
    }
    forall o | InStore(c, s.store, o) ensures InStore(c, s.store + landed, o) {
      var r :| r in s.store && RowFor(c, o, r);
      assert r in s.store + landed;
    }
  }

  lemma InsertSucceedsKeeps(c: Settings, s: State)
    requires Inv(c, s)
    ensures Inv(c, Next(c, s, InsertSucceeds))
  {
    if s.work.Some? && s.work.value.pending != [] {
      var w := s.work.value;
      InsertedHead(w.pending);
      InsertKeepsStore(c, s, w.pending[0].rows);
      assert Held(s.queue.items, Some(w.(pending := w.pending[1..]))) == Held(s.queue.items, s.work);
    }
  }

  lemma InsertFailsKeeps(c: Settings, s: State, landed: seq<Row>)
    requires Inv(c, s)
    ensures Inv(c, Next(c, s, InsertFails(landed)))
  {
    var s' := Next(c, s, InsertFails(landed));
    if s' != s {
      InsertedHead(s.work.value.pending);
      InsertKeepsStore(c, s, landed);
      assert Held(s'.queue.items, s'.work) == Held(s.queue.items, s.work);
    }
  }

  lemma CommitKeeps(c: Settings, s: State)
    requires Inv(c, s)
    ensures Inv(c, Next(c, s, CommitLease))
  {
    if s.work.Some? && s.work.value.pending == [] {
      var s' := Next(c, s, CommitLease);
      var items := s.work.value.items;
      assert forall q :: q in Held(s'.queue.items, s'.work) ==> q in Held(s.queue.items, s.work);
      CommitStored(c, s);
      if s.session.Some? && s.session.value.phase.AwaitCommit? {
        CommitNotifies(c, s, s.session.value.phase.accepted, s.session.value.phase.id);
      }
      forall q | q in items ensures q.id < s.ids { assert q in Held(s.queue.items, s.work); }
    }
  }

  /** Every sequence a finished lease commits has its row in the store. */
  lemma CommitStored(c: Settings, s: State)
    requires Inv(c, s) && s.work.Some? && s.work.value.pending == []
    ensures CommittedOk(c, s.past.(committed := s.past.committed + FocusSequences(c, s.work.value.items)), s.store)
  {
    var items := s.work.value.items;
    forall n | n in FocusSequences(c, items)
      ensures 1 <= n <= |s.past.published| && Acceptable(s.past.published[n - 1])
      ensures IsInventory(s.past.published[n - 1]) ==> InStore(c, s.store, s.past.published[n - 1]) {
      var q, o :| q in items && Focus(c, q.envelope) && o in q.envelope.batch.observations && o.sequence == n;
      LeasedIsStored(c, s, q, o);
    }
  }

  lemma LeasedIsStored(c: Settings, s: State, q: Queued, o: Observation)
    requires Inv(c, s) && s.work.Some? && s.work.value.pending == []
    requires q in s.work.value.items && Focus(c, q.envelope) && o in q.envelope.batch.observations
    ensures 1 <= o.sequence <= |s.past.published| && s.past.published[o.sequence - 1] == o && Acceptable(o)
    ensures IsInventory(o) ==> InStore(c, s.store, o)
  {
    assert q in Held(s.queue.items, s.work);
    assert B.Genuine(q.envelope.batch.observations, s.past.published);
    if IsInventory(o) {
      var r := RowOf(q.envelope, o, c.codec);
      assert r in s.store && RowFor(c, o, r);
    }
  }

  /** The handler's batch, if it is among the committed ones, is committed as a whole. */
  lemma CommitNotifies(c: Settings, s: State, a: ObservationBatch, id: nat)
    requires s.work.Some? && WaitOk(c, s.past, s.ids, s.notified, Held(s.queue.items, s.work), a, id)
    ensures var items := s.work.value.items;
            id in s.notified + (set q | q in items :: q.id) ==>
              forall n: nat :: a.first <= n <= a.last ==> n in s.past.committed + FocusSequences(c, items)
  {
    var items := s.work.value.items;
    if id !in s.notified && id in (set q | q in items :: q.id) {
      var q :| q in items && q.id == id;
      assert q in Held(s.queue.items, s.work);
      forall n: nat | a.first <= n <= a.last ensures n in FocusSequences(c, items) {
        assert a.observations[n - a.first].sequence == n;
      }
    }
  }

  // ---------------------------------------------------------------- all runs

  lemma StepKeeps(c: Settings, s: State, e: Event)
    requires Legal(c) && Inv(c, s)
    ensures Inv(c, Next(c, s, e))
  {
    match e
    case Publish(event) => PublishKeeps(c, s, event);
    case Connect(loadFails) => ConnectKeeps(c, s, loadFails);
    case Disconnect =>
    case SendBatch => SendKeeps(c, s);
    case ReceiveFrame => ReceiveKeeps(c, s);
    case HandleBatch(at, archived) => HandleKeeps(c, s, at, archived);
    case SaveFails => SaveFailsKeeps(c, s);
    case SaveSucceeds => SaveSucceedsKeeps(c, s);
    case Advance => AdvanceKeeps(c, s);
    case EndSession => EndSessionKeeps(c, s);
    case AcquireLease => AcquireKeeps(c, s);
    case InsertSucceeds => InsertSucceedsKeeps(c, s);
    case InsertFails(landed) => InsertFailsKeeps(c, s, landed);
    case CommitLease => CommitKeeps(c, s);
    case RestartServer => RestartKeeps(c, s);
    case ForeignEnqueue(env) => ForeignKeeps(c, s, env);
    case ForeignConnect(o, own) => ForeignConnectKeeps(c, s, o, own);
    case ForeignSave(o, sequence) => ForeignSaveKeeps(c, s, o, sequence);
  }

  lemma {:induction false} RunKeeps(c: Settings, s: State, events: seq<Event>)
    requires Legal(c) && Inv(c, s)
    ensures Inv(c, Run(c, s, events))
  {
    if events != [] {
      RunKeeps(c, s, events[..|events| - 1]);
      StepKeeps(c, Run(c, s, events[..|events| - 1]), events[|events| - 1]);
    }
  }

  lemma StartOk(c: Settings, checkpoint: nat)
    requires Isolated(c) && c.durable ==> checkpoint == 0
    ensures Inv(c, Start(c, checkpoint))
  {
    var s := Start(c, checkpoint);
    assert Held(s.queue.items, s.work) == [];
    assert B.Consistent(s.buffer, s.past.published);
    assert StoreOk(c, s.past.published, s.store) && CommittedOk(c, s.past, s.store);
  }
}
