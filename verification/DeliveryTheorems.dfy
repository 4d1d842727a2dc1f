/** What every run of the delivery protocol guarantees. */
module DeliveryTheorems {
  import opened Wrappers
  import opened Wire
  import opened AgentClient
  import opened BatchRules
  import opened Persistence
  import opened Checkpoints
  import opened Delivery
  import opened DeliveryProof
  import B = AgentBuffer

  ghost function Reached(c: Settings, events: seq<Event>): State {
    Run(c, Start(c, 0), events)
  }

  lemma ReachedOk(c: Settings, events: seq<Event>)
    requires Legal(c)
    ensures Inv(c, Reached(c, events))
  {
    StartOk(c, 0);
    RunKeeps(c, Start(c, 0), events);
  }

  lemma Unroll(c: Settings, s: State, events: seq<Event>, e: Event)
    ensures Run(c, s, events + [e]) == Next(c, Run(c, s, events), e)
  {
    assert (events + [e])[..|events|] == events;
  }

  lemma UnrollOne(c: Settings, s: State, e: Event)
    ensures Run(c, s, [e]) == Next(c, s, e)
  {
    Unroll(c, s, [], e);
    assert [] + [e] == [e];
  }

  lemma UnrollTwo(c: Settings, s: State, e1: Event, e2: Event)
    ensures Run(c, s, [e1, e2]) == Next(c, Next(c, s, e1), e2)
  {
    UnrollOne(c, s, e1);
    Unroll(c, s, [e1], e2);
    assert [e1] + [e2] == [e1, e2];
  }

  lemma UnrollThree(c: Settings, s: State, e1: Event, e2: Event, e3: Event)
    ensures Run(c, s, [e1, e2, e3]) == Next(c, Next(c, Next(c, s, e1), e2), e3)
  {
    UnrollOne(c, s, e1);
    Unroll(c, s, [e1], e2);
    Unroll(c, s, [e1, e2], e3);
    assert [e1] + [e2] == [e1, e2] && [e1, e2] + [e3] == [e1, e2, e3];
  }

  lemma {:induction false} RunConcat(c: Settings, s: State, a: seq<Event>, b: seq<Event>)
    ensures Run(c, Run(c, s, a), b) == Run(c, s, a + b)
    decreases |b|, 1
  {
    if b == [] {
      assert a + b == a;
    } else {
      RunConcatMore(c, s, a, b[..|b| - 1], b[|b| - 1], b);
    }
  }

  lemma {:induction false} RunConcatMore(c: Settings, s: State, a: seq<Event>, most: seq<Event>, e: Event,
                                         b: seq<Event>)
    requires b == most + [e]
    ensures Run(c, Run(c, s, a), b) == Run(c, s, a + b)
    decreases |b|, 0
  {
    RunConcat(c, s, a, most);
    UnrollBoth(c, Run(c, s, a), most, s, a + most, e);
    assert a + b == (a + most) + [e];
  }

  lemma UnrollBoth(c: Settings, s: State, a: seq<Event>, t: State, b: seq<Event>, e: Event)
    requires Run(c, s, a) == Run(c, t, b)
    ensures Run(c, s, a + [e]) == Run(c, t, b + [e])
  {
    Unroll(c, s, a, e);
    Unroll(c, t, b, e);
  }

  // ---------------------------------------------------------------- what an answer does

  /** The frame answers the batch the agent waits for: it names that batch, or none. */
  predicate Answers(frame: Frame, id: string) { frame.Ack? && frame.batchId in {"", id} }

  predicate RejectedForGood(frame: Frame, o: Observation)
    requires frame.Ack?
  {
    exists r :: r in frame.rejections && r.sequence == o.sequence && !r.retryable
  }

  /** While the agent waits, an answer ends the wait and takes away exactly what it reports as persisted
      or rejects for good; any other frame is passed over. */
  lemma AnswerSettlesExactly(c: Settings, s: State, id: string)
    requires s.link.Some? && s.link.value.phase == AwaitAck(id) && s.link.value.incoming != []
    ensures var frame, t := s.link.value.incoming[0], Next(c, s, ReceiveFrame);
            && t.link.Some? && t.link.value.incoming == s.link.value.incoming[1..]
            && t.link.value.phase == (if Answers(frame, id) then Idle else AwaitAck(id))
            && (!Answers(frame, id) ==> t.buffer == s.buffer)
            && (Answers(frame, id) ==>
                forall o :: o in t.buffer.entries <==>
                              o in s.buffer.entries && o.sequence > frame.persisted && !RejectedForGood(frame, o))
  {
    var frame := s.link.value.incoming[0];
    if frame.Ack? { B.KeptExactly(s.buffer.entries, frame.persisted, TerminalSet(frame.rejections)); }
  }

  // ---------------------------------------------------------------- nothing is lost

  /** What the server would report now: its watermark, or the checkpoint it would load. */
  function Mark(s: State): nat {
    if s.watermark.Some? then s.watermark.value else s.checkpoint
  }

  /** The marks start at zero and are the followed cluster's own. */
  ghost predicate Trusted(c: Settings, checkpoint: nat) {
    Isolated(c) && (c.durable ==> checkpoint == 0)
  }

  /** Whatever is lost on the way, resent, orphaned, refused by the store or forgotten by a
      restart: an inventory observation leaves the agent only once it is stored or rejected. */
  lemma NothingIsLost(c: Settings, events: seq<Event>)
    requires Legal(c) && Isolated(c)
    ensures NoLoss(c, Reached(c, events))
  {
    ReachedOk(c, events);
  }

  const NODE_EVENT := B.Event("node/1", Observation(0, "", None, Some(NodeInventory(Upsert, "1", ""))))

  const FIRST_CONTACT := [Publish(NODE_EVENT), Connect(false), ReceiveFrame]

  /** A server and an agent before their first contact. */
  ghost predicate Untouched(c: Settings, s: State) {
    && s.buffer == B.Fresh(c.bufferCapacity) && s.link == None && s.session == None
    && s.store == [] && s.past == History([], {}, {})
  }

  /** The hello of a server with mark `mark` waits for an agent with one observation. */
  ghost predicate Greeted(c: Settings, s: State, mark: nat) {
    var o := B.Stamp(NODE_EVENT, 1, c.codec);
    && s.buffer.entries == [o] && s.past == History([o], {}, {}) && s.store == []
    && s.link.Some? && s.link.value.phase == AwaitHello && s.link.value.incoming == [Hello(mark)]
  }

  lemma Greets(c: Settings, s: State)
    requires c.bufferCapacity >= 1 && Untouched(c, s)
    ensures Greeted(c, Next(c, Next(c, s, Publish(NODE_EVENT)), Connect(false)), Mark(s))
  {
  }

  lemma GreetingDrops(c: Settings, s: State, mark: nat)
    requires Greeted(c, s, mark) && mark > 0
    ensures !NoLoss(c, Next(c, s, ReceiveFrame))
  {
    var o := B.Stamp(NODE_EVENT, 1, c.codec);
    B.KeptExactly([o], mark, {});
    var t := Next(c, s, ReceiveFrame);
    assert t.past.published[1 - 1] == o && o !in t.buffer.entries && t.store == [] && 1 !in t.past.rejected;
    assert IsInventory(t.past.published[1 - 1]) && !InStore(c, t.store, o);
  }

  /** A server that reports any mark at first contact makes the agent drop its first observation. */
  lemma HelloDrops(c: Settings, s: State)
    requires c.bufferCapacity >= 1 && Untouched(c, s) && Mark(s) > 0
    ensures !NoLoss(c, Run(c, s, FIRST_CONTACT))
  {
    UnrollThree(c, s, Publish(NODE_EVENT), Connect(false), ReceiveFrame);
    Greets(c, s);
    GreetingDrops(c, Next(c, Next(c, s, Publish(NODE_EVENT)), Connect(false)), Mark(s));
  }

  /** A fresh buffer against a checkpoint left by an earlier agent loses its first observation. */
  lemma StaleCheckpointLoses(c: Settings, checkpoint: nat)
    requires c.bufferCapacity >= 1 && c.durable && checkpoint > 0
    ensures !NoLoss(c, Run(c, Start(c, checkpoint), FIRST_CONTACT))
  {
    HelloDrops(c, Start(c, checkpoint));
  }

  /** Another sender connects for the first time and has one observation stored. */
  function Visit(o: Sender): seq<Event> {
    [ForeignConnect(o, 0), ForeignSave(o, 1)]
  }

  lemma VisitSaves(c: Settings, s: State, o: Sender)
    requires o in c.others && s.session == None && s.watermark == None && s.checkpoint == 0 && s.marks == map[]
    ensures var t := AfterForeignSave(c, AfterForeignConnect(c, s, o, 0), o, 1);
            && t == s.(checkpoint := t.checkpoint, watermark := t.watermark, marks := t.marks)
            && t.checkpoint == (if SharesFile(c, o) then 1 else 0)
            && t.watermark == (if SharesKey(c, o) then Some(1) else None)
  {
  }

  ghost predicate Visited(c: Settings, o: Sender, t: State) {
    Untouched(c, t) && Mark(t) == 1 && t.checkpoint == (if SharesFile(c, o) then 1 else 0)
  }

  lemma VisitEnds(c: Settings, o: Sender)
    requires o in c.others && (SharesFile(c, o) || SharesKey(c, o))
    ensures Visited(c, o, AfterForeignSave(c, AfterForeignConnect(c, Start(c, 0), o, 0), o, 1))
  {
    VisitSaves(c, Start(c, 0), o);
  }

  lemma VisitMarks(c: Settings, o: Sender)
    requires o in c.others && (SharesFile(c, o) || SharesKey(c, o))
    ensures Visited(c, o, Run(c, Start(c, 0), Visit(o)))
  {
    VisitEnds(c, o);
    VisitRuns(c, Start(c, 0), o);
  }

  lemma VisitRuns(c: Settings, s: State, o: Sender)
    ensures Run(c, s, Visit(o)) == AfterForeignSave(c, AfterForeignConnect(c, s, o, 0), o, 1)
  {
    UnrollTwo(c, s, ForeignConnect(o, 0), ForeignSave(o, 1));
  }

  /** So does one whose checkpoint file or key another sender has used before. */
  lemma SharedMarkLoses(c: Settings, o: Sender)
    requires c.bufferCapacity >= 1 && o in c.others && (SharesFile(c, o) || SharesKey(c, o))
    ensures !NoLoss(c, Run(c, Start(c, 0), Visit(o) + FIRST_CONTACT))
  {
    VisitMarks(c, o);
    RunConcat(c, Start(c, 0), Visit(o), FIRST_CONTACT);
    HelloDrops(c, Run(c, Start(c, 0), Visit(o)));
  }

  /** No run loses anything exactly when the server has no checkpoint for the cluster yet and no
      other sender shares the cluster's checkpoint file or key. */
  lemma NoLossExactly(c: Settings, checkpoint: nat)
    requires Legal(c) && c.bufferCapacity >= 1
    ensures (forall events :: NoLoss(c, Run(c, Start(c, checkpoint), events))) <==> Trusted(c, checkpoint)
  {
    if Trusted(c, checkpoint) {
      forall events ensures NoLoss(c, Run(c, Start(c, checkpoint), events)) {
        StartOk(c, checkpoint);
        RunKeeps(c, Start(c, checkpoint), events);
      }
    } else if c.durable && checkpoint > 0 {
      StaleCheckpointLoses(c, checkpoint);
    } else {
      var o :| o in c.others && (SharesFile(c, o) || SharesKey(c, o));
      assert Start(c, checkpoint) == Start(c, 0);
      SharedMarkLoses(c, o);
    }
  }

  /** Senders that meet in one file: a slash and an underscore. */
  lemma FilesMeet(c: Settings)
    requires c.durable && c.tenant == "a/b" && Sender("a_b", c.cluster) in c.others
    ensures !Isolated(c)
  {
    UncleanPathsCollide(c.root, c.tenant, c.cluster);
    assert SharesFile(c, Sender("a_b", c.cluster));
  }

  /** Senders that meet under one key: a NUL moves from one name to the other. */
  lemma KeysMeet(c: Settings, x: string, y: string, z: string)
    requires c.tenant == x && c.cluster == y + "\0" + z && Sender(x + "\0" + y, z) in c.others
    ensures !Isolated(c)
  {
    assert x + "\0" + y + "\0" + z == x + "\0" + (y + "\0" + z);
    assert SharesKey(c, Sender(x + "\0" + y, z));
  }

  // ---------------------------------------------------------------- the watermark

  /** Watermark, checkpoint and every number the agent was told lie within the gap-free
      committed prefix; with a file checkpoint the watermark never runs ahead of it. */
  ghost predicate GapFree(c: Settings, s: State) {
    && Prefix(s.past, Mark(s)) && Prefix(s.past, s.checkpoint)
    && (c.durable ==> Mark(s) <= s.checkpoint)
    && (s.link.Some? ==> forall i :: 0 <= i < |s.link.value.incoming| ==>
                           match s.link.value.incoming[i]
                           case Hello(w) => Prefix(s.past, w)
                           case Ack(_, _, w, _, _) => Prefix(s.past, w)
                           case FlowControl => true)
  }

  lemma InvIsGapFree(c: Settings, s: State)
    requires Inv(c, s) && Isolated(c)
    ensures GapFree(c, s)
  {
    if s.link.Some? {
      forall i | 0 <= i < |s.link.value.incoming| ensures FrameOk(c, s.past, s.link.value.incoming[i]) {}
    }
  }

  /** Every run is gap-free exactly when the marks are the cluster's own and start at zero. */
  lemma WatermarkIsGapFree(c: Settings, checkpoint: nat)
    requires Legal(c)
    ensures (forall events :: GapFree(c, Run(c, Start(c, checkpoint), events))) <==> Trusted(c, checkpoint)
  {
    if Trusted(c, checkpoint) {
      forall events ensures GapFree(c, Run(c, Start(c, checkpoint), events)) {
        StartOk(c, checkpoint);
        RunKeeps(c, Start(c, checkpoint), events);
        InvIsGapFree(c, Run(c, Start(c, checkpoint), events));
      }
    } else if c.durable && checkpoint > 0 {
      UnrollOne(c, Start(c, checkpoint), Disconnect);
      assert !GapFree(c, Run(c, Start(c, checkpoint), [Disconnect]));
    } else {
      var o :| o in c.others && (SharesFile(c, o) || SharesKey(c, o));
      assert Start(c, checkpoint) == Start(c, 0);
      VisitMarks(c, o);
      assert !GapFree(c, Run(c, Start(c, 0), Visit(o)));
    }
  }

  // ---------------------------------------------------------------- exactly once

  datatype RowKey = RowKey(table: Table, eventId: string, version: nat)

  function KeyOf(r: Row): RowKey {
    RowKey(r.table, r.eventId, r.version)
  }

  function KeysOf(rows: seq<Row>): set<RowKey> {
    set r | r in rows :: KeyOf(r)
  }

  /** Keys of the followed cluster's stored rows up to sequence n. */
  function StoredKeys(c: Settings, s: State, n: nat): set<RowKey> {
    set r | r in s.store && r.tenant == c.tenant && r.cluster == c.cluster && r.version <= n :: KeyOf(r)
  }

  /** The followed cluster's first n observations as one batch. */
  function Everything(c: Settings, s: State, n: nat): Envelope
    requires n <= |s.past.published|
  {
    Envelope(c.tenant, c.cluster, 0, ObservationBatch("", 1, n, "", s.past.published[..n]))
  }

  lemma {:induction false} AcceptableEnvelopeMaps(c: Settings, s: State, n: nat)
    requires Legal(c) && Inv(c, s) && Prefix(s.past, n)
    ensures MapAll([Everything(c, s, n)], c.codec).Some?
  {
    var env := Everything(c, s, n);
    forall i | 0 <= i < n ensures Acceptable(s.past.published[i]) && s.past.published[i].sequence > 0 {
      assert i + 1 in s.past.committed;
    }
    AcceptableRunMaps(env, env.batch.observations, c.codec);
    assert [env][..0] == [];
  }

  /** Up to any acknowledged number, the store holds exactly the row keys that a single
      failure-free write of those observations produces. */
  lemma ResendsCollapse(c: Settings, events: seq<Event>, n: nat)
    requires Legal(c) && Prefix(Reached(c, events).past, n)
    ensures var s := Reached(c, events);
            var once := MapAll([Everything(c, s, n)], c.codec);
            once.Some? && StoredKeys(c, s, n) == KeysOf(Inserted(Plan(once.value)))
  {
    ReachedOk(c, events);
    CollapsedAt(c, Reached(c, events), n);
  }

  lemma CollapsedAt(c: Settings, s: State, n: nat)
    requires Legal(c) && Inv(c, s) && Prefix(s.past, n)
    ensures var once := MapAll([Everything(c, s, n)], c.codec);
            once.Some? && StoredKeys(c, s, n) == KeysOf(Inserted(Plan(once.value)))
  {
    var env := Everything(c, s, n);
    AcceptableEnvelopeMaps(c, s, n);
    var rows := MapAll([env], c.codec).value;
    PlanKeepsKeys(rows);
    MapAllExactly([env], c.codec);
    forall k | k in StoredKeys(c, s, n) ensures k in KeysOf(rows) { StoredKeyIsMapped(c, s, n, rows, k); }
    forall k | k in KeysOf(rows) ensures k in StoredKeys(c, s, n) {
      var x :| x in rows && KeyOf(x) == k;
      MappedRowIsStored(c, s, n, x);
    }
  }

  lemma PlanKeepsKeys(rows: seq<Row>)
    ensures KeysOf(Inserted(Plan(rows))) == KeysOf(rows)
  {
    PlanIsPartition(rows);
    SameMembers(Inserted(Plan(rows)), rows);
  }

  lemma StoredKeyIsMapped(c: Settings, s: State, n: nat, rows: seq<Row>, k: RowKey)
    requires Inv(c, s) && Prefix(s.past, n) && k in StoredKeys(c, s, n)
    requires forall e, o :: e in [Everything(c, s, n)] && o in e.batch.observations && IsInventory(o) ==>
                              RowOf(e, o, c.codec) in rows
    ensures k in KeysOf(rows)
  {
    var env := Everything(c, s, n);
    var r :| r in s.store && r.tenant == c.tenant && r.cluster == c.cluster && r.version <= n && KeyOf(r) == k;
    var o := s.past.published[r.version - 1];
    assert RowFor(c, o, r);
    assert o == env.batch.observations[r.version - 1];
    assert env in [env] && RowOf(env, o, c.codec) in rows;
    assert KeyOf(RowOf(env, o, c.codec)) == k;
  }

  lemma MappedRowIsStored(c: Settings, s: State, n: nat, x: Row)
    requires Inv(c, s) && Prefix(s.past, n) && RowFrom([Everything(c, s, n)], x, c.codec)
    ensures KeyOf(x) in StoredKeys(c, s, n)
  {
    var env := Everything(c, s, n);
    var e, o :| e in [env] && o in e.batch.observations && IsInventory(o) && x == RowOf(e, o, c.codec);
    var i :| 0 <= i < n && s.past.published[..n][i] == o;
    assert i + 1 in s.past.committed;
    var r :| r in s.store && RowFor(c, o, r);
    assert KeyOf(r) == KeyOf(x);
  }

  /** Two stored rows of the same tenant, cluster and sequence come from one observation and
      differ at most in the time of receipt. */
  lemma SameSequenceSameObservation(c: Settings, events: seq<Event>, r1: Row, r2: Row)
    requires Legal(c)
    requires var s := Reached(c, events); r1 in s.store && r2 in s.store
    requires r1.tenant == r2.tenant == c.tenant && r1.cluster == r2.cluster == c.cluster && r1.version == r2.version
    ensures var s := Reached(c, events);
            && 1 <= r1.version <= |s.past.published|
            && RowFor(c, s.past.published[r1.version - 1], r1) && RowFor(c, s.past.published[r1.version - 1], r2)
            && r1.(observedAt := r2.observedAt) == r2
            && (s.past.published[r1.version - 1].observedAt.Some? ==> r1 == r2)
  {
    ReachedOk(c, events);
  }

  /** The worker never stops over a batch the server accepted, whichever clusters share the queue. */
  lemma WorkerNeverPoisoned(c: Settings, events: seq<Event>)
    requires Legal(c)
    ensures !Reached(c, events).poisoned
  {
    ReachedOk(c, events);
  }

  /** From any reachable buffer, gaps from rejections included, the batch the agent sends can be
      refused only for its size or its inventory content. */
  lemma ReachableBatchesMeetSequenceRules(c: Settings, events: seq<Event>)
    requires Legal(c) && Reached(c, events).buffer.entries != []
    ensures var s := Reached(c, events);
            var run := B.Front(s.buffer.entries, c.batchSize);
            && run != [] && Numbered(run, run[0].sequence)
            && Validate(BuildBatch(c.cluster, run, c.codec), c.config, c.codec)
               in {None, Some(TooManyRecords), Some(TooManyBytes), Some(BadInventory)}
  {
    ReachedOk(c, events);
    var s := Reached(c, events);
    B.FrontIsLongestRun(s.buffer.entries, c.batchSize);
    var run := B.Front(s.buffer.entries, c.batchSize);
    ClientBatchesMeetSequenceRules(c.cluster, run, run[0].sequence, c.config, c.codec);
  }
}
