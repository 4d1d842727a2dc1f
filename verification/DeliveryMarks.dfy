/** When the server's marks only ever grow. */
module DeliveryMarks {
  import opened Wrappers
  import opened Wire
  import opened AgentClient
  import opened BatchRules
  import opened Checkpoints
  import opened IngestionServer
  import opened Delivery
  import opened DeliveryProof
  import opened DeliveryTheorems
  import opened DeliveryCycle
  import B = AgentBuffer
  import Q = BatchQueue

  ghost predicate Raised(s: State, t: State) {
    s.checkpoint <= t.checkpoint && Mark(s) <= Mark(t)
  }

  /** Continuing a run moves no mark back. */
  ghost predicate Rising(c: Settings, events: seq<Event>, more: seq<Event>) {
    Raised(Reached(c, events), Reached(c, events + more))
  }

  // ---------------------------------------------------------------- aligned senders

  lemma HandleKeepsMarks(c: Settings, s: State, at: int, archived: bool)
    ensures Next(c, s, HandleBatch(at, archived)).checkpoint == s.checkpoint
    ensures Next(c, s, HandleBatch(at, archived)).watermark == s.watermark
  {
  }

  lemma ForeignConnectRaises(c: Settings, s: State, o: Sender, own: nat)
    requires Aligned(c)
    ensures Raised(s, AfterForeignConnect(c, s, o, own))
  {
  }

  lemma ForeignSaveRaises(c: Settings, s: State, o: Sender, sequence: nat)
    requires MarksOk(c, s) && Aligned(c) && c.durable
    ensures Raised(s, AfterForeignSave(c, s, o, sequence))
  {
  }

  predicate MovesMarks(e: Event) {
    e.Connect? || e.SaveSucceeds? || e.Advance? || e.RestartServer?
  }

  lemma ServerRaises(c: Settings, s: State, e: Event)
    requires MarksOk(c, s) && SessionOk(c, s) && Aligned(c) && c.durable && MovesMarks(e)
    ensures Raised(s, Next(c, s, e))
  {
    if e.SaveSucceeds? && Notified(s) {
      var a := s.session.value.phase.accepted;
      assert a.observations[|a.observations| - 1].sequence == a.last;
    }
  }

  lemma OthersKeepMarks(c: Settings, s: State, e: Event)
    requires !MovesMarks(e) && !e.HandleBatch? && !e.ForeignConnect? && !e.ForeignSave?
    ensures Next(c, s, e).checkpoint == s.checkpoint && Next(c, s, e).watermark == s.watermark
  {
  }

  lemma MarkStep(c: Settings, s: State, e: Event)
    requires MarksOk(c, s) && SessionOk(c, s) && Aligned(c) && c.durable
    ensures Raised(s, Next(c, s, e))
  {
    match e
    case HandleBatch(at, archived) => HandleKeepsMarks(c, s, at, archived);
    case ForeignConnect(o, own) => ForeignConnectRaises(c, s, o, own);
    case ForeignSave(o, sequence) => ForeignSaveRaises(c, s, o, sequence);
    case _ => if MovesMarks(e) { ServerRaises(c, s, e); } else { OthersKeepMarks(c, s, e); }
  }

  lemma ReachedMarksOk(c: Settings, events: seq<Event>)
    requires Legal(c)
    ensures MarksOk(c, Reached(c, events)) && SessionOk(c, Reached(c, events))
  {
    ReachedOk(c, events);
  }

  lemma {:induction false} AlignedMarksRise(c: Settings, events: seq<Event>, more: seq<Event>)
    requires Legal(c) && Aligned(c) && c.durable
    ensures Rising(c, events, more)
    decreases |more|
  {
    if more == [] {
      assert events + more == events;
    } else {
      var n := |more| - 1;
      AlignedMarksRise(c, events, more[..n]);
      assert events + more == (events + more[..n]) + [more[n]];
      NextMarksRise(c, events + more[..n], more[n]);
    }
  }

  lemma NextMarksRise(c: Settings, events: seq<Event>, e: Event)
    requires Legal(c) && Aligned(c) && c.durable
    ensures Rising(c, events, [e])
  {
    ReachedMarksOk(c, events);
    Unroll(c, Start(c, 0), events, e);
    MarkStep(c, Reached(c, events), e);
  }

  // ---------------------------------------------------------------- a shared key

  /** The other sender's number is reported to the followed cluster until the server restarts. */
  lemma SharedKeyFalls(c: Settings, o: Sender)
    requires o in c.others && SharesKey(c, o) && !SharesFile(c, o)
    ensures !Rising(c, Visit(o), [RestartServer])
  {
    VisitMarks(c, o);
    Unroll(c, Start(c, 0), Visit(o), RestartServer);
  }

  // ---------------------------------------------------------------- a shared file

  /** The first observation of a new agent, and the batch it travels in. */
  function First(c: Settings, e: B.Event): Observation {
    B.Stamp(e, 1, c.codec)
  }

  function FirstBatch(c: Settings, e: B.Event): ObservationBatch {
    BuildBatch(c.cluster, [First(c, e)], c.codec)
  }

  /** A new agent can publish `e` and the server accepts it. */
  ghost predicate Deliverable(c: Settings, e: B.Event) {
    && B.PublishOutcomeOf(B.Fresh(c.bufferCapacity), e) == B.Published
    && Validate(FirstBatch(c, e), c.config, c.codec) == None
  }

  /** The cluster has connected and learnt that nothing is stored. Then the other sender connects,
      finds the same file and saves two observations of its own. */
  function Overtaken(o: Sender, e: B.Event): seq<Event> {
    [Publish(e), Connect(false)] + [ForeignConnect(o, 0), ForeignSave(o, 2)]
  }

  ghost predicate Greeting(c: Settings, s: State, e: B.Event) {
    && s.buffer.entries == [First(c, e)] && s.session == Some(Session(0, Ready, []))
    && s.link == Some(Link(0, AwaitHello, [Hello(0)]))
    && s.watermark == Some(0) && s.queue == Q.NewQueue(c.queueCapacity) && s.work == None
    && s.ids == 0 && s.notified == {} && !s.poisoned
  }

  lemma FirstGreeting(c: Settings, e: B.Event)
    requires Deliverable(c, e)
    ensures var s := Reached(c, [Publish(e), Connect(false)]);
            Greeting(c, s, e) && s.checkpoint == 0 && s.marks == map[]
  {
    UnrollTwo(c, Start(c, 0), Publish(e), Connect(false));
    assert [] + [First(c, e)] == [First(c, e)];
  }

  lemma OvertakenMarks(c: Settings, o: Sender, e: B.Event)
    requires Deliverable(c, e) && o in c.others && SharesFile(c, o) && !SharesKey(c, o)
    ensures var s := Reached(c, Overtaken(o, e)); Greeting(c, s, e) && s.checkpoint == 2
  {
    FirstGreeting(c, e);
    var s := Reached(c, [Publish(e), Connect(false)]);
    UnrollTwo(c, s, ForeignConnect(o, 0), ForeignSave(o, 2));
    RunConcat(c, Start(c, 0), [Publish(e), Connect(false)], [ForeignConnect(o, 0), ForeignSave(o, 2)]);
    Overtakes(c, s, o);
  }

  lemma Overtakes(c: Settings, s: State, o: Sender)
    requires o in c.others && SharesFile(c, o) && !SharesKey(c, o) && s.checkpoint == 0 && s.marks == map[]
    ensures var t := Next(c, Next(c, s, ForeignConnect(o, 0)), ForeignSave(o, 2));
            t == s.(checkpoint := 2, marks := t.marks)
  {
    assert AfterForeignConnect(c, s, o, 0).marks == map[ClusterKey(o.tenant, o.cluster) := 0];
  }

  lemma GreetedIsQuiet(c: Settings, s: State, e: B.Event)
    requires Greeting(c, s, e)
    ensures Quiet(c, Next(c, s, ReceiveFrame), 0, [First(c, e)])
  {
    var o := First(c, e);
    assert [Hello(0)][1..] == [];
    assert [o][..0] == [] && B.Kept([o], 0, {}) == [o];
  }

  /** From the greeting on, the cluster's first observation is stored and its checkpoint saved. */
  lemma GreetedSaves(c: Settings, s: State, e: B.Event) returns (more: seq<Event>)
    requires Legal(c) && c.durable && Deliverable(c, e) && Greeting(c, s, e)
    ensures Run(c, s, more).checkpoint == 1
  {
    var o := First(c, e);
    GreetedIsQuiet(c, s, e);
    UnrollOne(c, s, ReceiveFrame);
    assert NextRun(c, [o]) == [o];
    more := StoresRun(c, Run(c, s, [ReceiveFrame]), 0, [o]);
    RunConcat(c, s, [ReceiveFrame], more);
    more := [ReceiveFrame] + more;
  }

  /** The cluster's own save then takes the shared checkpoint from two back to one. */
  lemma SharedFileFalls(c: Settings, o: Sender, e: B.Event) returns (more: seq<Event>)
    requires Legal(c) && c.durable && Deliverable(c, e) && o in c.others && SharesFile(c, o) && !SharesKey(c, o)
    ensures !Rising(c, Overtaken(o, e), more)
  {
    OvertakenMarks(c, o, e);
    more := GreetedSaves(c, Reached(c, Overtaken(o, e)), e);
    RunConcat(c, Start(c, 0), Overtaken(o, e), more);
  }

  /** A space and a NUL: these two senders share both, so they lose observations to each other
      although no mark ever falls. */
  lemma BothMeet(c: Settings)
    requires c.durable && c.tenant == " " && c.cluster == "\0 " && c.others == {Sender(" \0", " ")}
    ensures Aligned(c) && !Isolated(c)
  {
    var o := Sender(" \0", " ");
    assert " "[1..] == "" && " \0"[1..] == "\0" && "\0 "[..1] == "\0";
    assert TrimLeft(" ") == "" && TrimLeft(" \0") == "\0" && TrimRight("\0 ") == "\0";
    assert Replaced("\0") == "_";
    assert SharesFile(c, o);
    assert " \0" + "\0" + " " == " " + "\0" + "\0 ";
    assert SharesKey(c, o);
  }

  /** With checkpoint files the marks never fall, restarts included, exactly when every other sender
      shares both the cluster's file and its key, or neither. */
  lemma WatermarkIsMonotone(c: Settings)
    requires Legal(c) && c.durable && exists e :: Deliverable(c, e)
    ensures (forall events, more :: Rising(c, events, more)) <==> Aligned(c)
  {
    if Aligned(c) {
      forall events, more ensures Rising(c, events, more) { AlignedMarksRise(c, events, more); }
    } else {
      var o :| o in c.others && (SharesFile(c, o) != SharesKey(c, o));
      if SharesKey(c, o) {
        SharedKeyFalls(c, o);
      } else {
        var e :| Deliverable(c, e);
        var more := SharedFileFalls(c, o, e);
      }
    }
  }
}
