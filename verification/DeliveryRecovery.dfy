/** Whatever has happened, delivery can still be completed. */
module DeliveryRecovery {
  import opened Wrappers
  import opened Wire
  import opened AgentClient
  import opened BatchRules
  import opened IngestionServer
  import opened Delivery
  import opened DeliveryProof
  import opened DeliveryTheorems
  import opened DeliveryRejections
  import opened DeliveryCycle
  import B = AgentBuffer
  import Q = BatchQueue

  // ---------------------------------------------------------------- what is not saved is kept

  ghost predicate FrameBelow(f: Frame, n: nat) {
    match f
    case Hello(w) => w <= n
    case Ack(_, _, w, _, _) => w <= n
    case FlowControl => true
  }

  ghost predicate LinkBelow(link: Option<Link>, n: nat) {
    link.Some? ==> forall i :: 0 <= i < |link.value.incoming| ==> FrameBelow(link.value.incoming[i], n)
  }

  /** Everything above the checkpoint is still buffered, unless it was rejected. */
  ghost predicate Retained(past: History, entries: seq<Observation>, checkpoint: nat) {
    forall q :: checkpoint < q <= |past.published| ==> q in past.rejected || past.published[q - 1] in entries
  }

  ghost predicate Recoverable(s: State) {
    LinkBelow(s.link, s.checkpoint) && Retained(s.past, s.buffer.entries, s.checkpoint)
  }

  /** The server never reports more than it has saved. */
  lemma MarkIsSaved(c: Settings, s: State)
    requires MarksOk(c, s) && SessionOk(c, s) && Isolated(c) && c.durable
    ensures s.watermark.Some? ==> s.watermark.value <= s.checkpoint
  {
  }

  lemma PublishRetains(c: Settings, s: State, event: B.Event)
    requires Recoverable(s)
    ensures Recoverable(Next(c, s, Publish(event)))
  {
    if B.PublishOutcomeOf(s.buffer, event) == B.Published {
      var t, o := Next(c, s, Publish(event)), B.Stamp(event, s.buffer.next, c.codec);
      assert t.buffer.entries[|s.buffer.entries|] == o;
      assert forall x :: x in s.buffer.entries ==> x in t.buffer.entries;
    }
  }

  lemma AcknowledgeRetains(past: History, b: B.BufferState, checkpoint: nat, through: nat, terminal: set<nat>)
    requires B.Consistent(b, past.published) && Retained(past, b.entries, checkpoint)
    requires through <= checkpoint && terminal <= past.rejected
    ensures Retained(past, B.AfterAcknowledge(b, through, terminal).entries, checkpoint)
  {
    B.KeptExactly(b.entries, through, terminal);
  }

  lemma ReceiveRetains(c: Settings, s: State)
    requires Inv(c, s) && Recoverable(s)
    ensures Recoverable(Next(c, s, ReceiveFrame))
  {
    if s.link.Some? && s.link.value.incoming != [] {
      var l := s.link.value;
      var f := l.incoming[0];
      assert FrameOk(c, s.past, f) && FrameBelow(f, s.checkpoint);
      if l.phase == AwaitHello && f.Hello? {
        AcknowledgeRetains(s.past, s.buffer, s.checkpoint, f.acceptedThrough, {});
      }
      if l.phase.AwaitAck? && Concerns(f, l.phase.batchId) {
        AcknowledgeRetains(s.past, s.buffer, s.checkpoint, f.persisted, TerminalSet(f.rejections));
      }
    }
  }

  lemma DeliverBelow(s: State, session: nat, frames: seq<Frame>, n: nat)
    requires LinkBelow(s.link, n) && forall i :: 0 <= i < |frames| ==> FrameBelow(frames[i], n)
    ensures LinkBelow(Deliver(s, session, frames).link, n)
  {
  }

  lemma BegunRetains(c: Settings, s: State, at: int, begun: Begun)
    requires Recoverable(s) && s.session.Some? && s.session.value.inbox != []
    requires forall i :: 0 <= i < |begun.frames| ==> FrameBelow(begun.frames[i], s.checkpoint)
    ensures Recoverable(AfterBegun(c, s, s.session.value, at, begun))
  {
    DeliverBelow(s, s.session.value.id, begun.frames, s.checkpoint);
  }

  lemma HandleRetains(c: Settings, s: State, at: int, archived: bool)
    requires Inv(c, s) && Isolated(c) && c.durable && Recoverable(s)
    ensures Recoverable(Next(c, s, HandleBatch(at, archived)))
  {
    if s.session.Some? && s.session.value.phase == Ready && s.session.value.inbox != [] && s.watermark.Some? {
      var b, w := s.session.value.inbox[0], s.watermark.value;
      var refused := if Validate(b, c.config, c.codec).Some? then TerminalSet(RejectionsFor(b)) else {};
      var begun := BegunFor(c, s, b, w, archived);
      var high := |s.queue.items| >= HighWatermark(if s.queue.capacity < 0 then 0 else s.queue.capacity, c.config);
      MarkIsSaved(c, s);
      BeginAcknowledgesNothingNew(b, w, high, archived, Q.HasRoom(s.queue), c.config, c.codec);
      BegunRetains(c, s.(past := s.past.(rejected := s.past.rejected + refused)), at, begun);
    }
  }

  lemma ServerRetains(c: Settings, s: State, e: Event)
    requires Inv(c, s) && Isolated(c) && c.durable && Recoverable(s)
    requires e.Connect? || e.SaveFails? || e.SaveSucceeds? || e.Advance?
    ensures Recoverable(Next(c, s, e))
  {
    MarkIsSaved(c, s);
    if e.SaveSucceeds? && Notified(s) {
      var a := s.session.value.phase.accepted;
      assert a.observations[|a.observations| - 1].sequence == a.last;
    }
  }

  lemma OthersRetain(c: Settings, s: State, e: Event)
    requires Isolated(c) && Recoverable(s)
    requires !e.Publish? && !e.ReceiveFrame? && !e.HandleBatch?
    requires !e.Connect? && !e.SaveFails? && !e.SaveSucceeds? && !e.Advance?
    ensures Recoverable(Next(c, s, e))
  {
    OthersKeepPast(c, s, e);
    OthersKeepLink(c, s, e);
  }

  predicate Neutral(e: Event) {
    && !e.Publish? && !e.ReceiveFrame? && !e.HandleBatch?
    && !e.Connect? && !e.SaveFails? && !e.SaveSucceeds? && !e.Advance?
  }

  lemma OthersKeepPast(c: Settings, s: State, e: Event)
    requires Isolated(c) && Neutral(e)
    ensures var t := Next(c, s, e);
            t.buffer == s.buffer && t.past.published == s.past.published && t.past.rejected == s.past.rejected
            && t.checkpoint == s.checkpoint
  {
  }

  lemma OthersKeepLink(c: Settings, s: State, e: Event)
    requires Neutral(e)
    ensures var t := Next(c, s, e);
            t.link.Some? ==> s.link.Some? && t.link.value.incoming == s.link.value.incoming
  {
  }

  lemma StepRetains(c: Settings, s: State, e: Event)
    requires Inv(c, s) && Isolated(c) && c.durable && Recoverable(s)
    ensures Recoverable(Next(c, s, e))
  {
    if e.Publish? {
      PublishRetains(c, s, e.event);
    } else if e.ReceiveFrame? {
      ReceiveRetains(c, s);
    } else if e.HandleBatch? {
      HandleRetains(c, s, e.receivedAt, e.archived);
    } else if Neutral(e) {
      OthersRetain(c, s, e);
    } else {
      ServerRetains(c, s, e);
    }
  }

  lemma {:induction false} RunRetains(c: Settings, events: seq<Event>)
    requires Legal(c) && Isolated(c) && c.durable
    ensures Recoverable(Reached(c, events))
  {
    if events != [] {
      var before, e := events[..|events| - 1], events[|events| - 1];
      assert events == before + [e];
      RunRetains(c, before);
      ReachedOk(c, before);
      Unroll(c, Start(c, 0), before, e);
      StepRetains(c, Reached(c, before), e);
    }
  }

  // ---------------------------------------------------------------- starting over

  const AGAIN := [Disconnect, RestartServer] + [Connect(false), ReceiveFrame]

  /** A new server process has greeted the agent with what is saved. */
  ghost predicate Reconnected(c: Settings, s: State, t: State) {
    && t.buffer == s.buffer && t.past == s.past && t.checkpoint == s.checkpoint
    && t.session.Some? && t.session.value.phase == Ready && t.session.value.inbox == []
    && t.link == Some(Link(t.session.value.id, AwaitHello, [Hello(s.checkpoint)]))
    && t.watermark == Some(s.checkpoint) && t.queue == Q.NewQueue(c.queueCapacity) && t.work == None && !t.poisoned
    && t.notified == {}
  }

  lemma Reconnects(c: Settings, s: State)
    ensures Reconnected(c, s, Next(c, Next(c, Next(c, s, Disconnect), RestartServer), Connect(false)))
  {
  }

  ghost predicate HasNumber(entries: seq<Observation>, q: nat) {
    exists i :: 0 <= i < |entries| && entries[i].sequence == q
  }

  lemma {:induction false} GrowsByOne(kept: seq<Observation>, lo: nat, i: nat)
    requires B.Increasing(kept) && i < |kept| && lo < kept[0].sequence
    ensures kept[i].sequence >= lo + 1 + i
  {
    if i > 0 { GrowsByOne(kept, lo, i - 1); }
  }

  /** Increasing numbers that meet every number of a range and no other are the range. */
  lemma {:induction false} RangeFrom(kept: seq<Observation>, lo: nat, hi: nat, n: nat)
    requires lo + n <= hi && B.Increasing(kept)
    requires forall i :: 0 <= i < |kept| ==> lo < kept[i].sequence <= hi
    requires forall q :: lo < q <= hi ==> HasNumber(kept, q)
    ensures n <= |kept| && forall i :: 0 <= i < n ==> kept[i].sequence == lo + 1 + i
  {
    if n > 0 {
      RangeFrom(kept, lo, hi, n - 1);
      assert HasNumber(kept, lo + n);
      var i :| 0 <= i < |kept| && kept[i].sequence == lo + n;
      GrowsByOne(kept, lo, i);
      assert i == n - 1;
    }
  }

  lemma RangeEnds(kept: seq<Observation>, lo: nat, hi: nat)
    requires lo <= hi <= lo + |kept| && B.Increasing(kept)
    requires forall i :: 0 <= i < |kept| ==> lo < kept[i].sequence <= hi
    ensures |kept| == hi - lo
  {
    if kept != [] { GrowsByOne(kept, lo, |kept| - 1); }
  }

  /** Above the checkpoint the buffer is the published history itself. */
  lemma KeptIsRest(published: seq<Observation>, entries: seq<Observation>, w: nat)
    requires Numbered(published, 1) && B.Increasing(entries) && B.Genuine(entries, published) && w <= |published|
    requires forall i :: w <= i < |published| ==> published[i] in entries
    ensures B.Kept(entries, w, {}) == published[w..]
  {
    var kept := B.Kept(entries, w, {});
    B.KeptExactly(entries, w, {});
    B.KeptIncreasing(entries, w, {});
    forall i | 0 <= i < |kept|
      ensures w < kept[i].sequence <= |published| && kept[i] == published[kept[i].sequence - 1]
    {
      assert kept[i] in kept;
      var j :| 0 <= j < |entries| && entries[j] == kept[i];
    }
    forall q: nat | w < q <= |published| ensures HasNumber(kept, q) {
      var o := published[q - 1];
      assert o in entries && o.sequence == q;
      var i :| 0 <= i < |kept| && kept[i] == o;
    }
    RangeFrom(kept, w, |published|, |published| - w);
    RangeEnds(kept, w, |published|);
    SameRange(kept, published, w);
  }

  lemma SameRange(kept: seq<Observation>, published: seq<Observation>, w: nat)
    requires w <= |published| && |kept| == |published| - w
    requires forall i :: 0 <= i < |kept| ==>
               kept[i].sequence == w + 1 + i && kept[i] == published[kept[i].sequence - 1]
    ensures kept == published[w..]
  {
  }

  lemma GreetingQuiets(c: Settings, s: State, t: State)
    requires Inv(c, s) && Recoverable(s) && Reconnected(c, s, t) && s.past.rejected == {}
    requires s.checkpoint <= |s.past.published|
    ensures var u := Next(c, t, ReceiveFrame);
            && Quiet(c, u, s.checkpoint, s.past.published[s.checkpoint..])
            && u.past == s.past && u.checkpoint == s.checkpoint
  {
    forall i | s.checkpoint <= i < |s.past.published| ensures s.past.published[i] in s.buffer.entries {
      assert i + 1 !in s.past.rejected;
    }
    KeptIsRest(s.past.published, s.buffer.entries, s.checkpoint);
    assert [Hello(s.checkpoint)][1..] == [];
  }

  /** Starting over brings the protocol to rest, whatever state it was in. */
  lemma StartsOver(c: Settings, s: State)
    requires Inv(c, s) && Recoverable(s) && s.past.rejected == {} && s.checkpoint <= |s.past.published|
    ensures var u := Run(c, s, AGAIN);
            && Quiet(c, u, s.checkpoint, s.past.published[s.checkpoint..])
            && u.past == s.past && u.checkpoint == s.checkpoint
  {
    UnrollTwo(c, s, Disconnect, RestartServer);
    var s2 := Run(c, s, [Disconnect, RestartServer]);
    UnrollTwo(c, s2, Connect(false), ReceiveFrame);
    RunConcat(c, s, [Disconnect, RestartServer], [Connect(false), ReceiveFrame]);
    Reconnects(c, s);
    GreetingQuiets(c, s, Next(c, s2, Connect(false)));
  }

  // ---------------------------------------------------------------- delivering the rest

  lemma RestIsAccepted(c: Settings, s: State, w: nat)
    requires Legal(c) && Inv(c, s) && Harmless(c, s.past.published) && w < |s.past.published|
    ensures var rest := s.past.published[w..];
            NextRun(c, rest) != [] && Validate(NextBatch(c, rest), c.config, c.codec) == None
  {
    var rest := s.past.published[w..];
    var run := NextRun(c, rest);
    assert run == s.past.published[w..w + |run|];
    assert IsRun(c, s.past.published, run);
    assert Built(c, s.past.published, BuildBatch(c.cluster, run, c.codec));
    BuiltIsAccepted(c, s, BuildBatch(c.cluster, run, c.codec));
  }

  lemma {:induction false} DeliversRest(c: Settings, s: State, w: nat) returns (more: seq<Event>)
    requires Legal(c) && c.durable && Inv(c, s) && Harmless(c, s.past.published)
    requires w <= |s.past.published| && Quiet(c, s, w, s.past.published[w..]) && s.checkpoint == w
    ensures var t := Run(c, s, more);
            SamePast(s, t) && t.buffer.entries == [] && t.checkpoint == |s.past.published|
    decreases |s.past.published| - w
  {
    if w == |s.past.published| {
      more := [];
    } else {
      var rest := s.past.published[w..];
      RestIsAccepted(c, s, w);
      var first := RoundDelivers(c, s, w, rest);
      var t, k := Run(c, s, first), |NextRun(c, rest)|;
      RunKeeps(c, s, first);
      assert rest[k..] == s.past.published[w + k..];
      more := DeliversRest(c, t, w + k);
      RunConcat(c, s, first, more);
      more := first + more;
    }
  }

  /** From every reachable state of a cluster with files and marks of its own, however often streams broke,
      inserts failed or the server restarted: as long as what was published is valid and fits, some
      continuation stores all of it, saves the checkpoint of its last observation and empties the
      buffer. */
  lemma DeliveryCompletes(c: Settings, events: seq<Event>) returns (more: seq<Event>)
    requires Legal(c) && Isolated(c) && c.durable && Harmless(c, Reached(c, events).past.published)
    ensures var s, t := Reached(c, events), Reached(c, events + more);
            && t.past.published == s.past.published && t.past.rejected == {}
            && t.buffer.entries == [] && t.checkpoint == |s.past.published|
            && forall o :: o in s.past.published && IsInventory(o) ==> InStore(c, t.store, o)
  {
    var s := Reached(c, events);
    ReachedOk(c, events);
    RunRetains(c, events);
    RejectionNeedsCause(c, events);
    StartsOver(c, s);
    RunKeeps(c, s, AGAIN);
    more := DeliversRest(c, Run(c, s, AGAIN), s.checkpoint);
    RunConcat(c, s, AGAIN, more);
    more := AGAIN + more;
    RunConcat(c, Start(c, 0), events, more);
    HarmlessRunsStoreEverything(c, events + more);
  }
}
