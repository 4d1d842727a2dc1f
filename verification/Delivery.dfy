/** The delivery protocol as one state machine: agent buffer, stream, server watermark, lease
    queue, worker, checkpoint file and store, with every failure as an event of its own.
    A run is any sequence of events; an event that is not possible changes nothing. */
module Delivery {
  import opened Wrappers
  import opened Wire
  import opened AgentClient
  import opened BatchRules
  import opened Persistence
  import opened Checkpoints
  import opened IngestionServer
  import B = AgentBuffer
  import Q = BatchQueue

  datatype Sender = Sender(tenant: string, cluster: string)

  /** `durable` says whether checkpoints go to files below `root` or only to memory; `others` are
      the other tenants and clusters that use the same server. */
  datatype Settings = Settings(
    tenant: string, cluster: string, batchSize: nat, bufferCapacity: int, queueCapacity: int,
    leaseSize: int, durable: bool, root: Directory, others: set<Sender>, config: Config, codec: Codec)

  /** What the configuration checks and the handshake guarantee. */
  ghost predicate Legal(c: Settings) {
    && c.tenant != "" && c.cluster != "" && c.batchSize > 0 && WellFormed(c.codec)
    && Sender(c.tenant, c.cluster) !in c.others
    && forall o :: o in c.others ==> o.tenant != "" && o.cluster != ""
  }

  predicate SharesFile(c: Settings, o: Sender) {
    c.durable && PathOf(c.root, o.tenant, o.cluster) == PathOf(c.root, c.tenant, c.cluster)
  }

  predicate SharesKey(c: Settings, o: Sender) {
    ClusterKey(o.tenant, o.cluster) == ClusterKey(c.tenant, c.cluster)
  }

  /** No other sender has the followed cluster's checkpoint file or in-memory key. */
  ghost predicate Isolated(c: Settings) {
    forall o :: o in c.others ==> !SharesFile(c, o) && !SharesKey(c, o)
  }

  /** Every other sender has both of them or neither. */
  ghost predicate Aligned(c: Settings) {
    forall o :: o in c.others ==> (SharesFile(c, o) <==> SharesKey(c, o))
  }

  datatype AgentPhase = AwaitHello | Idle | AwaitAck(batchId: string)

  datatype Link = Link(session: nat, phase: AgentPhase, incoming: seq<Frame>)

  datatype ServerPhase =
    | Ready
    | AwaitCommit(batch: ObservationBatch, accepted: ObservationBatch, id: nat)
    | Saved(batch: ObservationBatch)

  datatype Session = Session(id: nat, phase: ServerPhase, inbox: seq<ObservationBatch>)

  /** `id` stands for the batch's own notification channel. */
  datatype Queued = Queued(id: nat, envelope: Envelope)

  /** A lease held by the worker, with the inserts it has still to make. */
  datatype Work = Work(items: seq<Queued>, pending: seq<Insert>)

  /** What happened so far: every observation numbered, the sequences whose lease was committed
      and the sequences the server rejected for good. Nothing in the program reads it. */
  datatype History = History(published: seq<Observation>, committed: set<nat>, rejected: set<nat>)

  /** `marks` are the in-memory watermarks of the other senders' keys. */
  datatype State = State(
    buffer: B.BufferState, link: Option<Link>,
    session: Option<Session>, sessions: nat, watermark: Option<nat>, checkpoint: nat,
    queue: Q.QueueState<Queued>, work: Option<Work>, ids: nat, notified: set<nat>, poisoned: bool,
    marks: map<string, nat>, store: seq<Row>, past: History)

  /** A fresh agent buffer against a fresh server process that finds `checkpoint` on disk. */
  function Start(c: Settings, checkpoint: nat): State {
    State(B.Fresh(c.bufferCapacity), None, None, 0, None, if c.durable then checkpoint else 0,
          Q.NewQueue(c.queueCapacity), None, 0, {}, false, map[], [], History([], {}, {}))
  }

  datatype Event =
    | Publish(event: B.Event)
    | Connect(loadFails: bool)
    | Disconnect
    | SendBatch
    | ReceiveFrame
    | HandleBatch(receivedAt: int, archived: bool)
    | SaveFails
    | SaveSucceeds
    | Advance
    | EndSession
    | AcquireLease
    | InsertSucceeds
    | InsertFails(landed: seq<Row>)
    | CommitLease
    | RestartServer
    | ForeignEnqueue(envelope: Envelope)
    | ForeignConnect(sender: Sender, own: nat)
    | ForeignSave(sender: Sender, sequence: nat)

  predicate Focus(c: Settings, e: Envelope) {
    e.tenant == c.tenant && e.cluster == c.cluster
  }

  function Envelopes(items: seq<Queued>): seq<Envelope> {
    seq(|items|, i requires 0 <= i < |items| => items[i].envelope)
  }

  /** Sequences of the followed cluster among leased items. */
  function FocusSequences(c: Settings, items: seq<Queued>): set<nat> {
    set q, o | q in items && Focus(c, q.envelope) && o in q.envelope.batch.observations :: o.sequence
  }

  /** A frame reaches the agent only over the stream it was sent on. */
  function Deliver(s: State, session: nat, frames: seq<Frame>): State {
    if s.link.Some? && s.link.value.session == session
    then s.(link := Some(s.link.value.(incoming := s.link.value.incoming + frames)))
    else s
  }

  ghost function Next(c: Settings, s: State, e: Event): State {
    match e
    case Publish(event) =>
      if B.PublishOutcomeOf(s.buffer, event) != B.Published then s else
        s.(buffer := B.AfterPublish(s.buffer, event, c.codec),
           past := s.past.(published := s.past.published + [B.Stamp(event, s.buffer.next, c.codec)]))
    case Connect(loadFails) =>
      if s.link.Some? || s.session.Some? || (s.watermark.None? && loadFails) then s else
        var w := if s.watermark.Some? then s.watermark.value else s.checkpoint;
        s.(watermark := Some(w), sessions := s.sessions + 1,
           session := Some(Session(s.sessions, Ready, [])),
           link := Some(Link(s.sessions, AwaitHello, [Hello(w)])))
    case Disconnect => s.(link := None)
    case SendBatch =>
      if s.link.None? || s.link.value.phase != Idle || s.buffer.entries == [] || c.batchSize == 0 then s else
        var b := BuildBatch(c.cluster, B.Front(s.buffer.entries, c.batchSize), c.codec);
        var s' := s.(link := Some(s.link.value.(phase := AwaitAck(b.batchId))));
        if s.session.Some? && s.session.value.id == s.link.value.session
        then s'.(session := Some(s.session.value.(inbox := s.session.value.inbox + [b])))
        else s'
    case ReceiveFrame =>
      if s.link.None? || s.link.value.incoming == [] then s else AfterFrame(s, s.link.value)
    case HandleBatch(at, archived) =>
      if s.session.None? || s.session.value.phase != Ready || s.session.value.inbox == [] || s.watermark.None?
      then s else AfterHandle(c, s, s.session.value, s.watermark.value, at, archived)
    case SaveFails =>
      if !Notified(s) || s.watermark.None? then s else
        var n := s.session.value;
        Deliver(s.(session := Some(n.(phase := Ready))), n.id,
                [RetryAck(n.phase.batch, s.watermark.value, n.phase.accepted.first, n.phase.accepted.last)])
    case SaveSucceeds =>
      if !Notified(s) then s else
        var n := s.session.value;
        s.(checkpoint := if c.durable then n.phase.batch.last else s.checkpoint,
           session := Some(n.(phase := Saved(n.phase.batch))))
    case Advance =>
      if s.session.None? || !s.session.value.phase.Saved? then s else
        var n := s.session.value;
        var b := n.phase.batch;
        Deliver(s.(watermark := Some(b.last), session := Some(n.(phase := Ready))), n.id,
                [Ack(b.batchId, b.last, b.last, None, [])])
    case EndSession => if s.session.Some? && s.session.value.phase.Saved? then s else s.(session := None)
    case AcquireLease =>
      if s.work.Some? || s.poisoned || s.queue.items == [] then s else
        var items := s.queue.items[..Q.LeaseCount(s.queue, c.leaseSize)];
        var rows := MapAll(Envelopes(items), c.codec);
        if rows.None? then s.(poisoned := true) else
          s.(queue := Q.AfterAcquire(s.queue, c.leaseSize), work := Some(Work(items, Plan(rows.value))))
    case InsertSucceeds =>
      if s.work.None? || s.work.value.pending == [] then s else
        var w := s.work.value;
        s.(store := s.store + w.pending[0].rows, work := Some(w.(pending := w.pending[1..])))
    case InsertFails(landed) =>
      if s.work.None? || s.work.value.pending == []
         || exists r :: r in landed && r !in s.work.value.pending[0].rows then s else
        s.(store := s.store + landed, queue := Q.AfterRetry(s.queue, s.work.value.items), work := None)
    case CommitLease =>
      if s.work.None? || s.work.value.pending != [] then s else
        var items := s.work.value.items;
        s.(queue := Q.AfterCommit(s.queue, items), work := None,
           notified := s.notified + (set q | q in items :: q.id),
           past := s.past.(committed := s.past.committed + FocusSequences(c, items)))
    case RestartServer =>
      s.(session := None, watermark := None, queue := Q.NewQueue(c.queueCapacity), work := None,
         notified := {}, poisoned := false, marks := map[])
    case ForeignEnqueue(env) =>
      if Sender(env.tenant, env.cluster) !in c.others || !Sound(env.batch, c.codec) || !Q.HasRoom(s.queue)
      then s else s.(queue := Q.AfterEnqueue(s.queue, Queued(s.ids, env)), ids := s.ids + 1)
    case ForeignConnect(o, own) => AfterForeignConnect(c, s, o, own)
    case ForeignSave(o, sequence) => AfterForeignSave(c, s, o, sequence)
  }

  /** A stream of another sender starts; `own` is what its file says if that is not the followed
      cluster's. A sender with the same key is turned away while the followed cluster is connected. */
  function AfterForeignConnect(c: Settings, s: State, o: Sender, own: nat): State {
    var key, found := ClusterKey(o.tenant, o.cluster), if SharesFile(c, o) then s.checkpoint else own;
    if o !in c.others then s
    else if SharesKey(c, o) then
      if s.session.Some? || s.watermark.Some? then s else s.(watermark := Some(found))
    else if key in s.marks then s else s.(marks := s.marks[key := found])
  }

  /** Its batch up to `sequence` was stored and its checkpoint saved: only a number above the mark of
      its key gets that far. */
  function AfterForeignSave(c: Settings, s: State, o: Sender, sequence: nat): State {
    var key := ClusterKey(o.tenant, o.cluster);
    var file := if SharesFile(c, o) then sequence else s.checkpoint;
    if o !in c.others then s
    else if SharesKey(c, o) then
      if s.session.Some? || s.watermark.None? || sequence <= s.watermark.value then s
      else s.(checkpoint := file, watermark := Some(sequence))
    else if key !in s.marks || sequence <= s.marks[key] then s
    else s.(checkpoint := file, marks := s.marks[key := sequence])
  }

  predicate Notified(s: State) {
    s.session.Some? && s.session.value.phase.AwaitCommit? && s.session.value.phase.id in s.notified
  }

  /** The agent takes the next frame off its stream. */
  function AfterFrame(s: State, l: Link): State
    requires l.incoming != []
  {
    var frame, rest := l.incoming[0], l.incoming[1..];
    match l.phase
    case AwaitHello =>
      if !frame.Hello? then s.(link := None) else
        s.(link := Some(l.(phase := Idle, incoming := rest)),
           buffer := B.AfterAcknowledge(s.buffer, frame.acceptedThrough, {}))
    case Idle => s.(link := Some(l.(incoming := rest)))
    case AwaitAck(id) =>
      if !Concerns(frame, id) then s.(link := Some(l.(incoming := rest))) else
        s.(link := Some(l.(phase := Idle, incoming := rest)),
           buffer := B.AfterAcknowledge(s.buffer, frame.persisted, TerminalSet(frame.rejections)))
  }

  /** The server takes the next batch: it answers, or queues and waits. */
  function AfterHandle(c: Settings, s: State, n: Session, w: nat, at: int, archived: bool): State
    requires n.inbox != []
  {
    var b := n.inbox[0];
    var refused := if Validate(b, c.config, c.codec).Some? then TerminalSet(RejectionsFor(b)) else {};
    AfterBegun(c, s.(past := s.past.(rejected := s.past.rejected + refused)), n, at, BegunFor(c, s, b, w, archived))
  }

  function BegunFor(c: Settings, s: State, b: ObservationBatch, w: nat, archived: bool): Begun {
    var capacity := if s.queue.capacity < 0 then 0 else s.queue.capacity;
    Begin(b, w, |s.queue.items| >= HighWatermark(capacity, c.config), archived, Q.HasRoom(s.queue), c.config, c.codec)
  }

  function AfterBegun(c: Settings, s: State, n: Session, at: int, begun: Begun): State
    requires n.inbox != []
  {
    var n' := n.(inbox := n.inbox[1..]);
    var s' := Deliver(s, n.id, begun.frames);
    match begun.accepted
    case None => s'.(session := Some(n'))
    case Some(a) =>
      s'.(session := Some(n'.(phase := AwaitCommit(n.inbox[0], a, s.ids))), ids := s.ids + 1,
          queue := Q.AfterEnqueue(s.queue, Queued(s.ids, Envelope(c.tenant, c.cluster, at, a))))
  }

  ghost function Run(c: Settings, s: State, events: seq<Event>): State {
    if events == [] then s else Next(c, Run(c, s, events[..|events| - 1]), events[|events| - 1])
  }

  // ---------------------------------------------------------------- what is promised

  /** Every sequence up to n has been committed. */
  ghost predicate Prefix(past: History, n: nat) {
    n <= |past.published| && forall q: nat :: 1 <= q <= n ==> q in past.committed
  }

  /** `r` is the row of observation `o`; a missing timestamp takes the time of receipt. */
  ghost predicate RowFor(c: Settings, o: Observation, r: Row) {
    Records(r, c.tenant, c.cluster, r.observedAt, o, c.codec)
  }

  ghost predicate InStore(c: Settings, store: seq<Row>, o: Observation) {
    exists r :: r in store && RowFor(c, o, r)
  }

  /** An observation that left the buffer is stored or was rejected. */
  ghost predicate NoLoss(c: Settings, s: State) {
    forall q :: 1 <= q <= |s.past.published| && IsInventory(s.past.published[q - 1]) ==>
                  || s.past.published[q - 1] in s.buffer.entries
                  || q in s.past.rejected
                  || InStore(c, s.store, s.past.published[q - 1])
  }
}
