/** What the ingestion server accepts: batch validation, the admission decision
    and the cut that drops an already persisted prefix. */
module BatchRules {
  import opened Wrappers
  import opened Wire
  import opened AgentClient

  datatype Config = Config(maxRecords: nat, maxBytes: nat, highWatermarkPercent: nat)

  datatype Fault =
    | NoBatchId | NoObservations | TooManyRecords | TooManyBytes
    | BadRange | CountMismatch | SequenceMismatch | NoEventId | NoPayload | BadInventory
    | BadChecksum

  predicate HasOperation(operation: Operation) {
    operation == Upsert || operation == Delete
  }

  predicate InventoryOk(o: Observation) {
    match o.payload
    case None => true
    case Some(Other(_)) => true
    case Some(ClusterInventory(op, _)) => HasOperation(op)
    case Some(NodeInventory(op, uid, _)) => HasOperation(op) && uid != ""
    case Some(NamespaceInventory(op, uid, _)) => HasOperation(op) && uid != ""
    case Some(DeploymentInventory(op, uid, _)) => HasOperation(op) && uid != ""
    case Some(PodInventory(op, uid, _)) => HasOperation(op) && uid != ""
    case Some(ContainerInventory(op, podUid, name, _)) => HasOperation(op) && podUid != "" && name != ""
  }

  function ObservationFault(o: Observation, expected: nat): Option<Fault> {
    if o.sequence != expected then Some(SequenceMismatch)
    else if o.eventId == "" then Some(NoEventId)
    else if o.payload.None? then Some(NoPayload)
    else if !InventoryOk(o) then Some(BadInventory)
    else None
  }

  /** The first fault in order, as the validation loop reports it. */
  function FirstFault(observations: seq<Observation>, expected: nat): Option<Fault> {
    if observations == [] then None
    else
      var fault := ObservationFault(observations[0], expected);
      if fault.Some? then fault else FirstFault(observations[1..], expected + 1)
  }

  function Validate(b: ObservationBatch, config: Config, codec: Codec): Option<Fault> {
    if b.batchId == "" then Some(NoBatchId)
    else if b.observations == [] then Some(NoObservations)
    else if |b.observations| > config.maxRecords then Some(TooManyRecords)
    else if codec.size(b) > config.maxBytes then Some(TooManyBytes)
    else if b.first == 0 || b.last < b.first then Some(BadRange)
    else if |b.observations| != b.last - b.first + 1 then Some(CountMismatch)
    else
      var fault := FirstFault(b.observations, b.first);
      if fault.Some? then fault
      else if b.checksum != codec.checksum(b.observations) then Some(BadChecksum)
      else None
  }

  predicate WithinLimits(b: ObservationBatch, config: Config, codec: Codec) {
    |b.observations| <= config.maxRecords && codec.size(b) <= config.maxBytes
  }

  /** An inventory record says what happened and to which object: an upsert or a delete, of an object
      with a UID, for a container of a named container of a pod with a UID. */
  ghost predicate Complete(p: Payload) {
    && (!p.Other? ==> p.operation != Unspecified)
    && (p.NodeInventory? || p.NamespaceInventory? || p.DeploymentInventory? || p.PodInventory? ==> p.uid != "")
    && (p.ContainerInventory? ==> p.podUid != "" && p.containerName != "")
  }

  /** The inventory rules demand completeness and nothing more; without a payload they are silent. */
  lemma InventoryExactly(o: Observation)
    ensures InventoryOk(o) <==> (o.payload.Some? ==> Complete(o.payload.value))
  {
  }

  ghost predicate Acceptable(o: Observation) {
    o.eventId != "" && o.payload.Some? && Complete(o.payload.value)
  }

  /** A well-made batch, whatever the configured limits: a non-empty run of acceptable
      observations that is exactly first..last. */
  ghost predicate Sound(b: ObservationBatch, codec: Codec) {
    && b.batchId != "" && 0 < b.first <= b.last
    && |b.observations| == b.last - b.first + 1
    && Numbered(b.observations, b.first)
    && (forall i :: 0 <= i < |b.observations| ==> Acceptable(b.observations[i]))
    && b.checksum == codec.checksum(b.observations)
  }

  lemma {:induction false} FaultFreeRun(observations: seq<Observation>, expected: nat)
    ensures FirstFault(observations, expected) == None <==>
            && Numbered(observations, expected)
            && forall i :: 0 <= i < |observations| ==> Acceptable(observations[i])
  {
    if observations != [] {
      var rest := observations[1..];
      InventoryExactly(observations[0]);
      FaultFreeRun(rest, expected + 1);
      if FirstFault(observations, expected) == None {
        forall i | 0 <= i < |observations|
          ensures observations[i].sequence == expected + i && Acceptable(observations[i]) {
          if i > 0 { assert observations[i] == rest[i - 1]; }
        }
      }
      if Numbered(observations, expected) && forall i :: 0 <= i < |observations| ==> Acceptable(observations[i]) {
        assert forall i :: 0 <= i < |rest| ==> rest[i] == observations[i + 1];
        assert Acceptable(observations[0]);
      }
    }
  }

  /** Validation accepts exactly the sound batches within the limits. */
  lemma ValidateExactly(b: ObservationBatch, config: Config, codec: Codec)
    ensures Validate(b, config, codec) == None <==> Sound(b, codec) && WithinLimits(b, config, codec)
  {
    FaultFreeRun(b.observations, b.first);
  }

  /** A batch the client builds from a contiguous run of published observations breaks no
      range, count, sequence, event id, payload or checksum rule: only the size limits or
      the inventory content can make the server refuse it. */
  lemma ClientBatchesMeetSequenceRules(
      clusterId: string, run: seq<Observation>, first: nat, config: Config, codec: Codec)
    requires run != [] && first > 0 && Numbered(run, first)
    requires forall i :: 0 <= i < |run| ==> run[i].eventId != "" && run[i].payload.Some?
    ensures var b := BuildBatch(clusterId, run, codec);
            && (Validate(b, config, codec) in {None, Some(TooManyRecords), Some(TooManyBytes), Some(BadInventory)})
            && (Validate(b, config, codec) == None <==>
                WithinLimits(b, config, codec) && forall i :: 0 <= i < |run| ==> Complete(run[i].payload.value))
  {
    var b := BuildBatch(clusterId, run, codec);
    assert b.last == first + |run| - 1;
    OnlyInventoryFaults(run, first);
    ValidateExactly(b, config, codec);
    if forall i :: 0 <= i < |run| ==> Complete(run[i].payload.value) {
      assert Sound(b, codec);
    }
  }

  lemma {:induction false} OnlyInventoryFaults(run: seq<Observation>, first: nat)
    requires Numbered(run, first)
    requires forall i :: 0 <= i < |run| ==> run[i].eventId != "" && run[i].payload.Some?
    ensures FirstFault(run, first) in {None, Some(BadInventory)}
  {
    if run != [] {
      assert forall i :: 0 <= i < |run[1..]| ==> run[1..][i] == run[i + 1];
      OnlyInventoryFaults(run[1..], first + 1);
    }
  }

  /** The batch without its prefix up to `persisted`. */
  function SuffixAfter(b: ObservationBatch, persisted: nat, codec: Codec): ObservationBatch
    requires persisted < b.last && |b.observations| == b.last - b.first + 1
  {
    if b.first > persisted then b
    else
      var rest := b.observations[persisted + 1 - b.first..];
      b.(first := persisted + 1, observations := rest, checksum := codec.checksum(rest))
  }

  /** Cutting a sound batch at a watermark inside it or just before it leaves a sound batch
      that covers exactly persisted+1..last with the same observations. */
  lemma SuffixIsSound(b: ObservationBatch, persisted: nat, codec: Codec)
    requires Sound(b, codec) && b.first <= persisted + 1 <= b.last
    ensures var s := SuffixAfter(b, persisted, codec);
            && Sound(s, codec) && s.first == persisted + 1 && s.last == b.last && s.batchId == b.batchId
            && forall o :: o in s.observations <==> o in b.observations && persisted < o.sequence
  {
    var s := SuffixAfter(b, persisted, codec);
    var cut := persisted + 1 - b.first;
    assert s.observations == b.observations[cut..];
    forall i | 0 <= i < |s.observations|
      ensures s.observations[i].sequence == persisted + 1 + i && Acceptable(s.observations[i]) {
      assert s.observations[i] == b.observations[cut + i];
    }
    forall o | o in b.observations && persisted < o.sequence ensures o in s.observations {
      var i :| 0 <= i < |b.observations| && b.observations[i] == o;
      assert s.observations[i - cut] == o;
    }
  }

  /** The decision `handleBatch` takes before it touches the archive and the queue. */
  datatype Admission =
    | Refused(fault: Fault)
    | Duplicate
    | Gap(first: nat, last: nat)
    | Admitted(accepted: ObservationBatch)

  function Admit(b: ObservationBatch, persisted: nat, config: Config, codec: Codec): Admission {
    var fault := Validate(b, config, codec);
    if fault.Some? then Refused(fault.value)
    else if b.last <= persisted then Duplicate
    else if b.first > persisted + 1 then Gap(persisted + 1, b.first - 1)
    else Admitted(SuffixAfter(b, persisted, codec))
  }

  /** An admitted batch extends the watermark without a gap; a duplicate adds nothing; a gap
      report asks for exactly the missing sequences. */
  lemma AdmissionIsGapFree(b: ObservationBatch, persisted: nat, config: Config, codec: Codec)
    ensures match Admit(b, persisted, config, codec)
            case Refused(_) => !Sound(b, codec) || !WithinLimits(b, config, codec)
            case Duplicate => Sound(b, codec) && forall o :: o in b.observations ==> o.sequence <= persisted
            case Gap(lo, hi) => Sound(b, codec) && lo == persisted + 1 <= hi == b.first - 1
            case Admitted(a) =>
              && Sound(b, codec) && Sound(a, codec)
              && a.first == persisted + 1 && a.last == b.last && a.batchId == b.batchId
              && forall o :: o in a.observations <==> o in b.observations && persisted < o.sequence
  {
    ValidateExactly(b, config, codec);
    match Admit(b, persisted, config, codec)
    case Admitted(a) => SuffixIsSound(b, persisted, codec);
    case _ =>
  }

  /** One terminal rejection per observation; an empty batch rejects its first sequence. */
  function RejectionsFor(b: ObservationBatch): (r: seq<Rejection>)
    ensures TerminalSet(r) == (if b.observations == [] then {b.first} else set o | o in b.observations :: o.sequence)
  {
    if b.observations == [] then [Rejection(b.first, false)]
    else
      var r := seq(|b.observations|, i requires 0 <= i < |b.observations| =>
        Rejection(b.observations[i].sequence, false));
      assert TerminalSet(r) == (set o | o in b.observations :: o.sequence) by {
        forall o | o in b.observations ensures o.sequence in TerminalSet(r) {
          var i :| 0 <= i < |b.observations| && b.observations[i] == o;
          assert r[i] in r && !r[i].retryable;
        }
      }
      r
  }
}
