/** The messages that travel between the cluster agent and the ingestion service. */
module Wire {
  import opened Wrappers

  /** An absent inventory record reads as `Unspecified`. */
  datatype Operation = Unspecified | Upsert | Delete

  /** Six inventory kinds become rows; metrics and snapshot markers are `Other`.
      `body` stands for the attributes that are only copied. */
  datatype Payload =
    | ClusterInventory(operation: Operation, body: string)
    | NodeInventory(operation: Operation, uid: string, body: string)
    | NamespaceInventory(operation: Operation, uid: string, body: string)
    | DeploymentInventory(operation: Operation, uid: string, body: string)
    | PodInventory(operation: Operation, uid: string, body: string)
    | ContainerInventory(operation: Operation, podUid: string, containerName: string, body: string)
    | Other(body: string)

  /** `observedAt` is `None` for a missing or invalid timestamp. */
  datatype Observation = Observation(
    sequence: nat, eventId: string, observedAt: Option<int>, payload: Option<Payload>)

  datatype ObservationBatch = ObservationBatch(
    batchId: string, first: nat, last: nat, checksum: string, observations: seq<Observation>)

  /** A batch with the identity the server attaches to it before queueing it. */
  datatype Envelope = Envelope(tenant: string, cluster: string, receivedAt: int, batch: ObservationBatch)

  /** The hash and encoding functions, and what the row mappers keep of the attributes beside kind,
      operation and identity; every theorem holds for any choice of them. */
  datatype Codec = Codec(
    checksum: seq<Observation> -> string,
    size: ObservationBatch -> nat,
    eventId: (string, Observation) -> string,
    uuid: string -> string,
    columns: Payload -> string)

  /** A hexadecimal digest is never the empty string. */
  ghost predicate WellFormed(codec: Codec) {
    forall key, o :: codec.eventId(key, o) != ""
  }

  predicate IsInventory(o: Observation) {
    o.payload.Some? && !o.payload.value.Other?
  }

  /** `observations` carry the sequences first, first+1, ... in order. */
  ghost predicate Numbered(observations: seq<Observation>, first: nat) {
    forall i :: 0 <= i < |observations| ==> observations[i].sequence == first + i
  }
}
