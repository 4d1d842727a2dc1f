/** The agent's bounded outbound buffer: it numbers observations, hands out
    contiguous batches and forgets entries once they are acknowledged. */
module AgentBuffer {
  import opened Wrappers
  import opened Wire

  datatype BufferState = BufferState(
    entries: seq<Observation>, next: nat, persisted: nat, capacity: int, closed: bool)

  datatype Event = Event(key: string, observation: Observation)

  datatype PublishOutcome = Invalid | Closed | WouldBlock | Published

  /** `published` is everything ever numbered: position i holds sequence i + 1. */
  ghost predicate History(published: seq<Observation>) {
    && Numbered(published, 1)
    && forall i :: 0 <= i < |published| ==> published[i].eventId != "" && published[i].payload.Some?
  }

  ghost predicate Increasing(entries: seq<Observation>) {
    forall i, j :: 0 <= i < j < |entries| ==> entries[i].sequence < entries[j].sequence
  }

  /** Every observation is the one published under its sequence. */
  ghost predicate Genuine(observations: seq<Observation>, published: seq<Observation>) {
    forall i :: 0 <= i < |observations| ==>
                  && 1 <= observations[i].sequence <= |published|
                  && observations[i] == published[observations[i].sequence - 1]
  }

  ghost predicate Consistent(b: BufferState, published: seq<Observation>) {
    && History(published)
    && b.next == |published| + 1
    && Increasing(b.entries)
    && Genuine(b.entries, published)
    && (b.entries == [] || |b.entries| <= b.capacity)
  }

  function Fresh(capacity: int): BufferState {
    BufferState([], 1, 0, capacity, false)
  }

  function Stamp(event: Event, sequence: nat, codec: Codec): Observation {
    var o := event.observation.(sequence := sequence);
    o.(eventId := codec.eventId(event.key, o.(sequence := 0, eventId := "")))
  }

  function PublishOutcomeOf(b: BufferState, event: Event): PublishOutcome {
    if event.key == "" || event.observation.payload.None? then Invalid
    else if b.closed then Closed
    else if |b.entries| < b.capacity then Published
    else WouldBlock
  }

  function AfterPublish(b: BufferState, event: Event, codec: Codec): BufferState {
    if PublishOutcomeOf(b, event) == Published then
      b.(entries := b.entries + [Stamp(event, b.next, codec)], next := b.next + 1)
    else b
  }

  /** Where the batch loop stops when it starts from `count`. */
  function Shrink(entries: seq<Observation>, count: nat): (n: nat)
    requires count <= |entries|
    ensures n <= count
    ensures count > 0 ==> n > 0
  {
    if count > 1 && entries[count - 1].sequence != entries[0].sequence + (count - 1)
    then Shrink(entries, count - 1) else count
  }

  function Front(entries: seq<Observation>, maximum: nat): seq<Observation> {
    entries[..Shrink(entries, if maximum < |entries| then maximum else |entries|)]
  }

  /** What stays after an acknowledgement. */
  function Kept(entries: seq<Observation>, through: nat, terminal: set<nat>): seq<Observation> {
    if entries == [] then [] else
      var n := |entries| - 1;
      var kept := Kept(entries[..n], through, terminal);
      if entries[n].sequence <= through || entries[n].sequence in terminal then kept else kept + [entries[n]]
  }

  function AfterAcknowledge(b: BufferState, through: nat, terminal: set<nat>): BufferState {
    b.(entries := Kept(b.entries, through, terminal),
       persisted := if through > b.persisted then through else b.persisted)
  }

  lemma {:induction false} KeptExactly(entries: seq<Observation>, through: nat, terminal: set<nat>)
    ensures forall o :: o in Kept(entries, through, terminal) <==>
                        o in entries && through < o.sequence && o.sequence !in terminal
    ensures |Kept(entries, through, terminal)| <= |entries|
  {
    if entries != [] {
      var n := |entries| - 1;
      KeptExactly(entries[..n], through, terminal);
      assert entries == entries[..n] + [entries[n]];
    }
  }

  lemma {:induction false} KeptIncreasing(entries: seq<Observation>, through: nat, terminal: set<nat>)
    requires Increasing(entries)
    ensures Increasing(Kept(entries, through, terminal))
  {
    if entries != [] {
      var n := |entries| - 1;
      KeptIncreasing(entries[..n], through, terminal);
      KeptExactly(entries[..n], through, terminal);
      var kept := Kept(entries[..n], through, terminal);
      forall i | 0 <= i < |kept| ensures kept[i].sequence < entries[n].sequence {
        assert kept[i] in kept;
      }
    }
  }

  /** Strictly increasing naturals that end where a contiguous run would end are that run. */
  lemma SqueezedRun(entries: seq<Observation>, count: nat)
    requires 0 < count <= |entries| && Increasing(entries)
    requires entries[count - 1].sequence == entries[0].sequence + (count - 1)
    ensures Numbered(entries[..count], entries[0].sequence)
  {
    forall i | 0 <= i < count ensures entries[i].sequence == entries[0].sequence + i {
      GrowsByOne(entries, 0, i);
      GrowsByOne(entries, i, count - 1);
    }
  }

  lemma {:induction false} GrowsByOne(entries: seq<Observation>, i: nat, j: nat)
    requires i <= j < |entries| && Increasing(entries)
    ensures entries[j].sequence - entries[i].sequence >= j - i
    decreases j - i
  {
    if i < j { GrowsByOne(entries, i, j - 1); }
  }

  lemma {:induction false} ShrinkMaximal(entries: seq<Observation>, count: nat, m: nat)
    requires 0 < count <= |entries|
    requires Shrink(entries, count) < m <= count
    ensures !Numbered(entries[..m], entries[0].sequence)
  {
    if m == count {
      assert entries[..m][m - 1].sequence != entries[0].sequence + (m - 1);
    } else {
      ShrinkMaximal(entries, count - 1, m);
    }
  }

  lemma {:induction false} ShrinkStops(entries: seq<Observation>, count: nat)
    requires 0 < count <= |entries|
    ensures var n := Shrink(entries, count);
            entries[n - 1].sequence == entries[0].sequence + (n - 1)
  {
    if Shrink(entries, count) != count { ShrinkStops(entries, count - 1); }
  }

  /** The batch is the longest contiguous run at the front, up to the maximum,
      gaps left by terminal rejections included. */
  lemma FrontIsLongestRun(entries: seq<Observation>, maximum: nat)
    requires Increasing(entries) && entries != [] && maximum > 0
    ensures var f := Front(entries, maximum);
            && 0 < |f| <= maximum && f == entries[..|f|]
            && Numbered(f, entries[0].sequence)
            && forall m :: |f| < m <= |entries| && m <= maximum ==>
                             !Numbered(entries[..m], entries[0].sequence)
  {
    var count := if maximum < |entries| then maximum else |entries|;
    var n := Shrink(entries, count);
    ShrinkStops(entries, count);
    SqueezedRun(entries, n);
    forall m | n < m <= |entries| && m <= maximum ensures !Numbered(entries[..m], entries[0].sequence) {
      ShrinkMaximal(entries, count, m);
    }
  }

  lemma PublishKeepsConsistent(b: BufferState, published: seq<Observation>, event: Event, codec: Codec)
    requires Consistent(b, published) && WellFormed(codec)
    ensures var b' := AfterPublish(b, event, codec);
            Consistent(b', if PublishOutcomeOf(b, event) == Published
                           then published + [Stamp(event, b.next, codec)] else published)
  {
    if PublishOutcomeOf(b, event) == Published {
      var o := Stamp(event, b.next, codec);
      var p' := published + [o];
      assert forall i :: 0 <= i < |published| ==> p'[i] == published[i];
      assert p'[o.sequence - 1] == o;
    }
  }

  lemma AcknowledgeKeepsConsistent(b: BufferState, published: seq<Observation>, through: nat, terminal: set<nat>)
    requires Consistent(b, published)
    ensures Consistent(AfterAcknowledge(b, through, terminal), published)
  {
    KeptIncreasing(b.entries, through, terminal);
    KeptExactly(b.entries, through, terminal);
    var kept := Kept(b.entries, through, terminal);
    forall i | 0 <= i < |kept|
      ensures 1 <= kept[i].sequence <= |published| && kept[i] == published[kept[i].sequence - 1] {
      assert kept[i] in kept;
    }
  }

  /** The uses that change a buffer. */
  datatype Use = Publishing(event: Event) | Acknowledging(through: nat, terminal: set<nat>) | Closing

  function AfterUses(b: BufferState, uses: seq<Use>, codec: Codec): BufferState {
    if uses == [] then b else
      var before := AfterUses(b, uses[..|uses| - 1], codec);
      match uses[|uses| - 1]
      case Publishing(event) => AfterPublish(before, event, codec)
      case Acknowledging(through, terminal) => AfterAcknowledge(before, through, terminal)
      case Closing => before.(closed := true)
  }

  /** What the buffer refuses, as opposed to making it wait, it refuses for good. */
  lemma {:induction false} RefusalIsFinal(b: BufferState, uses: seq<Use>, event: Event, codec: Codec)
    requires PublishOutcomeOf(b, event) == Invalid || PublishOutcomeOf(b, event) == Closed
    ensures PublishOutcomeOf(AfterUses(b, uses, codec), event) == PublishOutcomeOf(b, event)
  {
    if uses != [] { RefusalIsFinal(b, uses[..|uses| - 1], event, codec); }
  }

  lemma {:induction false} CapacityStays(b: BufferState, uses: seq<Use>, codec: Codec)
    ensures AfterUses(b, uses, codec).capacity == b.capacity
  {
    if uses != [] { CapacityStays(b, uses[..|uses| - 1], codec); }
  }

  /** Settling everything that is buffered. */
  function Emptying(b: BufferState): seq<Use> {
    [Acknowledging(0, set o | o in b.entries :: o.sequence)]
  }

  lemma {:induction false} NothingKept(entries: seq<Observation>, terminal: set<nat>)
    requires forall o :: o in entries ==> o.sequence in terminal
    ensures Kept(entries, 0, terminal) == []
  {
    if entries != [] { NothingKept(entries[..|entries| - 1], terminal); }
  }

  lemma EmptyingEmpties(b: BufferState, codec: Codec)
    ensures AfterUses(b, Emptying(b), codec) == b.(entries := [])
  {
    var terminal := set o | o in b.entries :: o.sequence;
    NothingKept(b.entries, terminal);
    assert Emptying(b)[..0] == [];
    assert AfterUses(b, [], codec) == b;
  }

  /** An event can never be published any more exactly when it is invalid, the buffer is closed or
      has no room at all. A wait for room that is cut short refuses nothing: a later call succeeds
      once what is buffered has been settled. */
  lemma RefusedForGoodExactly(b: BufferState, event: Event, codec: Codec)
    ensures (forall uses :: PublishOutcomeOf(AfterUses(b, uses, codec), event) != Published) <==>
            event.key == "" || event.observation.payload == None || b.closed || b.capacity < 1
    ensures PublishOutcomeOf(b, event) == WouldBlock && b.capacity >= 1 ==>
              PublishOutcomeOf(AfterUses(b, Emptying(b), codec), event) == Published
  {
    EmptyingEmpties(b, codec);
    if PublishOutcomeOf(b, event) in {Invalid, Closed} || b.capacity < 1 {
      forall uses ensures PublishOutcomeOf(AfterUses(b, uses, codec), event) != Published {
        CapacityStays(b, uses, codec);
        if b.capacity >= 1 { RefusalIsFinal(b, uses, event, codec); }
      }
    } else {
      assert PublishOutcomeOf(AfterUses(b, Emptying(b), codec), event) == Published;
    }
  }

  /** The buffer itself. `history` is ghost: everything it ever numbered. */
  class Buffer {
    var entries: seq<Observation>
    var next: nat
    var persisted: nat
    const capacity: int
    var closed: bool
    ghost var history: seq<Observation>

    function State(): BufferState
      reads this
    {
      BufferState(entries, next, persisted, capacity, closed)
    }

    ghost predicate Valid()
      reads this
    {
      Consistent(State(), history)
    }

    constructor (capacity: int)
      ensures Valid() && State() == BufferState([], 1, 0, capacity, false) && history == []
    {
      this.capacity := capacity;
      entries, next, persisted, closed := [], 1, 0, false;
      history := [];
    }

    /** One pass of the publish loop; `WouldBlock` is where the caller waits for room, or gives up. */
    method Publish(event: Event, codec: Codec) returns (outcome: PublishOutcome)
      requires Valid() && WellFormed(codec)
      modifies this
      ensures Valid()
      ensures outcome == old(PublishOutcomeOf(State(), event))
      ensures outcome == Invalid <==> event.key == "" || event.observation.payload == None
      ensures outcome in {Closed, Invalid} <==> outcome == Invalid || old(closed)
      ensures outcome == Published <==> outcome != Invalid && !old(closed) && |old(entries)| < capacity
      ensures State() == old(AfterPublish(State(), event, codec))
      ensures outcome == Published ==>
                history == old(history) + [entries[|entries| - 1]] && entries[|entries| - 1].sequence == old(next)
      ensures outcome == Published ==>
                var o := entries[|entries| - 1];
                && o.payload == event.observation.payload && o.observedAt == event.observation.observedAt
                && o.eventId == codec.eventId(event.key, Observation(0, "", o.observedAt, o.payload))
      ensures outcome != Published ==> history == old(history)
    {
      PublishKeepsConsistent(State(), history, event, codec);
      if event.key == "" || event.observation.payload.None? { return Invalid; }
      if closed { return Closed; }
      if |entries| < capacity {
        var o := event.observation.(sequence := next);
        o := o.(eventId := codec.eventId(event.key, o.(sequence := 0, eventId := "")));
        next := next + 1;
        entries := entries + [o];
        history := history + [o];
        return Published;
      }
      return WouldBlock;
    }

    /** `None` is the empty buffer, where the caller waits or sees it closed. */
    method Batch(maximum: nat) returns (batch: Option<seq<Observation>>)
      requires Valid()
      ensures entries == [] ==> batch == None
      ensures entries != [] ==> batch == Some(Front(entries, maximum))
      ensures entries != [] && maximum > 0 ==>
                var f := batch.value;
                && 0 < |f| <= maximum && f == entries[..|f|] && Numbered(f, entries[0].sequence)
                && forall m :: |f| < m <= |entries| && m <= maximum ==> !Numbered(entries[..m], entries[0].sequence)
    {
      if |entries| == 0 { return None; }
      var count := maximum;
      if count > |entries| { count := |entries|; }
      ghost var start := count;
      while count > 1 && entries[count - 1].sequence != entries[0].sequence + (count - 1)
        invariant 0 <= count <= |entries|
        invariant Shrink(entries, count) == Shrink(entries, start)
      {
        count := count - 1;
      }
      if maximum > 0 { FrontIsLongestRun(entries, maximum); }
      return Some(entries[..count]);
    }

    method Acknowledge(through: nat, terminal: seq<nat>)
      requires Valid()
      modifies this
      ensures Valid() && history == old(history)
      ensures State() == AfterAcknowledge(old(State()), through, set s | s in terminal)
      ensures forall o :: o in entries <==> o in old(entries) && through < o.sequence && o.sequence !in terminal
    {
      ghost var rejected := set s | s in terminal;
      AcknowledgeKeepsConsistent(State(), history, through, rejected);
      KeptExactly(entries, through, rejected);
      entries := Compact(entries, through, terminal);
      if through > persisted { persisted := through; }
    }

    /** The loop of the acknowledgement. */
    static method Compact(entries: seq<Observation>, through: nat, terminal: seq<nat>) returns (kept: seq<Observation>)
      ensures kept == Kept(entries, through, set s | s in terminal)
    {
      kept := [];
      for i := 0 to |entries|
        invariant kept == Kept(entries[..i], through, set s | s in terminal)
      {
        assert entries[..i + 1][..i] == entries[..i];
        if !(entries[i].sequence <= through || entries[i].sequence in terminal) {
          kept := kept + [entries[i]];
        }
      }
      assert entries[..|entries|] == entries;
    }

    method Close()
      requires Valid()
      modifies this
      ensures Valid() && State() == old(State()).(closed := true) && history == old(history)
    {
      closed := true;
    }
  }
}
