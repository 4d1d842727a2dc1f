/** How the agent turns buffered observations into a batch and reads acknowledgements. */
module AgentClient {
  import opened Wrappers
  import opened Wire

  datatype Rejection = Rejection(sequence: nat, retryable: bool)

  datatype Frame =
    | Hello(acceptedThrough: nat)
    | Ack(batchId: string, received: nat, persisted: nat, retry: Option<(nat, nat)>, rejections: seq<Rejection>)
    | FlowControl

  function Decimal(n: nat): (s: string)
    ensures s != ""
  {
    if n < 10 then [ '0' + n as char ] else Decimal(n / 10) + [ '0' + (n % 10) as char ]
  }

  function DecimalValue(s: string): nat {
    if s == "" then 0 else DecimalValue(s[..|s| - 1]) * 10 + Digit(s[|s| - 1])
  }

  function Digit(c: char): nat {
    if '0' <= c <= '9' then (c - '0') as nat else 0
  }

  lemma {:induction false} DecimalRoundTrip(n: nat)
    ensures DecimalValue(Decimal(n)) == n
    ensures forall i :: 0 <= i < |Decimal(n)| ==> '0' <= Decimal(n)[i] <= '9'
  {
    if n >= 10 {
      DecimalRoundTrip(n / 10);
      var s := Decimal(n);
      assert s[..|s| - 1] == Decimal(n / 10);
    } else {
      assert Decimal(n)[..0] == "";
    }
  }

  function BatchId(clusterId: string, first: nat, last: nat): string {
    clusterId + "-" + Decimal(first) + "-" + Decimal(last)
  }

  lemma LongerTailHasDash(a: string, x: string, b: string, y: string)
    requires a + "-" + x == b + "-" + y && |a| < |b|
    ensures '-' in x
  {
    var s := a + "-" + x;
    assert s == b + "-" + y;
    assert s[|b|] == '-' && s[|b|] == x[|b| - |a| - 1];
  }

  /** The text after the last dash is determined. */
  lemma LastDash(a: string, x: string, b: string, y: string)
    requires a + "-" + x == b + "-" + y && '-' !in x && '-' !in y
    ensures a == b && x == y
  {
    if |a| < |b| {
      LongerTailHasDash(a, x, b, y);
    } else if |b| < |a| {
      LongerTailHasDash(b, y, a, x);
    } else {
      var s := a + "-" + x;
      assert a == s[..|a|] && b == s[..|b|] && x == s[|a| + 1..] && y == s[|b| + 1..];
    }
  }

  /** Batches of one cluster share an id only when they cover the same range. */
  lemma BatchIdsNameTheirRange(clusterId: string, first: nat, last: nat, first': nat, last': nat)
    ensures BatchId(clusterId, first, last) == BatchId(clusterId, first', last') <==> first == first' && last == last'
  {
    if BatchId(clusterId, first, last) == BatchId(clusterId, first', last') {
      DecimalRoundTrip(first);
      DecimalRoundTrip(last);
      DecimalRoundTrip(first');
      DecimalRoundTrip(last');
      LastDash(clusterId + "-" + Decimal(first), Decimal(last), clusterId + "-" + Decimal(first'), Decimal(last'));
      LastDash(clusterId, Decimal(first), clusterId, Decimal(first'));
    }
  }

  /** The batch the client sends for a run of observations. */
  function BuildBatch(clusterId: string, observations: seq<Observation>, codec: Codec): (b: ObservationBatch)
    requires observations != []
  {
    var first, last := observations[0].sequence, observations[|observations| - 1].sequence;
    ObservationBatch(
      BatchId(clusterId, first, last), first, last, codec.checksum(observations), observations)
  }

  /** An acknowledgement names this batch, or no batch at all. */
  predicate Concerns(frame: Frame, batchId: string) {
    frame.Ack? && (frame.batchId == "" || frame.batchId == batchId)
  }

  function TerminalSet(rejections: seq<Rejection>): set<nat> {
    set r | r in rejections && !r.retryable :: r.sequence
  }

  lemma TerminalSetGrows(rejections: seq<Rejection>, r: Rejection)
    ensures TerminalSet(rejections + [r]) == TerminalSet(rejections) + (if r.retryable then {} else {r.sequence})
  {
    assert forall x :: x in rejections + [r] <==> x in rejections || x == r;
  }

  /** The loop that collects the non-retryable sequences. */
  method Terminal(rejections: seq<Rejection>) returns (terminal: seq<nat>)
    ensures (set s | s in terminal) == TerminalSet(rejections)
  {
    terminal := [];
    for i := 0 to |rejections|
      invariant (set s | s in terminal) == TerminalSet(rejections[..i])
    {
      TerminalSetGrows(rejections[..i], rejections[i]);
      assert rejections[..i + 1] == rejections[..i] + [rejections[i]];
      if !rejections[i].retryable { terminal := terminal + [rejections[i].sequence]; }
    }
    assert rejections[..|rejections|] == rejections;
  }
}
