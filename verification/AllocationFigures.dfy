/** Every figure of an allocation, told by the fields of the requests. */
module AllocationFigures {
  import opened Sums
  import opened Allocation
  import opened AllocationTheorems

  predicate Billed(r: Request) { r.node != "" && r.cpu > 0 }

  predicate SameNode(r: Request, x: Request) {
    x.tenant == r.tenant && x.cluster == r.cluster && x.node == r.node && x.bucket == r.bucket
  }

  predicate SameCluster(r: Request, x: Request) {
    x.tenant == r.tenant && x.cluster == r.cluster && x.bucket == r.bucket
  }

  predicate SameNamespace(row: NamespaceCost, r: Request) {
    && r.tenant == row.tenant && r.cluster == row.cluster && r.namespaceUid == row.namespaceUid
    && r.bucket == row.bucket
  }

  // ---------------------------------------------------------------- one request

  function NodeCpu(rs: seq<Request>, r: Request): nat {
    if rs == [] then 0 else
      var x := rs[|rs| - 1];
      NodeCpu(rs[..|rs| - 1], r) + if Billed(x) && SameNode(r, x) then x.cpu else 0
  }

  function ClusterCpu(rs: seq<Request>, r: Request): nat {
    if rs == [] then 0 else
      var x := rs[|rs| - 1];
      ClusterCpu(rs[..|rs| - 1], r) + if Billed(x) && SameCluster(r, x) then x.cpu else 0
  }

  /** `m` is the largest allocatable amount per hour that the node's requests report. */
  ghost predicate IsCapacity(rs: seq<Request>, r: Request, m: nat) {
    && (forall x :: x in rs && Billed(x) && SameNode(r, x) ==> x.allocatable * 3600 <= m)
    && (m == 0 || exists x :: x in rs && Billed(x) && SameNode(r, x) && x.allocatable * 3600 == m)
  }

  /** `w` times `whole` is `part`. */
  predicate IsShare(w: real, part: nat, whole: nat) {
    whole > 0 && w * whole as real == part as real
  }

  /** The request's share of the larger of what is requested and what can be allocated. */
  ghost predicate IsWeight(rs: seq<Request>, r: Request, w: real) {
    exists m :: IsCapacity(rs, r, m) && IsShare(w, r.cpu, if NodeCpu(rs, r) > m then NodeCpu(rs, r) else m)
  }

  ghost predicate IsControl(rs: seq<Request>, o: Options, r: Request, control: real) {
    exists w :: IsShare(w, r.cpu, ClusterCpu(rs, r)) && control == o.controlPlane * w
  }

  /** What a request is charged. */
  ghost predicate IsCharge(rs: seq<Request>, o: Options, r: Request, weight: real, direct: real, network: real,
                           control: real)
  {
    if Billed(r) then
      && IsWeight(rs, r, weight) && direct == o.node * weight
      && network == o.network * (r.bytes as real / 1073741824.0)
      && IsControl(rs, o, r, control)
    else
      weight == direct == network == control == 0.0
  }

  lemma {:induction false} TotalsExactly(rs: seq<Request>, r: Request)
    ensures NodeTotal(rs, NodeOf(r)) == NodeCpu(rs, r) && ClusterTotal(rs, ClusterOf(r)) == ClusterCpu(rs, r)
  {
    if rs != [] { TotalsExactly(rs[..|rs| - 1], r); }
  }

  lemma {:induction false} CapacityExactly(rs: seq<Request>, r: Request)
    ensures IsCapacity(rs, r, NodeCapacity(rs, NodeOf(r)))
  {
    if rs != [] {
      var n := |rs| - 1;
      assert rs == rs[..n] + [rs[n]];
      CapacityExactly(rs[..n], r);
    }
  }

  lemma RatioIsShare(part: nat, whole: nat)
    requires whole > 0
    ensures IsShare(Ratio(part, whole), part, whole)
  {
  }

  lemma WeightExactly(rs: seq<Request>, r: Request)
    requires r in rs && Billed(r)
    ensures IsWeight(rs, r, Weight(rs, r))
  {
    TotalsExactly(rs, r);
    CapacityExactly(rs, r);
    BilledExactly(rs, r);
    var m := NodeCapacity(rs, NodeOf(r));
    RatioIsShare(r.cpu, Denominator(rs, NodeOf(r)));
    assert IsShare(Weight(rs, r), r.cpu, if NodeCpu(rs, r) > m then NodeCpu(rs, r) else m);
  }

  lemma ControlExactly(rs: seq<Request>, o: Options, r: Request)
    requires r in rs && Billed(r)
    ensures IsControl(rs, o, r, Control(rs, o, r))
  {
    TotalsExactly(rs, r);
    BilledExactly(rs, r);
    RatioIsShare(r.cpu, ClusterTotal(rs, ClusterOf(r)));
  }

  /** The engine charges every request what its fields say. */
  lemma ChargeExactly(rs: seq<Request>, o: Options, r: Request)
    requires r in rs
    ensures IsCharge(rs, o, r, Weight(rs, r), Direct(rs, o, r), Network(o, r), Control(rs, o, r))
  {
    if Billed(r) {
      WeightExactly(rs, r);
      ControlExactly(rs, o, r);
    }
  }

  // ---------------------------------------------------------------- one row

  ghost function SumFor(rs: seq<Request>, row: NamespaceCost, f: Request -> real): real {
    if rs == [] then 0.0 else
      var x := rs[|rs| - 1];
      SumFor(rs[..|rs| - 1], row, f) + if SameNamespace(row, x) then f(x) else 0.0
  }

  lemma {:induction false} SumForIsSumIn(rs: seq<Request>, row: NamespaceCost, n: NamespaceHour, f: Request -> real)
    requires n == NamespaceHour(row.tenant, row.cluster, row.namespaceUid, row.bucket)
    ensures SumFor(rs, row, f) == SumIn(rs, NamespaceOf, {n}, f)
  {
    if rs != [] { SumForIsSumIn(rs[..|rs| - 1], row, n, f); }
  }

  /** The row sums up what its requests are charged. */
  ghost predicate SumsUp(row: NamespaceCost, rs: seq<Request>, o: Options) {
    && row.weight == SumFor(rs, row, WeightBy(rs)) && row.direct == SumFor(rs, row, DirectBy(rs, o))
    && row.network == SumFor(rs, row, NetworkBy(o)) && row.control == SumFor(rs, row, ControlBy(rs, o))
    && row.allocatedCost == row.direct + row.idle + row.network + row.control
  }

  lemma RowSumsUp(items: map<NamespaceHour, NamespaceCost>, rs: seq<Request>, o: Options, n: NamespaceHour)
    requires IsAllocation(items, rs, o) && n in items
    ensures SumsUp(items[n], rs, o)
  {
    var row := items[n];
    assert Carries(row, n, rs, rs, o, IdleAt(rs, o, NodeHours(rs), n));
    SumForIsSumIn(rs, row, n, WeightBy(rs));
    SumForIsSumIn(rs, row, n, DirectBy(rs, o));
    SumForIsSumIn(rs, row, n, NetworkBy(o));
    SumForIsSumIn(rs, row, n, ControlBy(rs, o));
  }

  // ---------------------------------------------------------------- the whole

  function NodeHoursBilled(rs: seq<Request>): set<NodeHour> {
    set r | r in rs && Billed(r) :: NodeHour(r.tenant, r.cluster, r.node, r.bucket)
  }

  function ClusterHoursBilled(rs: seq<Request>): set<ClusterHour> {
    set r | r in rs && Billed(r) :: ClusterHour(r.tenant, r.cluster, r.bucket)
  }

  function BytesBilled(rs: seq<Request>): nat {
    if rs == [] then 0 else
      var x := rs[|rs| - 1];
      BytesBilled(rs[..|rs| - 1]) + if Billed(x) then x.bytes else 0
  }

  lemma {:induction false} BilledBytesExactly(rs: seq<Request>)
    ensures BilledBytes(rs) == BytesBilled(rs)
  {
    if rs != [] { BilledBytesExactly(rs[..|rs| - 1]); }
  }

  lemma BilledHoursExactly(rs: seq<Request>)
    ensures NodeHours(rs) == NodeHoursBilled(rs) && ClusterHours(rs) == ClusterHoursBilled(rs)
  {
  }
}
