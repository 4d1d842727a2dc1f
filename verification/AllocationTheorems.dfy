/** Conservation of cost by the allocation engine. */
module AllocationTheorems {
  import opened Sums
  import opened Allocation

  lemma {:induction false} NodeTotalIsSum(rs: seq<Request>, k: NodeHour)
    ensures SumIn(rs, NodeOf, {k}, Cpu) == NodeTotal(rs, k) as real
  {
    if rs != [] { NodeTotalIsSum(rs[..|rs| - 1], k); }
  }

  lemma {:induction false} ClusterTotalIsSum(rs: seq<Request>, k: ClusterHour)
    ensures SumIn(rs, ClusterOf, {k}, Cpu) == ClusterTotal(rs, k) as real
  {
    if rs != [] { ClusterTotalIsSum(rs[..|rs| - 1], k); }
  }

  /** d parts at `unit` cost `price`. */
  ghost predicate Pays(unit: real, d: nat, price: real) { unit * d as real == price }

  /** What t of d parts leave over costs `idle`. */
  ghost predicate PaysRest(idle: real, unit: real, t: nat, d: nat) {
    idle == if d > t then unit * (d - t) as real else 0.0
  }

  lemma UnitPrice(price: real, d: nat) returns (unit: real)
    requires d > 0
    ensures Pays(unit, d, price)
  {
    unit := price / d as real;
  }

  /** x of d parts cost x units. */
  lemma Parts(price: real, unit: real, x: nat, d: nat)
    requires d > 0 && Pays(unit, d, price)
    ensures Price(price, Ratio(x, d)) == unit * x as real
  {
    CancelParts(unit, x as real, d as real, x as real / d as real);
  }

  lemma CancelParts(unit: real, x: real, d: real, share: real)
    requires d > 0.0 && share == x / d
    ensures (unit * d) * share == unit * x
  {
    assert d * share == x;
  }

  /** Every selected request costs `unit` per core-millisecond it asks for. */
  ghost predicate Priced<K>(rs: seq<Request>, key: Request -> K, k: K, f: Request -> real, unit: real) {
    forall r :: r in rs && key(r) in {k} ==> f(r) == unit * Cpu(r)
  }

  lemma PricedTotal<K>(rs: seq<Request>, key: Request -> K, k: K, f: Request -> real, unit: real, total: nat)
    requires Priced(rs, key, k, f, unit) && SumIn(rs, key, {k}, Cpu) == total as real
    ensures Pays(unit, total, SumIn(rs, key, {k}, f))
  {
    SumInScaleTo(rs, key, {k}, f, Cpu, unit, total as real);
  }

  lemma DirectInParts(rs: seq<Request>, o: Options, r: Request, unit: real)
    requires Denominator(rs, NodeOf(r)) > 0 && Pays(unit, Denominator(rs, NodeOf(r)), o.node)
    ensures DirectBy(rs, o)(r) == unit * Cpu(r)
  {
    if Counted(r) {
      Parts(o.node, unit, r.cpu, Denominator(rs, NodeOf(r)));
    } else {
      assert Price(o.node, 0.0) == 0.0;
    }
  }

  lemma ControlInParts(rs: seq<Request>, o: Options, r: Request, unit: real)
    requires ClusterTotal(rs, ClusterOf(r)) > 0 && Pays(unit, ClusterTotal(rs, ClusterOf(r)), o.controlPlane)
    ensures ControlBy(rs, o)(r) == unit * Cpu(r)
  {
    if Counted(r) { Parts(o.controlPlane, unit, r.cpu, ClusterTotal(rs, ClusterOf(r))); }
  }

  lemma NodePriced(rs: seq<Request>, o: Options, k: NodeHour, unit: real)
    requires Denominator(rs, k) > 0 && Pays(unit, Denominator(rs, k), o.node)
    ensures Priced(rs, NodeOf, k, DirectBy(rs, o), unit)
  {
    forall r | r in rs && NodeOf(r) in {k}
      ensures DirectBy(rs, o)(r) == unit * Cpu(r) { DirectInParts(rs, o, r, unit); }
  }

  lemma IdlePriced(rs: seq<Request>, o: Options, k: NodeHour, unit: real)
    requires Denominator(rs, k) > 0 && Pays(unit, Denominator(rs, k), o.node)
    ensures PaysRest(Idle(rs, o, k), unit, NodeTotal(rs, k), Denominator(rs, k))
  {
    var t, d := NodeTotal(rs, k), Denominator(rs, k);
    if d > t { Parts(o.node, unit, d - t, d); }
  }

  lemma ClusterPriced(rs: seq<Request>, o: Options, k: ClusterHour, unit: real)
    requires ClusterTotal(rs, k) > 0 && Pays(unit, ClusterTotal(rs, k), o.controlPlane)
    ensures Priced(rs, ClusterOf, k, ControlBy(rs, o), unit)
  {
    forall r | r in rs && ClusterOf(r) in {k}
      ensures ControlBy(rs, o)(r) == unit * Cpu(r) { ControlInParts(rs, o, r, unit); }
  }

  lemma NodeHourIsBusy(rs: seq<Request>, k: NodeHour)
    requires k in NodeHours(rs)
    ensures NodeTotal(rs, k) > 0
  {
    var r :| r in rs && Counted(r) && NodeOf(r) == k;
    BilledExactly(rs, r);
  }

  /** The namespaces on a node-hour and its idle share together cost exactly the node's price. */
  lemma NodeHourIsConserved(rs: seq<Request>, o: Options, k: NodeHour)
    requires k in NodeHours(rs)
    ensures SumIn(rs, NodeOf, {k}, DirectBy(rs, o)) + Idle(rs, o, k) == o.node
  {
    NodeHourIsBusy(rs, k);
    var t, d := NodeTotal(rs, k), Denominator(rs, k);
    var unit := UnitPrice(o.node, d);
    NodePriced(rs, o, k, unit);
    IdlePriced(rs, o, k, unit);
    NodeTotalIsSum(rs, k);
    PricedTotal(rs, NodeOf, k, DirectBy(rs, o), unit, t);
    Complete(SumIn(rs, NodeOf, {k}, DirectBy(rs, o)), Idle(rs, o, k), unit, t, d, o.node);
  }

  lemma Complete(direct: real, idle: real, unit: real, t: nat, d: nat, price: real)
    requires t <= d && Pays(unit, d, price) && Pays(unit, t, direct) && PaysRest(idle, unit, t, d)
    ensures direct + idle == price
  {
    if d > t { assert d as real == t as real + (d - t) as real; }
  }

  /** The control plane of a cluster-hour with requests is charged exactly once. */
  lemma ClusterHourIsConserved(rs: seq<Request>, o: Options, k: ClusterHour)
    requires k in ClusterHours(rs)
    ensures SumIn(rs, ClusterOf, {k}, ControlBy(rs, o)) == o.controlPlane
  {
    var r0 :| r0 in rs && Counted(r0) && ClusterOf(r0) == k;
    BilledExactly(rs, r0);
    var unit := UnitPrice(o.controlPlane, ClusterTotal(rs, k));
    ClusterPriced(rs, o, k, unit);
    ClusterTotalIsSum(rs, k);
    PricedTotal(rs, ClusterOf, k, ControlBy(rs, o), unit, ClusterTotal(rs, k));
  }

  // ---------------------------------------------------------------- the grand total

  function AllocatedBy(items: map<NamespaceHour, NamespaceCost>): NamespaceHour -> real {
    n => if n in items then items[n].allocatedCost else 0.0
  }

  ghost function At(rs: seq<Request>, f: Request -> real): NamespaceHour -> real {
    n => SumIn(rs, NamespaceOf, {n}, f)
  }

  ghost function OnNode(rs: seq<Request>, f: Request -> real): NodeHour -> real {
    k => SumIn(rs, NodeOf, {k}, f)
  }

  ghost function OnCluster(rs: seq<Request>, f: Request -> real): ClusterHour -> real {
    k => SumIn(rs, ClusterOf, {k}, f)
  }

  ghost function IdleAtBy(rs: seq<Request>, o: Options): NamespaceHour -> real {
    n => IdleAt(rs, o, NodeHours(rs), n)
  }

  /** The bytes of counted requests. */
  function BilledBytes(rs: seq<Request>): nat {
    if rs == [] then 0 else BilledBytes(rs[..|rs| - 1]) + (if Counted(rs[|rs| - 1]) then rs[|rs| - 1].bytes else 0)
  }

  /** A quantity carried only by counted requests sums to the same by namespace-hour, by
      node-hour or by cluster-hour. */
  lemma ByAnyKey(rs: seq<Request>, f: Request -> real, ns: set<NamespaceHour>)
    requires NamespaceHours(rs) <= ns
    requires forall r :: r in rs && !Counted(r) ==> f(r) == 0.0
    ensures Total(ns, At(rs, f)) == Total(NodeHours(rs), OnNode(rs, f)) == Total(ClusterHours(rs), OnCluster(rs, f))
    ensures Total(ns, At(rs, f)) == SumIn(rs, NamespaceOf, ns, f)
  {
    Regroup(rs, NamespaceOf, ns, f, At(rs, f));
    Regroup(rs, NodeOf, NodeHours(rs), f, OnNode(rs, f));
    Regroup(rs, ClusterOf, ClusterHours(rs), f, OnCluster(rs, f));
    SumInSame(rs, NamespaceOf, ns, f, NodeOf, NodeHours(rs), f);
    SumInSame(rs, NamespaceOf, ns, f, ClusterOf, ClusterHours(rs), f);
  }

  function Flat<K>(price: real): K -> real { _ => price }

  ghost predicate AddUp<K>(ks: set<K>, f: K -> real, g: K -> real, price: real) {
    forall k :: k in ks ==> f(k) + g(k) == price
  }

  lemma FlatTotal<K>(ks: set<K>, f: K -> real, g: K -> real, price: real)
    requires AddUp(ks, f, g, price)
    ensures Total(ks, f) + Total(ks, g) == |ks| as real * price
  {
    TotalPlus(ks, f, g, Flat(price));
    TotalConst(ks, Flat(price), price);
  }

  lemma NodesAddUp(rs: seq<Request>, o: Options)
    ensures AddUp(NodeHours(rs), OnNode(rs, DirectBy(rs, o)), IdleBy(rs, o), o.node)
  {
    forall k | k in NodeHours(rs) ensures OnNode(rs, DirectBy(rs, o))(k) + IdleBy(rs, o)(k) == o.node {
      NodeHourIsConserved(rs, o, k);
      assert OnNode(rs, DirectBy(rs, o))(k) == SumIn(rs, NodeOf, {k}, DirectBy(rs, o));
      assert IdleBy(rs, o)(k) == Idle(rs, o, k);
    }
  }

  lemma NodePrices(rs: seq<Request>, o: Options)
    ensures Total(NodeHours(rs), OnNode(rs, DirectBy(rs, o))) + Total(NodeHours(rs), IdleBy(rs, o))
            == |NodeHours(rs)| as real * o.node
  {
    NodesAddUp(rs, o);
    FlatTotal(NodeHours(rs), OnNode(rs, DirectBy(rs, o)), IdleBy(rs, o), o.node);
  }

  lemma ControlPrices(rs: seq<Request>, o: Options)
    ensures Total(ClusterHours(rs), OnCluster(rs, ControlBy(rs, o))) == |ClusterHours(rs)| as real * o.controlPlane
  {
    forall k | k in ClusterHours(rs) ensures OnCluster(rs, ControlBy(rs, o))(k) == o.controlPlane {
      ClusterHourIsConserved(rs, o, k);
    }
    TotalConst(ClusterHours(rs), OnCluster(rs, ControlBy(rs, o)), o.controlPlane);
  }

  lemma {:induction false} BilledBytesIsSum(rs: seq<Request>, ns: set<NamespaceHour>)
    requires NamespaceHours(rs) <= ns
    ensures SumIn(rs, NamespaceOf, ns, Bytes) == BilledBytes(rs) as real
  {
    if rs != [] {
      var n := |rs| - 1;
      assert rs == rs[..n] + [rs[n]];
      BilledBytesIsSum(rs[..n], ns);
    }
  }

  lemma NetworkPrices(rs: seq<Request>, o: Options, ns: set<NamespaceHour>)
    requires NamespaceHours(rs) <= ns
    ensures SumIn(rs, NamespaceOf, ns, NetworkBy(o)) == Price(o.network, GiB(BilledBytes(rs)))
  {
    BilledBytesIsSum(rs, ns);
    NetworkScales(rs, NamespaceOf, ns, o, BilledBytes(rs) as real);
  }

  /** Network cost is the price of the summed bytes. */
  lemma NetworkScales<K>(rs: seq<Request>, key: Request -> K, ks: set<K>, o: Options, bytes: real)
    requires SumIn(rs, key, ks, Bytes) == bytes
    ensures SumIn(rs, key, ks, NetworkBy(o)) == Price(o.network, bytes / 1073741824.0)
  {
    var unit := o.network / 1073741824.0;
    forall r | r in rs && key(r) in ks ensures NetworkBy(o)(r) == unit * Bytes(r) { NetworkInBytes(o, r, unit); }
    SumInScaleTo(rs, key, ks, NetworkBy(o), Bytes, unit, bytes);
    BytePrice(o.network, unit, bytes);
  }

  lemma NetworkInBytes(o: Options, r: Request, unit: real)
    requires unit == o.network / 1073741824.0
    ensures NetworkBy(o)(r) == unit * Bytes(r)
  {
    if Counted(r) { BytePrice(o.network, unit, r.bytes as real); }
  }

  lemma BytePrice(price: real, unit: real, bytes: real)
    requires unit == price / 1073741824.0
    ensures Price(price, bytes / 1073741824.0) == unit * bytes
  {
  }

  /** All idle capacity is booked somewhere, and only once. */
  lemma IdleIsBooked(rs: seq<Request>, o: Options, ns: set<NamespaceHour>)
    requires (set k | k in Spare(rs, NodeHours(rs)) :: IdleOf(k)) <= ns
    ensures Total(ns, IdleAtBy(rs, o)) == Total(NodeHours(rs), IdleBy(rs, o))
  {
    var nodes := NodeHours(rs);
    var spare := Spare(rs, nodes);
    TotalDropZeros(nodes, spare, IdleBy(rs, o));
    forall n | n in ns ensures IdleAtBy(rs, o)(n) == Total(Fibre(spare, IdleOf, n), IdleBy(rs, o)) {
      TotalDropZeros(Fibre(nodes, IdleOf, n), Fibre(spare, IdleOf, n), IdleBy(rs, o));
    }
    TotalFibres(spare, IdleOf, ns, IdleBy(rs, o), IdleAtBy(rs, o));
  }

  /** Everything allocated adds up to the node price times busy node-hours, the control-plane
      price times busy cluster-hours and the network price times the billed GiB. */
  lemma CostIsConserved(items: map<NamespaceHour, NamespaceCost>, rs: seq<Request>, o: Options)
    requires IsAllocation(items, rs, o)
    ensures Total(items.Keys, AllocatedBy(items))
            == |NodeHours(rs)| as real * o.node
               + |ClusterHours(rs)| as real * o.controlPlane
               + Price(o.network, GiB(BilledBytes(rs)))
  {
    var ns := items.Keys;
    var direct, control, network := At(rs, DirectBy(rs, o)), At(rs, ControlBy(rs, o)), At(rs, NetworkBy(o));
    var idle := IdleAtBy(rs, o);
    var di := (n: NamespaceHour) => direct(n) + idle(n);
    var dic := (n: NamespaceHour) => di(n) + control(n);
    TotalPlus(ns, direct, idle, di);
    TotalPlus(ns, di, control, dic);
    forall n | n in ns ensures AllocatedBy(items)(n) == dic(n) + network(n) {
      assert Carries(items[n], n, rs, rs, o, IdleAt(rs, o, NodeHours(rs), n));
    }
    TotalPlus(ns, dic, network, AllocatedBy(items));
    ByAnyKey(rs, DirectBy(rs, o), ns);
    ByAnyKey(rs, ControlBy(rs, o), ns);
    ByAnyKey(rs, NetworkBy(o), ns);
    NodePrices(rs, o);
    ControlPrices(rs, o);
    NetworkPrices(rs, o, ns);
    IdleIsBooked(rs, o, ns);
  }
}
