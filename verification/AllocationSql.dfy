/** The relational cost query read as an expression over metric rows, and its agreement with
    the engine. */
module AllocationSql {
  import opened Sums
  import opened Allocation
  import opened AllocationTheorems

  datatype Metric = Metric(
    tenant: string, cluster: string, node: string, namespaceUid: string, time: int, cpu: nat, rx: nat, tx: nat)

  /** `current_node` and `current_namespace`: at most one row per identity. */
  type NodeTable = map<(string, string, string), nat>
  type NamespaceTable = map<(string, string, string), string>

  /** The last whole hour up to the time. */
  function Hour(time: int): (hour: int)
    ensures hour <= time < hour + 3600 && hour % 3600 == 0
  {
    time / 3600 * 3600
  }

  // ---------------------------------------------------------------- the query

  datatype Usage = Usage(tenant: string, cluster: string, node: string, namespaceUid: string, bucket: int)

  function UsageOf(m: Metric): Usage { Usage(m.tenant, m.cluster, m.node, m.namespaceUid, Hour(m.time)) }
  function UsageNode(u: Usage): NodeHour { NodeHour(u.tenant, u.cluster, u.node, u.bucket) }
  function UsageCluster(u: Usage): ClusterHour { ClusterHour(u.tenant, u.cluster, u.bucket) }
  function UsageNamespace(u: Usage): NamespaceHour { NamespaceHour(u.tenant, u.cluster, u.namespaceUid, u.bucket) }
  function NodeId(k: NodeHour): (string, string, string) { (k.tenant, k.cluster, k.node) }

  function CpuOf(m: Metric): real { m.cpu as real }
  function BytesOf(m: Metric): real { (m.rx + m.tx) as real }

  function UsageRows(xs: seq<Metric>): set<Usage> { set m | m in xs :: UsageOf(m) }

  ghost function UsageCpu(xs: seq<Metric>): Usage -> real { u => SumIn(xs, UsageOf, {u}, CpuOf) }
  ghost function UsageBytes(xs: seq<Metric>): Usage -> real { u => SumIn(xs, UsageOf, {u}, BytesOf) }

  /** CTE node_requests, before its HAVING. */
  ghost function NodeRequest(xs: seq<Metric>, k: NodeHour): real {
    Total(Fibre(UsageRows(xs), UsageNode, k), UsageCpu(xs))
  }

  ghost function ClusterRequest(xs: seq<Metric>, k: ClusterHour): real {
    Total(Fibre(UsageRows(xs), UsageCluster, k), UsageCpu(xs))
  }

  function Greatest(a: real, b: real): real { if a > b then a else b }

  function Over(a: real, b: real): real { if b == 0.0 then 0.0 else a / b }

  function Share(price: real, a: real, b: real): real { Price(price, Over(a, b)) }

  ghost function SqlDenominator(xs: seq<Metric>, nodes: NodeTable, k: NodeHour): real {
    Greatest((if NodeId(k) in nodes then nodes[NodeId(k)] * 3600 else 0) as real, NodeRequest(xs, k))
  }

  /** Usage rows that survive the three inner joins. */
  ghost function Joined(xs: seq<Metric>, nodes: NodeTable): set<Usage> {
    set u | u in UsageRows(xs) && NodeRequest(xs, UsageNode(u)) > 0.0 && ClusterRequest(xs, UsageCluster(u)) > 0.0
            && NodeId(UsageNode(u)) in nodes
  }

  /** The summed columns of CTE allocated, per usage row. */
  ghost function WeightColumn(xs: seq<Metric>, nodes: NodeTable): Usage -> real {
    u => Over(UsageCpu(xs)(u), SqlDenominator(xs, nodes, UsageNode(u)))
  }

  ghost function DirectColumn(xs: seq<Metric>, nodes: NodeTable, o: Options): Usage -> real {
    u => Share(o.node, UsageCpu(xs)(u), SqlDenominator(xs, nodes, UsageNode(u)))
  }

  ghost function NetworkColumn(xs: seq<Metric>, o: Options): Usage -> real {
    u => Price(o.network, UsageBytes(xs)(u) / 1073741824.0)
  }

  ghost function ControlColumn(xs: seq<Metric>, o: Options): Usage -> real {
    u => Share(o.controlPlane, UsageCpu(xs)(u), ClusterRequest(xs, UsageCluster(u)))
  }

  /** One column of the row of CTE allocated for namespace-hour n. */
  ghost function Column(xs: seq<Metric>, nodes: NodeTable, n: NamespaceHour, column: Usage -> real): real {
    Total(Fibre(Joined(xs, nodes), UsageNamespace, n), column)
  }

  ghost function AllocatedRows(xs: seq<Metric>, nodes: NodeTable): set<NamespaceHour> {
    set u | u in Joined(xs, nodes) :: UsageNamespace(u)
  }

  /** CTE idle: the node-hours of node_requests that join current_node. */
  ghost function IdleNodes(xs: seq<Metric>, nodes: NodeTable): set<NodeHour> {
    set u | u in UsageRows(xs) && NodeRequest(xs, UsageNode(u)) > 0.0 && NodeId(UsageNode(u)) in nodes :: UsageNode(u)
  }

  function ClusterOfNode(k: NodeHour): ClusterHour { ClusterHour(k.tenant, k.cluster, k.bucket) }

  ghost function SqlIdle(xs: seq<Metric>, nodes: NodeTable, o: Options): NodeHour -> real {
    k => var d := SqlDenominator(xs, nodes, k);
         Share(o.node, Greatest(d - NodeRequest(xs, k), 0.0), d)
  }

  ghost function IdleRow(xs: seq<Metric>, nodes: NodeTable, o: Options, k: ClusterHour): real {
    Total(Fibre(IdleNodes(xs, nodes), ClusterOfNode, k), SqlIdle(xs, nodes, o))
  }

  // ---------------------------------------------------------------- the engine on raw rows

  /** The inventory's name of a namespace, or its UID where the inventory has none. */
  function NamespaceName(names: NamespaceTable, n: NamespaceHour): string {
    var id := (n.tenant, n.cluster, n.namespaceUid);
    if id in names && names[id] != "" then names[id] else n.namespaceUid
  }

  function AsRequest(nodes: NodeTable, names: NamespaceTable): Metric -> Request {
    (m: Metric) => var id, n := (m.tenant, m.cluster, m.node), UsageNamespace(UsageOf(m));
         Request(m.tenant, m.cluster, m.node, m.namespaceUid, NamespaceName(names, n), Hour(m.time), m.cpu,
                 m.rx + m.tx, if id in nodes then nodes[id] else 0)
  }

  function RequestsOf(xs: seq<Metric>, nodes: NodeTable, names: NamespaceTable): seq<Request> {
    Mapped(xs, AsRequest(nodes, names))
  }

  function UsageOfRequest(r: Request): Usage { Usage(r.tenant, r.cluster, r.node, r.namespaceUid, r.bucket) }

  /** Every selected metric row names a node and asks for CPU. */
  predicate Placed(xs: seq<Metric>) {
    forall m :: m in xs ==> m.cpu > 0 && m.node != ""
  }

  /** And the inventory knows the node. */
  predicate Known(xs: seq<Metric>, nodes: NodeTable) {
    Placed(xs) && forall m :: m in xs ==> (m.tenant, m.cluster, m.node) in nodes
  }

  lemma RequestFor(xs: seq<Metric>, nodes: NodeTable, names: NamespaceTable, r: Request)
    requires r in RequestsOf(xs, nodes, names)
    ensures exists m :: m in xs && r == AsRequest(nodes, names)(m)
  {
    var i :| 0 <= i < |xs| && RequestsOf(xs, nodes, names)[i] == r;
    assert xs[i] in xs;
  }

  lemma RequestIn(xs: seq<Metric>, nodes: NodeTable, names: NamespaceTable, m: Metric)
    requires m in xs
    ensures AsRequest(nodes, names)(m) in RequestsOf(xs, nodes, names)
  {
    var i :| 0 <= i < |xs| && xs[i] == m;
    assert RequestsOf(xs, nodes, names)[i] == AsRequest(nodes, names)(m);
  }

  lemma PlacedCounted(xs: seq<Metric>, nodes: NodeTable, names: NamespaceTable)
    requires Placed(xs)
    ensures forall r :: r in RequestsOf(xs, nodes, names) ==> Counted(r) && UsageOfRequest(r) in UsageRows(xs)
  {
    forall r | r in RequestsOf(xs, nodes, names) ensures Counted(r) && UsageOfRequest(r) in UsageRows(xs) {
      RequestFor(xs, nodes, names, r);
      var m :| m in xs && r == AsRequest(nodes, names)(m);
      assert UsageOf(m) == UsageOfRequest(r);
    }
  }

  lemma AllCounted(xs: seq<Metric>, nodes: NodeTable, names: NamespaceTable)
    requires Known(xs, nodes)
    ensures forall r :: r in RequestsOf(xs, nodes, names) ==>
                          Counted(r) && NodeId(NodeOf(r)) in nodes && r.allocatable == nodes[NodeId(NodeOf(r))]
                          && UsageOfRequest(r) in UsageRows(xs)
  {
    forall r | r in RequestsOf(xs, nodes, names)
      ensures Counted(r) && NodeId(NodeOf(r)) in nodes && r.allocatable == nodes[NodeId(NodeOf(r))]
              && UsageOfRequest(r) in UsageRows(xs) {
      RequestFor(xs, nodes, names, r);
      var m :| m in xs && r == AsRequest(nodes, names)(m);
      assert UsageOf(m) == UsageOfRequest(r);
    }
  }

  lemma UsageSums(xs: seq<Metric>, nodes: NodeTable, names: NamespaceTable, u: Usage)
    requires Placed(xs)
    ensures UsageCpu(xs)(u) == SumIn(RequestsOf(xs, nodes, names), UsageOfRequest, {u}, Cpu)
    ensures UsageBytes(xs)(u) == SumIn(RequestsOf(xs, nodes, names), UsageOfRequest, {u}, Bytes)
  {
    SumInMapped(xs, AsRequest(nodes, names), UsageOf, UsageOfRequest, {u}, CpuOf, Cpu);
    SumInMapped(xs, AsRequest(nodes, names), UsageOf, UsageOfRequest, {u}, BytesOf, Bytes);
  }

  /** Summing usage rows over a fibre is summing raw rows. */
  lemma FibreSum<K>(xs: seq<Metric>, nodes: NodeTable, names: NamespaceTable, part: Usage -> K, key: Request -> K, k: K,
                    rows: set<Usage>, f: Request -> real, g: Usage -> real)
    requires Placed(xs) && rows == UsageRows(xs)
    requires forall r :: r in RequestsOf(xs, nodes, names) ==> part(UsageOfRequest(r)) == key(r)
    requires forall u :: u in rows ==> g(u) == SumIn(RequestsOf(xs, nodes, names), UsageOfRequest, {u}, f)
    ensures Total(Fibre(rows, part, k), g) == SumIn(RequestsOf(xs, nodes, names), key, {k}, f)
  {
    var rs := RequestsOf(xs, nodes, names);
    PlacedCounted(xs, nodes, names);
    Regroup(rs, UsageOfRequest, Fibre(rows, part, k), f, g);
    SumInSame(rs, UsageOfRequest, Fibre(rows, part, k), f, key, {k}, f);
  }

  lemma NodeRequestIsTotal(xs: seq<Metric>, nodes: NodeTable, names: NamespaceTable, k: NodeHour)
    requires Placed(xs)
    ensures NodeRequest(xs, k) == NodeTotal(RequestsOf(xs, nodes, names), k) as real
  {
    forall u | u in UsageRows(xs)
      ensures UsageCpu(xs)(u) == SumIn(RequestsOf(xs, nodes, names), UsageOfRequest, {u}, Cpu) {
      UsageSums(xs, nodes, names, u);
    }
    FibreSum(xs, nodes, names, UsageNode, NodeOf, k, UsageRows(xs), Cpu, UsageCpu(xs));
    NodeTotalIsSum(RequestsOf(xs, nodes, names), k);
  }

  lemma ClusterRequestIsTotal(xs: seq<Metric>, nodes: NodeTable, names: NamespaceTable, k: ClusterHour)
    requires Placed(xs)
    ensures ClusterRequest(xs, k) == ClusterTotal(RequestsOf(xs, nodes, names), k) as real
  {
    forall u | u in UsageRows(xs)
      ensures UsageCpu(xs)(u) == SumIn(RequestsOf(xs, nodes, names), UsageOfRequest, {u}, Cpu) {
      UsageSums(xs, nodes, names, u);
    }
    FibreSum(xs, nodes, names, UsageCluster, ClusterOf, k, UsageRows(xs), Cpu, UsageCpu(xs));
    ClusterTotalIsSum(RequestsOf(xs, nodes, names), k);
  }

  lemma {:induction false} CapacityIsInventory(rs: seq<Request>, k: NodeHour, allocatable: nat)
    requires forall r :: r in rs && NodeOf(r) == k ==> r.allocatable == allocatable
    ensures NodeCapacity(rs, k) == if NodeTotal(rs, k) > 0 then allocatable * 3600 else 0
  {
    if rs != [] {
      var n := |rs| - 1;
      assert rs == rs[..n] + [rs[n]];
      CapacityIsInventory(rs[..n], k, allocatable);
    }
  }

  lemma SameDenominator(xs: seq<Metric>, nodes: NodeTable, names: NamespaceTable, k: NodeHour)
    requires Placed(xs) && k in NodeHours(RequestsOf(xs, nodes, names)) && NodeId(k) in nodes
    ensures SqlDenominator(xs, nodes, k) == Denominator(RequestsOf(xs, nodes, names), k) as real
    ensures SqlDenominator(xs, nodes, k) >= NodeRequest(xs, k) > 0.0
  {
    var rs := RequestsOf(xs, nodes, names);
    forall r | r in rs && NodeOf(r) == k ensures r.allocatable == nodes[NodeId(k)] { RequestFor(xs, nodes, names, r); }
    NodeHourIsBusy(rs, k);
    NodeRequestIsTotal(xs, nodes, names, k);
    CapacityIsInventory(rs, k, nodes[NodeId(k)]);
  }

  // ---------------------------------------------------------------- agreement

  /** With every node known, no usage row is lost in a join. */
  lemma AllJoin(xs: seq<Metric>, nodes: NodeTable, names: NamespaceTable)
    requires Known(xs, nodes)
    ensures Joined(xs, nodes) == UsageRows(xs)
    ensures IdleNodes(xs, nodes) == NodeHours(RequestsOf(xs, nodes, names))
    ensures AllocatedRows(xs, nodes) == NamespaceHours(RequestsOf(xs, nodes, names))
  {
    forall u | u in UsageRows(xs) ensures u in Joined(xs, nodes) && UsageNode(u) in IdleNodes(xs, nodes) {
      var m :| m in xs && UsageOf(m) == u;
      RowJoins(xs, nodes, names, m);
    }
    assert Joined(xs, nodes) == UsageRows(xs);
    KeysOfUsage(xs, nodes, names);
    assert IdleNodes(xs, nodes) == set u | u in UsageRows(xs) :: UsageNode(u);
  }

  lemma RowJoins(xs: seq<Metric>, nodes: NodeTable, names: NamespaceTable, m: Metric)
    requires Known(xs, nodes) && m in xs
    ensures var u := UsageOf(m);
            && NodeRequest(xs, UsageNode(u)) > 0.0 && ClusterRequest(xs, UsageCluster(u)) > 0.0
            && NodeId(UsageNode(u)) in nodes
  {
    var rs, r := RequestsOf(xs, nodes, names), AsRequest(nodes, names)(m);
    AllCounted(xs, nodes, names);
    RequestIn(xs, nodes, names, m);
    BilledExactly(rs, r);
    NodeRequestIsTotal(xs, nodes, names, NodeOf(r));
    ClusterRequestIsTotal(xs, nodes, names, ClusterOf(r));
  }

  lemma KeysOfUsage(xs: seq<Metric>, nodes: NodeTable, names: NamespaceTable)
    requires Known(xs, nodes)
    ensures (set u | u in UsageRows(xs) :: UsageNode(u)) == NodeHours(RequestsOf(xs, nodes, names))
    ensures (set u | u in UsageRows(xs) :: UsageNamespace(u)) == NamespaceHours(RequestsOf(xs, nodes, names))
  {
    var rs := RequestsOf(xs, nodes, names);
    AllCounted(xs, nodes, names);
    forall u | u in UsageRows(xs) ensures UsageNode(u) in NodeHours(rs) && UsageNamespace(u) in NamespaceHours(rs) {
      var m :| m in xs && UsageOf(m) == u;
      RequestIn(xs, nodes, names, m);
      var r := AsRequest(nodes, names)(m);
      assert NodeOf(r) == UsageNode(u) && NamespaceOf(r) == UsageNamespace(u);
    }
    forall r | r in rs
      ensures NodeOf(r) == UsageNode(UsageOfRequest(r)) && NamespaceOf(r) == UsageNamespace(UsageOfRequest(r)) {}
  }

  /** A column agrees when it does on every usage row. */
  lemma ColumnAgrees(xs: seq<Metric>, nodes: NodeTable, names: NamespaceTable, n: NamespaceHour,
                     f: Request -> real, column: Usage -> real)
    requires Known(xs, nodes)
    requires forall u :: u in UsageRows(xs) ==> column(u) == SumIn(RequestsOf(xs, nodes, names), UsageOfRequest, {u}, f)
    ensures Column(xs, nodes, n, column) == SumIn(RequestsOf(xs, nodes, names), NamespaceOf, {n}, f)
  {
    AllJoin(xs, nodes, names);
    FibreSum(xs, nodes, names, UsageNamespace, NamespaceOf, n, UsageRows(xs), f, column);
  }

  lemma PricedUsage(rs: seq<Request>, u: Usage, f: Request -> real, price: real, unit: real, d: nat, cpu: real)
    requires d > 0 && Pays(unit, d, price) && Priced(rs, UsageOfRequest, u, f, unit)
    requires SumIn(rs, UsageOfRequest, {u}, Cpu) == cpu
    ensures SumIn(rs, UsageOfRequest, {u}, f) == Share(price, cpu, d as real)
  {
    SumInScaleTo(rs, UsageOfRequest, {u}, f, Cpu, unit, cpu);
    CancelParts(unit, cpu, d as real, cpu / d as real);
  }

  lemma WholeShare(a: real, b: real)
    ensures Share(1.0, a, b) == Over(a, b)
  {
  }

  lemma UsageNodeHour(xs: seq<Metric>, nodes: NodeTable, names: NamespaceTable, u: Usage)
    requires Known(xs, nodes) && u in UsageRows(xs)
    ensures var rs := RequestsOf(xs, nodes, names);
            && UsageNode(u) in NodeHours(rs) && NodeId(UsageNode(u)) in nodes
            && NodeTotal(rs, UsageNode(u)) > 0 && ClusterTotal(rs, UsageCluster(u)) > 0
  {
    var m :| m in xs && UsageOf(m) == u;
    RequestIn(xs, nodes, names, m);
    AllCounted(xs, nodes, names);
    BilledExactly(RequestsOf(xs, nodes, names), AsRequest(nodes, names)(m));
  }

  lemma WeightAndDirectOfUsage(xs: seq<Metric>, nodes: NodeTable, names: NamespaceTable, o: Options, u: Usage)
    requires Known(xs, nodes) && u in UsageRows(xs)
    ensures var rs := RequestsOf(xs, nodes, names);
            && DirectColumn(xs, nodes, o)(u) == SumIn(rs, UsageOfRequest, {u}, DirectBy(rs, o))
            && WeightColumn(xs, nodes)(u) == SumIn(rs, UsageOfRequest, {u}, WeightBy(rs))
  {
    var rs, k := RequestsOf(xs, nodes, names), UsageNode(u);
    UsageNodeHour(xs, nodes, names, u);
    UsageSums(xs, nodes, names, u);
    SameDenominator(xs, nodes, names, k);
    var d, cpu := Denominator(rs, k), UsageCpu(xs)(u);
    var unit := UnitPrice(o.node, d);
    var part := UnitPrice(1.0, d);
    DirectPriced(rs, o, u, d, unit);
    PricedUsage(rs, u, DirectBy(rs, o), o.node, unit, d, cpu);
    WeightPriced(rs, u, d, part);
    PricedUsage(rs, u, WeightBy(rs), 1.0, part, d, cpu);
    WholeShare(cpu, d as real);
  }

  lemma DirectPriced(rs: seq<Request>, o: Options, u: Usage, d: nat, unit: real)
    requires d == Denominator(rs, UsageNode(u)) > 0 && Pays(unit, d, o.node)
    ensures Priced(rs, UsageOfRequest, u, DirectBy(rs, o), unit)
  {
    forall r | r in rs && UsageOfRequest(r) in {u} ensures DirectBy(rs, o)(r) == unit * Cpu(r) {
      assert NodeOf(r) == UsageNode(u);
      DirectInParts(rs, o, r, unit);
    }
  }

  lemma WeightPriced(rs: seq<Request>, u: Usage, d: nat, unit: real)
    requires d == Denominator(rs, UsageNode(u)) > 0 && Pays(unit, d, 1.0)
    ensures Priced(rs, UsageOfRequest, u, WeightBy(rs), unit)
  {
    var o := Options(1.0, 0.0, 0.0);
    forall r | r in rs && UsageOfRequest(r) in {u} ensures WeightBy(rs)(r) == unit * Cpu(r) {
      assert NodeOf(r) == UsageNode(u);
      DirectInParts(rs, o, r, unit);
      assert Price(1.0, Weight(rs, r)) == Weight(rs, r);
    }
  }

  lemma ControlOfUsage(xs: seq<Metric>, nodes: NodeTable, names: NamespaceTable, o: Options, u: Usage)
    requires Known(xs, nodes) && u in UsageRows(xs)
    ensures var rs := RequestsOf(xs, nodes, names);
            ControlColumn(xs, o)(u) == SumIn(rs, UsageOfRequest, {u}, ControlBy(rs, o))
  {
    var rs, k := RequestsOf(xs, nodes, names), UsageCluster(u);
    UsageNodeHour(xs, nodes, names, u);
    UsageSums(xs, nodes, names, u);
    ClusterRequestIsTotal(xs, nodes, names, k);
    var d, cpu := ClusterTotal(rs, k), UsageCpu(xs)(u);
    var unit := UnitPrice(o.controlPlane, d);
    ControlPriced(rs, o, u, d, unit);
    PricedUsage(rs, u, ControlBy(rs, o), o.controlPlane, unit, d, cpu);
  }

  lemma ControlPriced(rs: seq<Request>, o: Options, u: Usage, d: nat, unit: real)
    requires d == ClusterTotal(rs, UsageCluster(u)) > 0 && Pays(unit, d, o.controlPlane)
    ensures Priced(rs, UsageOfRequest, u, ControlBy(rs, o), unit)
  {
    forall r | r in rs && UsageOfRequest(r) in {u} ensures ControlBy(rs, o)(r) == unit * Cpu(r) {
      assert ClusterOf(r) == UsageCluster(u);
      ControlInParts(rs, o, r, unit);
    }
  }

  lemma NetworkOfUsage(xs: seq<Metric>, nodes: NodeTable, names: NamespaceTable, o: Options, u: Usage)
    requires Known(xs, nodes)
    ensures NetworkColumn(xs, o)(u) == SumIn(RequestsOf(xs, nodes, names), UsageOfRequest, {u}, NetworkBy(o))
  {
    UsageSums(xs, nodes, names, u);
    NetworkScales(RequestsOf(xs, nodes, names), UsageOfRequest, {u}, o, UsageBytes(xs)(u));
  }

  lemma OneName(xs: seq<Metric>, nodes: NodeTable, names: NamespaceTable, n: NamespaceHour, r: Request)
    requires r in RequestsOf(xs, nodes, names) && NamespaceOf(r) == n
    ensures r.namespaceName == NamespaceName(names, n) && r.namespaceUid == n.namespaceUid
  {
    RequestFor(xs, nodes, names, r);
  }

  lemma NameAgrees(xs: seq<Metric>, nodes: NodeTable, names: NamespaceTable, n: NamespaceHour)
    requires n in NamespaceHours(RequestsOf(xs, nodes, names))
    ensures NameFor(RequestsOf(xs, nodes, names), n) == NamespaceName(names, n)
  {
    var rs := RequestsOf(xs, nodes, names);
    NamePresent(rs, n);
    var r :| r in rs && Counted(r) && NamespaceOf(r) == n && NameFor(rs, n) == r.namespaceName;
    OneName(xs, nodes, names, n, r);
  }

  /** The engine on raw rows and the query that groups first give every namespace-hour the same
      row: the same rows exist, with the same name, CPU, bytes, weight and costs. */
  lemma QueryAgreesWithEngine(xs: seq<Metric>, nodes: NodeTable, names: NamespaceTable, o: Options,
                              items: map<NamespaceHour, NamespaceCost>, n: NamespaceHour)
    requires Known(xs, nodes) && IsAllocation(items, RequestsOf(xs, nodes, names), o) && n.namespaceUid != IDLE
    ensures n in AllocatedRows(xs, nodes) <==> n in items
    ensures n in items ==>
              && items[n].namespaceName == NamespaceName(names, n)
              && items[n].cpu as real == Column(xs, nodes, n, UsageCpu(xs))
              && items[n].bytes as real == Column(xs, nodes, n, UsageBytes(xs))
              && items[n].weight == Column(xs, nodes, n, WeightColumn(xs, nodes))
              && items[n].direct == Column(xs, nodes, n, DirectColumn(xs, nodes, o))
              && items[n].network == Column(xs, nodes, n, NetworkColumn(xs, o))
              && items[n].control == Column(xs, nodes, n, ControlColumn(xs, o))
              && items[n].idle == 0.0
              && items[n].allocatedCost == items[n].direct + items[n].network + items[n].control
  {
    AllJoin(xs, nodes, names);
    if n in items {
      var rs := RequestsOf(xs, nodes, names);
      assert Carries(items[n], n, rs, rs, o, IdleAt(rs, o, NodeHours(rs), n));
      IdleAbsent(rs, o, NodeHours(rs), n);
      NameAgrees(xs, nodes, names, n);
      forall u | u in UsageRows(xs)
        ensures UsageCpu(xs)(u) == SumIn(rs, UsageOfRequest, {u}, Cpu)
        ensures UsageBytes(xs)(u) == SumIn(rs, UsageOfRequest, {u}, Bytes) { UsageSums(xs, nodes, names, u); }
      ColumnAgrees(xs, nodes, names, n, Cpu, UsageCpu(xs));
      ColumnAgrees(xs, nodes, names, n, Bytes, UsageBytes(xs));
      CostColumnsAgree(xs, nodes, names, o, n);
    }
  }

  lemma CostColumnsAgree(xs: seq<Metric>, nodes: NodeTable, names: NamespaceTable, o: Options, n: NamespaceHour)
    requires Known(xs, nodes)
    ensures var rs := RequestsOf(xs, nodes, names);
            && Column(xs, nodes, n, WeightColumn(xs, nodes)) == SumIn(rs, NamespaceOf, {n}, WeightBy(rs))
            && Column(xs, nodes, n, DirectColumn(xs, nodes, o)) == SumIn(rs, NamespaceOf, {n}, DirectBy(rs, o))
            && Column(xs, nodes, n, NetworkColumn(xs, o)) == SumIn(rs, NamespaceOf, {n}, NetworkBy(o))
            && Column(xs, nodes, n, ControlColumn(xs, o)) == SumIn(rs, NamespaceOf, {n}, ControlBy(rs, o))
  {
    var rs := RequestsOf(xs, nodes, names);
    forall u | u in UsageRows(xs)
      ensures DirectColumn(xs, nodes, o)(u) == SumIn(rs, UsageOfRequest, {u}, DirectBy(rs, o))
      ensures WeightColumn(xs, nodes)(u) == SumIn(rs, UsageOfRequest, {u}, WeightBy(rs)) {
      WeightAndDirectOfUsage(xs, nodes, names, o, u);
    }
    forall u | u in UsageRows(xs) ensures ControlColumn(xs, o)(u) == SumIn(rs, UsageOfRequest, {u}, ControlBy(rs, o)) {
      ControlOfUsage(xs, nodes, names, o, u);
    }
    forall u | u in UsageRows(xs) ensures NetworkColumn(xs, o)(u) == SumIn(rs, UsageOfRequest, {u}, NetworkBy(o)) {
      NetworkOfUsage(xs, nodes, names, o, u);
    }
    ColumnAgrees(xs, nodes, names, n, WeightBy(rs), WeightColumn(xs, nodes));
    ColumnAgrees(xs, nodes, names, n, DirectBy(rs, o), DirectColumn(xs, nodes, o));
    ColumnAgrees(xs, nodes, names, n, NetworkBy(o), NetworkColumn(xs, o));
    ColumnAgrees(xs, nodes, names, n, ControlBy(rs, o), ControlColumn(xs, o));
  }

  lemma SameIdle(xs: seq<Metric>, nodes: NodeTable, names: NamespaceTable, o: Options, k: NodeHour)
    requires Placed(xs) && k in NodeHours(RequestsOf(xs, nodes, names)) && NodeId(k) in nodes
    ensures SqlIdle(xs, nodes, o)(k) == Idle(RequestsOf(xs, nodes, names), o, k)
  {
    var rs := RequestsOf(xs, nodes, names);
    SameDenominator(xs, nodes, names, k);
    NodeRequestIsTotal(xs, nodes, names, k);
    SameIdleCost(o, NodeTotal(rs, k), Denominator(rs, k));
  }

  /** The engine knows no capacity of an unknown node, so it books no idle time there. */
  lemma UnknownNodeNeverIdles(xs: seq<Metric>, nodes: NodeTable, names: NamespaceTable, o: Options, k: NodeHour)
    requires k in NodeHours(RequestsOf(xs, nodes, names)) && NodeId(k) !in nodes
    ensures Idle(RequestsOf(xs, nodes, names), o, k) == 0.0
  {
    var rs := RequestsOf(xs, nodes, names);
    forall r | r in rs && NodeOf(r) == k ensures r.allocatable == 0 { RequestFor(xs, nodes, names, r); }
    CapacityIsInventory(rs, k, 0);
  }

  lemma SameIdleCost(o: Options, t: nat, d: nat)
    requires t <= d && d > 0
    ensures Share(o.node, Greatest(d as real - t as real, 0.0), d as real) == IdleCost(o, t, d)
  {
    if d > t {
      assert (d - t) as real == d as real - t as real;
    } else {
      assert Price(o.node, 0.0) == 0.0;
    }
  }

  lemma IdleNodesAreKnown(xs: seq<Metric>, nodes: NodeTable, names: NamespaceTable)
    requires Placed(xs)
    ensures IdleNodes(xs, nodes) == set k | k in NodeHours(RequestsOf(xs, nodes, names)) && NodeId(k) in nodes
  {
    var rs := RequestsOf(xs, nodes, names);
    PlacedCounted(xs, nodes, names);
    forall u | u in UsageRows(xs) ensures UsageNode(u) in NodeHours(rs) {
      var m :| m in xs && UsageOf(m) == u;
      RequestIn(xs, nodes, names, m);
      assert NodeOf(AsRequest(nodes, names)(m)) == UsageNode(u);
    }
    forall k | k in NodeHours(rs) && NodeId(k) in nodes ensures k in IdleNodes(xs, nodes) {
      var r :| r in rs && Counted(r) && NodeOf(r) == k;
      assert UsageOfRequest(r) in UsageRows(xs) && UsageNode(UsageOfRequest(r)) == k;
      SameDenominator(xs, nodes, names, k);
    }
  }

  /** Idle capacity agrees too, whether or not every node is known: the query's idle row of a
      cluster-hour is what the engine books there, and where the engine books nothing the query
      says zero. */
  lemma IdleAgreesWithEngine(xs: seq<Metric>, nodes: NodeTable, names: NamespaceTable, o: Options,
                             items: map<NamespaceHour, NamespaceCost>, k: ClusterHour)
    requires Placed(xs) && IsAllocation(items, RequestsOf(xs, nodes, names), o)
    ensures var n := NamespaceHour(k.tenant, k.cluster, IDLE, k.bucket);
            IdleRow(xs, nodes, o, k) == if n in items then items[n].idle else 0.0
  {
    var rs := RequestsOf(xs, nodes, names);
    var n := NamespaceHour(k.tenant, k.cluster, IDLE, k.bucket);
    IdleTotals(xs, nodes, names, o, k, n);
    if n in items {
      assert Carries(items[n], n, rs, rs, o, IdleAt(rs, o, NodeHours(rs), n));
    } else {
      IdleAbsent(rs, o, NodeHours(rs), n);
    }
  }

  lemma IdleTotals(xs: seq<Metric>, nodes: NodeTable, names: NamespaceTable, o: Options, k: ClusterHour,
                   n: NamespaceHour)
    requires Placed(xs) && n == NamespaceHour(k.tenant, k.cluster, IDLE, k.bucket)
    ensures var rs := RequestsOf(xs, nodes, names); IdleRow(xs, nodes, o, k) == IdleAt(rs, o, NodeHours(rs), n)
  {
    var rs := RequestsOf(xs, nodes, names);
    IdleNodesAreKnown(xs, nodes, names);
    var all, known := Fibre(NodeHours(rs), IdleOf, n), Fibre(IdleNodes(xs, nodes), ClusterOfNode, k);
    assert known <= all;
    forall j | j in known ensures SqlIdle(xs, nodes, o)(j) == IdleBy(rs, o)(j) { SameIdle(xs, nodes, names, o, j); }
    TotalSame(known, SqlIdle(xs, nodes, o), IdleBy(rs, o));
    forall j | j in all && j !in known ensures IdleBy(rs, o)(j) == 0.0 {
      UnknownNodeNeverIdles(xs, nodes, names, o, j);
    }
    TotalDropZeros(all, known, IdleBy(rs, o));
  }
}
