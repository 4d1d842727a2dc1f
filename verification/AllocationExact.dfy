/** When the cost query and the engine give the same figures, exactly. */
module AllocationExact {
  import opened Sums
  import opened Allocation
  import opened AllocationTheorems
  import opened AllocationSql
  import opened AllocationQuery

  // ---------------------------------------------------------------- unknown nodes

  lemma UsageIsPositive(xs: seq<Metric>, u: Usage)
    requires AskForCpu(xs)
    ensures UsageCpu(xs)(u) >= 0.0
    ensures u in UsageRows(xs) ==> UsageCpu(xs)(u) > 0.0
  {
    SumInPositive(xs, UsageOf, {u}, CpuOf);
    if u in UsageRows(xs) {
      var m :| m in xs && UsageOf(m) == u;
      assert UsageOf(m) in {u} && CpuOf(m) > 0.0;
    }
  }

  /** A row on an unknown node is billed by the engine and lost in the query's inner join. */
  lemma UnknownNodeIsLost(xs: seq<Metric>, nodes: NodeTable, names: NamespaceTable, m: Metric)
    requires Placed(xs) && m in xs && (m.tenant, m.cluster, m.node) !in nodes
    ensures var n := UsageNamespace(UsageOf(m));
            && n in NamespaceHours(RequestsOf(xs, nodes, names))
            && Column(xs, nodes, n, UsageCpu(xs)) < SumIn(RequestsOf(xs, nodes, names), NamespaceOf, {n}, Cpu)
  {
    var rs, u := RequestsOf(xs, nodes, names), UsageOf(m);
    var n := UsageNamespace(u);
    RequestIn(xs, nodes, names, m);
    PlacedCounted(xs, nodes, names);
    assert NamespaceOf(AsRequest(nodes, names)(m)) == n;
    forall v | v in UsageRows(xs) ensures UsageCpu(xs)(v) > 0.0 { UsageIsPositive(xs, v); }
    forall v | v in UsageRows(xs) ensures UsageCpu(xs)(v) == SumIn(rs, UsageOfRequest, {v}, Cpu) {
      UsageSums(xs, nodes, names, v);
    }
    FibreSum(xs, nodes, names, UsageNamespace, NamespaceOf, n, UsageRows(xs), Cpu, UsageCpu(xs));
    TotalDrops(Fibre(UsageRows(xs), UsageNamespace, n), Fibre(Joined(xs, nodes), UsageNamespace, n), UsageCpu(xs), u);
  }

  // ---------------------------------------------------------------- requests that do not count

  function CountedOnly(rs: seq<Request>): seq<Request> { Filter(rs, Counted) }

  lemma SameTotals(rs: seq<Request>, k: NodeHour, c: ClusterHour)
    ensures NodeTotal(CountedOnly(rs), k) == NodeTotal(rs, k)
    ensures ClusterTotal(CountedOnly(rs), c) == ClusterTotal(rs, c)
  {
    SumInFilter(rs, Counted, NodeOf, {k}, Cpu, Cpu);
    SumInFilter(rs, Counted, ClusterOf, {c}, Cpu, Cpu);
    NodeTotalIsSum(rs, k);
    NodeTotalIsSum(CountedOnly(rs), k);
    ClusterTotalIsSum(rs, c);
    ClusterTotalIsSum(CountedOnly(rs), c);
  }

  lemma {:induction false} SameCapacity(rs: seq<Request>, k: NodeHour)
    ensures NodeCapacity(CountedOnly(rs), k) == NodeCapacity(rs, k)
  {
    if rs != [] {
      var before, r := rs[..|rs| - 1], rs[|rs| - 1];
      SameCapacity(before, k);
      TallyNode(CountedOnly(before), r, k);
    }
  }

  lemma {:induction false} SameName(rs: seq<Request>, n: NamespaceHour)
    ensures NameFor(CountedOnly(rs), n) == NameFor(rs, n)
  {
    if rs != [] {
      var before, r := rs[..|rs| - 1], rs[|rs| - 1];
      SameName(before, n);
      SameHours(before);
      NameLast(CountedOnly(before), r, n);
    }
  }

  lemma NameLast(rs: seq<Request>, r: Request, n: NamespaceHour)
    ensures NameFor(rs + [r], n) == if n in NamespaceHours(rs) then NameFor(rs, n)
                                    else if Counted(r) && NamespaceOf(r) == n then r.namespaceName else IDLE
  {
    assert (rs + [r])[..|rs|] == rs;
  }

  lemma SameHours(rs: seq<Request>)
    ensures NodeHours(CountedOnly(rs)) == NodeHours(rs) && NamespaceHours(CountedOnly(rs)) == NamespaceHours(rs)
  {
    FilterMembers(rs, Counted);
  }

  lemma SameShares(rs: seq<Request>, o: Options, r: Request)
    ensures var cs := CountedOnly(rs);
            && Weight(cs, r) == Weight(rs, r) && Direct(cs, o, r) == Direct(rs, o, r)
            && Control(cs, o, r) == Control(rs, o, r) && System(cs, o, r) == System(rs, o, r)
            && (!Counted(r) ==> Weight(rs, r) == Direct(rs, o, r) == Control(rs, o, r) == System(rs, o, r) == 0.0)
  {
    SameTotals(rs, NodeOf(r), ClusterOf(r));
    SameCapacity(rs, NodeOf(r));
  }

  lemma SameCarried(item: NamespaceCost, n: NamespaceHour, rs: seq<Request>, o: Options, idle: real)
    requires Carries(item, n, rs, rs, o, idle)
    ensures var cs := CountedOnly(rs); Carries(item, n, cs, cs, o, idle)
  {
    var cs := CountedOnly(rs);
    forall r ensures WeightBy(cs)(r) == WeightBy(rs)(r) && DirectBy(cs, o)(r) == DirectBy(rs, o)(r)
      ensures ControlBy(cs, o)(r) == ControlBy(rs, o)(r) && SystemBy(cs, o)(r) == SystemBy(rs, o)(r)
      ensures !Counted(r) ==> WeightBy(rs)(r) == DirectBy(rs, o)(r) == ControlBy(rs, o)(r) == SystemBy(rs, o)(r) == 0.0
    { SameShares(rs, o, r); }
    SumInFilter(rs, Counted, NamespaceOf, {n}, Cpu, Cpu);
    SumInFilter(rs, Counted, NamespaceOf, {n}, Bytes, Bytes);
    SumInFilter(rs, Counted, NamespaceOf, {n}, WeightBy(rs), WeightBy(cs));
    SumInFilter(rs, Counted, NamespaceOf, {n}, DirectBy(rs, o), DirectBy(cs, o));
    SumInFilter(rs, Counted, NamespaceOf, {n}, NetworkBy(o), NetworkBy(o));
    SumInFilter(rs, Counted, NamespaceOf, {n}, ControlBy(rs, o), ControlBy(cs, o));
    SumInFilter(rs, Counted, NamespaceOf, {n}, SystemBy(rs, o), SystemBy(cs, o));
  }

  /** Requests without a node or without CPU change nothing in the engine's result. */
  lemma UncountedIgnored(items: map<NamespaceHour, NamespaceCost>, rs: seq<Request>, o: Options)
    requires IsAllocation(items, rs, o)
    ensures IsAllocation(items, CountedOnly(rs), o)
  {
    var cs := CountedOnly(rs);
    SameHours(rs);
    forall k ensures Denominator(cs, k) == Denominator(rs, k) && NodeTotal(cs, k) == NodeTotal(rs, k) {
      SameTotals(rs, k, ClusterHour("", "", 0));
      SameCapacity(rs, k);
    }
    assert Spare(cs, NodeHours(cs)) == Spare(rs, NodeHours(rs));
    forall n | n in items
      ensures items[n].namespaceName == NameFor(cs, n)
      ensures Carries(items[n], n, cs, cs, o, IdleAt(cs, o, NodeHours(cs), n)) {
      SameName(rs, n);
      assert Carries(items[n], n, rs, rs, o, IdleAt(rs, o, NodeHours(rs), n));
      SameCarried(items[n], n, rs, o, IdleAt(rs, o, NodeHours(rs), n));
      TotalSame(Fibre(NodeHours(rs), IdleOf, n), IdleBy(rs, o), IdleBy(cs, o));
    }
  }

  // ---------------------------------------------------------------- rows without a node

  /** What the filter guarantees. */
  predicate AskForCpu(xs: seq<Metric>) {
    forall m :: m in xs ==> m.cpu > 0
  }

  predicate HasNode(m: Metric) { m.node != "" }

  /** The rows that name a node. */
  function OnNodes(xs: seq<Metric>): seq<Metric> { Filter(xs, HasNode) }

  lemma RequestsOnNodes(xs: seq<Metric>, nodes: NodeTable, names: NamespaceTable)
    requires AskForCpu(xs)
    ensures RequestsOf(OnNodes(xs), nodes, names) == CountedOnly(RequestsOf(xs, nodes, names))
  {
    MappedFilter(xs, AsRequest(nodes, names), HasNode, Counted);
  }

  lemma UsageOnNodes(xs: seq<Metric>, u: Usage, f: Metric -> real)
    requires u.node != ""
    ensures SumIn(OnNodes(xs), UsageOf, {u}, f) == SumIn(xs, UsageOf, {u}, f)
  {
    SumInFilter(xs, HasNode, UsageOf, {u}, f, f);
  }

  lemma RowsOnNodes(xs: seq<Metric>)
    ensures UsageRows(OnNodes(xs)) == set u | u in UsageRows(xs) && u.node != ""
    ensures AskForCpu(xs) ==> Placed(OnNodes(xs))
  {
    FilterMembers(xs, HasNode);
    forall u | u in UsageRows(xs) && u.node != "" ensures u in UsageRows(OnNodes(xs)) {
      var m :| m in xs && UsageOf(m) == u;
      assert m in OnNodes(xs);
    }
  }

  lemma NodeRequestOnNodes(xs: seq<Metric>, k: NodeHour)
    requires k.node != ""
    ensures NodeRequest(OnNodes(xs), k) == NodeRequest(xs, k)
  {
    RowsOnNodes(xs);
    var fibre := Fibre(UsageRows(xs), UsageNode, k);
    assert Fibre(UsageRows(OnNodes(xs)), UsageNode, k) == fibre;
    forall u | u in fibre ensures UsageCpu(OnNodes(xs))(u) == UsageCpu(xs)(u) { UsageOnNodes(xs, u, CpuOf); }
    TotalSame(fibre, UsageCpu(OnNodes(xs)), UsageCpu(xs));
  }

  lemma RequestsArePositive(xs: seq<Metric>, u: Usage)
    requires AskForCpu(xs) && u in UsageRows(xs)
    ensures ClusterRequest(xs, UsageCluster(u)) > 0.0
  {
    var fibre := Fibre(UsageRows(xs), UsageCluster, UsageCluster(u));
    forall v | v in fibre ensures UsageCpu(xs)(v) > 0.0 { UsageIsPositive(xs, v); }
    TotalDrops(fibre, {}, UsageCpu(xs), u);
  }

  /** The inventory has no node without a UID: validation refuses one. */
  predicate NamedNodes(nodes: NodeTable) {
    forall id :: id in nodes ==> id.2 != ""
  }

  lemma JoinedOnNodes(xs: seq<Metric>, nodes: NodeTable)
    requires AskForCpu(xs) && NamedNodes(nodes)
    ensures Joined(OnNodes(xs), nodes) == Joined(xs, nodes)
  {
    var ps := OnNodes(xs);
    RowsOnNodes(xs);
    forall u | u in UsageRows(xs) && NodeId(UsageNode(u)) in nodes
      ensures u in Joined(ps, nodes) <==> u in Joined(xs, nodes) {
      assert u.node != "" && u in UsageRows(ps);
      NodeRequestOnNodes(xs, UsageNode(u));
      RequestsArePositive(xs, u);
      RequestsArePositive(ps, u);
    }
  }

  /** Every column but the control plane's is the same without the rows that name no node. */
  lemma ColumnOnNodes(xs: seq<Metric>, nodes: NodeTable, n: NamespaceHour, f: Usage -> real, g: Usage -> real)
    requires AskForCpu(xs) && NamedNodes(nodes) && forall u: Usage :: u.node != "" ==> f(u) == g(u)
    ensures Column(OnNodes(xs), nodes, n, f) == Column(xs, nodes, n, g)
  {
    JoinedOnNodes(xs, nodes);
    var fibre := Fibre(Joined(xs, nodes), UsageNamespace, n);
    forall u | u in fibre ensures f(u) == g(u) { assert NodeId(UsageNode(u)) in nodes; }
    TotalSame(fibre, f, g);
  }

  lemma UsageFigures(xs: seq<Metric>, nodes: NodeTable, o: Options)
    ensures var ps := OnNodes(xs);
            forall u: Usage :: u.node != "" ==>
              && UsageCpu(ps)(u) == UsageCpu(xs)(u) && UsageBytes(ps)(u) == UsageBytes(xs)(u)
              && WeightColumn(ps, nodes)(u) == WeightColumn(xs, nodes)(u)
              && DirectColumn(ps, nodes, o)(u) == DirectColumn(xs, nodes, o)(u)
              && NetworkColumn(ps, o)(u) == NetworkColumn(xs, o)(u)
  {
    var ps := OnNodes(xs);
    forall u: Usage | u.node != ""
      ensures UsageCpu(ps)(u) == UsageCpu(xs)(u) && UsageBytes(ps)(u) == UsageBytes(xs)(u)
      ensures WeightColumn(ps, nodes)(u) == WeightColumn(xs, nodes)(u)
      ensures DirectColumn(ps, nodes, o)(u) == DirectColumn(xs, nodes, o)(u)
      ensures NetworkColumn(ps, o)(u) == NetworkColumn(xs, o)(u) {
      UsageOnNodes(xs, u, CpuOf);
      UsageOnNodes(xs, u, BytesOf);
      NodeRequestOnNodes(xs, UsageNode(u));
    }
  }

  lemma FiguresOnNodes(xs: seq<Metric>, nodes: NodeTable, o: Options, n: NamespaceHour)
    requires AskForCpu(xs) && NamedNodes(nodes)
    ensures var ps := OnNodes(xs);
            && Column(ps, nodes, n, UsageCpu(ps)) == Column(xs, nodes, n, UsageCpu(xs))
            && Column(ps, nodes, n, UsageBytes(ps)) == Column(xs, nodes, n, UsageBytes(xs))
            && Column(ps, nodes, n, WeightColumn(ps, nodes)) == Column(xs, nodes, n, WeightColumn(xs, nodes))
            && Column(ps, nodes, n, DirectColumn(ps, nodes, o)) == Column(xs, nodes, n, DirectColumn(xs, nodes, o))
            && Column(ps, nodes, n, NetworkColumn(ps, o)) == Column(xs, nodes, n, NetworkColumn(xs, o))
  {
    var ps := OnNodes(xs);
    UsageFigures(xs, nodes, o);
    ColumnOnNodes(xs, nodes, n, UsageCpu(ps), UsageCpu(xs));
    ColumnOnNodes(xs, nodes, n, UsageBytes(ps), UsageBytes(xs));
    ColumnOnNodes(xs, nodes, n, WeightColumn(ps, nodes), WeightColumn(xs, nodes));
    ColumnOnNodes(xs, nodes, n, DirectColumn(ps, nodes, o), DirectColumn(xs, nodes, o));
    ColumnOnNodes(xs, nodes, n, NetworkColumn(ps, o), NetworkColumn(xs, o));
  }

  // ---------------------------------------------------------------- the control plane

  function ClusterOfNamespace(n: NamespaceHour): ClusterHour { ClusterHour(n.tenant, n.cluster, n.bucket) }

  function Rate(price: real, total: real): real { if total == 0.0 then 0.0 else price / total }

  lemma ShareIsRate(price: real, a: real, total: real)
    ensures Share(price, a, total) == Rate(price, total) * a
  {
    if total != 0.0 { assert price * (a / total) == price / total * a; }
  }

  lemma PricesAdd(price: real, x: real, y: real)
    ensures Price(price, x + y) == Price(price, x) + Price(price, y)
  {
  }

  lemma PartsAdd(a: real, b: real, total: real)
    ensures Over(a + b, total) == Over(a, total) + Over(b, total)
  {
  }

  function ShareOf(price: real, total: real): real -> real { a => Share(price, a, total) }

  lemma ShareAdds(price: real, total: real)
    ensures Additive(ShareOf(price, total))
  {
    var h := ShareOf(price, total);
    forall a, b ensures h(a + b) == h(a) + h(b) {
      PartsAdd(a, b, total);
      PricesAdd(price, Over(a, total), Over(b, total));
    }
  }

  /** The query's control-plane column: the namespace's part of all CPU asked for in the cluster. */
  lemma ControlOfNamespace(xs: seq<Metric>, nodes: NodeTable, o: Options, n: NamespaceHour)
    ensures Column(xs, nodes, n, ControlColumn(xs, o)) ==
            Share(o.controlPlane, Column(xs, nodes, n, UsageCpu(xs)), ClusterRequest(xs, ClusterOfNamespace(n)))
  {
    var fibre, total := Fibre(Joined(xs, nodes), UsageNamespace, n), ClusterRequest(xs, ClusterOfNamespace(n));
    var h := ShareOf(o.controlPlane, total);
    ShareAdds(o.controlPlane, total);
    forall u | u in fibre ensures ControlColumn(xs, o)(u) == h(UsageCpu(xs)(u)) {
      assert UsageCluster(u) == ClusterOfNamespace(n);
    }
    TotalThrough(fibre, ControlColumn(xs, o), UsageCpu(xs), h);
  }

  /** A row of the cluster-hour names no node. */
  ghost predicate Bare(xs: seq<Metric>, k: ClusterHour) {
    exists m :: m in xs && m.node == "" && UsageCluster(UsageOf(m)) == k
  }

  /** Rows without a node count in the cluster's total, and only they make a difference. */
  lemma ClusterRequestOnNodes(xs: seq<Metric>, k: ClusterHour)
    requires AskForCpu(xs)
    ensures if Bare(xs, k) then ClusterRequest(OnNodes(xs), k) < ClusterRequest(xs, k)
            else ClusterRequest(OnNodes(xs), k) == ClusterRequest(xs, k)
  {
    var ps := OnNodes(xs);
    RowsOnNodes(xs);
    var all, some := Fibre(UsageRows(xs), UsageCluster, k), Fibre(UsageRows(ps), UsageCluster, k);
    forall u | u in some ensures UsageCpu(ps)(u) == UsageCpu(xs)(u) { UsageOnNodes(xs, u, CpuOf); }
    TotalSame(some, UsageCpu(ps), UsageCpu(xs));
    if Bare(xs, k) {
      var m :| m in xs && m.node == "" && UsageCluster(UsageOf(m)) == k;
      forall u | u in all ensures UsageCpu(xs)(u) > 0.0 { UsageIsPositive(xs, u); }
      TotalDrops(all, some, UsageCpu(xs), UsageOf(m));
    } else {
      assert all == some;
    }
  }

  lemma SameShare(price: real, a: real, b: real, c: real)
    requires price == 0.0 || a == 0.0 || b == c
    ensures Share(price, a, b) == Share(price, a, c)
  {
    ShareIsRate(price, a, b);
    ShareIsRate(price, a, c);
  }

  lemma HalfShare(price: real)
    ensures Share(price, 1.0, 1.0) == price && Share(price, 1.0, 2.0) == price / 2.0
  {
  }

  lemma LargerTotalSmallerShare(price: real, a: real, b: real, c: real)
    requires price > 0.0 && a > 0.0 && 0.0 < b < c
    ensures Share(price, a, c) < Share(price, a, b)
  {
    assert a / c < a / b;
  }

  // ---------------------------------------------------------------- exact agreement

  /** The inventory knows every node that is named. */
  ghost predicate NodesKnown(xs: seq<Metric>, nodes: NodeTable) {
    forall m :: m in xs && m.node != "" ==> (m.tenant, m.cluster, m.node) in nodes
  }

  /** No cluster-hour has rows with a node and rows without one. */
  ghost predicate Unmixed(xs: seq<Metric>) {
    forall m :: m in xs && m.node != "" ==> !Bare(xs, UsageCluster(UsageOf(m)))
  }

  ghost predicate Covered(xs: seq<Metric>, nodes: NodeTable, o: Options) {
    NodesKnown(xs, nodes) && (o.controlPlane == 0.0 || Unmixed(xs))
  }

  lemma EngineOnNodes(xs: seq<Metric>, nodes: NodeTable, names: NamespaceTable, o: Options,
                      items: map<NamespaceHour, NamespaceCost>)
    requires AskForCpu(xs) && IsAllocation(items, RequestsOf(xs, nodes, names), o)
    ensures IsAllocation(items, RequestsOf(OnNodes(xs), nodes, names), o)
    ensures Placed(OnNodes(xs)) && (NodesKnown(xs, nodes) ==> Known(OnNodes(xs), nodes))
  {
    RequestsOnNodes(xs, nodes, names);
    UncountedIgnored(items, RequestsOf(xs, nodes, names), o);
    RowsOnNodes(xs);
    FilterMembers(xs, HasNode);
  }

  /** With every named node known, the engine's figures are those of the rows with a node. */
  lemma FiguresOfKnown(ps: seq<Metric>, nodes: NodeTable, names: NamespaceTable, o: Options,
                       items: map<NamespaceHour, NamespaceCost>, n: NamespaceHour)
    requires Known(ps, nodes) && IsAllocation(items, RequestsOf(ps, nodes, names), o) && n in items
    ensures SameFigures(ps, nodes, o, n, items[n])
  {
    var rs := RequestsOf(ps, nodes, names);
    assert Carries(items[n], n, rs, rs, o, IdleAt(rs, o, NodeHours(rs), n));
    forall u | u in UsageRows(ps)
      ensures UsageCpu(ps)(u) == SumIn(rs, UsageOfRequest, {u}, Cpu)
      ensures UsageBytes(ps)(u) == SumIn(rs, UsageOfRequest, {u}, Bytes) { UsageSums(ps, nodes, names, u); }
    ColumnAgrees(ps, nodes, names, n, Cpu, UsageCpu(ps));
    ColumnAgrees(ps, nodes, names, n, Bytes, UsageBytes(ps));
    CostColumnsAgree(ps, nodes, names, o, n);
  }

  /** So all figures agree but the control plane's, and that one exactly when the totals do. */
  lemma FiguresOfAll(xs: seq<Metric>, nodes: NodeTable, names: NamespaceTable, o: Options,
                     items: map<NamespaceHour, NamespaceCost>, n: NamespaceHour)
    requires AskForCpu(xs) && NamedNodes(nodes) && NodesKnown(xs, nodes)
    requires IsAllocation(items, RequestsOf(xs, nodes, names), o) && n in items
    ensures items[n].cpu as real == Column(xs, nodes, n, UsageCpu(xs))
    ensures items[n].control == Share(o.controlPlane, items[n].cpu as real,
                                      ClusterRequest(OnNodes(xs), ClusterOfNamespace(n)))
    ensures SameFigures(xs, nodes, o, n, items[n]) <==>
            items[n].control == Share(o.controlPlane, items[n].cpu as real, ClusterRequest(xs, ClusterOfNamespace(n)))
  {
    var ps := OnNodes(xs);
    EngineOnNodes(xs, nodes, names, o, items);
    FiguresOfKnown(ps, nodes, names, o, items, n);
    FiguresOnNodes(xs, nodes, o, n);
    ControlOfNamespace(ps, nodes, o, n);
    ControlOfNamespace(xs, nodes, o, n);
  }

  /** An item with CPU has a row with a node in its cluster-hour. */
  lemma CpuHasRow(xs: seq<Metric>, nodes: NodeTable, names: NamespaceTable, o: Options,
                  items: map<NamespaceHour, NamespaceCost>, n: NamespaceHour)
    requires IsAllocation(items, RequestsOf(xs, nodes, names), o) && n in items && items[n].cpu > 0
    ensures exists m :: m in xs && m.node != "" && UsageCluster(UsageOf(m)) == ClusterOfNamespace(n)
  {
    var rs := RequestsOf(xs, nodes, names);
    assert Carries(items[n], n, rs, rs, o, IdleAt(rs, o, NodeHours(rs), n));
    if n !in NamespaceHours(rs) { NothingSeen(n, rs, rs, o); }
    var r :| r in rs && Counted(r) && NamespaceOf(r) == n;
    RequestFor(xs, nodes, names, r);
    var m :| m in xs && r == AsRequest(nodes, names)(m);
    assert m.node != "" && UsageCluster(UsageOf(m)) == ClusterOfNamespace(n);
  }

  lemma CoveredAgrees(xs: seq<Metric>, nodes: NodeTable, names: NamespaceTable, o: Options,
                      items: map<NamespaceHour, NamespaceCost>, n: NamespaceHour)
    requires AskForCpu(xs) && NamedNodes(nodes) && Covered(xs, nodes, o)
    requires IsAllocation(items, RequestsOf(xs, nodes, names), o) && n in items
    ensures SameFigures(xs, nodes, o, n, items[n])
  {
    FiguresOfAll(xs, nodes, names, o, items, n);
    CoveredTotals(xs, nodes, names, o, items, n);
    SameShare(o.controlPlane, items[n].cpu as real, ClusterRequest(OnNodes(xs), ClusterOfNamespace(n)),
              ClusterRequest(xs, ClusterOfNamespace(n)));
  }

  lemma CoveredTotals(xs: seq<Metric>, nodes: NodeTable, names: NamespaceTable, o: Options,
                      items: map<NamespaceHour, NamespaceCost>, n: NamespaceHour)
    requires AskForCpu(xs) && Covered(xs, nodes, o)
    requires IsAllocation(items, RequestsOf(xs, nodes, names), o) && n in items
    ensures var k := ClusterOfNamespace(n);
            || o.controlPlane == 0.0 || items[n].cpu as real == 0.0
            || ClusterRequest(OnNodes(xs), k) == ClusterRequest(xs, k)
  {
    if o.controlPlane != 0.0 && items[n].cpu > 0 {
      CpuHasRow(xs, nodes, names, o, items, n);
      ClusterRequestOnNodes(xs, ClusterOfNamespace(n));
    }
  }

  lemma UnknownDisagrees(xs: seq<Metric>, nodes: NodeTable, names: NamespaceTable, o: Options,
                         items: map<NamespaceHour, NamespaceCost>, m: Metric)
    requires AskForCpu(xs) && NamedNodes(nodes) && IsAllocation(items, RequestsOf(xs, nodes, names), o)
    requires m in xs && m.node != "" && (m.tenant, m.cluster, m.node) !in nodes
    ensures var n := UsageNamespace(UsageOf(m)); n in items && !SameFigures(xs, nodes, o, n, items[n])
  {
    var ps, n := OnNodes(xs), UsageNamespace(UsageOf(m));
    var rs := RequestsOf(ps, nodes, names);
    EngineOnNodes(xs, nodes, names, o, items);
    FilterMembers(xs, HasNode);
    UnknownNodeIsLost(ps, nodes, names, m);
    assert Carries(items[n], n, rs, rs, o, IdleAt(rs, o, NodeHours(rs), n));
    FiguresOnNodes(xs, nodes, o, n);
  }

  lemma MixedDisagrees(xs: seq<Metric>, nodes: NodeTable, names: NamespaceTable, o: Options,
                       items: map<NamespaceHour, NamespaceCost>, m: Metric)
    requires AskForCpu(xs) && NamedNodes(nodes) && IsAllocation(items, RequestsOf(xs, nodes, names), o)
    requires NodesKnown(xs, nodes) && o.controlPlane > 0.0
    requires m in xs && m.node != "" && Bare(xs, UsageCluster(UsageOf(m)))
    ensures var n := UsageNamespace(UsageOf(m)); n in items && !SameFigures(xs, nodes, o, n, items[n])
  {
    var ps, n := OnNodes(xs), UsageNamespace(UsageOf(m));
    RowHasCpu(xs, nodes, names, o, items, m);
    FiguresOfAll(xs, nodes, names, o, items, n);
    MixedTotals(xs, m);
    LargerTotalSmallerShare(o.controlPlane, items[n].cpu as real, ClusterRequest(ps, ClusterOfNamespace(n)),
                            ClusterRequest(xs, ClusterOfNamespace(n)));
  }

  lemma MixedTotals(xs: seq<Metric>, m: Metric)
    requires AskForCpu(xs) && m in xs && m.node != "" && Bare(xs, UsageCluster(UsageOf(m)))
    ensures var k := ClusterOfNamespace(UsageNamespace(UsageOf(m)));
            0.0 < ClusterRequest(OnNodes(xs), k) < ClusterRequest(xs, k)
  {
    var ps, k := OnNodes(xs), UsageCluster(UsageOf(m));
    ClusterRequestOnNodes(xs, k);
    RowsOnNodes(xs);
    assert UsageOf(m) in UsageRows(ps);
    RequestsArePositive(ps, UsageOf(m));
  }

  lemma RowHasCpu(xs: seq<Metric>, nodes: NodeTable, names: NamespaceTable, o: Options,
                  items: map<NamespaceHour, NamespaceCost>, m: Metric)
    requires AskForCpu(xs) && IsAllocation(items, RequestsOf(xs, nodes, names), o) && m in xs && m.node != ""
    ensures var n := UsageNamespace(UsageOf(m)); n in items && items[n].cpu > 0
  {
    var n, rs, r := UsageNamespace(UsageOf(m)), RequestsOf(xs, nodes, names), AsRequest(nodes, names)(m);
    RequestIn(xs, nodes, names, m);
    assert Counted(r) && NamespaceOf(r) == n;
    assert Carries(items[n], n, rs, rs, o, IdleAt(rs, o, NodeHours(rs), n));
    SumInPositive(rs, NamespaceOf, {n}, Cpu);
    assert NamespaceOf(r) in {n} && Cpu(r) > 0.0;
  }

  /** Over everything a query selects, with or without nodes: its figures are the engine's for every
      namespace-hour exactly when the inventory knows every named node and, unless the control plane
      is free, no cluster-hour mixes rows with a node and rows without one. */
  lemma FiguresAgreeExactly(q: Query, ms: seq<Metric>, nodes: NodeTable, names: NamespaceTable, given: Options,
                            items: map<NamespaceHour, NamespaceCost>)
    requires NamedNodes(nodes) && IsAllocation(items, RequestsOf(Select(q, ms), nodes, names), Normalize(given))
    ensures (forall n :: n in items ==> SameFigures(Select(q, ms), nodes, Normalize(given), n, items[n])) <==>
            Covered(Select(q, ms), nodes, Normalize(given))
  {
    var xs, o := Select(q, ms), Normalize(given);
    if Covered(xs, nodes, o) {
      forall n | n in items ensures SameFigures(xs, nodes, o, n, items[n]) {
        CoveredAgrees(xs, nodes, names, o, items, n);
      }
    } else if !NodesKnown(xs, nodes) {
      var m :| m in xs && m.node != "" && (m.tenant, m.cluster, m.node) !in nodes;
      UnknownDisagrees(xs, nodes, names, o, items, m);
    } else {
      var m :| m in xs && m.node != "" && Bare(xs, UsageCluster(UsageOf(m)));
      MixedDisagrees(xs, nodes, names, o, items, m);
    }
  }

  // ---------------------------------------------------------------- the whole query

  lemma CoveredRows(xs: seq<Metric>, nodes: NodeTable, names: NamespaceTable, o: Options,
                    items: map<NamespaceHour, NamespaceCost>, n: NamespaceHour)
    requires AskForCpu(xs) && NamedNodes(nodes) && NodesKnown(xs, nodes) && n.namespaceUid != IDLE
    requires IsAllocation(items, RequestsOf(xs, nodes, names), o)
    ensures n in AllocatedRows(xs, nodes) <==> n in items
    ensures n in items ==> && items[n].namespaceName == NamespaceName(names, n)
                           && items[n].allocatedCost == items[n].direct + items[n].network + items[n].control
  {
    EngineOnNodes(xs, nodes, names, o, items);
    JoinedOnNodes(xs, nodes);
    QueryAgreesWithEngine(OnNodes(xs), nodes, names, o, items, n);
  }

  /** From the stored metrics to the result: for every covered query over whole hours the database's
      rows are the engine's, whichever way the filter is read, and all of them lie in the range,
      tenant and cluster asked for. */
  lemma QueryEndToEnd(q: Query, ms: seq<Metric>, nodes: NodeTable, names: NamespaceTable, given: Options,
                      items: map<NamespaceHour, NamespaceCost>, n: NamespaceHour)
    requires WholeHours(q) && NamedNodes(nodes) && Covered(Select(q, ms), nodes, Normalize(given))
    requires IsAllocation(items, RequestsOf(Select(q, ms), nodes, names), Normalize(given)) && n.namespaceUid != IDLE
    ensures var xs := SelectHours(q, ms);
            && (n in AllocatedRows(xs, nodes) <==> n in items)
            && (n in items ==>
                  && Answers(xs, nodes, names, Normalize(given), n, items[n])
                  && n.tenant == q.tenant && q.start <= n.bucket < q.end && (q.cluster == "" || n.cluster == q.cluster))
  {
    FiltersAgree(q, ms);
    CoveredRows(Select(q, ms), nodes, names, Normalize(given), items, n);
    if n in items {
      CoveredAgrees(Select(q, ms), nodes, names, Normalize(given), items, n);
      SelectedHour(q, ms, nodes, n);
    }
  }

  /** Idle capacity agrees for every query, covered or not. */
  lemma QueryIdleAgrees(q: Query, ms: seq<Metric>, nodes: NodeTable, names: NamespaceTable, o: Options,
                        items: map<NamespaceHour, NamespaceCost>, k: ClusterHour)
    requires NamedNodes(nodes) && IsAllocation(items, RequestsOf(Select(q, ms), nodes, names), o)
    ensures var n := NamespaceHour(k.tenant, k.cluster, IDLE, k.bucket);
            IdleRow(Select(q, ms), nodes, o, k) == if n in items then items[n].idle else 0.0
  {
    var xs := Select(q, ms);
    EngineOnNodes(xs, nodes, names, o, items);
    IdleAgreesWithEngine(OnNodes(xs), nodes, names, o, items, k);
    IdleOnNodes(xs, nodes, o, k);
  }

  lemma IdleNodesOnNodes(xs: seq<Metric>, nodes: NodeTable)
    requires NamedNodes(nodes)
    ensures IdleNodes(OnNodes(xs), nodes) == IdleNodes(xs, nodes)
    ensures forall k :: k in IdleNodes(xs, nodes) ==> k.node != ""
  {
    RowsOnNodes(xs);
    forall k: NodeHour | k.node != "" ensures NodeRequest(OnNodes(xs), k) == NodeRequest(xs, k) {
      NodeRequestOnNodes(xs, k);
    }
  }

  lemma IdleOnNodes(xs: seq<Metric>, nodes: NodeTable, o: Options, k: ClusterHour)
    requires NamedNodes(nodes)
    ensures IdleRow(OnNodes(xs), nodes, o, k) == IdleRow(xs, nodes, o, k)
  {
    var ps := OnNodes(xs);
    IdleNodesOnNodes(xs, nodes);
    var fibre := Fibre(IdleNodes(xs, nodes), ClusterOfNode, k);
    forall j | j in fibre ensures SqlIdle(ps, nodes, o)(j) == SqlIdle(xs, nodes, o)(j) { NodeRequestOnNodes(xs, j); }
    TotalSame(fibre, SqlIdle(ps, nodes, o), SqlIdle(xs, nodes, o));
  }

  // ---------------------------------------------------------------- an hour that mixes them

  const PLACED := Metric("t", "c", "node", "apps", 0, 1, 0, 0)
  const UNPLACED := Metric("t", "c", "", "batch", 0, 1, 0, 0)

  const MIXED := [PLACED, UNPLACED]
  const HOUR := ClusterHour("t", "c", 0)

  lemma ExampleTotals()
    ensures OnNodes(MIXED) == [PLACED] && ClusterRequest([PLACED], HOUR) == 1.0 && ClusterRequest(MIXED, HOUR) == 2.0
  {
    var u, v := UsageOf(PLACED), UsageOf(UNPLACED);
    assert MIXED[..1] == [PLACED] && [PLACED][..0] == [];
    assert Filter([PLACED], HasNode) == [PLACED];
    assert UsageRows([PLACED]) == {u} == Fibre(UsageRows([PLACED]), UsageCluster, HOUR);
    assert UsageRows(MIXED) == {u, v} == Fibre(UsageRows(MIXED), UsageCluster, HOUR);
    SumInTwo(PLACED, UNPLACED, UsageOf, {u}, CpuOf);
    SumInTwo(PLACED, UNPLACED, UsageOf, {v}, CpuOf);
    SumInLast([], PLACED, UsageOf, {u}, CpuOf);
    assert [] + [PLACED] == [PLACED];
    TotalSplit({u}, UsageCpu([PLACED]), u);
    TotalSplit({u, v}, UsageCpu(MIXED), u);
    TotalSplit({v}, UsageCpu(MIXED), v);
    assert {u, v} - {u} == {v} && {v} - {v} == {} && {u} - {u} == {};
  }

  lemma ExampleCpu(items: map<NamespaceHour, NamespaceCost>, o: Options, n: NamespaceHour)
    requires IsAllocation(items, RequestsOf(MIXED, NODES, map[]), o) && n == NamespaceHour("t", "c", "apps", 0)
    ensures n in items && items[n].cpu == 1
  {
    var rs, r, x := RequestsOf(MIXED, NODES, map[]), AsRequest(NODES, map[])(PLACED), AsRequest(NODES, map[])(UNPLACED);
    assert rs == [r, x] && NamespaceOf(r) == n && Counted(r);
    assert r in rs;
    SumInTwo(r, x, NamespaceOf, {n}, Cpu);
    assert Carries(items[n], n, rs, rs, o, IdleAt(rs, o, NodeHours(rs), n));
  }

  lemma ExampleKnown()
    ensures AskForCpu(MIXED) && NamedNodes(NODES) && NodesKnown(MIXED, NODES)
  {
  }

  lemma ExampleControl(items: map<NamespaceHour, NamespaceCost>, o: Options, n: NamespaceHour)
    requires IsAllocation(items, RequestsOf(MIXED, NODES, map[]), o) && n in items && items[n].cpu == 1
    requires ClusterOfNamespace(n) == HOUR
    ensures Column(MIXED, NODES, n, UsageCpu(MIXED)) == 1.0
    ensures items[n].control == Share(o.controlPlane, 1.0, 1.0)
    ensures Column(MIXED, NODES, n, ControlColumn(MIXED, o)) == Share(o.controlPlane, 1.0, 2.0)
  {
    ExampleKnown();
    ExampleTotals();
    FiguresOfAll(MIXED, NODES, map[], o, items, n);
    ControlOfNamespace(MIXED, NODES, o, n);
  }

  /** One row on a known node and one without a node: CPU agrees, and the query charges half the
      control plane that the engine charges. */
  lemma MixedHourHalvesControl(o: Options, items: map<NamespaceHour, NamespaceCost>, n: NamespaceHour)
    requires IsAllocation(items, RequestsOf(MIXED, NODES, map[]), o) && n == NamespaceHour("t", "c", "apps", 0)
    ensures NodesKnown(MIXED, NODES) && n in items
    ensures items[n].cpu as real == Column(MIXED, NODES, n, UsageCpu(MIXED)) == 1.0
    ensures items[n].control == o.controlPlane
    ensures Column(MIXED, NODES, n, ControlColumn(MIXED, o)) == o.controlPlane / 2.0
  {
    ExampleCpu(items, o, n);
    ExampleKnown();
    ExampleControl(items, o, n);
    HalfShare(o.controlPlane);
  }
}
