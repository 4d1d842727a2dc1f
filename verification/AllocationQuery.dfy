/** The cost query from end to end: its filter, its joins and its system column. */
module AllocationQuery {
  import opened Sums
  import opened Allocation
  import opened AllocationSql

  // ---------------------------------------------------------------- the filter

  /** An empty cluster selects every cluster of the tenant. */
  datatype Query = Query(tenant: string, cluster: string, start: int, end: int)

  /** What the engine accepts: ranges of whole hours. */
  predicate WholeHours(q: Query) { q.start < q.end && q.start % 3600 == 0 && q.end % 3600 == 0 }

  predicate Where(q: Query, m: Metric) {
    && m.tenant == q.tenant && q.start <= m.time < q.end && m.cpu > 0
    && (q.cluster == "" || m.cluster == q.cluster)
  }

  /** Keeps the rows of the tenant in the time range that ask for CPU, of one cluster or of all. */
  function Select(q: Query, ms: seq<Metric>): (xs: seq<Metric>)
    ensures forall m :: m in xs <==>
                        && m in ms && m.tenant == q.tenant && q.start <= m.time < q.end && m.cpu > 0
                        && (q.cluster != "" ==> m.cluster == q.cluster)
    ensures forall m :: m in xs ==> multiset(xs)[m] == multiset(ms)[m]
  {
    if ms == [] then [] else
      var n := |ms| - 1;
      assert ms == ms[..n] + [ms[n]];
      Select(q, ms[..n]) + (if Where(q, ms[n]) then [ms[n]] else [])
  }

  /** The filter as the database reads it when the hour column hides the time it is computed from. */
  predicate WhereHour(q: Query, m: Metric) {
    && m.tenant == q.tenant && q.start <= Hour(m.time) < q.end && m.cpu > 0
    && (q.cluster == "" || m.cluster == q.cluster)
  }

  function SelectHours(q: Query, ms: seq<Metric>): seq<Metric> {
    if ms == [] then [] else
      var n := |ms| - 1;
      SelectHours(q, ms[..n]) + (if WhereHour(q, ms[n]) then [ms[n]] else [])
  }

  /** Filtering raw times or their hours is the same when the range is made of whole hours. */
  lemma AlignedRange(time: int, start: int, end: int)
    requires start % 3600 == 0 && end % 3600 == 0
    ensures start <= time < end <==> start <= Hour(time) < end
  {
    assert Hour(time) <= time < Hour(time) + 3600;
    assert Hour(time) == time / 3600 * 3600 && start == start / 3600 * 3600 && end == end / 3600 * 3600;
  }

  /** Either reading of the filter selects the same rows. */
  lemma {:induction false} FiltersAgree(q: Query, ms: seq<Metric>)
    requires WholeHours(q)
    ensures SelectHours(q, ms) == Select(q, ms)
  {
    if ms != [] {
      FiltersAgree(q, ms[..|ms| - 1]);
      AlignedRange(ms[|ms| - 1].time, q.start, q.end);
    }
  }

  /** The database's row for namespace-hour n has the figures of `item`. */
  ghost predicate SameFigures(xs: seq<Metric>, nodes: NodeTable, o: Options, n: NamespaceHour, item: NamespaceCost) {
    && item.cpu as real == Column(xs, nodes, n, UsageCpu(xs))
    && item.bytes as real == Column(xs, nodes, n, UsageBytes(xs))
    && item.weight == Column(xs, nodes, n, WeightColumn(xs, nodes))
    && item.direct == Column(xs, nodes, n, DirectColumn(xs, nodes, o))
    && item.network == Column(xs, nodes, n, NetworkColumn(xs, o))
    && item.control == Column(xs, nodes, n, ControlColumn(xs, o))
  }

  /** The database's row for namespace-hour n is `item`. */
  ghost predicate Answers(xs: seq<Metric>, nodes: NodeTable, names: NamespaceTable, o: Options, n: NamespaceHour,
                          item: NamespaceCost)
  {
    && (var id := (n.tenant, n.cluster, n.namespaceUid);
        item.namespaceName == if id in names && names[id] != "" then names[id] else n.namespaceUid)
    && SameFigures(xs, nodes, o, n, item)
    && item.allocatedCost == item.direct + item.network + item.control
  }

  lemma SelectedHour(q: Query, ms: seq<Metric>, nodes: NodeTable, n: NamespaceHour)
    requires WholeHours(q) && n in AllocatedRows(Select(q, ms), nodes)
    ensures n.tenant == q.tenant && q.start <= n.bucket < q.end && (q.cluster == "" || n.cluster == q.cluster)
  {
    var u :| u in Joined(Select(q, ms), nodes) && UsageNamespace(u) == n;
    var m :| m in Select(q, ms) && UsageOf(m) == u;
    AlignedRange(m.time, q.start, q.end);
  }

  // ---------------------------------------------------------------- system namespaces

  lemma SystemSum(rs: seq<Request>, o: Options, n: NamespaceHour, system: bool)
    requires forall r :: r in rs && NamespaceOf(r) in {n} ==> IsSystem(r.namespaceName, r.namespaceUid) == system
    ensures SumIn(rs, NamespaceOf, {n}, SystemBy(rs, o)) ==
            if system then SumIn(rs, NamespaceOf, {n}, DirectBy(rs, o)) + SumIn(rs, NamespaceOf, {n}, NetworkBy(o))
                           + SumIn(rs, NamespaceOf, {n}, ControlBy(rs, o))
            else 0.0
  {
    if system {
      var dn := (r: Request) => Direct(rs, o, r) + Network(o, r);
      SumInPlus(rs, NamespaceOf, {n}, DirectBy(rs, o), NetworkBy(o), dn);
      SumInPlus(rs, NamespaceOf, {n}, dn, ControlBy(rs, o), SystemBy(rs, o));
    } else {
      SumInZero(rs, NamespaceOf, {n}, SystemBy(rs, o));
    }
  }

  lemma SystemOfNamespace(xs: seq<Metric>, nodes: NodeTable, names: NamespaceTable, o: Options, n: NamespaceHour)
    ensures var rs := RequestsOf(xs, nodes, names);
            SumIn(rs, NamespaceOf, {n}, SystemBy(rs, o)) ==
            if SystemName(NamespaceName(names, n)) || SystemName(n.namespaceUid)
            then SumIn(rs, NamespaceOf, {n}, DirectBy(rs, o)) + SumIn(rs, NamespaceOf, {n}, NetworkBy(o))
                 + SumIn(rs, NamespaceOf, {n}, ControlBy(rs, o))
            else 0.0
  {
    var rs := RequestsOf(xs, nodes, names);
    var system := SystemName(NamespaceName(names, n)) || SystemName(n.namespaceUid);
    forall r | r in rs && NamespaceOf(r) in {n} ensures IsSystem(r.namespaceName, r.namespaceUid) == system {
      OneName(xs, nodes, names, n, r);
    }
    SystemSum(rs, o, n, system);
  }

  /** The engine books as system cost everything charged to a namespace that has, by name or by UID, one
      of the three system names, and nothing of the others. */
  lemma SystemCostIs(xs: seq<Metric>, nodes: NodeTable, names: NamespaceTable, o: Options,
                     items: map<NamespaceHour, NamespaceCost>, n: NamespaceHour)
    requires IsAllocation(items, RequestsOf(xs, nodes, names), o) && n in items
    ensures var three := ["kube-system", "kube-public", "kube-node-lease"];
            items[n].system == if NamespaceName(names, n) in three || n.namespaceUid in three
                               then items[n].direct + items[n].network + items[n].control else 0.0
  {
    var rs := RequestsOf(xs, nodes, names);
    assert Carries(items[n], n, rs, rs, o, IdleAt(rs, o, NodeHours(rs), n));
    SystemOfNamespace(xs, nodes, names, o, n);
    SystemNameIs(NamespaceName(names, n));
    SystemNameIs(n.namespaceUid);
  }

  lemma SystemNameIs(name: string)
    ensures SystemName(name) <==> name in ["kube-system", "kube-public", "kube-node-lease"]
  {
  }

  /** The system column of the query, which looks at the name alone. */
  function SqlSystem(names: NamespaceTable, n: NamespaceHour, item: NamespaceCost): real {
    if SystemName(NamespaceName(names, n)) then item.direct + item.network + item.control else 0.0
  }

  lemma DirectIsPositive(rs: seq<Request>, o: Options, r: Request)
    requires r in rs && o.node > 0.0
    ensures Direct(rs, o, r) >= 0.0 && (Counted(r) ==> Direct(rs, o, r) > 0.0)
  {
    BilledExactly(rs, r);
    if Counted(r) { PositiveRatio(r.cpu, Denominator(rs, NodeOf(r)), o.node); }
  }

  lemma PositiveRatio(a: nat, b: nat, price: real)
    requires a > 0 && b > 0 && price >= 0.0
    ensures Price(price, Ratio(a, b)) >= 0.0 && (price > 0.0 ==> Price(price, Ratio(a, b)) > 0.0)
  {
    assert Ratio(a, b) > 0.0;
  }

  lemma OthersAreNotNegative(rs: seq<Request>, o: Options, r: Request)
    requires r in rs && o.controlPlane >= 0.0 && o.network >= 0.0
    ensures Network(o, r) >= 0.0 && Control(rs, o, r) >= 0.0
  {
    BilledExactly(rs, r);
    if Counted(r) {
      PositiveRatio(r.cpu, ClusterTotal(rs, ClusterOf(r)), o.controlPlane);
      assert GiB(r.bytes) >= 0.0;
    }
  }

  /** A namespace-hour with requests costs something: normalized node prices are positive. */
  lemma ChargedCosts(rs: seq<Request>, given: Options, n: NamespaceHour)
    requires n in NamespaceHours(rs)
    ensures var o := Normalize(given);
            SumIn(rs, NamespaceOf, {n}, DirectBy(rs, o)) + SumIn(rs, NamespaceOf, {n}, NetworkBy(o))
            + SumIn(rs, NamespaceOf, {n}, ControlBy(rs, o)) > 0.0
  {
    var o := Normalize(given);
    forall r | r in rs ensures DirectBy(rs, o)(r) >= 0.0 && (Counted(r) ==> DirectBy(rs, o)(r) > 0.0) {
      DirectIsPositive(rs, o, r);
    }
    forall r | r in rs ensures NetworkBy(o)(r) >= 0.0 && ControlBy(rs, o)(r) >= 0.0 { OthersAreNotNegative(rs, o, r); }
    var r :| r in rs && Counted(r) && NamespaceOf(r) == n;
    assert NamespaceOf(r) in {n};
    SumInPositive(rs, NamespaceOf, {n}, DirectBy(rs, o));
    SumInPositive(rs, NamespaceOf, {n}, NetworkBy(o));
    SumInPositive(rs, NamespaceOf, {n}, ControlBy(rs, o));
  }

  /** The engine classifies by name or UID, the query by name alone: for every price list they
      agree on the system cost of an item exactly when its UID is not a system name or its name is
      one too. */
  lemma SystemCostAgreesExactlyWhen(xs: seq<Metric>, nodes: NodeTable, names: NamespaceTable, given: Options,
                                    items: map<NamespaceHour, NamespaceCost>, n: NamespaceHour)
    requires IsAllocation(items, RequestsOf(xs, nodes, names), Normalize(given)) && n in items
    ensures items[n].system == SqlSystem(names, n, items[n]) <==>
            SystemName(NamespaceName(names, n)) || !SystemName(n.namespaceUid)
  {
    var rs, o := RequestsOf(xs, nodes, names), Normalize(given);
    assert Carries(items[n], n, rs, rs, o, IdleAt(rs, o, NodeHours(rs), n));
    SystemOfNamespace(xs, nodes, names, o, n);
    if SystemName(n.namespaceUid) { ChargedCosts(rs, given, n); }
  }

  const RENAMED := [Metric("t", "c", "node", "kube-system", 0, 1, 0, 0)]
  const NODES: NodeTable := map[("t", "c", "node") := 1]
  const NAMES: NamespaceTable := map[("t", "c", "kube-system") := "apps"]

  /** They do disagree: one row of a namespace whose UID reads "kube-system" and whose name does not. */
  lemma SystemCostDisagrees(given: Options, items: map<NamespaceHour, NamespaceCost>)
    requires IsAllocation(items, RequestsOf(RENAMED, NODES, NAMES), Normalize(given))
    ensures var n := NamespaceHour("t", "c", "kube-system", 0);
            Known(RENAMED, NODES) && n in items && items[n].system != SqlSystem(NAMES, n, items[n])
  {
    var n, m := NamespaceHour("t", "c", "kube-system", 0), RENAMED[0];
    RequestIn(RENAMED, NODES, NAMES, m);
    assert NamespaceOf(AsRequest(NODES, NAMES)(m)) == n;
    SystemCostAgreesExactlyWhen(RENAMED, NODES, NAMES, given, items, n);
  }
}
